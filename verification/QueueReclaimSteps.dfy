/** The steps of a pop that read the value and reclaim the block. */
module QueueReclaimSteps {
  import opened Prelude
  import opened PackedIndex
  import opened QueueModel
  import opened QueueInvariant
  import opened QueueFrames
  import opened QueueSteps
  import opened QueuePushSteps
  import opened QueueInstallSteps

  /** The reader of a slot gets the pushed value. */
  lemma ReadsPushedValue(s: State, t: Tid, pc: PC)
    requires Writes(s) && AtOrBefore(s.mem.head.pos, s.mem.tail.pos) && pc.PopRead? && ThreadOk(s, t, pc)
    ensures SlotOf(s, pc.lap, pc.off).value.Some?
    ensures Result(s, Pos(pc.lap, pc.off), SlotOf(s, pc.lap, pc.off).value.value)
  {
    assert WriteOk(s, pc.lap, pc.off);
  }

  lemma OnPopReadInner(s: State, t: Tid, spurious: bool)
    requires Inv(s) && t in s.threads && s.threads[t].PopRead? && s.threads[t].off + 1 < BLOCK_CAP
    ensures Inv(RunThread(s, t, spurious))
  {
    var pc := s.threads[t];
    assert ThreadOk(s, t, pc);
    ReaderBlockLive(s, t, pc.lap, pc.off, pc.blk);
    ReadsPushedValue(s, t, pc);
    QuietRun(s, t, spurious);
  }

  // ----- steps that hand reclamation of lap `k` on, touching no slot -----

  ghost predicate ReclaimStep(s: State, s': State, t: Tid, k: nat, r: Reclaim) {
    && OnlyMoved(s, s', t)
    && k < |s.hist.reclaim| && r != NotStarted && r != Freed && s.hist.reclaim[k] != Freed
    && (s.hist.reclaim[k].Running? ==> s.hist.reclaim[k].t == t)
    && (s.hist.reclaim[k].NotStarted? ==>
          Pos(k, BLOCK_CAP - 1) in s.hist.popBy && s.hist.popBy[Pos(k, BLOCK_CAP - 1)] == t)
    && s'.mem == s.mem && s'.hist == s.hist.(reclaim := s.hist.reclaim[k := r])
    && RoleAt(s', t) == RoleAt(s, t).(stage := RoleAt(s', t).stage)
    && (RoleAt(s, t).stage.Plain? || RoleAt(s, t).stage.Reclaims?)
  }

  /** No other lap is being reclaimed by this thread. */
  ghost predicate ReclaimsOnly(s: State, t: Tid, k: nat) {
    forall j :: 0 <= j < |s.hist.reclaim| && j != k && s.hist.reclaim[j].Running? ==> s.hist.reclaim[j].t != t
  }

  lemma ReclaimParts(s: State, s': State, t: Tid, k: nat, r: Reclaim)
    requires Inv(s) && ReclaimStep(s, s', t, k, r)
    ensures Blocks(s') && Ends(s') && Links(s') && Writes(s') && Reads(s')
  {
    SameBlocks(s, s');
    SameRoles(s, s', t);
    KeepBlocks(s, s');
    KeepEnds(s, s');
    KeepLinks(s, s');
    KeepWrites(s, s');
    KeepReads(s, s');
  }

  lemma ReclaimOthers(s: State, s': State, t: Tid, k: nat, r: Reclaim)
    requires Blocks(s) && Ends(s) && Reclamation(s) && ReclaimStep(s, s', t, k, r) && ReclaimsOnly(s, t, k)
    requires ReclaimOk(s', k)
    ensures Reclamation(s') && Rely(s, s', t)
  {
    SameBlocks(s, s');
    SameRoles(s, s', t);
    forall j | 0 <= j < |s'.hist.reclaim| ensures ReclaimOk(s', j) {
      assert ReclaimOk(s, j);
      if j != k { KeepReclaim(s, s', j); }
    }
    assert RelyWords(s, s', t) && RelyHistory(s, s', t);
  }

  /** A thread reclaims at most the lap its program point says. */
  lemma OneLapAtATime(s: State, t: Tid, k: nat)
    requires Reclamation(s) && (RoleAt(s, t).stage.Reclaims? ==> RoleAt(s, t).stage.k == k)
    ensures ReclaimsOnly(s, t, k)
  {
    forall j | 0 <= j < |s.hist.reclaim| && j != k && s.hist.reclaim[j].Running? ensures s.hist.reclaim[j].t != t {
      assert ReclaimOk(s, j);
    }
  }

  lemma ReclaimKeeps(s: State, s': State, t: Tid, k: nat, r: Reclaim)
    requires Inv(s) && ReclaimStep(s, s', t, k, r) && ReclaimOk(s', k) && !s'.fault
    requires RoleAt(s, t).stage.Reclaims? ==> RoleAt(s, t).stage.k == k
    requires t in s'.threads ==> ThreadOk(s', t, s'.threads[t])
    ensures Inv(s')
  {
    OneLapAtATime(s, t, k);
    ReclaimParts(s, s', t, k, r);
    ReclaimOthers(s, s', t, k, r);
    OthersStable(s, s', t);
  }

  /** The reader of the last slot starts reclaiming the block. */
  lemma OnPopReadLast(s: State, t: Tid, spurious: bool)
    requires Inv(s) && t in s.threads && s.threads[t].PopRead? && s.threads[t].off + 1 == BLOCK_CAP
    ensures Inv(RunThread(s, t, spurious))
  {
    var pc, s' := s.threads[t], RunThread(s, t, spurious);
    ReadLastRuns(s, t, spurious);
    ReadLastThread(s, s', t);
    ReclaimKeeps(s, s', t, pc.lap, Running(t, 0));
  }

  lemma ReadLastRuns(s: State, t: Tid, spurious: bool)
    requires Inv(s) && t in s.threads && s.threads[t].PopRead? && s.threads[t].off + 1 == BLOCK_CAP
    ensures var s' := RunThread(s, t, spurious); ReclaimStep(s, s', t, s.threads[t].lap, Running(t, 0)) && !s'.fault
    ensures RunThread(s, t, spurious) == RunThread(s, t, false) && !RoleAt(s, t).stage.Reclaims?
  {
    var pc := s.threads[t];
    assert ThreadOk(s, t, pc);
    ReaderBlockLive(s, t, pc.lap, pc.off, pc.blk);
    ReadsPushedValue(s, t, pc);
    RunMovesOne(s, t, spurious);
  }

  lemma ReadLastThread(s: State, s': State, t: Tid)
    requires Inv(s) && t in s.threads && s.threads[t].PopRead? && s.threads[t].off + 1 == BLOCK_CAP
    requires s' == RunThread(s, t, false) && ReclaimStep(s, s', t, s.threads[t].lap, Running(t, 0))
    ensures ReclaimOk(s', s.threads[t].lap) && ThreadOk(s', t, s'.threads[t])
  {
    var pc := s.threads[t];
    assert ThreadOk(s, t, pc) && ReclaimOk(s, pc.lap);
    ReadsPushedValue(s, t, pc);
    SameBlocks(s, s');
  }

  /** A block is not freed before its reclaimer is done. */
  lemma ReclaimerBlockLive(s: State, t: Tid, k: nat, i: nat)
    requires Blocks(s) && k < |s.hist.reclaim| && s.hist.reclaim[k] == Running(t, i)
    ensures Live(s.mem, s.hist.chain[k])
  {
  }

  lemma OnDestroyFound(s: State, t: Tid, spurious: bool)
    requires Inv(s) && t in s.threads && s.threads[t].Destroy? && s.threads[t].i < BLOCK_CAP - 1
    requires SlotOf(s, s.threads[t].lap, s.threads[t].i).read
    ensures Inv(RunThread(s, t, spurious))
  {
    var pc, s' := s.threads[t], RunThread(s, t, spurious);
    FoundRuns(s, t, spurious);
    DestroyFoundThread(s, s', t);
    ReclaimKeeps(s, s', t, pc.lap, Running(t, pc.i + 1));
  }

  lemma FoundRuns(s: State, t: Tid, spurious: bool)
    requires Inv(s) && t in s.threads && s.threads[t].Destroy? && s.threads[t].i < BLOCK_CAP - 1
    requires SlotOf(s, s.threads[t].lap, s.threads[t].i).read
    ensures var s' := RunThread(s, t, spurious);
            ReclaimStep(s, s', t, s.threads[t].lap, Running(t, s.threads[t].i + 1)) && !s'.fault
    ensures RunThread(s, t, spurious) == RunThread(s, t, false)
    ensures RoleAt(s, t).stage == Reclaims(s.threads[t].lap, s.threads[t].i)
  {
    var pc := s.threads[t];
    assert ThreadOk(s, t, pc);
    ReclaimerBlockLive(s, t, pc.lap, pc.i);
    RunMovesOne(s, t, spurious);
  }

  lemma DestroyFoundThread(s: State, s': State, t: Tid)
    requires Inv(s) && t in s.threads && s.threads[t].Destroy? && s.threads[t].i < BLOCK_CAP - 1
    requires SlotOf(s, s.threads[t].lap, s.threads[t].i).read
    requires s' == RunThread(s, t, false) && ReclaimStep(s, s', t, s.threads[t].lap, Running(t, s.threads[t].i + 1))
    ensures ReclaimOk(s', s.threads[t].lap) && ThreadOk(s', t, s'.threads[t])
  {
    var pc := s.threads[t];
    assert ThreadOk(s, t, pc);
    SameBlocks(s, s');
    FoundReclaims(s, s', t, pc);
  }

  lemma FoundReclaims(s: State, s': State, t: Tid, pc: PC)
    requires Blocks(s) && Reclamation(s) && pc.Destroy? && pc.i < BLOCK_CAP - 1 && SlotOf(s, pc.lap, pc.i).read
    requires ReclaimStep(s, s', t, pc.lap, Running(t, pc.i + 1)) && s.hist.reclaim[pc.lap] == Running(t, pc.i)
    requires RoleAt(s', t).stage == Reclaims(pc.lap, pc.i + 1)
    ensures ReclaimOk(s', pc.lap)
  {
    SameBlocks(s, s');
    assert ReclaimOk(s, pc.lap);
  }

  lemma OnDestroyAsk(s: State, t: Tid, spurious: bool)
    requires Inv(s) && t in s.threads && s.threads[t].Destroy? && s.threads[t].i < BLOCK_CAP - 1
    requires !SlotOf(s, s.threads[t].lap, s.threads[t].i).read
    ensures Inv(RunThread(s, t, spurious))
  {
    var pc := s.threads[t];
    assert ThreadOk(s, t, pc);
    ReclaimerBlockLive(s, t, pc.lap, pc.i);
    QuietRun(s, t, spurious);
  }

  // ----- steps that set READ or DESTROY in one slot, and may end the pop -----

  /** `slot` replaces slot `o` of lap `k`; reclamation of the lap becomes `r`; the position `p` the
      thread has read may be reported as returned. */
  ghost predicate BitStep(s: State, s': State, t: Tid, k: nat, o: nat, slot: Slot, r: Reclaim, p: Pos, res: Value) {
    && OnlyMoved(s, s', t) && !s'.fault
    && k < |s.hist.reclaim| == |s.hist.chain| && o < BLOCK_CAP - 1 && s.hist.chain[k] < |s.mem.blocks|
    && Before(Pos(k, o), s.mem.tail.pos) && (slot.read ==> slot.write)
    && slot.write == SlotOf(s, k, o).write && slot.value == SlotOf(s, k, o).value
    && (SlotOf(s, k, o).read ==> slot.read)
    && (slot.read != SlotOf(s, k, o).read ==> p == Pos(k, o))
    && OwnsRead(s, t, p, s.hist.chain[k]) && p.lap == k && Result(s, p, res)
    && RoleAt(s, t).spare.None? && RoleAt(s, t).write.None? && RoleAt(s, t).read == Some(p)
    && (RoleAt(s, t).stage.Plain? || (RoleAt(s, t).stage.Reclaims? && RoleAt(s, t).stage.k == k))
    && s'.mem == SetSlot(s.mem, s.hist.chain[k], o, slot)
    && s'.hist.reclaim == s.hist.reclaim[k := r] && r != Freed && s.hist.reclaim[k] != Freed
    && (r == NotStarted <==> s.hist.reclaim[k] == NotStarted)
    && (s.hist.reclaim[k].Running? && r != s.hist.reclaim[k] ==> s.hist.reclaim[k].t == t)
    && (if t in s'.threads
        then s'.hist == s.hist.(reclaim := s'.hist.reclaim) &&
             RoleAt(s', t) == RoleAt(s, t).(stage := RoleAt(s', t).stage)
        else s'.hist == s.hist.(reclaim := s'.hist.reclaim, returned := s.hist.returned[p := res]))
  }

  /** What a finished read must have left behind. */
  ghost predicate ReadDone(s': State, p: Pos) {
    if p.off + 1 == BLOCK_CAP then p.lap < |s'.hist.reclaim| && s'.hist.reclaim[p.lap] != NotStarted
    else SlotOf(s', p.lap, p.off).read
  }

  lemma BitParts(s: State, s': State, t: Tid, k: nat, o: nat, slot: Slot, r: Reclaim, p: Pos, res: Value)
    requires Inv(s) && BitStep(s, s', t, k, o, slot, r, p, res)
    ensures Blocks(s') && Ends(s') && Links(s') && Writes(s')
  {
    BitEnds(s, s', t, k, o, slot, r, p, res);
    BitWrites(s, s', t, k, o, slot, r, p, res);
  }

  lemma BitEnds(s: State, s': State, t: Tid, k: nat, o: nat, slot: Slot, r: Reclaim, p: Pos, res: Value)
    requires Blocks(s) && Ends(s) && Links(s) && BitStep(s, s', t, k, o, slot, r, p, res)
    ensures Blocks(s') && Ends(s') && Links(s')
  {
    BitBlocks(s, s', t, k, o, slot, r, p, res);
    SetSlotAt(s, s', k, o, slot);
    SameRoles(s, s', t);
    KeepEnds(s, s');
    KeepLinks(s, s');
  }

  lemma BitBlocks(s: State, s': State, t: Tid, k: nat, o: nat, slot: Slot, r: Reclaim, p: Pos, res: Value)
    requires Blocks(s) && BitStep(s, s', t, k, o, slot, r, p, res)
    ensures Blocks(s')
  {
    SetSlotAt(s, s', k, o, slot);
    SameRoles(s, s', t);
    KeepBlocks(s, s');
  }

  lemma BitWrites(s: State, s': State, t: Tid, k: nat, o: nat, slot: Slot, r: Reclaim, p: Pos, res: Value)
    requires Blocks(s) && Writes(s) && BitStep(s, s', t, k, o, slot, r, p, res)
    ensures Writes(s')
  {
    SetSlotAt(s, s', k, o, slot);
    SameRoles(s, s', t);
    KeepWrites(s, s');
  }

  lemma BitReads(s: State, s': State, t: Tid, k: nat, o: nat, slot: Slot, r: Reclaim, p: Pos, res: Value)
    requires Blocks(s) && Reads(s) && BitStep(s, s', t, k, o, slot, r, p, res)
    requires t !in s'.threads ==> ReadDone(s', p)
    ensures Reads(s')
  {
    SetSlotAt(s, s', k, o, slot);
    SameRoles(s, s', t);
    forall j, i | 0 <= j < |s'.hist.chain| && 0 <= i < BLOCK_CAP ensures ReadOk(s', j, i) {
      assert ReadOk(s, j, i);
    }
  }

  lemma BitOthers(s: State, s': State, t: Tid, k: nat, o: nat, slot: Slot, r: Reclaim, p: Pos, res: Value)
    requires Blocks(s) && Reclamation(s) && BitStep(s, s', t, k, o, slot, r, p, res)
    requires ReclaimOk(s', k)
    ensures Reclamation(s')
  {
    SetSlotAt(s, s', k, o, slot);
    SameRoles(s, s', t);
    OneLapAtATime(s, t, k);
    forall j | 0 <= j < |s'.hist.reclaim| ensures ReclaimOk(s', j) {
      assert ReclaimOk(s, j);
      if j != k { KeepReclaim(s, s', j); }
    }
  }

  lemma BitRely(s: State, s': State, t: Tid, k: nat, o: nat, slot: Slot, r: Reclaim, p: Pos, res: Value)
    requires Blocks(s) && BitStep(s, s', t, k, o, slot, r, p, res)
    ensures Rely(s, s', t)
  {
    SetSlotAt(s, s', k, o, slot);
    assert RelySlot(s, s', t, k, o) && RelyHistory(s, s', t);
    RelyOnSlot(s, s', t, k, o);
  }

  lemma BitKeeps(s: State, s': State, t: Tid, k: nat, o: nat, slot: Slot, r: Reclaim, p: Pos, res: Value)
    requires Inv(s) && BitStep(s, s', t, k, o, slot, r, p, res) && ReclaimOk(s', k)
    requires t !in s'.threads ==> ReadDone(s', p)
    requires t in s'.threads ==> ThreadOk(s', t, s'.threads[t])
    ensures Inv(s')
  {
    BitParts(s, s', t, k, o, slot, r, p, res);
    BitReads(s, s', t, k, o, slot, r, p, res);
    BitOthers(s, s', t, k, o, slot, r, p, res);
    BitRely(s, s', t, k, o, slot, r, p, res);
    OthersStable(s, s', t);
  }

  /** DESTROY on an unread slot means exactly that reclamation waits there. */
  lemma DestroyMeansParked(s: State, k: nat, o: nat)
    requires Reclamation(s) && k < |s.hist.reclaim| && o < BLOCK_CAP - 1 && !SlotOf(s, k, o).read
    ensures SlotOf(s, k, o).destroy <==> s.hist.reclaim[k] == Parked(o)
  {
    assert ReclaimOk(s, k);
  }

  /** What becomes of the lap when its slot `o` is marked READ, and when it is marked DESTROY. */
  function AfterRead(s: State, t: Tid, k: nat, o: nat): Reclaim
    requires k < |s.hist.reclaim|
  {
    if SlotOf(s, k, o).destroy then Running(t, o + 1) else s.hist.reclaim[k]
  }

  function AfterDestroy(s: State, t: Tid, k: nat, o: nat): Reclaim {
    if SlotOf(s, k, o).read then Running(t, o + 1) else Parked(o)
  }

  ghost predicate MarkReadStep(s: State, s': State, t: Tid, pc: PC)
    requires pc.PopMarkRead?
  {
    pc.lap < |s.hist.reclaim| &&
    BitStep(s, s', t, pc.lap, pc.off, SlotOf(s, pc.lap, pc.off).(read := true),
            AfterRead(s, t, pc.lap, pc.off), Pos(pc.lap, pc.off), pc.res)
  }

  lemma MarkReadRuns(s: State, t: Tid, spurious: bool)
    requires Blocks(s) && Ends(s) && Reclamation(s) && !s.fault
    requires t in s.threads && s.threads[t].PopMarkRead? && ThreadOk(s, t, s.threads[t])
    ensures MarkReadStep(s, RunThread(s, t, spurious), t, s.threads[t])
  {
    var pc := s.threads[t];
    ReaderBlockLive(s, t, pc.lap, pc.off, pc.blk);
    DestroyMeansParked(s, pc.lap, pc.off);
    RunMovesOne(s, t, spurious);
  }

  lemma MarkReadThread(s: State, t: Tid, s': State)
    requires Blocks(s) && Reclamation(s) && t in s.threads && s.threads[t].PopMarkRead?
    requires ThreadOk(s, t, s.threads[t]) && s' == RunThread(s, t, false)
    requires MarkReadStep(s, s', t, s.threads[t])
    ensures t in s'.threads ==> ThreadOk(s', t, s'.threads[t])
    ensures ReadDone(s', Pos(s.threads[t].lap, s.threads[t].off))
  {
    var pc := s.threads[t];
    DestroyMeansParked(s, pc.lap, pc.off);
    SetSlotAt(s, s', pc.lap, pc.off, SlotOf(s, pc.lap, pc.off).(read := true));
  }

  lemma MarkReadReclaim(s: State, t: Tid, s': State)
    requires Blocks(s) && Reclamation(s) && t in s.threads && s.threads[t].PopMarkRead?
    requires ThreadOk(s, t, s.threads[t]) && s' == RunThread(s, t, false)
    requires MarkReadStep(s, s', t, s.threads[t])
    ensures ReclaimOk(s', s.threads[t].lap)
  {
    var pc := s.threads[t];
    assert ReclaimOk(s, pc.lap);
    SetSlotAt(s, s', pc.lap, pc.off, SlotOf(s, pc.lap, pc.off).(read := true));
  }

  lemma OnMarkRead(s: State, t: Tid, spurious: bool)
    requires Inv(s) && t in s.threads && s.threads[t].PopMarkRead?
    ensures Inv(RunThread(s, t, spurious))
  {
    var pc, s' := s.threads[t], RunThread(s, t, spurious);
    assert ThreadOk(s, t, pc);
    MarkReadRuns(s, t, spurious);
    MarkReadThread(s, t, s');
    MarkReadReclaim(s, t, s');
    BitKeeps(s, s', t, pc.lap, pc.off, SlotOf(s, pc.lap, pc.off).(read := true),
             AfterRead(s, t, pc.lap, pc.off), Pos(pc.lap, pc.off), pc.res);
  }

  ghost predicate DestroyMarkStep(s: State, s': State, t: Tid, pc: PC)
    requires pc.DestroyMark?
  {
    pc.lap < |s.hist.reclaim| &&
    BitStep(s, s', t, pc.lap, pc.at, SlotOf(s, pc.lap, pc.at).(destroy := true),
            AfterDestroy(s, t, pc.lap, pc.at), Pos(pc.lap, pc.off), pc.res)
  }

  lemma DestroyMarkRuns(s: State, t: Tid, spurious: bool)
    requires Blocks(s) && Ends(s) && Reads(s) && Reclamation(s) && !s.fault
    requires t in s.threads && s.threads[t].DestroyMark? && ThreadOk(s, t, s.threads[t])
    ensures DestroyMarkStep(s, RunThread(s, t, spurious), t, s.threads[t])
  {
    var pc := s.threads[t];
    assert ReclaimOk(s, pc.lap) && ReadOk(s, pc.lap, pc.at);
    if SlotOf(s, pc.lap, pc.at).read { MarkFindsRead(s, t, spurious); } else { MarkParks(s, t, spurious); }
  }

  lemma MarkFindsRead(s: State, t: Tid, spurious: bool)
    requires Blocks(s) && Ends(s) && !s.fault
    requires t in s.threads && s.threads[t].DestroyMark? && ThreadOk(s, t, s.threads[t])
    requires ReadOk(s, s.threads[t].lap, s.threads[t].at) && SlotOf(s, s.threads[t].lap, s.threads[t].at).read
    ensures DestroyMarkStep(s, RunThread(s, t, spurious), t, s.threads[t])
  {
    ReclaimerBlockLive(s, t, s.threads[t].lap, s.threads[t].at);
    RunMovesOne(s, t, spurious);
  }

  lemma MarkParks(s: State, t: Tid, spurious: bool)
    requires Blocks(s) && Ends(s) && !s.fault
    requires t in s.threads && s.threads[t].DestroyMark? && ThreadOk(s, t, s.threads[t])
    requires ReclaimOk(s, s.threads[t].lap) && !SlotOf(s, s.threads[t].lap, s.threads[t].at).read
    ensures DestroyMarkStep(s, RunThread(s, t, spurious), t, s.threads[t])
  {
    ReclaimerBlockLive(s, t, s.threads[t].lap, s.threads[t].at);
    RunMovesOne(s, t, spurious);
  }

  lemma DestroyMarkThread(s: State, t: Tid, s': State)
    requires Blocks(s) && Reclamation(s) && t in s.threads && s.threads[t].DestroyMark?
    requires ThreadOk(s, t, s.threads[t]) && s' == RunThread(s, t, false)
    requires DestroyMarkStep(s, s', t, s.threads[t])
    ensures ReclaimOk(s', s.threads[t].lap) && (t in s'.threads ==> ThreadOk(s', t, s'.threads[t]))
    ensures ReadDone(s', Pos(s.threads[t].lap, s.threads[t].off))
  {
    var pc := s.threads[t];
    assert ReclaimOk(s, pc.lap);
    SetSlotAt(s, s', pc.lap, pc.at, SlotOf(s, pc.lap, pc.at).(destroy := true));
  }

  lemma OnDestroyMark(s: State, t: Tid, spurious: bool)
    requires Inv(s) && t in s.threads && s.threads[t].DestroyMark?
    ensures Inv(RunThread(s, t, spurious))
  {
    var pc, s' := s.threads[t], RunThread(s, t, spurious);
    assert ThreadOk(s, t, pc);
    DestroyMarkRuns(s, t, spurious);
    DestroyMarkThread(s, t, s');
    BitKeeps(s, s', t, pc.lap, pc.at, SlotOf(s, pc.lap, pc.at).(destroy := true),
             AfterDestroy(s, t, pc.lap, pc.at), Pos(pc.lap, pc.off), pc.res);
  }

  // ----- the block is freed -----

  lemma OnDestroyFree(s: State, t: Tid, spurious: bool)
    requires Inv(s) && t in s.threads && s.threads[t].Destroy? && s.threads[t].i >= BLOCK_CAP - 1
    ensures Inv(RunThread(s, t, spurious))
  {
    var s' := RunThread(s, t, spurious);
    FreeRuns(s, t, spurious);
    FreeParts(s, s', t, s.threads[t]);
    FreeOthers(s, s', t, s.threads[t]);
    OthersStable(s, s', t);
  }

  ghost predicate FreeStep(s: State, s': State, t: Tid, pc: PC)
    requires pc.Destroy?
  {
    var p := Pos(pc.lap, pc.off);
    && OnlyMoved(s, s', t) && t !in s'.threads && !s'.fault
    && OwnsRead(s, t, p, pc.blk) && Result(s, p, pc.res) && ReadDone(s, p)
    && pc.lap < |s.hist.reclaim| && s.hist.reclaim[pc.lap] == Running(t, BLOCK_CAP - 1)
    && RoleAt(s, t) == Role(None, None, Some(p), Reclaims(pc.lap, BLOCK_CAP - 1))
    && s'.mem == Free(s.mem, pc.blk)
    && s'.hist == s.hist.(reclaim := s.hist.reclaim[pc.lap := Freed], returned := s.hist.returned[p := pc.res])
  }

  lemma FreeRuns(s: State, t: Tid, spurious: bool)
    requires Inv(s) && t in s.threads && s.threads[t].Destroy? && s.threads[t].i >= BLOCK_CAP - 1
    ensures FreeStep(s, RunThread(s, t, spurious), t, s.threads[t])
  {
    var pc := s.threads[t];
    assert ThreadOk(s, t, pc) && ReclaimOk(s, pc.lap);
    ReclaimerBlockLive(s, t, pc.lap, pc.i);
    RunMovesOne(s, t, spurious);
  }

  lemma FreeParts(s: State, s': State, t: Tid, pc: PC)
    requires Inv(s) && pc.Destroy? && FreeStep(s, s', t, pc)
    ensures Blocks(s') && Ends(s') && Links(s') && Writes(s')
  {
    FreeBlocks(s, s', t, pc);
    SameBlocks(s, s');
    SameRoles(s, s', t);
    KeepEnds(s, s');
    KeepLinks(s, s');
    KeepWrites(s, s');
  }

  lemma FreeBlocks(s: State, s': State, t: Tid, pc: PC)
    requires Blocks(s) && pc.Destroy? && FreeStep(s, s', t, pc)
    ensures Blocks(s')
  {
    SameBlocks(s, s');
    SameRoles(s, s', t);
  }

  lemma FreeOthers(s: State, s': State, t: Tid, pc: PC)
    requires Blocks(s) && Ends(s) && Reads(s) && Reclamation(s) && pc.Destroy? && FreeStep(s, s', t, pc)
    ensures Reads(s') && Reclamation(s') && Rely(s, s', t)
  {
    SameBlocks(s, s');
    SameRoles(s, s', t);
    OneLapAtATime(s, t, pc.lap);
    forall j | 0 <= j < |s'.hist.reclaim| ensures ReclaimOk(s', j) {
      assert ReclaimOk(s, j);
      if j != pc.lap { KeepReclaim(s, s', j); }
    }
    forall j, i | 0 <= j < |s'.hist.chain| && 0 <= i < BLOCK_CAP ensures ReadOk(s', j, i) {
      assert ReadOk(s, j, i);
    }
    assert RelyWords(s, s', t) && RelyHistory(s, s', t);
  }
}
