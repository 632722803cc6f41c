/** The steps of a push that installs the next block, and the steps that write the value. */
module QueueInstallSteps {
  import opened Prelude
  import opened PackedIndex
  import opened QueueModel
  import opened QueueInvariant
  import opened QueueFrames
  import opened QueueSteps
  import opened QueuePushSteps

  // ----- the next block goes to the tail -----

  lemma OnInstallBlock(s: State, t: Tid, spurious: bool)
    requires Inv(s) && t in s.threads && s.threads[t].PushInstallBlock?
    ensures Inv(RunThread(s, t, spurious))
  {
    var pc, s' := s.threads[t], RunThread(s, t, spurious);
    InstallBlockRuns(s, t, spurious);
    InstallBlockBlocks(s, s', t, pc.lap, pc.next);
    InstallBlockParts(s, s', t, pc.lap, pc.next);
    InstallBlockSlots(s, s', t, pc.lap, pc.next);
    InstallBlockRely(s, s', t, pc.lap, pc.next);
    InstallBlockThread(s, s', t, pc.lap, pc.next);
    OthersStable(s, s', t);
  }

  lemma InstallBlockRuns(s: State, t: Tid, spurious: bool)
    requires Inv(s) && t in s.threads && s.threads[t].PushInstallBlock?
    ensures var s' := RunThread(s, t, spurious);
            InstallBlockStep(s, s', t, s.threads[t].lap, s.threads[t].next) && !s'.fault && t in s'.threads
    ensures RunThread(s, t, spurious) == RunThread(s, t, false)
  {
    var pc := s.threads[t];
    assert ThreadOk(s, t, pc);
    assert WriteOk(s, pc.lap, BLOCK_CAP - 1);
    RunMovesOne(s, t, spurious);
  }

  lemma InstallBlockThread(s: State, s': State, t: Tid, k: nat, b: Bid)
    requires Inv(s) && t in s.threads && s.threads[t].PushInstallBlock? && InstallBlockStep(s, s', t, k, b)
    requires s' == RunThread(s, t, false) && k == s.threads[t].lap && b == s.threads[t].next
    ensures ThreadOk(s', t, s'.threads[t])
  {
    assert ThreadOk(s, t, s.threads[t]);
    SameBlocks(s, s');
  }

  ghost predicate InstallBlockStep(s: State, s': State, t: Tid, k: nat, b: Bid) {
    var p := Pos(k, BLOCK_CAP - 1);
    && OnlyMoved(s, s', t)
    && |s.hist.chain| == k + 1 && b < |s.hist.home| && s.hist.home[b] == SpareOf(t)
    && s.mem.tail.pos == Pos(k, BLOCK_CAP) && p in s.hist.pushBy && s.hist.pushBy[p] == t
    && RoleAt(s, t) == Role(Some(b), Some(p), None, InstallsBlock(k))
    && RoleAt(s', t) == Role(None, Some(p), None, InstallsIndex(k))
    && s'.mem == s.mem.(tailBlock := Some(b))
    && s'.hist == s.hist.(chain := s.hist.chain + [b], reclaim := s.hist.reclaim + [NotStarted],
                          home := s.hist.home[b := OfLap(k + 1)])
  }

  lemma InstallBlockBlocks(s: State, s': State, t: Tid, k: nat, b: Bid)
    requires Blocks(s) && InstallBlockStep(s, s', t, k, b)
    ensures Blocks(s')
  {
    SameRoles(s, s', t);
  }

  lemma InstallBlockRely(s: State, s': State, t: Tid, k: nat, b: Bid)
    requires Inv(s) && InstallBlockStep(s, s', t, k, b)
    ensures Rely(s, s', t)
  {
    SameBlocks(s, s');
    assert RelyWords(s, s', t) && RelyHistory(s, s', t);
  }

  lemma InstallBlockParts(s: State, s': State, t: Tid, k: nat, b: Bid)
    requires Inv(s) && InstallBlockStep(s, s', t, k, b)
    ensures Ends(s') && Links(s') && Reclamation(s')
  {
    InstallBlockLinks(s, s', t, k, b);
    InstallBlockReclaims(s, s', t, k, b);
  }

  lemma InstallBlockLinks(s: State, s': State, t: Tid, k: nat, b: Bid)
    requires Blocks(s) && Ends(s) && Links(s) && InstallBlockStep(s, s', t, k, b)
    ensures Ends(s') && Links(s')
  {
    SameBlocks(s, s');
    SameRoles(s, s', t);
    assert NextOf(s', k + 1) == None;
    forall j | 0 <= j < |s'.hist.chain| ensures LinkOk(s', j) {
      if j <= k { assert LinkOk(s, j); }
    }
  }

  lemma InstallBlockReclaims(s: State, s': State, t: Tid, k: nat, b: Bid)
    requires Blocks(s) && Ends(s) && Reclamation(s) && InstallBlockStep(s, s', t, k, b)
    ensures Reclamation(s')
  {
    SameBlocks(s, s');
    SameRoles(s, s', t);
    var n := k + 1;
    assert forall o :: 0 <= o < BLOCK_CAP ==> SlotOf(s', n, o) == EMPTY_SLOT;
    forall j | 0 <= j < |s'.hist.reclaim| ensures ReclaimOk(s', j) {
      if j <= k { assert ReclaimOk(s, j); KeepReclaim(s, s', j); }
    }
  }

  lemma InstallBlockSlots(s: State, s': State, t: Tid, k: nat, b: Bid)
    requires Inv(s) && InstallBlockStep(s, s', t, k, b)
    ensures Writes(s') && Reads(s')
  {
    SameBlocks(s, s');
    SameRoles(s, s', t);
    var n := k + 1;
    assert forall o :: 0 <= o < BLOCK_CAP ==> SlotOf(s', n, o) == EMPTY_SLOT;
    forall j, o | 0 <= j < |s'.hist.chain| && 0 <= o < BLOCK_CAP ensures WriteOk(s', j, o) && ReadOk(s', j, o) {
      if j <= k { assert WriteOk(s, j, o) && ReadOk(s, j, o); }
    }
  }

  // ----- the tail moves to the next lap -----

  lemma OnInstallIndex(s: State, t: Tid, spurious: bool)
    requires Inv(s) && t in s.threads && s.threads[t].PushInstallIndex?
    ensures Inv(RunThread(s, t, spurious))
  {
    var pc, s' := s.threads[t], RunThread(s, t, spurious);
    assert ThreadOk(s, t, pc);
    RunMovesOne(s, t, spurious);
    InstallIndexEnds(s, s', t, pc.lap);
    InstallIndexParts(s, s', t, pc.lap);
    InstallIndexThread(s, s', t, pc.lap);
    OthersStable(s, s', t);
  }

  lemma InstallIndexThread(s: State, s': State, t: Tid, k: nat)
    requires Inv(s) && t in s.threads && s.threads[t].PushInstallIndex? && InstallIndexStep(s, s', t, k)
    requires s' == RunThread(s, t, false) && k == s.threads[t].lap
    ensures ThreadOk(s', t, s'.threads[t])
  {
    assert ThreadOk(s, t, s.threads[t]);
    SameBlocks(s, s');
  }

  ghost predicate InstallIndexStep(s: State, s': State, t: Tid, k: nat) {
    var p := Pos(k, BLOCK_CAP - 1);
    && OnlyMoved(s, s', t)
    && |s.hist.chain| == k + 2 && s.mem.tail.pos == Pos(k, BLOCK_CAP)
    && p in s.hist.pushBy && s.hist.pushBy[p] == t
    && RoleAt(s, t).stage == InstallsIndex(k) && RoleAt(s', t) == RoleAt(s, t).(stage := InstallsLink(k))
    && s'.mem == s.mem.(tail := s.mem.tail.(pos := Pos(k + 1, 0))) && s'.hist == s.hist
  }

  lemma InstallIndexEnds(s: State, s': State, t: Tid, k: nat)
    requires Blocks(s) && Ends(s) && Links(s) && InstallIndexStep(s, s', t, k)
    ensures Ends(s') && Links(s') && Rely(s, s', t)
  {
    SameBlocks(s, s');
    SameRoles(s, s', t);
    RelyOnWords(s, s', t);
    forall j | 0 <= j < |s'.hist.chain| ensures LinkOk(s', j) {
      assert LinkOk(s, j);
    }
  }

  lemma InstallIndexParts(s: State, s': State, t: Tid, k: nat)
    requires Blocks(s) && Writes(s) && Reads(s) && Reclamation(s) && InstallIndexStep(s, s', t, k)
    ensures Blocks(s') && Writes(s') && Reads(s') && Reclamation(s')
  {
    SameBlocks(s, s');
    SameRoles(s, s', t);
    KeepBlocks(s, s');
    KeepReads(s, s');
    KeepReclamation(s, s');
    forall j, o | 0 <= j < |s'.hist.chain| && 0 <= o < BLOCK_CAP ensures WriteOk(s', j, o) {
      assert WriteOk(s, j, o);
    }
  }

  // ----- the blocks are linked -----

  lemma OnInstallNext(s: State, t: Tid, spurious: bool)
    requires Inv(s) && t in s.threads && s.threads[t].PushInstallNext?
    ensures Inv(RunThread(s, t, spurious))
  {
    var pc, s' := s.threads[t], RunThread(s, t, spurious);
    assert ThreadOk(s, t, pc);
    WriterBlockLive(s, t, Pos(pc.lap, BLOCK_CAP - 1), pc.blk, pc.v);
    RunMovesOne(s, t, spurious);
    InstallNextParts(s, s', t, pc.lap);
    InstallNextLinks(s, s', t, pc.lap);
    InstallNextThread(s, s', t, pc.lap);
    OthersStable(s, s', t);
  }

  lemma LinkSlots(s: State, s': State, k: nat, next: Bid)
    requires Blocks(s) && k < |s.hist.chain| && s'.hist == s.hist
    requires var b := s.hist.chain[k];
             s'.mem == s.mem.(blocks := s.mem.blocks[b := s.mem.blocks[b].(next := Some(next))])
    ensures KeepsSlots(s, s') && KeepsSpareBlocks(s, s')
    ensures forall j :: 0 <= j < |s.hist.chain| ==> NextOf(s', j) == if j == k then Some(next) else NextOf(s, j)
  {
  }

  lemma InstallNextThread(s: State, s': State, t: Tid, k: nat)
    requires Inv(s) && t in s.threads && s.threads[t].PushInstallNext? && InstallNextStep(s, s', t, k)
    requires s' == RunThread(s, t, false) && k == s.threads[t].lap
    ensures ThreadOk(s', t, s'.threads[t])
  {
    assert ThreadOk(s, t, s.threads[t]);
    LinkSlots(s, s', k, s.hist.chain[k + 1]);
  }

  ghost predicate InstallNextStep(s: State, s': State, t: Tid, k: nat) {
    && OnlyMoved(s, s', t)
    && k + 1 < |s.hist.chain| && k < s.mem.tail.pos.lap && s.hist.chain[k] < |s.mem.blocks|
    && RoleAt(s, t).stage == InstallsLink(k) && RoleAt(s', t) == RoleAt(s, t).(stage := Plain)
    && (var b := s.hist.chain[k];
        s'.mem == s.mem.(blocks := s.mem.blocks[b := s.mem.blocks[b].(next := Some(s.hist.chain[k + 1]))]))
    && s'.hist == s.hist
  }

  lemma InstallNextParts(s: State, s': State, t: Tid, k: nat)
    requires Inv(s) && InstallNextStep(s, s', t, k)
    ensures Blocks(s') && Writes(s') && Reads(s') && Reclamation(s')
  {
    SameRoles(s, s', t);
    LinkSlots(s, s', k, s.hist.chain[k + 1]);
    KeepBlocks(s, s');
    KeepWrites(s, s');
    KeepReads(s, s');
    KeepReclamation(s, s');
  }

  lemma InstallNextLinks(s: State, s': State, t: Tid, k: nat)
    requires Blocks(s) && Ends(s) && Links(s) && InstallNextStep(s, s', t, k)
    ensures Ends(s') && Links(s') && Rely(s, s', t)
  {
    SameRoles(s, s', t);
    LinkSlots(s, s', k, s.hist.chain[k + 1]);
    KeepEnds(s, s');
    RelyOnWords(s, s', t);
    forall j | 0 <= j < |s'.hist.chain| ensures LinkOk(s', j) {
      assert LinkOk(s, j);
    }
  }

  // ----- the value is written, and the slot marked -----

  /** Replacing one slot of a lap's block changes that slot only. */
  lemma SetSlotAt(s: State, s': State, k: nat, o: nat, slot: Slot)
    requires Blocks(s) && k < |s.hist.chain| && o < BLOCK_CAP && s'.hist.chain == s.hist.chain
    requires s'.mem.blocks == SetSlot(s.mem, s.hist.chain[k], o, slot).blocks
    ensures forall j, i :: 0 <= j < |s.hist.chain| && 0 <= i < BLOCK_CAP ==>
              SlotOf(s', j, i) == if j == k && i == o then slot else SlotOf(s, j, i)
    ensures forall j :: 0 <= j < |s.hist.chain| ==> NextOf(s', j) == NextOf(s, j)
    ensures |s'.mem.blocks| == |s.mem.blocks| && KeepsSpareBlocks(s, s')
  {
  }

  lemma OnPushWrite(s: State, t: Tid, spurious: bool)
    requires Inv(s) && t in s.threads && s.threads[t].PushWrite?
    ensures Inv(RunThread(s, t, spurious))
  {
    var pc, s' := s.threads[t], RunThread(s, t, spurious);
    assert ThreadOk(s, t, pc);
    WriterBlockLive(s, t, Pos(pc.lap, pc.off), pc.blk, pc.v);
    RunMovesOne(s, t, spurious);
    WriteParts(s, s', t, pc.lap, pc.off, pc.v);
    assert ThreadOk(s', t, s'.threads[t]);
    OthersStable(s, s', t);
  }

  lemma WriteParts(s: State, s': State, t: Tid, k: nat, o: nat, v: Value)
    requires Inv(s) && OnlyMoved(s, s', t) && RoleAt(s', t) == RoleAt(s, t) && k < |s.hist.chain| && o < BLOCK_CAP
    requires OwnsWrite(s, t, Pos(k, o), s.hist.chain[k], v)
    requires s'.mem == SetSlot(s.mem, s.hist.chain[k], o, SlotOf(s, k, o).(value := Some(v))) && s'.hist == s.hist
    ensures Blocks(s') && Ends(s') && Links(s') && Writes(s') && Reads(s') && Reclamation(s') && Rely(s, s', t)
    ensures SlotOf(s', k, o) == SlotOf(s, k, o).(value := Some(v))
  {
    SetSlotAt(s, s', k, o, SlotOf(s, k, o).(value := Some(v)));
    SameRoles(s, s', t);
    KeepBlocks(s, s');
    KeepEnds(s, s');
    KeepLinks(s, s');
    KeepReads(s, s');
    KeepReclamation(s, s');
    RelyOnSlot(s, s', t, k, o);
    forall j, i | 0 <= j < |s'.hist.chain| && 0 <= i < BLOCK_CAP ensures WriteOk(s', j, i) {
      assert WriteOk(s, j, i);
    }
  }

  lemma OnPushMark(s: State, t: Tid, spurious: bool)
    requires Inv(s) && t in s.threads && s.threads[t].PushMark?
    ensures Inv(RunThread(s, t, spurious))
  {
    var pc, s' := s.threads[t], RunThread(s, t, spurious);
    assert ThreadOk(s, t, pc);
    WriterBlockLive(s, t, Pos(pc.lap, pc.off), pc.blk, pc.v);
    SpareIsLive(s, t, pc.spare);
    RunMovesOne(s, t, spurious);
    MarkParts(s, s', t, pc.lap, pc.off, pc.v, pc.spare);
    MarkSlots(s, s', t, pc.lap, pc.off, pc.v, pc.spare);
    OthersStable(s, s', t);
  }

  ghost predicate MarkStep(s: State, s': State, t: Tid, k: nat, o: nat, v: Value, spare: Option<Bid>) {
    && OnlyMoved(s, s', t) && k < |s.hist.chain| && o < BLOCK_CAP && SpareOk(s, t, spare)
    && RoleAt(s, t) == Role(spare, Some(Pos(k, o)), None, Plain) && RoleAt(s', t) == NO_ROLE
    && OwnsWrite(s, t, Pos(k, o), s.hist.chain[k], v) && SlotOf(s, k, o).value == Some(v)
    && s.hist.chain[k] < |s.mem.blocks|
    && s'.mem == DropSpare(SetSlot(s.mem, s.hist.chain[k], o, SlotOf(s, k, o).(write := true)), spare)
    && s'.hist == s.hist.(home := DropHome(s.hist.home, spare))
  }

  lemma MarkParts(s: State, s': State, t: Tid, k: nat, o: nat, v: Value, spare: Option<Bid>)
    requires Blocks(s) && Ends(s) && Links(s) && MarkStep(s, s', t, k, o, v, spare)
    ensures Blocks(s') && Ends(s') && Links(s') && Rely(s, s', t)
  {
    SetSlotAt(s, s', k, o, SlotOf(s, k, o).(write := true));
    SameRoles(s, s', t);
    DropBlocks(s, s', t, spare);
    KeepEnds(s, s');
    KeepLinks(s, s');
    assert RelySlot(s, s', t, k, o) && RelyHistory(s, s', t);
    RelyOnSlot(s, s', t, k, o);
  }

  lemma MarkSlots(s: State, s': State, t: Tid, k: nat, o: nat, v: Value, spare: Option<Bid>)
    requires Inv(s) && MarkStep(s, s', t, k, o, v, spare)
    ensures Writes(s') && Reads(s') && Reclamation(s')
  {
    SetSlotAt(s, s', k, o, SlotOf(s, k, o).(write := true));
    SameRoles(s, s', t);
    KeepReads(s, s');
    KeepReclamation(s, s');
    forall j, i | 0 <= j < |s'.hist.chain| && 0 <= i < BLOCK_CAP ensures WriteOk(s', j, i) {
      assert WriteOk(s, j, i);
    }
  }
}
