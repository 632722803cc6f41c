/** The steps of a push that change the queue. */
module QueuePushSteps {
  import opened Prelude
  import opened PackedIndex
  import opened QueueModel
  import opened QueueInvariant
  import opened QueueFrames
  import opened QueueSteps

  /** Blocks of laps are the same in memory: slots and next pointers have not moved. */
  lemma SameBlocks(s: State, s': State)
    requires Blocks(s) && Prefix(s.mem.blocks, s'.mem.blocks) && Prefix(s.hist.chain, s'.hist.chain)
    ensures KeepsSlots(s, s')
    ensures forall k :: 0 <= k < |s.hist.chain| ==> NextOf(s', k) == NextOf(s, k)
  {
  }

  /** The conditions shared by steps that only change who holds which spare block. */
  ghost predicate SpareStep(s: State, s': State, t: Tid, spare: Option<Bid>) {
    && OnlyMoved(s, s', t) && !s'.fault
    && RoleAt(s, t) == Role(spare, None, None, Plain)
    && s'.mem.head == s.mem.head && s'.mem.headBlock == s.mem.headBlock
    && s'.mem.tail == s.mem.tail && s'.mem.tailBlock == s.mem.tailBlock
    && Prefix(s.mem.blocks, s'.mem.blocks)
    && s'.hist == s.hist.(home := s'.hist.home)
    && SpareOk(s, t, spare)
    && (t in s'.threads ==> ThreadOk(s', t, s'.threads[t]))
  }

  lemma SpareKeeps(s: State, s': State, t: Tid, spare: Option<Bid>)
    requires Inv(s) && SpareStep(s, s', t, spare) && Blocks(s')
    requires RoleAt(s', t) == Role(RoleAt(s', t).spare, None, None, Plain)
    requires |s.hist.home| <= |s'.hist.home|
    requires forall b :: 0 <= b < |s.hist.home| && spare != Some(b) ==> s'.hist.home[b] == s.hist.home[b]
    ensures Inv(s')
  {
    SpareParts(s, s', t, spare);
    SameBlocks(s, s');
    assert RelyWords(s, s', t) && RelyHistory(s, s', t);
    assert Rely(s, s', t);
    OthersStable(s, s', t);
  }

  lemma SpareParts(s: State, s': State, t: Tid, spare: Option<Bid>)
    requires Inv(s) && SpareStep(s, s', t, spare)
    requires RoleAt(s', t) == Role(RoleAt(s', t).spare, None, None, Plain)
    ensures Ends(s') && Links(s') && Writes(s') && Reads(s') && Reclamation(s')
  {
    SameBlocks(s, s');
    SameRoles(s, s', t);
    KeepEnds(s, s');
    KeepLinks(s, s');
    KeepWrites(s, s');
    KeepReads(s, s');
    KeepReclamation(s, s');
  }

  /** Allocating a block in advance, dropping the one held so far if there is one. */
  lemma AllocBlocks(s: State, s': State, t: Tid, spare: Option<Bid>)
    requires Blocks(s) && SpareOk(s, t, spare) && RoleAt(s, t).spare == spare
    requires OnlyMoved(s, s', t) && RoleAt(s', t).spare == Some(|s.mem.blocks|)
    requires s'.mem.blocks == Alloc(s.mem).blocks && s'.mem.freed == DropSpare(s.mem, spare).freed
    requires s'.hist == s.hist.(home := DropHome(s.hist.home, spare) + [SpareOf(t)])
    ensures Blocks(s')
  {
    SameRoles(s, s', t);
    var home, home' := s.hist.home, s'.hist.home;
    forall b | 0 <= b < |home'| && home'[b].SpareOf?
      ensures RoleAt(s', home'[b].t).spare == Some(b) && s'.mem.blocks[b] == EmptyBlock()
    {
      if b < |home| { assert home[b] == home'[b]; }
    }
  }

  lemma DropBlocks(s: State, s': State, t: Tid, spare: Option<Bid>)
    requires Blocks(s) && SpareOk(s, t, spare) && RoleAt(s, t).spare == spare
    requires OnlyMoved(s, s', t) && RoleAt(s', t).spare == None
    requires |s'.mem.blocks| == |s.mem.blocks| && KeepsSpareBlocks(s, s')
    requires s'.mem.freed == DropSpare(s.mem, spare).freed
    requires s'.hist.home == DropHome(s.hist.home, spare)
    requires s'.hist.chain == s.hist.chain && s'.hist.reclaim == s.hist.reclaim
    ensures Blocks(s')
  {
    SameRoles(s, s', t);
  }

  lemma SpareIsLive(s: State, t: Tid, spare: Option<Bid>)
    requires Blocks(s) && SpareOk(s, t, spare)
    ensures SpareLive(s.mem, spare)
  {
  }

  /** The push finds the queue closed, and gives its spare block back. */
  lemma OnPushClosed(s: State, t: Tid, spurious: bool)
    requires Inv(s) && t in s.threads && s.threads[t].PushTry? && s.threads[t].tail.mark
    ensures Inv(RunThread(s, t, spurious))
  {
    var pc, s' := s.threads[t], RunThread(s, t, spurious);
    assert ThreadOk(s, t, pc);
    SpareIsLive(s, t, pc.spare);
    RunMovesOne(s, t, spurious);
    DropBlocks(s, s', t, pc.spare);
    SpareKeeps(s, s', t, pc.spare);
  }

  lemma OnPushAlloc(s: State, t: Tid, spurious: bool)
    requires Inv(s) && t in s.threads && s.threads[t].PushTry? && !s.threads[t].tail.mark
    requires s.threads[t].tail.pos.off == BLOCK_CAP - 1 && s.threads[t].spare.None?
    ensures Inv(RunThread(s, t, spurious))
  {
    var pc, s' := s.threads[t], RunThread(s, t, spurious);
    assert ThreadOk(s, t, pc);
    RunMovesOne(s, t, spurious);
    AllocBlocks(s, s', t, None);
    assert ThreadOk(s', t, s'.threads[t]);
    SpareKeeps(s, s', t, None);
  }

  /** Another push installed the first block: the one allocated for it is kept for later. */
  lemma OnPushFirstLost(s: State, t: Tid, spurious: bool)
    requires Inv(s) && t in s.threads && s.threads[t].PushTry? && !s.threads[t].tail.mark
    requires s.threads[t].block.None? && s.mem.tailBlock.Some?
    ensures Inv(RunThread(s, t, spurious))
  {
    var pc, s' := s.threads[t], RunThread(s, t, spurious);
    assert ThreadOk(s, t, pc);
    SpareIsLive(s, t, pc.spare);
    RunMovesOne(s, t, spurious);
    AllocBlocks(s, s', t, pc.spare);
    assert ThreadOk(s', t, s'.threads[t]);
    SpareKeeps(s, s', t, pc.spare);
  }

  lemma OnPushRetry(s: State, t: Tid, spurious: bool)
    requires Inv(s) && t in s.threads && s.threads[t].PushTry? && !s.threads[t].tail.mark
    requires s.threads[t].tail.pos.off == BLOCK_CAP ||
             ((s.threads[t].tail.pos.off == BLOCK_CAP - 1 ==> s.threads[t].spare.Some?) &&
              s.threads[t].block.Some? && (s.mem.tail != s.threads[t].tail || spurious))
    ensures Inv(RunThread(s, t, spurious))
  {
    var pc := s.threads[t];
    assert ThreadOk(s, t, pc);
    QuietRun(s, t, spurious);
  }

  // ----- the first block -----

  /** This push installs the first block. */
  lemma OnPushFirst(s: State, t: Tid, spurious: bool)
    requires Inv(s) && t in s.threads && s.threads[t].PushTry? && !s.threads[t].tail.mark
    requires s.threads[t].block.None? && s.mem.tailBlock.None?
    ensures Inv(RunThread(s, t, spurious))
  {
    var pc, s' := s.threads[t], RunThread(s, t, spurious);
    assert ThreadOk(s, t, pc);
    RunMovesOne(s, t, spurious);
    assert s.hist.chain == [];
    FirstParts(s, s', t);
    assert RelyWords(s, s', t) && RelyHistory(s, s', t);
    assert Rely(s, s', t);
    assert ThreadOk(s', t, s'.threads[t]);
    OthersStable(s, s', t);
  }

  lemma FirstParts(s: State, s': State, t: Tid)
    requires Blocks(s) && Ends(s) && Writes(s) && Reads(s) && OnlyMoved(s, s', t) && s.hist.chain == []
    requires RoleAt(s', t) == RoleAt(s, t).(stage := SetsHead)
    requires s'.mem == Alloc(s.mem).(tailBlock := Some(|s.mem.blocks|))
    requires s'.hist == s.hist.(chain := [|s.mem.blocks|], reclaim := [NotStarted],
                                home := s.hist.home + [OfLap(0)], installer := t)
    ensures Blocks(s') && Ends(s') && Links(s') && Writes(s') && Reads(s') && Reclamation(s')
  {
    SameRoles(s, s', t);
    assert forall o :: 0 <= o < BLOCK_CAP ==> SlotOf(s', 0, o) == EMPTY_SLOT;
    forall k, o | 0 <= k < |s'.hist.chain| && 0 <= o < BLOCK_CAP ensures WriteOk(s', k, o) && ReadOk(s', k, o) {
    }
  }

  lemma OnPushSetHead(s: State, t: Tid, spurious: bool)
    requires Inv(s) && t in s.threads && s.threads[t].PushSetHead?
    ensures Inv(RunThread(s, t, spurious))
  {
    var pc, s' := s.threads[t], RunThread(s, t, spurious);
    assert ThreadOk(s, t, pc);
    RunMovesOne(s, t, spurious);
    SetHeadParts(s, s', t);
    assert ThreadOk(s', t, s'.threads[t]);
    OthersStable(s, s', t);
  }

  lemma SetHeadParts(s: State, s': State, t: Tid)
    requires Inv(s) && OnlyMoved(s, s', t) && |s.hist.chain| > 0 && s.hist.installer == t
    requires RoleAt(s, t).stage == SetsHead && RoleAt(s', t) == RoleAt(s, t).(stage := Plain)
    requires s.mem.headBlock == None && s'.mem == s.mem.(headBlock := Some(s.hist.chain[0])) && s'.hist == s.hist
    ensures Blocks(s') && Ends(s') && Links(s') && Writes(s') && Reads(s') && Reclamation(s') && Rely(s, s', t)
  {
    SameBlocks(s, s');
    SameRoles(s, s', t);
    SetHeadEnds(s, s', t);
    KeepBlocks(s, s');
    KeepLinks(s, s');
    KeepWrites(s, s');
    KeepReads(s, s');
    KeepReclamation(s, s');
    RelyOnWords(s, s', t);
  }

  lemma SetHeadEnds(s: State, s': State, t: Tid)
    requires Ends(s) && OnlyMoved(s, s', t) && |s.hist.chain| > 0 && s.hist.installer == t
    requires RoleAt(s, t).stage == SetsHead && RoleAt(s', t) == RoleAt(s, t).(stage := Plain)
    requires s.mem.headBlock == None && s'.mem == s.mem.(headBlock := Some(s.hist.chain[0])) && s'.hist == s.hist
    ensures Ends(s')
  {
    SameRoles(s, s', t);
  }

  // ----- winning a position -----

  /** The compare-exchange on the tail succeeds. */
  lemma OnPushClaim(s: State, t: Tid)
    requires Inv(s) && t in s.threads && s.threads[t].PushTry? && !s.threads[t].tail.mark
    requires s.mem.tail == s.threads[t].tail && s.threads[t].block.Some? && s.mem.tail.pos.off < BLOCK_CAP
    requires s.mem.tail.pos.off == BLOCK_CAP - 1 ==> s.threads[t].spare.Some?
    ensures Inv(RunThread(s, t, false))
  {
    var pc, s' := s.threads[t], RunThread(s, t, false);
    assert ThreadOk(s, t, pc);
    RunMovesOne(s, t, false);
    ClaimParts(s, s', t, pc.v);
    ClaimWrites(s, s', t, pc.v);
    ClaimRely(s, s', t, pc.v);
    ClaimThread(s, s', t, pc.v);
    OthersStable(s, s', t);
  }

  lemma ClaimThread(s: State, s': State, t: Tid, v: Value)
    requires Inv(s) && t in s.threads && s.threads[t].PushTry? && ClaimStep(s, s', t, v)
    requires s' == RunThread(s, t, false) && v == s.threads[t].v && s.mem.tail == s.threads[t].tail
    requires s.threads[t].block.Some? && (s.mem.tail.pos.off == BLOCK_CAP - 1 ==> s.threads[t].spare.Some?)
    ensures ThreadOk(s', t, s'.threads[t])
  {
    var p := s.mem.tail.pos;
    assert ThreadOk(s, t, s.threads[t]);
    assert WriteOk(s, p.lap, p.off);
    OrdNumbersPositions(p, p);
  }

  lemma ClaimRely(s: State, s': State, t: Tid, v: Value)
    requires Inv(s) && ClaimStep(s, s', t, v)
    ensures Rely(s, s', t)
  {
    assert WriteOk(s, s.mem.tail.pos.lap, s.mem.tail.pos.off);
    assert RelyWords(s, s', t) && RelyHistory(s, s', t);
  }

  ghost predicate ClaimStep(s: State, s': State, t: Tid, v: Value) {
    var p := s.mem.tail.pos;
    && OnlyMoved(s, s', t) && p.off < BLOCK_CAP && |s.hist.chain| > 0 && !s.mem.tail.mark
    && RoleAt(s, t) == Role(RoleAt(s, t).spare, None, None, Plain)
    && RoleAt(s', t) == Role(RoleAt(s, t).spare, Some(p), None,
                             if p.off == BLOCK_CAP - 1 then InstallsBlock(p.lap) else Plain)
    && s'.mem == s.mem.(tail := Index(Succ(p), false))
    && s'.hist == s.hist.(pushed := s.hist.pushed + [v], pushBy := s.hist.pushBy[p := t])
  }

  lemma ClaimParts(s: State, s': State, t: Tid, v: Value)
    requires Inv(s) && ClaimStep(s, s', t, v)
    ensures Blocks(s') && Ends(s') && Links(s') && Reads(s') && Reclamation(s')
  {
    ClaimEnds(s, s', t, v);
    SameBlocks(s, s');
    SameRoles(s, s', t);
    KeepBlocks(s, s');
    KeepReads(s, s');
    KeepReclamation(s, s');
  }

  lemma ClaimEnds(s: State, s': State, t: Tid, v: Value)
    requires Blocks(s) && Ends(s) && Links(s) && Writes(s) && ClaimStep(s, s', t, v)
    ensures Ends(s') && Links(s')
  {
    SameBlocks(s, s');
    SameRoles(s, s', t);
    assert WriteOk(s, s.mem.tail.pos.lap, s.mem.tail.pos.off);
    forall k | 0 <= k < |s'.hist.chain| ensures LinkOk(s', k) { assert LinkOk(s, k); }
  }

  lemma ClaimWrites(s: State, s': State, t: Tid, v: Value)
    requires Inv(s) && ClaimStep(s, s', t, v)
    ensures Writes(s')
  {
    var p := s.mem.tail.pos;
    SameBlocks(s, s');
    SameRoles(s, s', t);
    forall k, o | 0 <= k < |s'.hist.chain| && 0 <= o < BLOCK_CAP ensures WriteOk(s', k, o) {
      assert WriteOk(s, k, o);
      OrdNumbersPositions(Pos(k, o), p);
    }
  }
}
