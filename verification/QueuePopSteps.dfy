/** The steps of a pop that claim a position and move the head. */
module QueuePopSteps {
  import opened Prelude
  import opened PackedIndex
  import opened QueueModel
  import opened QueueInvariant
  import opened QueueFrames
  import opened QueueSteps
  import opened QueuePushSteps

  lemma OnPopRetry(s: State, t: Tid, spurious: bool)
    requires Inv(s) && t in s.threads && s.threads[t].PopClaim?
    requires s.threads[t].block.None? || s.mem.head != s.threads[t].head || spurious
    ensures Inv(RunThread(s, t, spurious))
  {
    var pc := s.threads[t];
    assert ThreadOk(s, t, pc);
    QuietRun(s, t, spurious);
  }

  // ----- winning a position -----

  lemma OnPopClaim(s: State, t: Tid)
    requires Inv(s) && t in s.threads && s.threads[t].PopClaim?
    requires s.threads[t].block.Some? && s.mem.head == s.threads[t].head
    ensures Inv(RunThread(s, t, false))
  {
    var pc, s' := s.threads[t], RunThread(s, t, false);
    TakeRuns(s, t);
    TakeParts(s, s', t, pc.mark);
    TakeReads(s, s', t, pc.mark);
    TakeThread(s, s', t, pc.mark);
    OthersStable(s, s', t);
  }

  lemma TakeRuns(s: State, t: Tid)
    requires Inv(s) && t in s.threads && s.threads[t].PopClaim?
    requires s.threads[t].block.Some? && s.mem.head == s.threads[t].head
    ensures TakeStep(s, RunThread(s, t, false), t, s.threads[t].mark)
  {
    assert ThreadOk(s, t, s.threads[t]);
    RunMovesOne(s, t, false);
  }

  lemma TakeThread(s: State, s': State, t: Tid, mark: bool)
    requires Inv(s) && t in s.threads && s.threads[t].PopClaim? && TakeStep(s, s', t, mark)
    requires s' == RunThread(s, t, false) && s.mem.head == s.threads[t].head && s.threads[t].block.Some?
    ensures ThreadOk(s', t, s'.threads[t])
  {
    var p := s.mem.head.pos;
    assert ThreadOk(s, t, s.threads[t]);
    assert ReadOk(s, p.lap, p.off) && ReclaimOk(s, p.lap);
  }

  ghost predicate TakeStep(s: State, s': State, t: Tid, mark: bool) {
    var p := s.mem.head.pos;
    && OnlyMoved(s, s', t) && p.off < BLOCK_CAP && Before(p, s.mem.tail.pos) && s.mem.headBlock.Some?
    && (mark ==> p.lap < s.mem.tail.pos.lap)
    && RoleAt(s, t) == NO_ROLE
    && RoleAt(s', t) == Role(None, None, Some(p), if p.off == BLOCK_CAP - 1 then Advances(p.lap) else Plain)
    && s'.mem == s.mem.(head := Index(Succ(p), mark))
    && s'.hist == s.hist.(popBy := s.hist.popBy[p := t])
  }

  lemma TakeParts(s: State, s': State, t: Tid, mark: bool)
    requires Inv(s) && TakeStep(s, s', t, mark)
    ensures Blocks(s') && Ends(s') && Links(s') && Writes(s') && Reclamation(s')
  {
    SameBlocks(s, s');
    SameRoles(s, s', t);
    KeepBlocks(s, s');
    KeepLinks(s, s');
    KeepWrites(s, s');
    KeepReclamation(s, s');
  }

  lemma TakeReads(s: State, s': State, t: Tid, mark: bool)
    requires Inv(s) && TakeStep(s, s', t, mark)
    ensures Reads(s') && Rely(s, s', t)
  {
    SameBlocks(s, s');
    SameRoles(s, s', t);
    forall k, o | 0 <= k < |s'.hist.chain| && 0 <= o < BLOCK_CAP ensures ReadOk(s', k, o) {
      assert ReadOk(s, k, o);
    }
    assert RelyWords(s, s', t) && RelyHistory(s, s', t);
  }

  // ----- the head moves to the next lap -----

  lemma OnPopSetBlock(s: State, t: Tid, spurious: bool)
    requires Inv(s) && t in s.threads && s.threads[t].PopSetBlock?
    ensures Inv(RunThread(s, t, spurious))
  {
    var pc, s' := s.threads[t], RunThread(s, t, spurious);
    assert ThreadOk(s, t, pc);
    RunMovesOne(s, t, spurious);
    SetBlockEnds(s, s', t, pc.lap);
    SetBlockParts(s, s', t, pc.lap);
    assert ThreadOk(s', t, s'.threads[t]);
    OthersStable(s, s', t);
  }

  ghost predicate AdvanceStep(s: State, s': State, t: Tid, k: nat) {
    var p := Pos(k, BLOCK_CAP - 1);
    && OnlyMoved(s, s', t) && s.mem.head.pos == Pos(k, BLOCK_CAP) && s.mem.headBlock.Some?
    && k + 1 < |s.hist.chain| && k < s.mem.tail.pos.lap
    && p in s.hist.popBy && s.hist.popBy[p] == t
    && RoleAt(s, t) == Role(None, None, Some(p), Advances(k))
    && s'.hist == s.hist
  }

  ghost predicate SetBlockStep(s: State, s': State, t: Tid, k: nat) {
    && AdvanceStep(s, s', t, k)
    && RoleAt(s', t) == RoleAt(s, t)
    && s'.mem == s.mem.(headBlock := Some(s.hist.chain[k + 1]))
  }

  lemma SetBlockEnds(s: State, s': State, t: Tid, k: nat)
    requires Blocks(s) && Ends(s) && SetBlockStep(s, s', t, k)
    ensures Ends(s') && Rely(s, s', t)
  {
    SameBlocks(s, s');
    SameRoles(s, s', t);
    RelyOnWords(s, s', t);
  }

  lemma SetBlockParts(s: State, s': State, t: Tid, k: nat)
    requires Inv(s) && SetBlockStep(s, s', t, k)
    ensures Blocks(s') && Links(s') && Writes(s') && Reads(s') && Reclamation(s')
  {
    SameBlocks(s, s');
    SameRoles(s, s', t);
    KeepBlocks(s, s');
    KeepLinks(s, s');
    KeepWrites(s, s');
    KeepReads(s, s');
    KeepReclamation(s, s');
  }

  lemma OnPopSetIndex(s: State, t: Tid, spurious: bool)
    requires Inv(s) && t in s.threads && s.threads[t].PopSetIndex?
    ensures Inv(RunThread(s, t, spurious))
  {
    var pc, s' := s.threads[t], RunThread(s, t, spurious);
    SetIndexRuns(s, t, spurious);
    SetIndexParts(s, s', t, pc.lap, pc.mark);
    SetIndexReads(s, s', t, pc.lap, pc.mark);
    OthersStable(s, s', t);
  }

  lemma SetIndexRuns(s: State, t: Tid, spurious: bool)
    requires Inv(s) && t in s.threads && s.threads[t].PopSetIndex?
    ensures var s' := RunThread(s, t, spurious);
            SetIndexStep(s, s', t, s.threads[t].lap, s.threads[t].mark) &&
            t in s'.threads && ThreadOk(s', t, s'.threads[t])
  {
    var pc, s' := s.threads[t], RunThread(s, t, spurious);
    assert ThreadOk(s, t, pc);
    RunMovesOne(s, t, spurious);
    assert ThreadOk(s', t, s'.threads[t]);
  }

  ghost predicate SetIndexStep(s: State, s': State, t: Tid, k: nat, mark: bool) {
    && AdvanceStep(s, s', t, k)
    && (mark ==> k + 1 < s.mem.tail.pos.lap)
    && RoleAt(s', t) == RoleAt(s, t).(stage := Plain)
    && s.mem.headBlock == Some(s.hist.chain[k + 1])
    && s'.mem == s.mem.(head := Index(Pos(k + 1, 0), mark))
  }

  lemma SetIndexParts(s: State, s': State, t: Tid, k: nat, mark: bool)
    requires Inv(s) && SetIndexStep(s, s', t, k, mark)
    ensures Blocks(s') && Ends(s') && Links(s') && Writes(s') && Reclamation(s')
  {
    SetIndexEnds(s, s', t, k, mark);
    SameBlocks(s, s');
    SameRoles(s, s', t);
    KeepBlocks(s, s');
    KeepLinks(s, s');
    KeepWrites(s, s');
    KeepReclamation(s, s');
  }

  lemma SetIndexEnds(s: State, s': State, t: Tid, k: nat, mark: bool)
    requires Ends(s) && SetIndexStep(s, s', t, k, mark)
    ensures Ends(s')
  {
    SameRoles(s, s', t);
  }

  lemma SetIndexReads(s: State, s': State, t: Tid, k: nat, mark: bool)
    requires Inv(s) && SetIndexStep(s, s', t, k, mark)
    ensures Reads(s') && Rely(s, s', t)
  {
    SameBlocks(s, s');
    SameRoles(s, s', t);
    forall j, o | 0 <= j < |s'.hist.chain| && 0 <= o < BLOCK_CAP ensures ReadOk(s', j, o) {
      assert ReadOk(s, j, o);
    }
    RelyOnWords(s, s', t);
  }
}
