/**
 Every step of the segmented queue keeps its invariant and faults nowhere.
 */
module QueueSteps {
  import opened PackedIndex
  import opened QueueModel
  import opened QueueInvariant
  import opened QueueFrames

  lemma RunMovesOne(s: State, t: Tid, spurious: bool)
    requires t in s.threads
    ensures OnlyMoved(s, RunThread(s, t, spurious), t)
  {
  }

  // ----- steps that only load, wait, or retry -----

  /** A step that changes only the program point, or ends the operation. */
  lemma QuietRun(s: State, t: Tid, spurious: bool)
    requires Inv(s) && t in s.threads
    requires var pc := s.threads[t];
             var out := Exec(s.mem, pc, spurious);
             && RoleOf(pc) == (if out.Next? then RoleOf(out.pc) else NO_ROLE)
             && (out.Next? ==> out.mem == s.mem && Record(s.hist, t, pc, out) == s.hist && ThreadOk(s, t, out.pc))
             && (out.Return? ==> out.mem == s.mem && Record(s.hist, t, pc, out) == s.hist)
             && !out.Fault?
    ensures Inv(RunThread(s, t, spurious))
  {
    RunMovesOne(s, t, spurious);
    Quiet(s, RunThread(s, t, spurious), t);
  }

  lemma OnPushLoad(s: State, t: Tid, spurious: bool)
    requires Inv(s) && t in s.threads && (s.threads[t].PushLoadIndex? || s.threads[t].PushLoadBlock?)
    ensures Inv(RunThread(s, t, spurious))
  {
    var pc := s.threads[t];
    assert ThreadOk(s, t, pc);
    QuietRun(s, t, spurious);
  }

  lemma OnPopLoad(s: State, t: Tid, spurious: bool)
    requires Inv(s) && t in s.threads && (s.threads[t].PopLoadIndex? || s.threads[t].PopLoadBlock?)
    ensures Inv(RunThread(s, t, spurious))
  {
    var pc := s.threads[t];
    assert ThreadOk(s, t, pc);
    QuietRun(s, t, spurious);
  }

  lemma OnPopTry(s: State, t: Tid, spurious: bool)
    requires Inv(s) && t in s.threads && s.threads[t].PopTry?
    ensures Inv(RunThread(s, t, spurious))
  {
    var pc := s.threads[t];
    assert ThreadOk(s, t, pc);
    QuietRun(s, t, spurious);
  }

  lemma OnPopWaitNext(s: State, t: Tid, spurious: bool)
    requires Inv(s) && t in s.threads && s.threads[t].PopWaitNext?
    ensures Inv(RunThread(s, t, spurious))
  {
    var pc := s.threads[t];
    assert ThreadOk(s, t, pc);
    assert LinkOk(s, pc.lap) && ReclaimOk(s, pc.lap);
    QuietRun(s, t, spurious);
  }

  lemma OnPopPeek(s: State, t: Tid, spurious: bool)
    requires Inv(s) && t in s.threads && s.threads[t].PopPeek?
    ensures Inv(RunThread(s, t, spurious))
  {
    assert ThreadOk(s, t, s.threads[t]);
    PeekLooks(s, t, s.threads[t], spurious);
    QuietRun(s, t, spurious);
  }

  lemma PeekLooks(s: State, t: Tid, pc: PC, spurious: bool)
    requires Blocks(s) && Ends(s) && Links(s) && Reclamation(s) && pc.PopPeek? && ThreadOk(s, t, pc)
    ensures var out := Exec(s.mem, pc, spurious);
            && out.Next? && out.mem == s.mem && out.pc.PopSetBlock? && RoleOf(out.pc) == RoleOf(pc)
            && ThreadOk(s, t, out.pc) && Record(s.hist, t, pc, out) == s.hist
  {
    assert LinkOk(s, pc.lap + 1) && ReclaimOk(s, pc.lap + 1);
  }

  lemma OnPopWaitWrite(s: State, t: Tid, spurious: bool)
    requires Inv(s) && t in s.threads && s.threads[t].PopWaitWrite?
    ensures Inv(RunThread(s, t, spurious))
  {
    var pc := s.threads[t];
    assert ThreadOk(s, t, pc);
    ReaderBlockLive(s, t, pc.lap, pc.off, pc.blk);
    QuietRun(s, t, spurious);
  }

  /** A block is not freed while a position of it is still to be read. */
  lemma ReaderBlockLive(s: State, t: Tid, lap: nat, off: Lane, blk: Bid)
    requires Blocks(s) && Reclamation(s) && OwnsRead(s, t, Pos(lap, off), blk) && StillReading(s, Pos(lap, off))
    ensures Live(s.mem, blk)
  {
    assert ReclaimOk(s, lap);
  }

  /** A block is not freed while a position of it is still to be written. */
  lemma WriterBlockLive(s: State, t: Tid, p: Pos, blk: Bid, v: Value)
    requires Blocks(s) && Reclamation(s) && Reads(s) && OwnsWrite(s, t, p, blk, v)
    ensures Live(s.mem, blk)
  {
    assert ReclaimOk(s, p.lap);
    assert ReadOk(s, p.lap, p.off);
  }
}
