/**
 What the segmented queue promises, in every reachable state of every interleaving.
 */
module QueueTheorems {
  import opened Prelude
  import opened PackedIndex
  import opened QueueModel
  import opened QueueInvariant
  import opened QueueFrames
  import opened QueueSteps
  import opened QueuePushSteps
  import opened QueueInstallSteps
  import opened QueuePopSteps
  import opened QueueReclaimSteps

  // ----- the invariant holds in every reachable state -----

  lemma PushStepKeeps(s: State, t: Tid, spurious: bool)
    requires Inv(s) && t in s.threads && ReadAt(s.threads[t]).None? && !s.threads[t].PopLoadIndex?
    requires !s.threads[t].PopLoadBlock? && !s.threads[t].PopTry? && !s.threads[t].PopClaim?
    ensures Inv(RunThread(s, t, spurious))
  {
    var pc := s.threads[t];
    match pc
    case PushLoadIndex(_, _) => OnPushLoad(s, t, spurious);
    case PushLoadBlock(_, _, _) => OnPushLoad(s, t, spurious);
    case PushTry(_, _, _, _) => PushTryKeeps(s, t, spurious);
    case PushSetHead(_, _, _, _) => OnPushSetHead(s, t, spurious);
    case PushInstallBlock(_, _, _, _) => OnInstallBlock(s, t, spurious);
    case PushInstallIndex(_, _, _, _) => OnInstallIndex(s, t, spurious);
    case PushInstallNext(_, _, _, _) => OnInstallNext(s, t, spurious);
    case PushWrite(_, _, _, _, _) => OnPushWrite(s, t, spurious);
    case PushMark(_, _, _, _, _) => OnPushMark(s, t, spurious);
  }

  lemma PushTryKeeps(s: State, t: Tid, spurious: bool)
    requires Inv(s) && t in s.threads && s.threads[t].PushTry?
    ensures Inv(RunThread(s, t, spurious))
  {
    var pc := s.threads[t];
    assert TailSeen(s, pc.tail) by { assert ThreadOk(s, t, pc); }
    if pc.tail.mark { OnPushClosed(s, t, spurious); }
    else if pc.tail.pos.off == BLOCK_CAP { OnPushRetry(s, t, spurious); }
    else if pc.tail.pos.off == BLOCK_CAP - 1 && pc.spare.None? { OnPushAlloc(s, t, spurious); }
    else if pc.block.None? {
      if s.mem.tailBlock.None? { OnPushFirst(s, t, spurious); } else { OnPushFirstLost(s, t, spurious); }
    }
    else if s.mem.tail == pc.tail && !spurious { OnPushClaim(s, t); }
    else { OnPushRetry(s, t, spurious); }
  }

  lemma PopStepKeeps(s: State, t: Tid, spurious: bool)
    requires Inv(s) && t in s.threads
    requires ReadAt(s.threads[t]).Some? || s.threads[t].PopLoadIndex? || s.threads[t].PopLoadBlock? ||
             s.threads[t].PopTry? || s.threads[t].PopClaim?
    ensures Inv(RunThread(s, t, spurious))
  {
    var pc := s.threads[t];
    match pc
    case PopLoadIndex => OnPopLoad(s, t, spurious);
    case PopLoadBlock(_) => OnPopLoad(s, t, spurious);
    case PopTry(_, _) => OnPopTry(s, t, spurious);
    case PopClaim(head, block, _) =>
      if block.Some? && s.mem.head == head && !spurious { OnPopClaim(s, t); } else { OnPopRetry(s, t, spurious); }
    case PopWaitNext(_, _) => OnPopWaitNext(s, t, spurious);
    case PopPeek(_, _, _) => OnPopPeek(s, t, spurious);
    case PopSetBlock(_, _, _, _) => OnPopSetBlock(s, t, spurious);
    case PopSetIndex(_, _, _) => OnPopSetIndex(s, t, spurious);
    case PopWaitWrite(_, _, _) => OnPopWaitWrite(s, t, spurious);
    case PopRead(_, off, _) =>
      if off + 1 == BLOCK_CAP { OnPopReadLast(s, t, spurious); } else { OnPopReadInner(s, t, spurious); }
    case PopMarkRead(_, _, _, _) => OnMarkRead(s, t, spurious);
    case Destroy(lap, _, _, _, i) =>
      if i >= BLOCK_CAP - 1 { OnDestroyFree(s, t, spurious); }
      else if SlotOf(s, lap, i).read { OnDestroyFound(s, t, spurious); }
      else { OnDestroyAsk(s, t, spurious); }
    case DestroyMark(_, _, _, _, _) => OnDestroyMark(s, t, spurious);
  }

  lemma StartKeeps(s: State, t: Tid, pc: PC)
    requires Inv(s) && t !in s.threads && (pc == PopLoadIndex || (pc.PushLoadIndex? && pc.spare.None?))
    ensures Inv(s.(threads := s.threads[t := pc]))
  {
    Quiet(s, s.(threads := s.threads[t := pc]), t);
  }

  lemma CloseKeeps(s: State)
    requires Inv(s)
    ensures Inv(Step(s, Close))
  {
    CloseEnds(s);
    CloseSlots(s);
    CloseThreads(s);
  }

  lemma CloseEnds(s: State)
    requires Blocks(s) && Ends(s) && Links(s)
    ensures var s' := Step(s, Close); Blocks(s') && Ends(s') && Links(s')
  {
    var s' := Step(s, Close);
    SameBlocks(s, s');
    KeepBlocks(s, s');
    KeepEnds(s, s');
    KeepLinks(s, s');
  }

  lemma CloseSlots(s: State)
    requires Blocks(s) && Writes(s) && Reads(s) && Reclamation(s)
    ensures var s' := Step(s, Close); Writes(s') && Reads(s') && Reclamation(s')
  {
    var s' := Step(s, Close);
    SameBlocks(s, s');
    KeepWrites(s, s');
    KeepReads(s, s');
    KeepReclamation(s, s');
  }

  lemma CloseThreads(s: State)
    requires Blocks(s) && Ends(s) && Threads(s)
    ensures Threads(Step(s, Close))
  {
    var s' := Step(s, Close);
    SameBlocks(s, s');
    forall u | u in s'.threads ensures ThreadOk(s', u, s'.threads[u]) {
      var t, pc := u + 1, s.threads[u];
      assert ThreadOk(s, u, pc);
      assert RelyWords(s, s', t);
      RelyOnWords(s, s', t);
      if ReadAt(pc).Some? { StablePop(s, s', t, u, pc); } else { StablePush(s, s', t, u, pc); }
    }
  }

  lemma StepKeeps(s: State, e: Event)
    requires Inv(s)
    ensures Inv(Step(s, e))
  {
    match e
    case StartPush(t, v) => if t !in s.threads { StartKeeps(s, t, PushLoadIndex(v, None)); }
    case StartPop(t) => if t !in s.threads { StartKeeps(s, t, PopLoadIndex); }
    case Close => CloseKeeps(s);
    case Run(t, spurious) =>
      if t in s.threads {
        var pc := s.threads[t];
        if ReadAt(pc).Some? || pc.PopLoadIndex? || pc.PopLoadBlock? || pc.PopTry? || pc.PopClaim? {
          PopStepKeeps(s, t, spurious);
        } else {
          PushStepKeeps(s, t, spurious);
        }
      }
  }

  /** Every reachable state satisfies the invariant. */
  lemma {:induction false} Reachable(events: seq<Event>)
    ensures Inv(After(events))
  {
    if events != [] {
      Reachable(events[..|events| - 1]);
      StepKeeps(After(events[..|events| - 1]), events[|events| - 1]);
    }
  }

  // ----- memory safety -----

  /** No thread ever dereferences a freed block, frees a block twice or reads an unwritten value. */
  lemma NoFault(events: seq<Event>)
    ensures !After(events).fault
  {
    Reachable(events);
  }

  // ----- the queue is a first-in first-out queue that can be closed -----

  datatype Fifo = Fifo(items: seq<Value>, closed: bool)

  /** The abstract queue: what has been pushed and not yet claimed by a pop. */
  function Abstract(s: State): Fifo
    requires Ord(s.mem.head.pos) <= |s.hist.pushed|
  {
    Fifo(s.hist.pushed[Ord(s.mem.head.pos)..], s.mem.tail.mark)
  }

  datatype Action = Nothing | Enqueue(t: Tid, v: Value) | Dequeue(t: Tid) | Shut

  /** The abstract queue's transitions: only an open queue takes items, at the back; items leave at
      the front. */
  predicate FifoStep(q: Fifo, a: Action, q': Fifo) {
    match a
    case Nothing => q' == q
    case Enqueue(_, v) => !q.closed && q' == q.(items := q.items + [v])
    case Dequeue(_) => q.items != [] && q' == q.(items := q.items[1..])
    case Shut => q' == q.(closed := true)
  }

  /** What an event does to the abstract queue, read off the program points alone. */
  function ActionOf(s: State, e: Event): Action {
    match e
    case StartPush(_, _) => Nothing
    case StartPop(_) => Nothing
    case Close => Shut
    case Run(t, spurious) =>
      if t !in s.threads then Nothing else
      match Exec(s.mem, s.threads[t], spurious)
      case Next(_, pc') =>
        if WriteAt(s.threads[t]).None? && WriteAt(pc').Some? then Enqueue(t, s.threads[t].v)
        else if ReadAt(s.threads[t]).None? && ReadAt(pc').Some? then Dequeue(t)
        else Nothing
      case _ => Nothing
  }

  /** A step that changes neither end of the abstract queue. */
  ghost predicate Silent(s: State, t: Tid, spurious: bool)
    requires t in s.threads
  {
    var s' := RunThread(s, t, spurious);
    && s'.mem.head == s.mem.head && s'.mem.tail.mark == s.mem.tail.mark && s'.hist.pushed == s.hist.pushed
    && ActionOf(s, Run(t, spurious)) == Nothing
  }

  lemma PushStepsAreSilent(s: State, t: Tid, spurious: bool)
    requires t in s.threads && (WriteAt(s.threads[t]).Some? || s.threads[t].PushSetHead? ||
                                s.threads[t].PushLoadIndex? || s.threads[t].PushLoadBlock?)
    ensures Silent(s, t, spurious)
  {
  }

  lemma PopStepsAreSilent(s: State, t: Tid, spurious: bool)
    requires t in s.threads && !s.threads[t].PopSetIndex?
    requires ReadAt(s.threads[t]).Some? || s.threads[t].PopLoadIndex? || s.threads[t].PopLoadBlock? ||
             s.threads[t].PopTry?
    ensures Silent(s, t, spurious)
  {
    if ReadAt(s.threads[t]).Some? { ReadsAreSilent(s, t, spurious); }
  }

  lemma ReadsAreSilent(s: State, t: Tid, spurious: bool)
    requires t in s.threads && !s.threads[t].PopSetIndex? && ReadAt(s.threads[t]).Some?
    ensures Silent(s, t, spurious)
  {
    if StageOf(s.threads[t]).Reclaims? { ReclaimsAreSilent(s, t, spurious); }
    else { assert ActionOf(s, Run(t, spurious)) == Nothing; }
  }

  lemma ReclaimsAreSilent(s: State, t: Tid, spurious: bool)
    requires t in s.threads && StageOf(s.threads[t]).Reclaims?
    ensures Silent(s, t, spurious)
  {
  }

  lemma PushTryRefines(s: State, t: Tid, spurious: bool)
    requires t in s.threads && s.threads[t].PushTry?
    ensures var s' := RunThread(s, t, spurious);
            && s'.mem.head == s.mem.head && s'.mem.tail.mark == s.mem.tail.mark
            && (if s'.hist.pushed == s.hist.pushed then ActionOf(s, Run(t, spurious)) == Nothing
                else !s.mem.tail.mark && s'.hist.pushed == s.hist.pushed + [s.threads[t].v] &&
                     ActionOf(s, Run(t, spurious)) == Enqueue(t, s.threads[t].v))
  {
    var s' := RunThread(s, t, spurious);
    assert |s.hist.pushed + [s.threads[t].v]| != |s.hist.pushed|;
  }

  lemma PopClaimRefines(s: State, t: Tid, spurious: bool)
    requires t in s.threads && s.threads[t].PopClaim? && ThreadOk(s, t, s.threads[t])
    ensures var s' := RunThread(s, t, spurious);
            && s'.hist.pushed == s.hist.pushed && s'.mem.tail == s.mem.tail
            && (if s'.mem.head == s.mem.head then ActionOf(s, Run(t, spurious)) == Nothing
                else s'.mem.head.pos == Succ(s.mem.head.pos) && s.mem.head.pos.off < BLOCK_CAP &&
                     Before(s.mem.head.pos, s.mem.tail.pos) && ActionOf(s, Run(t, spurious)) == Dequeue(t))
  {
  }

  lemma PopSetIndexRefines(s: State, t: Tid, spurious: bool)
    requires Inv(s) && t in s.threads && s.threads[t].PopSetIndex?
    ensures var s' := RunThread(s, t, spurious);
            s'.hist.pushed == s.hist.pushed && s'.mem.tail == s.mem.tail && Ord(s'.mem.head.pos) == Ord(s.mem.head.pos)
    ensures ActionOf(s, Run(t, spurious)) == Nothing
  {
    assert ThreadOk(s, t, s.threads[t]);
  }

  lemma HeadBehindTail(s: State)
    requires Inv(s)
    ensures Ord(s.mem.head.pos) <= |s.hist.pushed|
  {
    OrdNumbersPositions(s.mem.head.pos, s.mem.tail.pos);
  }

  /** Every step of every interleaving is a step of the abstract queue. */
  lemma RefinesFifo(s: State, e: Event)
    requires Inv(s)
    ensures Ord(s.mem.head.pos) <= |s.hist.pushed|
    ensures Ord(Step(s, e).mem.head.pos) <= |Step(s, e).hist.pushed|
    ensures FifoStep(Abstract(s), ActionOf(s, e), Abstract(Step(s, e)))
  {
    HeadBehindTail(s);
    StepKeeps(s, e);
    HeadBehindTail(Step(s, e));
    if e.Run? && e.t in s.threads {
      RunRefines(s, e.t, e.spurious);
    }
  }

  lemma RunRefines(s: State, t: Tid, spurious: bool)
    requires Inv(s) && t in s.threads
    requires Ord(s.mem.head.pos) <= |s.hist.pushed|
    requires Ord(RunThread(s, t, spurious).mem.head.pos) <= |RunThread(s, t, spurious).hist.pushed|
    ensures FifoStep(Abstract(s), ActionOf(s, Run(t, spurious)), Abstract(RunThread(s, t, spurious)))
  {
    var pc, s' := s.threads[t], RunThread(s, t, spurious);
    if pc.PushTry? {
      PushRunRefines(s, t, spurious);
    } else if pc.PopClaim? {
      assert ThreadOk(s, t, pc);
      PopClaimRefines(s, t, spurious);
      OrdNumbersPositions(s.mem.head.pos, s.mem.tail.pos);
    } else if pc.PopSetIndex? {
      PopSetIndexRefines(s, t, spurious);
    } else if WriteAt(pc).Some? || pc.PushSetHead? || pc.PushLoadIndex? || pc.PushLoadBlock? {
      PushStepsAreSilent(s, t, spurious);
    } else {
      PopStepsAreSilent(s, t, spurious);
    }
  }

  lemma PushRunRefines(s: State, t: Tid, spurious: bool)
    requires t in s.threads && s.threads[t].PushTry? && Ord(s.mem.head.pos) <= |s.hist.pushed|
    requires Ord(RunThread(s, t, spurious).mem.head.pos) <= |RunThread(s, t, spurious).hist.pushed|
    ensures FifoStep(Abstract(s), ActionOf(s, Run(t, spurious)), Abstract(RunThread(s, t, spurious)))
  {
    PushTryRefines(s, t, spurious);
    var n := Ord(s.mem.head.pos);
    assert (s.hist.pushed + [s.threads[t].v])[n..] == s.hist.pushed[n..] + [s.threads[t].v];
  }

  /** The abstract queue driven by the actions of a run alone, starting empty and open. */
  function Replay(events: seq<Event>): Fifo {
    if events == [] then Fifo([], false) else
    var before := events[..|events| - 1];
    Apply(Replay(before), ActionOf(After(before), events[|events| - 1]))
  }

  function Apply(q: Fifo, a: Action): Fifo {
    match a
    case Nothing => q
    case Enqueue(_, v) => q.(items := q.items + [v])
    case Dequeue(_) => if q.items != [] then q.(items := q.items[1..]) else q
    case Shut => q.(closed := true)
  }

  /** Every run, whatever the interleaving, is a run of the abstract queue: it leads to what is
      pushed and not yet claimed, and its last action, and so each in turn, is legal. */
  lemma {:induction false} FollowsFifo(events: seq<Event>)
    ensures Ord(After(events).mem.head.pos) <= |After(events).hist.pushed| && Abstract(After(events)) == Replay(events)
    ensures events != [] ==>
              var before, e := events[..|events| - 1], events[|events| - 1];
              FifoStep(Replay(before), ActionOf(After(before), e), Replay(events))
  {
    if events != [] {
      var before, e := events[..|events| - 1], events[|events| - 1];
      FollowsFifo(before);
      var s := After(before);
      assert Inv(s) by { Reachable(before); }
      RefinesFifo(s, e);
      LegalIsApplied(Abstract(s), ActionOf(s, e), Abstract(Step(s, e)));
    }
  }

  lemma LegalIsApplied(q: Fifo, a: Action, q': Fifo)
    requires FifoStep(q, a, q')
    ensures q' == Apply(q, a)
  {
  }

  /** What a finishing operation reports is right, at the moment it reports it. */
  ghost predicate ResponseOk(s: State, t: Tid, resp: Response)
    requires t in s.threads && Ord(s.mem.head.pos) <= |s.hist.pushed|
  {
    var pc, h := s.threads[t], s.hist;
    match resp
    case PushOk =>
      // the operation enqueued its value, once, at the position it owns
      WriteAt(pc).Some? && pc.PushMark? &&
      (var p := WriteAt(pc).value;
       p in h.pushBy && h.pushBy[p] == t && Ord(p) < |h.pushed| && h.pushed[Ord(p)] == pc.v)
    case PushErr(v) =>
      // the operation enqueued nothing and gives its value back; the queue is closed
      WriteAt(pc).None? && pc.PushTry? && v == pc.v && Abstract(s).closed
    case PopOk(r) =>
      // the operation dequeued one position, reported by nobody before, and returns its value
      ReadAt(pc).Some? &&
      (var p := ReadAt(pc).value;
       p in h.popBy && h.popBy[p] == t && p !in h.returned && Ord(p) < |h.pushed| && r == h.pushed[Ord(p)])
    case PopEmpty => ReadAt(pc).None? && Abstract(s) == Fifo([], false)
    case PopClosed => ReadAt(pc).None? && Abstract(s) == Fifo([], true)
  }

  lemma Responses(s: State, t: Tid, spurious: bool)
    requires Inv(s) && t in s.threads && Exec(s.mem, s.threads[t], spurious).Return?
    ensures Ord(s.mem.head.pos) <= |s.hist.pushed|
    ensures ResponseOk(s, t, Exec(s.mem, s.threads[t], spurious).resp)
  {
    HeadBehindTail(s);
    if ReadAt(s.threads[t]).Some? || s.threads[t].PopTry? { PopResponses(s, t, spurious); }
    else { PushResponses(s, t, spurious); }
  }

  lemma PopResponses(s: State, t: Tid, spurious: bool)
    requires Inv(s) && t in s.threads && Exec(s.mem, s.threads[t], spurious).Return?
    requires ReadAt(s.threads[t]).Some? || s.threads[t].PopTry?
    requires Ord(s.mem.head.pos) <= |s.hist.pushed|
    ensures ResponseOk(s, t, Exec(s.mem, s.threads[t], spurious).resp)
  {
    assert ThreadOk(s, t, s.threads[t]);
  }

  lemma PushResponses(s: State, t: Tid, spurious: bool)
    requires Inv(s) && t in s.threads && Exec(s.mem, s.threads[t], spurious).Return?
    requires ReadAt(s.threads[t]).None? && !s.threads[t].PopTry?
    requires Ord(s.mem.head.pos) <= |s.hist.pushed|
    ensures ResponseOk(s, t, Exec(s.mem, s.threads[t], spurious).resp)
  {
    assert ThreadOk(s, t, s.threads[t]);
  }

  /** Once the queue is closed nothing is pushed any more, however long it runs. */
  lemma {:induction false} ClosedForGood(s: State, more: seq<Event>)
    requires Inv(s) && s.mem.tail.mark
    ensures Inv(Continue(s, more))
    ensures Continue(s, more).mem.tail.mark && Continue(s, more).hist.pushed == s.hist.pushed
    ensures Ord(s.mem.head.pos) <= Ord(Continue(s, more).mem.head.pos)
  {
    if more != [] {
      var s0, e := Continue(s, more[..|more| - 1]), more[|more| - 1];
      ClosedForGood(s, more[..|more| - 1]);
      StepKeeps(s0, e);
      RefinesFifo(s0, e);
      HeadBehindTail(s0);
      ClosedStep(s0, e);
    }
  }

  function Continue(s: State, events: seq<Event>): State {
    if events == [] then s else Step(Continue(s, events[..|events| - 1]), events[|events| - 1])
  }

  lemma ClosedStep(s: State, e: Event)
    requires Inv(s) && s.mem.tail.mark
    ensures Step(s, e).mem.tail.mark && Step(s, e).hist.pushed == s.hist.pushed
    ensures Ord(s.mem.head.pos) <= Ord(Step(s, e).mem.head.pos)
  {
    if e.Run? && e.t in s.threads {
      var t, spurious, pc := e.t, e.spurious, s.threads[e.t];
      if pc.PushTry? { PushTryRefines(s, t, spurious); }
      else if pc.PopClaim? { assert ThreadOk(s, t, pc); PopClaimRefines(s, t, spurious); }
      else if pc.PopSetIndex? { PopSetIndexRefines(s, t, spurious); }
      else if WriteAt(pc).Some? || pc.PushSetHead? || pc.PushLoadIndex? || pc.PushLoadBlock? {
        PushStepsAreSilent(s, t, spurious);
      }
      else { PopStepsAreSilent(s, t, spurious); }
    }
  }

  /** The values returned by pops are values of pushes, in order, without repetition or loss:
      position by position, a returned value is the pushed one; distinct positions have distinct
      numbers; and every claimed number is returned already or still held by exactly one pop. */
  lemma PrefixDelivered(events: seq<Event>, p: Pos, q: Pos)
    ensures var s := After(events);
            && Ord(s.mem.head.pos) <= |s.hist.pushed|
            && (p in s.hist.returned ==>
                  Ord(p) < Ord(s.mem.head.pos) && s.hist.returned[p] == s.hist.pushed[Ord(p)])
            && (p in s.hist.returned && q in s.hist.returned && p != q ==> Ord(p) != Ord(q))
            && (p.off < BLOCK_CAP && Before(p, s.mem.head.pos) && p !in s.hist.returned ==>
                  p in s.hist.popBy && RoleAt(s, s.hist.popBy[p]).read == Some(p) &&
                  forall t :: RoleAt(s, t).read == Some(p) ==> t == s.hist.popBy[p])
  {
    var s := After(events);
    Reachable(events);
    HeadBehindTail(s);
    OrdNumbersPositions(s.mem.head.pos, s.mem.tail.pos);
    if p in s.hist.returned {
      assert ReadOk(s, p.lap, p.off);
      OrdNumbersPositions(p, s.mem.head.pos);
      if q in s.hist.returned { OrdNumbersPositions(p, q); }
    } else if p.off < BLOCK_CAP && Before(p, s.mem.head.pos) {
      assert ReadOk(s, p.lap, p.off);
      forall t | RoleAt(s, t).read == Some(p) ensures t == s.hist.popBy[p] {
        assert ThreadOk(s, t, s.threads[t]);
      }
    }
  }

  // ----- reclamation -----

  /** A block is freed only when nobody will touch it again: all its values have been returned, no
      thread is reading, writing or reclaiming it, and it is not the block of either end. */
  lemma FreedBlockIsUnused(events: seq<Event>, k: nat, t: Tid)
    requires var s := After(events); k < |s.hist.reclaim| && s.hist.reclaim[k] == Freed
    ensures var s := After(events);
            && k < s.mem.head.pos.lap
            && (RoleAt(s, t).read.Some? ==> RoleAt(s, t).read.value.lap != k)
            && (RoleAt(s, t).write.Some? ==> RoleAt(s, t).write.value.lap != k)
            && !(RoleAt(s, t).stage.Reclaims? && RoleAt(s, t).stage.k == k)
            && forall o :: 0 <= o < BLOCK_CAP ==> Pos(k, o) in s.hist.returned
  {
    var s := After(events);
    Reachable(events);
    assert ReclaimOk(s, k);
    FreedLapUnheld(s, k, t);
    forall o | 0 <= o < BLOCK_CAP ensures Pos(k, o) in s.hist.returned {
      assert ReadOk(s, k, o);
      if Pos(k, o) !in s.hist.returned { FreedLapUnheld(s, k, s.hist.popBy[Pos(k, o)]); }
    }
  }

  lemma FreedLapUnheld(s: State, k: nat, t: Tid)
    requires Inv(s) && k < |s.hist.reclaim| && s.hist.reclaim[k] == Freed
    ensures RoleAt(s, t).read.Some? ==> RoleAt(s, t).read.value.lap != k
    ensures RoleAt(s, t).write.Some? ==> RoleAt(s, t).write.value.lap != k
    ensures !(RoleAt(s, t).stage.Reclaims? && RoleAt(s, t).stage.k == k)
  {
    assert ReclaimOk(s, k);
    if t in s.threads {
      var pc := s.threads[t];
      assert ThreadOk(s, t, pc);
      if WriteAt(pc).Some? { assert ReadOk(s, WriteAt(pc).value.lap, WriteAt(pc).value.off); }
    }
  }

  /** At most one thread at a time is responsible for reclaiming a block. */
  lemma OneReclaimer(events: seq<Event>, k: nat, t: Tid, u: Tid)
    requires var s := After(events);
             && RoleAt(s, t).stage.Reclaims? && RoleAt(s, t).stage.k == k
             && RoleAt(s, u).stage.Reclaims? && RoleAt(s, u).stage.k == k
    ensures t == u
  {
    var s := After(events);
    Reachable(events);
    assert ThreadOk(s, t, s.threads[t]) && ThreadOk(s, u, s.threads[u]);
  }

  /** When the last of a block's readers is done and nobody reclaims the block, it has been freed:
      the hand-off never loses the responsibility. */
  lemma ReclaimedInTheEnd(events: seq<Event>, k: nat)
    requires var s := After(events);
             && k < s.mem.head.pos.lap && k < |s.hist.reclaim|
             && (forall t :: RoleAt(s, t).read.Some? ==> RoleAt(s, t).read.value.lap != k)
             && (forall t :: RoleAt(s, t).stage.Reclaims? ==> RoleAt(s, t).stage.k != k)
    ensures var s := After(events); s.hist.reclaim[k] == Freed && k < |s.hist.chain| && s.hist.chain[k] in s.mem.freed
  {
    var s := After(events);
    Reachable(events);
    assert ReclaimOk(s, k);
    var parked := if s.hist.reclaim[k].Parked? then s.hist.reclaim[k].i else 0;
    assert ReadOk(s, k, BLOCK_CAP - 1) && ReadOk(s, k, parked);
  }

  /** The mark in the head is sound: when it is set, the tail is in a later block. */
  lemma HeadMarkSound(events: seq<Event>)
    ensures var s := After(events); s.mem.head.mark ==> s.mem.head.pos.lap < s.mem.tail.pos.lap
  {
    Reachable(events);
  }
}
