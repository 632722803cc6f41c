/** What an operation on the segmented queue comes to when no other is in progress. */
module QueueAlone {
  import opened Prelude
  import opened PackedIndex
  import opened QueueModel
  import opened QueueInvariant
  import opened QueueTheorems

  /** Thread `t` alone has an operation in progress. */
  ghost predicate Alone(s: State, t: Tid) {
    t in s.threads && forall u :: u in s.threads ==> u == t
  }

  predicate Popping(pc: PC) {
    ReadAt(pc).Some? || pc.PopLoadIndex? || pc.PopLoadBlock? || pc.PopTry? || pc.PopClaim?
  }

  /** The state, and the answer, of thread `t` after its operation or `n` steps of it. */
  function RunAlone(s: State, t: Tid, n: nat): State
    decreases n
  {
    if n == 0 || t !in s.threads then s else RunAlone(Step(s, Run(t, false)), t, n - 1)
  }

  function AnswerAlone(s: State, t: Tid, n: nat): Option<Response>
    decreases n
  {
    if n == 0 || t !in s.threads then None
    else
      match Exec(s.mem, s.threads[t], false)
      case Return(_, resp) => Some(resp)
      case _ => AnswerAlone(Step(s, Run(t, false)), t, n - 1)
  }

  // ----- how many steps are left -----

  /** Reclaiming a whole block. */
  const RECLAIM := 2 * BLOCK_CAP - 1

  const STEPS := RECLAIM + 14

  function PushLeft(m: Memory, pc: PC): nat {
    match pc
    case PushMark(_, _, _, _, _) => 1
    case PushWrite(_, _, _, _, _) => 2
    case PushInstallNext(_, _, _, _) => 3
    case PushInstallIndex(_, _, _, _) => 4
    case PushInstallBlock(_, _, _, _) => 5
    case PushTry(_, spare, tail, block) =>
      Needs(spare) + (if tail == m.tail && block.Some? then 6
                      else if tail == m.tail && m.tailBlock.None? then 8
                      else if block.Some? then 11 else 13)
    case PushSetHead(_, spare, tail, _) => Needs(spare) + if tail == m.tail then 7 else 12
    case PushLoadBlock(_, spare, tail) => Needs(spare) + if tail == m.tail then 9 else 14
    case PushLoadIndex(_, spare) => Needs(spare) + 10
    case _ => 0
  }

  /** A thread without a spare block may still have to allocate one. */
  function Needs(spare: Option<Bid>): nat {
    if spare.None? then 1 else 0
  }

  function PopLeft(m: Memory, pc: PC): nat {
    match pc
    case Destroy(_, _, _, _, i) => if i < BLOCK_CAP - 1 then 2 * (BLOCK_CAP - 1 - i) + 1 else 1
    case DestroyMark(_, _, _, _, i) => if i < BLOCK_CAP - 1 then 2 * (BLOCK_CAP - 1 - i) else 1
    case PopMarkRead(_, _, _, _) => RECLAIM + 1
    case PopRead(_, _, _) => RECLAIM + 2
    case PopWaitWrite(_, _, _) => RECLAIM + 3
    case PopSetIndex(_, _, _) => RECLAIM + 4
    case PopSetBlock(_, _, _, _) => RECLAIM + 5
    case PopPeek(_, _, _) => RECLAIM + 6
    case PopWaitNext(_, _) => RECLAIM + 7
    case PopClaim(head, block, _) => RECLAIM + if head == m.head && block.Some? then 8 else 12
    case PopTry(head, block) => RECLAIM + if head == m.head && block == m.headBlock then 9 else 13
    case PopLoadBlock(head) => RECLAIM + if head == m.head then 10 else 14
    case PopLoadIndex => RECLAIM + 11
    case _ => 0
  }

  function Left(m: Memory, pc: PC): (n: nat)
    ensures n <= STEPS
  {
    if Popping(pc) then PopLeft(m, pc) else PushLeft(m, pc)
  }

  // ----- every step of a lone thread gets it closer to its answer -----

  /** The step returns, or leaves fewer steps. */
  predicate Nearer(m: Memory, pc: PC) {
    match Exec(m, pc, false)
    case Fault => false
    case Next(m', pc') => Popping(pc') == Popping(pc) && Left(m', pc') < Left(m, pc)
    case Return(_, _) => true
  }

  lemma NoFaultNow(s: State, t: Tid)
    requires Inv(s) && t in s.threads
    ensures !Exec(s.mem, s.threads[t], false).Fault?
  {
    StepKeeps(s, Run(t, false));
  }

  /** Nobody is in the middle of moving either end. */
  lemma EndsAtRest(s: State, t: Tid)
    requires Ends(s) && Alone(s, t) && StageOf(s.threads[t]).Plain?
    ensures s.mem.tail.pos.off < BLOCK_CAP && s.mem.head.pos.off < BLOCK_CAP
    ensures s.mem.headBlock.None? ==> s.mem.tailBlock.None? && s.mem.tail.pos == Pos(0, 0)
  {
  }

  lemma PushNearer(s: State, t: Tid)
    requires Ends(s) && Alone(s, t) && !Popping(s.threads[t]) && !Exec(s.mem, s.threads[t], false).Fault?
    ensures Nearer(s.mem, s.threads[t])
  {
    if s.threads[t].PushTry? {
      EndsAtRest(s, t);
      TryNearer(s.mem, s.threads[t]);
    } else {
      WriteNearer(s.mem, s.threads[t]);
    }
  }

  lemma WriteNearer(m: Memory, pc: PC)
    requires !Popping(pc) && !pc.PushTry? && !Exec(m, pc, false).Fault?
    ensures Nearer(m, pc)
  {
  }

  lemma TryNearer(m: Memory, pc: PC)
    requires pc.PushTry? && !Exec(m, pc, false).Fault? && m.tail.pos.off < BLOCK_CAP
    ensures Nearer(m, pc)
  {
  }

  lemma PopNearer(s: State, t: Tid)
    requires Blocks(s) && Ends(s) && Links(s) && Writes(s) && Alone(s, t)
    requires ThreadOk(s, t, s.threads[t]) && Popping(s.threads[t]) && !Exec(s.mem, s.threads[t], false).Fault?
    ensures Nearer(s.mem, s.threads[t])
  {
    var pc := s.threads[t];
    if pc.PopTry? || pc.PopClaim? {
      EndsAtRest(s, t);
      ClaimNearer(s.mem, pc);
    } else if pc.PopWaitNext? {
      NextIsThere(s, t);
    } else if pc.PopWaitWrite? {
      WriteIsThere(s, t);
    } else {
      ElseNearer(s.mem, pc);
    }
  }

  lemma ElseNearer(m: Memory, pc: PC)
    requires Popping(pc) && !Exec(m, pc, false).Fault?
    requires !pc.PopTry? && !pc.PopClaim? && !pc.PopWaitNext? && !pc.PopWaitWrite?
    requires pc.DestroyMark? ==> pc.at < BLOCK_CAP - 1
    ensures Nearer(m, pc)
  {
  }

  lemma ClaimNearer(m: Memory, pc: PC)
    requires (pc.PopTry? || pc.PopClaim?) && m.head.pos.off < BLOCK_CAP
    requires m.headBlock.None? ==> m.tail.pos == Pos(0, 0) && m.head == Index(Pos(0, 0), false)
    ensures Nearer(m, pc)
  {
  }

  lemma NextIsThere(s: State, t: Tid)
    requires Blocks(s) && Ends(s) && Links(s) && Alone(s, t) && s.threads[t].PopWaitNext?
    requires ThreadOk(s, t, s.threads[t])
    requires !Exec(s.mem, s.threads[t], false).Fault?
    ensures Nearer(s.mem, s.threads[t])
  {
    var pc := s.threads[t];
    assert LinkOk(s, pc.lap);
  }

  lemma WriteIsThere(s: State, t: Tid)
    requires Blocks(s) && Ends(s) && Writes(s) && Alone(s, t) && s.threads[t].PopWaitWrite?
    requires ThreadOk(s, t, s.threads[t])
    requires !Exec(s.mem, s.threads[t], false).Fault?
    ensures Nearer(s.mem, s.threads[t])
  {
    var pc := s.threads[t];
    assert WriteOk(s, pc.lap, pc.off);
  }

  // ----- the answer -----

  /** What a push by `pc` comes to: the queue was closed before it took its value, or the value is in. */
  ghost predicate PushComes(pc: PC, q: Fifo, resp: Option<Response>, q': Fifo)
    requires !Popping(pc)
  {
    if WriteAt(pc).Some? then resp == Some(PushOk) && q' == q
    else if q.closed then resp == Some(PushErr(pc.v)) && q' == q
    else resp == Some(PushOk) && q' == q.(items := q.items + [pc.v])
  }

  /** What a pop by `pc` comes to: the value it has claimed, or else the front of the queue, or else
      that there is none. */
  ghost predicate PopComes(pc: PC, pushed: seq<Value>, q: Fifo, resp: Option<Response>, q': Fifo)
    requires Popping(pc)
  {
    if ReadAt(pc).Some?
    then Ord(ReadAt(pc).value) < |pushed| && resp == Some(PopOk(pushed[Ord(ReadAt(pc).value)])) && q' == q
    else if q.items != [] then resp == Some(PopOk(q.items[0])) && q' == q.(items := q.items[1..])
    else resp == Some(if q.closed then PopClosed else PopEmpty) && q' == q
  }

  ghost predicate Comes(s: State, t: Tid, resp: Option<Response>, s': State)
    requires t in s.threads && Ord(s.mem.head.pos) <= |s.hist.pushed| && Ord(s'.mem.head.pos) <= |s'.hist.pushed|
  {
    if Popping(s.threads[t]) then PopComes(s.threads[t], s.hist.pushed, Abstract(s), resp, Abstract(s'))
    else PushComes(s.threads[t], Abstract(s), resp, Abstract(s'))
  }

  ghost predicate ComesAs(s: State, t: Tid, n: nat) {
    && t in s.threads && Ord(s.mem.head.pos) <= |s.hist.pushed|
    && RunAlone(s, t, n).threads == map[]
    && Ord(RunAlone(s, t, n).mem.head.pos) <= |RunAlone(s, t, n).hist.pushed|
    && Comes(s, t, AnswerAlone(s, t, n), RunAlone(s, t, n))
  }

  lemma {:induction false} LoneOperation(events: seq<Event>, t: Tid, n: nat)
    requires Alone(After(events), t) && Left(After(events).mem, After(events).threads[t]) <= n
    ensures ComesAs(After(events), t, n)
    decreases n
  {
    var s := After(events);
    LoneAt(events, t);
    if Exec(s.mem, s.threads[t], false).Next? {
      StaysAlone(s, t);
      Longer(events, Run(t, false));
      LoneOperation(events + [Run(t, false)], t, n - 1);
    }
    StepComes(s, t, n);
  }

  lemma Longer(events: seq<Event>, e: Event)
    ensures After(events + [e]) == Step(After(events), e)
  {
    assert (events + [e])[..|events|] == events;
  }

  lemma LoneAt(events: seq<Event>, t: Tid)
    requires Alone(After(events), t)
    ensures StepsOn(After(events), t)
  {
    Reachable(events);
    LoneStep(After(events), t);
  }

  /** One step of a lone thread: it gets nearer, does as the abstract queue does, and reports the truth. */
  ghost predicate StepsOn(s: State, t: Tid) {
    && Alone(s, t) && Nearer(s.mem, s.threads[t])
    && var s1 := Step(s, Run(t, false));
    && Ord(s.mem.head.pos) <= |s.hist.pushed| && Ord(s1.mem.head.pos) <= |s1.hist.pushed|
    && FifoStep(Abstract(s), ActionOf(s, Run(t, false)), Abstract(s1))
    && (match Exec(s.mem, s.threads[t], false)
        case Return(_, resp) => ResponseOk(s, t, resp)
        case _ => true)
  }

  lemma StaysAlone(s: State, t: Tid)
    requires StepsOn(s, t) && Exec(s.mem, s.threads[t], false).Next?
    ensures var s1 := Step(s, Run(t, false)); Alone(s1, t) && Left(s1.mem, s1.threads[t]) < Left(s.mem, s.threads[t])
  {
  }

  lemma LoneStep(s: State, t: Tid)
    requires Inv(s) && Alone(s, t)
    ensures StepsOn(s, t)
  {
    NoFaultNow(s, t);
    if Popping(s.threads[t]) { PopNearer(s, t); } else { PushNearer(s, t); }
    RefinesFifo(s, Run(t, false));
    if Exec(s.mem, s.threads[t], false).Return? { Responses(s, t, false); }
  }

  lemma StepComes(s: State, t: Tid, n: nat)
    requires StepsOn(s, t) && n > 0
    requires Exec(s.mem, s.threads[t], false).Next? ==> ComesAs(Step(s, Run(t, false)), t, n - 1)
    ensures ComesAs(s, t, n)
  {
    if Exec(s.mem, s.threads[t], false).Return? { Returns(s, t, n); }
    else if Popping(s.threads[t]) { PopGoesOn(s, t); }
    else { PushGoesOn(s, t); }
  }

  lemma Returns(s: State, t: Tid, n: nat)
    requires StepsOn(s, t) && n > 0 && Exec(s.mem, s.threads[t], false).Return?
    ensures ComesAs(s, t, n)
  {
    assert RunAlone(s, t, n) == RunAlone(Step(s, Run(t, false)), t, n - 1) == Step(s, Run(t, false));
  }

  lemma PushGoesOn(s: State, t: Tid)
    requires t in s.threads && !Popping(s.threads[t]) && Exec(s.mem, s.threads[t], false).Next?
    ensures var pc, pc' := s.threads[t], Exec(s.mem, s.threads[t], false).pc;
            && !Popping(pc') && pc'.v == pc.v && (WriteAt(pc).Some? ==> WriteAt(pc').Some?)
  {
  }

  lemma PopGoesOn(s: State, t: Tid)
    requires t in s.threads && Popping(s.threads[t]) && Exec(s.mem, s.threads[t], false).Next?
    ensures var pc, pc' := s.threads[t], Exec(s.mem, s.threads[t], false).pc;
            && Popping(pc') && (ReadAt(pc).Some? ==> ReadAt(pc') == ReadAt(pc))
            && (ReadAt(pc).None? && ReadAt(pc').Some? ==> ReadAt(pc').value == s.mem.head.pos)
    ensures Step(s, Run(t, false)).hist.pushed == s.hist.pushed
  {
  }

  // ----- the main results -----

  /** In every run in which only one operation is in progress, that operation, wherever it has come to, returns
      within a fixed number of undisturbed steps, with the answer that is due: a push unless the queue is
      closed adds its value at the back, a pop takes the front, or tells that there is none. */
  lemma LoneOperationReturns(events: seq<Event>, t: Tid)
    requires Alone(After(events), t)
    ensures ComesAs(After(events), t, STEPS)
  {
    LoneOperation(events, t, STEPS);
  }

  /** On a quiet queue an undisturbed push reports success, its value at the back, if and only if the queue is open;
      if it is closed it gives the value back. */
  lemma PushExactly(events: seq<Event>, t: Tid, v: Value)
    requires After(events).threads == map[]
    ensures var s, s0 := After(events), Step(After(events), StartPush(t, v));
            var s', resp := RunAlone(s0, t, STEPS), AnswerAlone(s0, t, STEPS);
            && Ord(s.mem.head.pos) <= |s.hist.pushed| && Ord(s'.mem.head.pos) <= |s'.hist.pushed|
            && s'.threads == map[] && Abstract(s').closed == Abstract(s).closed
            && (Abstract(s).closed ==> resp == Some(PushErr(v)) && Abstract(s').items == Abstract(s).items)
            && (!Abstract(s).closed ==> resp == Some(PushOk) && Abstract(s').items == Abstract(s).items + [v])
  {
    Longer(events, StartPush(t, v));
    LoneOperation(events + [StartPush(t, v)], t, STEPS);
  }

  /** An undisturbed pop takes the front of a quiet queue if it has one; otherwise it tells whether the
      queue is closed. */
  lemma PopExactly(events: seq<Event>, t: Tid)
    requires After(events).threads == map[]
    ensures var s, s0 := After(events), Step(After(events), StartPop(t));
            var s', resp := RunAlone(s0, t, STEPS), AnswerAlone(s0, t, STEPS);
            && Ord(s.mem.head.pos) <= |s.hist.pushed| && Ord(s'.mem.head.pos) <= |s'.hist.pushed|
            && s'.threads == map[] && Abstract(s').closed == Abstract(s).closed
            && (if Abstract(s).items != []
                then resp == Some(PopOk(Abstract(s).items[0])) && Abstract(s').items == Abstract(s).items[1..]
                else resp == Some(if Abstract(s).closed then PopClosed else PopEmpty) && Abstract(s').items == [])
  {
    Longer(events, StartPop(t));
    LoneOperation(events + [StartPop(t)], t, STEPS);
  }
}
