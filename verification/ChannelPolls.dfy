/** What a poll of a send future comes to when nobody else steps meanwhile. */
module ChannelPolls {
  import opened Spec = ListenerSpec
  import opened ChannelModel
  import opened ChannelInvariant
  import opened ChannelProof
  import opened ChannelSteps
  import opened ChannelTheorems

  /** Agent `a` runs with nobody else stepping until it rests again, for at most `n` steps. */
  function RunAlone(s: State, a: Aid, n: nat): State
    decreases n
  {
    if n == 0 || a !in s.agents || Resting(s.agents[a].pc) then s
    else RunAlone(Step(s, Run(a, false)), a, n - 1)
  }

  function PollAlone(s: State, a: Aid): State {
    RunAlone(Step(s, Poll(a)), a, 7)
  }

  predicate CanPoll(s: State, a: Aid) {
    a in s.agents && (s.agents[a].pc.SendNew? || s.agents[a].pc.SendParked?)
  }

  /** A poll that began in `s` has ended in `s'`: with a result if the counter is below the capacity,
      `Ok` and the message pushed on an open channel, `Closed` on a closed one; parked, with nothing
      pushed, if it is not. */
  ghost predicate Ends(s: State, s': State, a: Aid) {
    && a in s.agents && a in s'.agents
    && (if s.ch.inQueue < s.ch.cap
        then s'.agents[a].pc == SendDone(!s.ch.closed) &&
             s'.ch.items == (s.ch.items + if s.ch.closed then [] else [s.agents[a].msg]) &&
             (s.ch.closed ==> a !in s'.woken)
        else s'.agents[a].pc == SendParked && s'.ch.items == s.ch.items && a !in s'.woken)
  }

  /** In every reachable state an undisturbed poll of a new or parked send future, notified or not,
      completes if and only if the counter is below the capacity; otherwise it parks again. */
  lemma PollExactly(cap: nat, events: seq<Event>, a: Aid)
    requires 0 < cap <= USIZE_MAX && CanPoll(After(cap, events), a)
    requires |After(cap, events).ch.sendOps.items| < USIZE_MAX
    ensures Ends(After(cap, events), PollAlone(After(cap, events), a), a)
  {
    Reachable(cap, events);
    PollEnds(After(cap, events), a);
  }

  /** On a closed channel it comes to `Closed` if and only if the counter is below the capacity. */
  lemma ClosedPollExactly(cap: nat, events: seq<Event>, a: Aid)
    requires 0 < cap <= USIZE_MAX && After(cap, events).ch.closed && CanPoll(After(cap, events), a)
    requires |After(cap, events).ch.sendOps.items| < USIZE_MAX
    ensures var s := After(cap, events); var s' := PollAlone(s, a);
            && a in s'.agents
            && (s'.agents[a].pc == SendDone(false) <==> s.ch.inQueue < cap)
            && (s'.agents[a].pc == SendParked <==> s.ch.inQueue >= cap)
            && s'.ch.items == s.ch.items && a !in s'.woken
  {
    PollExactly(cap, events, a);
    CapStays(cap, events);
  }

  /** On an open one it comes to `Ok`, with its message pushed, if and only if it is. */
  lemma OpenPollExactly(cap: nat, events: seq<Event>, a: Aid)
    requires 0 < cap <= USIZE_MAX && !After(cap, events).ch.closed && CanPoll(After(cap, events), a)
    requires |After(cap, events).ch.sendOps.items| < USIZE_MAX
    ensures var s := After(cap, events); var s' := PollAlone(s, a);
            && a in s'.agents
            && (s'.agents[a].pc == SendDone(true) <==> s.ch.inQueue < cap)
            && (s'.agents[a].pc == SendParked <==> s.ch.inQueue >= cap)
            && s'.ch.items == s.ch.items + if s.ch.inQueue < cap then [s.agents[a].msg] else []
  {
    PollExactly(cap, events, a);
    CapStays(cap, events);
  }

  /** On an empty open channel with nothing reserved or being taken it parks, beside all that room, if
      and only if the direct sends have taken the counter to where no reservation fits. */
  lemma StarvedExactly(cap: nat, events: seq<Event>, a: Aid)
    requires 0 < cap <= USIZE_MAX && CanPoll(After(cap, events), a)
    requires After(cap, events).ch.items == [] && !After(cap, events).ch.closed
    requires Reserving(After(cap, events)) == {} && Taking(After(cap, events)) == {}
    requires |After(cap, events).ch.sendOps.items| < USIZE_MAX
    ensures var s := After(cap, events); var s' := PollAlone(s, a);
            && a in s'.agents
            && (s'.agents[a].pc == SendParked <==> Starved(s.direct, cap))
            && (s'.agents[a].pc == SendDone(true) <==> !Starved(s.direct, cap))
  {
    OpenPollExactly(cap, events, a);
    CapacityConserved(cap, events);
    StarvedAt(After(cap, events));
  }

  lemma StarvedAt(s: State)
    requires Conserved(s) && 0 < s.ch.cap <= USIZE_MAX
    requires s.ch.items == [] && !s.ch.closed && Reserving(s) == {} && Taking(s) == {}
    ensures s.ch.inQueue >= s.ch.cap <==> Starved(s.direct, s.ch.cap)
  {
    EmptyCounter(0 - s.direct, s.direct, s.ch.cap);
  }

  /** Nothing gives back the reservation of a send that comes to `Closed`: beyond the capacity and what
      was sent directly none ever does, and later sends park. */
  lemma ClosedAnswersBounded(cap: nat, events: seq<Event>)
    requires 0 < cap <= USIZE_MAX
    ensures After(cap, events).rejected <= cap + After(cap, events).direct
    ensures After(cap, events).direct == 0 ==> After(cap, events).rejected <= After(cap, events).ch.inQueue <= cap
  {
    CapacityConserved(cap, events);
  }

  // ----- the poll, step by step -----

  /** The counter is loaded; what is left of the poll. */
  predicate Deciding(s: State, s': State, a: Aid) {
    && a in s.agents && a in s'.agents && s'.agents[a] == s.agents[a].(pc := SendDecide(s.ch.inQueue))
    && s'.ch == s.ch && a !in s'.woken
  }

  lemma PollEnds(s: State, a: Aid)
    requires Inv(s) && CanPoll(s, a) && |s.ch.sendOps.items| < USIZE_MAX
    ensures Ends(s, PollAlone(s, a), a)
  {
    var s1 := Step(s, Poll(a));
    var s2 := Step(s1, Run(a, false));
    PollLoads(s, a);
    StepKeeps(s, Poll(a));
    StepKeeps(s1, Run(a, false));
    assert RunAlone(s1, a, 7) == RunAlone(s2, a, 6);
    if s.ch.inQueue < s.ch.cap { RoomCompletes(s2, a); } else { FullParks(s2, a, 6); }
  }

  lemma PollLoads(s: State, a: Aid)
    requires CanPoll(s, a) && ListsOk(s)
    ensures var s1 := Step(s, Poll(a));
            && a in s1.agents && s1.agents[a].pc == SendLoad
            && Deciding(s, Step(s1, Run(a, false)), a)
  {
  }

  // ----- with room -----

  /** Completed, with `Ok` or `Closed`, and with these items. */
  predicate Completes(s': State, a: Aid, ok: bool, items: seq<Item>) {
    a in s'.agents && s'.agents[a].pc == SendDone(ok) && s'.ch.items == items && (!ok ==> a !in s'.woken)
  }

  lemma RoomCompletes(s: State, a: Aid)
    requires ListsOk(s) && a in s.agents && s.agents[a].pc == SendDecide(s.ch.inQueue) && s.ch.inQueue < s.ch.cap
    requires a !in s.woken
    ensures Completes(RunAlone(s, a, 6), a, !s.ch.closed, s.ch.items + if s.ch.closed then [] else [s.agents[a].msg])
  {
    var s1 := Step(s, Run(a, false));
    assert s1.agents[a] == s.agents[a].(pc := SendPush(s.ch.inQueue)) && ListsOk(s1);
    assert s1.ch.items == s.ch.items && s1.ch.closed == s.ch.closed;
    PushCompletes(s1, a);
    assert RunAlone(s, a, 6) == RunAlone(s1, a, 5);
  }

  lemma PushCompletes(s: State, a: Aid)
    requires ListsOk(s) && a in s.agents && s.agents[a].pc.SendPush? && a !in s.woken
    ensures Completes(RunAlone(s, a, 5), a, !s.ch.closed, s.ch.items + if s.ch.closed then [] else [s.agents[a].msg])
  {
    var s1 := Step(s, Run(a, false));
    if s.ch.closed {
      assert s1.agents[a].pc == SendDone(false) && s1.ch.items == s.ch.items == s.ch.items + [];
    } else {
      assert s1.agents[a].pc.SendCheckRecv? && s1.ch.items == s.ch.items + [s.agents[a].msg] && ListsOk(s1);
      CheckRecvCompletes(s1, a);
    }
    assert RunAlone(s, a, 5) == RunAlone(s1, a, 4);
  }

  lemma CheckRecvCompletes(s: State, a: Aid)
    requires ListsOk(s) && a in s.agents && s.agents[a].pc.SendCheckRecv?
    ensures Completes(RunAlone(s, a, 4), a, true, s.ch.items)
  {
    var s1 := Step(s, Run(a, false));
    assert ListsOk(s1) && s1.ch.items == s.ch.items;
    if s.ch.recvPublished < USIZE_MAX { LockRecvCompletes(s1, a); } else { AfterRecvCompletes(s1, a, 3); }
    assert RunAlone(s, a, 4) == RunAlone(s1, a, 3);
  }

  lemma LockRecvCompletes(s: State, a: Aid)
    requires ListsOk(s) && a in s.agents && s.agents[a].pc.SendLockRecv?
    ensures Completes(RunAlone(s, a, 3), a, true, s.ch.items)
  {
    var s1 := Step(s, Run(a, false));
    assert ListsOk(s1) && s1.ch.items == s.ch.items;
    AfterRecvCompletes(s1, a, 2);
    assert RunAlone(s, a, 3) == RunAlone(s1, a, 2);
  }

  lemma AfterRecvCompletes(s: State, a: Aid, n: nat)
    requires ListsOk(s) && a in s.agents && n >= 2
    requires s.agents[a].pc == SendDone(true) || s.agents[a].pc.SendCheckSend?
    ensures Completes(RunAlone(s, a, n), a, true, s.ch.items)
  {
    if s.agents[a].pc.SendCheckSend? {
      var s1 := Step(s, Run(a, false));
      assert ListsOk(s1) && s1.ch.items == s.ch.items;
      if s.ch.sendPublished < 1 {
        LockSendCompletes(s1, a, n - 1);
      } else {
        assert s1.agents[a].pc == SendDone(true);
      }
      assert RunAlone(s, a, n) == RunAlone(s1, a, n - 1);
    }
  }

  lemma LockSendCompletes(s: State, a: Aid, n: nat)
    requires ListsOk(s) && a in s.agents && s.agents[a].pc.SendLockSend? && n >= 1
    ensures Completes(RunAlone(s, a, n), a, true, s.ch.items)
  {
    var s1 := Step(s, Run(a, false));
    assert s1.agents[a].pc == SendDone(true) && s1.ch.items == s.ch.items;
    assert RunAlone(s, a, n) == RunAlone(s1, a, n - 1);
  }

  // ----- without -----

  predicate FullAt(s: State, a: Aid) {
    a in s.agents && s.agents[a].pc.SendDecide? && s.agents[a].pc.seen >= s.ch.cap && a !in s.woken
  }

  predicate Parks(s': State, a: Aid, items: seq<Item>) {
    a in s'.agents && s'.agents[a].pc == SendParked && s'.ch.items == items && a !in s'.woken
  }

  lemma FullParks(s: State, a: Aid, n: nat)
    requires Inv(s) && FullAt(s, a) && |s.ch.sendOps.items| < USIZE_MAX && n >= 3
    ensures Parks(RunAlone(s, a, n), a, s.ch.items)
  {
    assert AgentOk(s, a);
    if !s.agents[a].listening {
      ListensAndParks(s, a, n);
    } else {
      ListMember(s, s.ch.sendOps, s.ch.sendPublished, true, a);
      if WaiterOf(s.ch.sendOps, a).state.Notified? { ResumesAndParks(s, a, n); } else { ParksAtOnce(s, a, n); }
    }
  }

  lemma ParksAtOnce(s: State, a: Aid, n: nat)
    requires ListsOk(s) && FullAt(s, a) && s.agents[a].listening && n > 0
    requires InList(s.ch.sendOps, a) && !WaiterOf(s.ch.sendOps, a).state.Notified?
    ensures Parks(RunAlone(s, a, n), a, s.ch.items)
  {
    var s1 := Step(s, Run(a, false));
    assert s1.agents[a].pc == SendParked && s1.ch.items == s.ch.items && s1.woken == s.woken;
    assert RunAlone(s, a, n) == RunAlone(s1, a, n - 1) == s1;
  }

  /** It listens, for a waiter that nobody can have notified yet. */
  lemma Listens(s: State, a: Aid)
    requires Inv(s) && FullAt(s, a) && !s.agents[a].listening && |s.ch.sendOps.items| < USIZE_MAX
    ensures var s1 := Step(s, Run(a, false));
            && ListsOk(s1) && FullAt(s1, a) && s1.agents[a].listening && s1.ch.items == s.ch.items
            && InList(s1.ch.sendOps, a) && !WaiterOf(s1.ch.sendOps, a).state.Notified?
  {
    KindOfKeys(s, a);
    var l := Insert(s.ch.sendOps, a);
    assert l.items[|s.ch.sendOps.items|].key == a;
    assert forall j :: 0 <= j < |s.ch.sendOps.items| ==> s.ch.sendOps.items[j].key in Keys(s.ch.sendOps);
  }

  lemma ListensAndParks(s: State, a: Aid, n: nat)
    requires Inv(s) && FullAt(s, a) && !s.agents[a].listening && |s.ch.sendOps.items| < USIZE_MAX && n >= 2
    ensures Parks(RunAlone(s, a, n), a, s.ch.items)
  {
    Listens(s, a);
    var s1 := Step(s, Run(a, false));
    ParksAtOnce(s1, a, n - 1);
    assert RunAlone(s, a, n) == RunAlone(s1, a, n - 1);
  }

  /** It uses its notification up, decides again on the same count, listens and parks. */
  lemma ResumesAndParks(s: State, a: Aid, n: nat)
    requires Inv(s) && FullAt(s, a) && s.agents[a].listening && |s.ch.sendOps.items| < USIZE_MAX && n >= 3
    requires InList(s.ch.sendOps, a) && WaiterOf(s.ch.sendOps, a).state.Notified?
    ensures Parks(RunAlone(s, a, n), a, s.ch.items)
  {
    var s1 := Step(s, Run(a, false));
    StepKeeps(s, Run(a, false));
    Resumes(s, a);
    ListensAndParks(s1, a, n - 1);
    assert RunAlone(s, a, n) == RunAlone(s1, a, n - 1);
  }

  lemma Resumes(s: State, a: Aid)
    requires ListsOk(s) && FullAt(s, a) && s.agents[a].listening
    requires InList(s.ch.sendOps, a) && WaiterOf(s.ch.sendOps, a).state.Notified?
    ensures var s1 := Step(s, Run(a, false));
            && FullAt(s1, a) && !s1.agents[a].listening && s1.ch.items == s.ch.items
            && |s1.ch.sendOps.items| < |s.ch.sendOps.items|
  {
  }
}
