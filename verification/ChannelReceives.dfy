/** What a poll of a receiver comes to when nobody else steps meanwhile. */
module ChannelReceives {
  import opened Prelude
  import opened Spec = ListenerSpec
  import opened ChannelModel
  import opened ChannelInvariant
  import opened ChannelProof
  import opened ChannelSteps
  import opened ChannelTheorems

  /** The receiver has made up its mind, or rests. */
  predicate Decided(pc: PC) {
    pc.RecvFinish? || Resting(pc)
  }

  /** Receiver `a` runs with nobody else stepping until it has decided, for at most `n` steps. */
  function RunUp(s: State, a: Aid, n: nat): State
    decreases n
  {
    if n == 0 || a !in s.agents || Decided(s.agents[a].pc) then s
    else RunUp(Step(s, Run(a, false)), a, n - 1)
  }

  function ReceiveAlone(s: State, a: Aid): State {
    RunUp(Step(s, Poll(a)), a, 5)
  }

  /** The receiver looks into the queue when polled: it listens to nothing, or has been notified. */
  predicate Hears(s: State, a: Aid) {
    a in s.agents &&
    (s.agents[a].pc.RecvNew? ||
     (s.agents[a].pc.RecvParked? && InList(s.ch.recvOps, a) && WaiterOf(s.ch.recvOps, a).state.Notified?))
  }

  predicate IsNone(s': State, a: Aid) {
    a in s'.agents && s'.agents[a].pc == RecvFinish(None)
  }

  predicate IsSome(s': State, a: Aid, item: Item) {
    a in s'.agents && s'.agents[a].pc == RecvFinish(Some(item))
  }

  /** Parked, to be notified and woken. */
  predicate Waits(s': State, a: Aid) {
    && a in s'.agents && s'.agents[a].pc == RecvParked && a !in s'.woken
    && InList(s'.ch.recvOps, a) && !WaiterOf(s'.ch.recvOps, a).state.Notified?
  }

  /** The front of the queue, or else its end, or else nothing yet. */
  ghost predicate Comes(s: State, s': State, a: Aid) {
    && (s.ch.items != [] ==> IsSome(s', a, s.ch.items[0]) && s'.ch.items == s.ch.items[1..])
    && (s.ch.items == [] ==> s'.ch.items == [] && if s.ch.closed then IsNone(s', a) else Waits(s', a))
  }

  /** In every reachable state an undisturbed poll of a receiver yields the front of the queue if there is one,
      the end if there is none and the channel is closed, and parks otherwise; but a parked receiver that
      has not been notified stays parked. */
  lemma ReceivesExactly(cap: nat, events: seq<Event>, a: Aid)
    requires 0 < cap <= USIZE_MAX && |After(cap, events).ch.recvOps.items| < USIZE_MAX
    requires a in After(cap, events).agents
    requires After(cap, events).agents[a].pc.RecvNew? || After(cap, events).agents[a].pc.RecvParked?
    ensures var s := After(cap, events); var s' := ReceiveAlone(s, a);
            && (Hears(s, a) ==> Comes(s, s', a))
            && (!Hears(s, a) ==> Waits(s', a) && s'.ch.items == s.ch.items)
  {
    Reachable(cap, events);
    Receives(After(cap, events), a);
  }

  /** Unless somebody who pushed or closed is still on the way to notifying it, that makes no difference. */
  lemma SettledReceivesExactly(cap: nat, events: seq<Event>, a: Aid)
    requires 0 < cap <= USIZE_MAX && |After(cap, events).ch.recvOps.items| < USIZE_MAX
    requires a in After(cap, events).agents && !RecvPending(After(cap, events))
    requires After(cap, events).agents[a].pc.RecvNew? || After(cap, events).agents[a].pc.RecvParked?
    ensures Comes(After(cap, events), ReceiveAlone(After(cap, events), a), a)
  {
    ReceivesExactly(cap, events, a);
    if After(cap, events).agents[a].pc.RecvParked? { ReceiverNotForgotten(cap, events, a); }
  }

  /** Having decided, its next step ends the poll with that answer, and it listens no more. */
  lemma AnswersAndRests(cap: nat, events: seq<Event>, a: Aid)
    requires 0 < cap <= USIZE_MAX && a in After(cap, events).agents && After(cap, events).agents[a].pc.RecvFinish?
    ensures var s := After(cap, events); var s' := Step(s, Run(a, false));
            && a in s'.agents && s'.agents[a] == s.agents[a].(pc := RecvNew, listening := false)
            && a !in Keys(s'.ch.recvOps) && s'.ch.items == s.ch.items
  {
    Reachable(cap, events);
    Rests(After(cap, events), a);
  }

  lemma Rests(s: State, a: Aid)
    requires Inv(s) && a in s.agents && s.agents[a].pc.RecvFinish?
    ensures var s' := Step(s, Run(a, false));
            && a in s'.agents && s'.agents[a] == s.agents[a].(pc := RecvNew, listening := false)
            && a !in Keys(s'.ch.recvOps) && s'.ch.items == s.ch.items
  {
    var s' := Step(s, Run(a, false));
    StepKeeps(s, Run(a, false));
    KindOfKeys(s', a);
    RestsAt(s, a);
  }

  lemma RestsAt(s: State, a: Aid)
    requires Lists(s) && a in s.agents && s.agents[a].pc.RecvFinish?
    ensures var s' := RunReceiver(s, a);
            a in s'.agents && s'.agents[a] == s.agents[a].(pc := RecvNew, listening := false) &&
            s'.ch.items == s.ch.items
  {
    assert AgentOk(s, a);
    if s.agents[a].listening { ListMember(s, s.ch.recvOps, s.ch.recvPublished, false, a); }
  }

  // ----- the poll, step by step -----

  lemma Receives(s: State, a: Aid)
    requires Inv(s) && |s.ch.recvOps.items| < USIZE_MAX
    requires a in s.agents && (s.agents[a].pc.RecvNew? || s.agents[a].pc.RecvParked?)
    ensures Hears(s, a) ==> Comes(s, ReceiveAlone(s, a), a)
    ensures !Hears(s, a) ==> Waits(ReceiveAlone(s, a), a) && ReceiveAlone(s, a).ch.items == s.ch.items
  {
    var s1 := Step(s, Poll(a));
    StepKeeps(s, Poll(a));
    assert AgentOk(s, a);
    if s.agents[a].pc.RecvNew? {
      Pops(s1, a, 5);
    } else {
      ListMember(s, s.ch.recvOps, s.ch.recvPublished, false, a);
      if Hears(s, a) { Heard(s1, a); } else { StaysParked(s1, a, 5); }
    }
  }

  /** A listener that has not been notified ends the poll. */
  lemma StaysParked(s: State, a: Aid, n: nat)
    requires ListsOk(s) && a in s.agents && s.agents[a].pc.RecvPollListener? && n > 0 && a !in s.woken
    requires InList(s.ch.recvOps, a) && !WaiterOf(s.ch.recvOps, a).state.Notified?
    ensures Waits(RunUp(s, a, n), a) && RunUp(s, a, n).ch.items == s.ch.items
  {
    var l, i := s.ch.recvOps, Find(s.ch.recvOps.items, a);
    var s1 := Step(s, Run(a, false));
    SameFind(l, SetState(l, i, Polling(a)), a);
    assert s1.agents[a].pc == RecvParked && s1.ch.items == s.ch.items && s1.woken == s.woken;
    Onward(s, a, n);
  }

  lemma {:induction false} FindSame(items: seq<Waiter<Aid>>, items': seq<Waiter<Aid>>, a: Aid)
    requires |items'| == |items| && forall j :: 0 <= j < |items| ==> items'[j].key == items[j].key
    ensures Find(items', a) == Find(items, a)
  {
    if items != [] && items[0].key != a { FindSame(items[1..], items'[1..], a); }
  }

  lemma SameFind(l: WaitList<Aid>, l': WaitList<Aid>, a: Aid)
    requires |l'.items| == |l.items| && forall j :: 0 <= j < |l.items| ==> l'.items[j].key == l.items[j].key
    ensures Find(l'.items, a) == Find(l.items, a)
  {
    FindSame(l.items, l'.items, a);
  }

  /** It uses its notification up, and looks. */
  lemma Heard(s: State, a: Aid)
    requires Inv(s) && a in s.agents && s.agents[a].pc.RecvPollListener? && a !in s.woken
    requires |s.ch.recvOps.items| < USIZE_MAX
    requires InList(s.ch.recvOps, a) && WaiterOf(s.ch.recvOps, a).state.Notified?
    ensures Comes(s, RunUp(s, a, 5), a)
  {
    StepKeeps(s, Run(a, false));
    HeardAt(s, a);
    Pops(Step(s, Run(a, false)), a, 4);
    Onward(s, a, 5);
  }

  lemma HeardAt(s: State, a: Aid)
    requires Lists(s) && a in s.agents && s.agents[a].pc.RecvPollListener?
    requires InList(s.ch.recvOps, a) && WaiterOf(s.ch.recvOps, a).state.Notified?
    ensures var s1 := Step(s, Run(a, false));
            && a in s1.agents && s1.agents[a] == s.agents[a].(listening := false, pc := RecvPop)
            && s1.ch.items == s.ch.items && s1.ch.closed == s.ch.closed && s1.woken == s.woken
            && |s1.ch.recvOps.items| < |s.ch.recvOps.items|
  {
  }

  lemma Pops(s: State, a: Aid, n: nat)
    requires Inv(s) && a in s.agents && s.agents[a].pc.RecvPop? && !s.agents[a].listening && a !in s.woken
    requires |s.ch.recvOps.items| < USIZE_MAX && n >= 4
    ensures Comes(s, RunUp(s, a, n), a)
  {
    if s.ch.items != [] { Takes(s, a, n); }
    else if s.ch.closed {
      var s1 := Step(s, Run(a, false));
      assert IsNone(s1, a) && s1.ch.items == [];
      assert RunUp(s, a, n) == RunUp(s1, a, n - 1) == s1;
    } else { ListensFirst(s, a, n); }
  }

  // ----- with an item -----

  /** `s1` follows `s`, with the same items, when `a` runs, and finds it at one of these points. */
  predicate Next(s: State, s1: State, a: Aid, pc: PC, pc': PC) {
    ListsOk(s1) && a in s1.agents && s1.agents[a].pc in {pc, pc'} && s1.ch.items == s.ch.items
  }

  lemma Takes(s: State, a: Aid, n: nat)
    requires ListsOk(s) && a in s.agents && s.agents[a].pc.RecvPop? && s.ch.items != [] && n >= 4
    ensures IsSome(RunUp(s, a, n), a, s.ch.items[0]) && RunUp(s, a, n).ch.items == s.ch.items[1..]
  {
    TakesFront(s, a);
    CountsOff(Step(s, Run(a, false)), a, n - 1, s.ch.items[0]);
    Onward(s, a, n);
  }

  lemma TakesFront(s: State, a: Aid)
    requires ListsOk(s) && a in s.agents && s.agents[a].pc.RecvPop? && s.ch.items != []
    ensures var s1 := Step(s, Run(a, false));
            && ListsOk(s1) && a in s1.agents && s1.agents[a].pc == RecvTake(s.ch.items[0])
            && s1.ch.items == s.ch.items[1..]
  {
  }

  lemma CountsOff(s: State, a: Aid, n: nat, item: Item)
    requires ListsOk(s) && a in s.agents && s.agents[a].pc == RecvTake(item) && n >= 3
    ensures IsSome(RunUp(s, a, n), a, item) && RunUp(s, a, n).ch.items == s.ch.items
  {
    var s1 := TakeGoesOn(s, a, n, item);
    ChecksOrEnds(s1, a, n - 1, item);
  }

  lemma ChecksOrEnds(s: State, a: Aid, n: nat, item: Item)
    requires ListsOk(s) && a in s.agents && s.agents[a].pc in {RecvCheck(item), RecvFinish(Some(item))} && n >= 2
    ensures IsSome(RunUp(s, a, n), a, item) && RunUp(s, a, n).ch.items == s.ch.items
  {
    if s.agents[a].pc.RecvCheck? { Checks(s, a, n, item); }
  }

  lemma TakeGoesOn(s: State, a: Aid, n: nat, item: Item) returns (s1: State)
    requires ListsOk(s) && a in s.agents && s.agents[a].pc == RecvTake(item) && n > 0
    ensures Next(s, s1, a, RecvCheck(item), RecvFinish(Some(item))) && RunUp(s, a, n) == RunUp(s1, a, n - 1)
  {
    s1 := Step(s, Run(a, false));
    Onward(s, a, n);
  }

  lemma Checks(s: State, a: Aid, n: nat, item: Item)
    requires ListsOk(s) && a in s.agents && s.agents[a].pc == RecvCheck(item) && n >= 2
    ensures IsSome(RunUp(s, a, n), a, item) && RunUp(s, a, n).ch.items == s.ch.items
  {
    var s1 := CheckGoesOn(s, a, n, item);
    if s1.agents[a].pc.RecvLock? { Locks(s1, a, n - 1, item); }
  }

  lemma CheckGoesOn(s: State, a: Aid, n: nat, item: Item) returns (s1: State)
    requires ListsOk(s) && a in s.agents && s.agents[a].pc == RecvCheck(item) && n > 0
    ensures Next(s, s1, a, RecvLock(item), RecvFinish(Some(item))) && RunUp(s, a, n) == RunUp(s1, a, n - 1)
  {
    s1 := Step(s, Run(a, false));
    Onward(s, a, n);
  }

  lemma Locks(s: State, a: Aid, n: nat, item: Item)
    requires ListsOk(s) && a in s.agents && s.agents[a].pc == RecvLock(item) && n >= 1
    ensures IsSome(RunUp(s, a, n), a, item) && RunUp(s, a, n).ch.items == s.ch.items
  {
    var s1 := Step(s, Run(a, false));
    assert s1.agents[a].pc == RecvFinish(Some(item)) && s1.ch.items == s.ch.items;
    Onward(s, a, n);
  }

  // ----- without -----

  /** It listens, looks again, and parks. */
  lemma ListensFirst(s: State, a: Aid, n: nat)
    requires Lists(s) && a in s.agents && s.agents[a].pc.RecvPop? && !s.agents[a].listening && a !in s.woken
    requires s.ch.items == [] && !s.ch.closed && |s.ch.recvOps.items| < USIZE_MAX && n >= 4
    ensures Waits(RunUp(s, a, n), a) && RunUp(s, a, n).ch.items == []
  {
    HasListened(s, a, n);
    LooksAgain(Step(Step(s, Run(a, false)), Run(a, false)), a, n - 2);
  }

  /** At its second look. */
  predicate LooksTwice(s: State, a: Aid) {
    && ListsOk(s) && a in s.agents && s.agents[a].pc.RecvPop? && s.agents[a].listening && a !in s.woken
    && InList(s.ch.recvOps, a) && !WaiterOf(s.ch.recvOps, a).state.Notified?
  }

  lemma HasListened(s: State, a: Aid, n: nat)
    requires Lists(s) && a in s.agents && s.agents[a].pc.RecvPop? && !s.agents[a].listening && a !in s.woken
    requires s.ch.items == [] && !s.ch.closed && |s.ch.recvOps.items| < USIZE_MAX && n >= 4
    ensures var s2 := Step(Step(s, Run(a, false)), Run(a, false));
            LooksTwice(s2, a) && s2.ch.items == [] && !s2.ch.closed && RunUp(s, a, n) == RunUp(s2, a, n - 2)
  {
    FindsNothing(s, a);
    ListensAt(s, Step(s, Run(a, false)), a);
    Onward(s, a, n);
    Onward(Step(s, Run(a, false)), a, n - 1);
  }

  lemma FindsNothing(s: State, a: Aid)
    requires ListsOk(s) && a in s.agents && s.agents[a].pc.RecvPop? && s.ch.items == [] && !s.ch.closed
    ensures var s1 := Step(s, Run(a, false));
            && s1.ch == s.ch && s1.woken == s.woken && a in s1.agents
            && s1.agents[a] == s.agents[a].(pc := if s.agents[a].listening then RecvPollListener else RecvListen)
  {
  }

  lemma Onward(s: State, a: Aid, n: nat)
    requires n > 0 && a in s.agents && !Decided(s.agents[a].pc)
    ensures RunUp(s, a, n) == RunUp(Step(s, Run(a, false)), a, n - 1)
  {
  }

  lemma LooksAgain(s: State, a: Aid, n: nat)
    requires LooksTwice(s, a) && s.ch.items == [] && !s.ch.closed && n >= 2
    ensures Waits(RunUp(s, a, n), a) && RunUp(s, a, n).ch.items == []
  {
    FindsNothing(s, a);
    StaysParked(Step(s, Run(a, false)), a, n - 1);
    Onward(s, a, n);
  }

  lemma ListensAt(s: State, s1: State, a: Aid)
    requires Lists(s) && a in s.agents && !s.agents[a].listening && |s.ch.recvOps.items| < USIZE_MAX
    requires s1.ch == s.ch && a in s1.agents && s1.agents[a] == s.agents[a].(pc := RecvListen) && a !in s1.woken
    ensures var s2 := Step(s1, Run(a, false));
            LooksTwice(s2, a) && s2.ch.items == s.ch.items && s2.ch.closed == s.ch.closed
  {
    KindOfKeys(s, a);
    InsertedLast(s.ch.recvOps, a);
    JustListens(s1, a);
  }

  lemma InsertedLast(l: WaitList<Aid>, a: Aid)
    requires WellFormed(l) && a !in Keys(l)
    ensures InList(Insert(l, a), a) && !WaiterOf(Insert(l, a), a).state.Notified?
  {
    assert Insert(l, a).items[|l.items|].key == a;
    assert forall j :: 0 <= j < |l.items| ==> l.items[j].key in Keys(l);
  }

  lemma JustListens(s: State, a: Aid)
    requires ListsOk(s) && a in s.agents && s.agents[a].pc == RecvListen && |s.ch.recvOps.items| < USIZE_MAX
    ensures var s1 := Step(s, Run(a, false));
            && ListsOk(s1) && a in s1.agents && s1.agents[a] == s.agents[a].(pc := RecvPop, listening := true)
            && s1.ch.recvOps == Insert(s.ch.recvOps, a) && s1.woken == s.woken
            && s1.ch.items == s.ch.items && s1.ch.closed == s.ch.closed
  {
  }
}
