/** Two short runs in which the channel keeps a sender waiting. */
module ChannelLimits {
  import opened Spec = ListenerSpec
  import opened ChannelModel
  import opened ChannelInvariant

  lemma Advance(cap: nat, events: seq<Event>, e: Event) returns (r: seq<Event>)
    ensures After(cap, r) == Step(After(cap, events), e)
  {
    r := events + [e];
    assert r[..|events|] == events;
  }

  function Twice(s: State, a: Aid): State {
    Step(Step(s, Run(a, false)), Run(a, false))
  }

  function Begin(s: State, a: Aid, pc: PC, m: Item): State {
    Step(Step(s, Spawn(a, pc, m)), Poll(a))
  }

  lemma Runs2(cap: nat, events: seq<Event>, a: Aid) returns (r: seq<Event>)
    ensures After(cap, r) == Twice(After(cap, events), a)
  {
    r := Advance(cap, events, Run(a, false));
    r := Advance(cap, r, Run(a, false));
  }

  lemma Starts(cap: nat, events: seq<Event>, a: Aid, pc: PC, m: Item) returns (r: seq<Event>)
    ensures After(cap, r) == Begin(After(cap, events), a, pc, m)
  {
    r := Advance(cap, events, Spawn(a, pc, m));
    r := Advance(cap, r, Poll(a));
  }

  // ----- one place, taken by the item of send future 0 -----

  const NOBODY: WaitList<Aid> := WaitList([], 0)
  const PARKED: WaitList<Aid> := WaitList([Waiter(1, Polling(1))], 0)
  const TOLD: WaitList<Aid> := WaitList([Waiter(1, Notified(false))], 1)

  function Reserved(m: Item): State {
    State(Channel([], false, 1, 1, NOBODY, USIZE_MAX, NOBODY, USIZE_MAX),
          map[0 := Agent(SendPush(0), false, m)], {}, 1, 0, 0, {0}, {}, false)
  }

  function Full(m: Item): State {
    State(Channel([m], false, 1, 1, NOBODY, USIZE_MAX, NOBODY, USIZE_MAX),
          map[0 := Agent(SendDone(true), false, m)], {}, 1, 0, 0, {}, {}, false)
  }

  lemma FirstReserves(m: Item)
    ensures Twice(Begin(Initial(1), 0, SendNew, m), 0) == Reserved(m)
  {
  }

  lemma FirstPushes(m: Item)
    ensures Twice(Reserved(m), 0) == Full(m)
  {
  }

  /** Send future 1 has seen the counter full. */
  function SeenFull(m: Item): State {
    Full(m).(agents := Full(m).agents[1 := Agent(SendDecide(1), false, m)])
  }

  lemma SecondLooks(m: Item) returns (r: seq<Event>)
    ensures After(1, r) == SeenFull(m)
  {
    r := Starts(1, [], 0, SendNew, m);
    r := Runs2(1, r, 0);
    FirstReserves(m);
    r := Runs2(1, r, 0);
    FirstPushes(m);
    r := Starts(1, r, 1, SendNew, m);
    r := Advance(1, r, Run(1, false));
    SecondSees(m);
  }

  lemma SecondSees(m: Item)
    ensures Step(Begin(Full(m), 1, SendNew, m), Run(1, false)) == SeenFull(m)
  {
  }

  // ----- room is made between the load and the listening -----

  function Freeing(m: Item): State {
    var s := SeenFull(m);
    s.(agents := s.agents[2 := Agent(RecvCheck(m), false, m)],
       ch := s.ch.(items := [], inQueue := 0), net := 0, raced := true)
  }

  function Freed(m: Item): State {
    Freeing(m).(agents := Freeing(m).agents[2 := Agent(RecvNew, false, m)])
  }

  function Forgotten(m: Item): State {
    var s := Freed(m);
    s.(agents := s.agents[1 := Agent(SendParked, true, m)], ch := s.ch.(sendOps := PARKED, sendPublished := 0))
  }

  function Popping(m: Item): State {
    var s := SeenFull(m);
    s.(agents := s.agents[2 := Agent(RecvTake(m), false, m)], ch := s.ch.(items := []), taking := {2})
  }

  lemma ReceiverPops(m: Item)
    ensures Step(Begin(SeenFull(m), 2, RecvNew, m), Run(2, false)) == Popping(m)
  {
  }

  lemma ReceiverTakes(m: Item)
    ensures Step(Popping(m), Run(2, false)) == Freeing(m)
  {
    var s := Popping(m);
    assert 1 in s.agents && s.agents[1].pc.SendDecide? && s.agents[1].pc.seen >= s.ch.cap;
    assert (1 + USIZE_MAX) % WORD == 0;
  }

  lemma ReceiverFinds(m: Item)
    ensures Twice(Freeing(m), 2) == Freed(m)
  {
  }

  lemma SecondParks(m: Item)
    ensures Twice(Freed(m), 1) == Forgotten(m)
  {
    assert Insert(NOBODY, 1 as Aid).items == [Waiter(1, Created)];
  }

  /** `SendFuture::poll` does not load the counter again after it has begun to listen.  A receiver
      that makes room in between finds nobody to notify, and the sender parks beside a free place
      with nobody on the way to notify it: the proviso of `SenderNotForgotten` is needed. */
  lemma SenderCanBeForgotten(m: Item) returns (r: seq<Event>)
    ensures var s := After(1, r);
            && 1 in s.agents && s.agents[1].pc.SendParked? && 1 !in s.woken
            && s.ch.items == [] && s.ch.inQueue == 0 < s.ch.cap && !s.ch.closed && s.direct == 0
            && s.ch.sendOps.notified == 0 && !SendPending(s)
  {
    r := SecondLooks(m);
    r := Starts(1, r, 2, RecvNew, m);
    r := Advance(1, r, Run(2, false));
    ReceiverPops(m);
    r := Advance(1, r, Run(2, false));
    ReceiverTakes(m);
    r := Runs2(1, r, 2);
    ReceiverFinds(m);
    r := Runs2(1, r, 1);
    SecondParks(m);
  }

  // ----- closing -----

  function Waiting(m: Item, closed: bool): State {
    var s := SeenFull(m);
    s.(agents := s.agents[1 := Agent(SendParked, true, m)],
       ch := s.ch.(sendOps := PARKED, sendPublished := 0, closed := closed))
  }

  function Closing(m: Item): State {
    Waiting(m, true).(agents := Waiting(m, true).agents[3 := Agent(CloseLockSend, false, m)])
  }

  function Told(m: Item): State {
    Waiting(m, true).(ch := Waiting(m, true).ch.(sendOps := TOLD, sendPublished := USIZE_MAX), woken := {1})
  }

  function Resumed(m: Item): State {
    SeenFull(m).(ch := SeenFull(m).ch.(closed := true))
  }

  lemma SeesAndParks(m: Item)
    ensures Twice(SeenFull(m), 1) == Waiting(m, false) && Twice(Resumed(m), 1) == Waiting(m, true)
  {
    assert Insert(NOBODY, 1 as Aid).items == [Waiter(1, Created)];
  }

  lemma CloserMarks(m: Item)
    ensures Twice(Step(Waiting(m, false), Spawn(3, CloseMark, m)), 3) == Closing(m)
  {
  }

  function Telling(m: Item): State {
    Told(m).(agents := Told(m).agents[3 := Agent(CloseCheckRecv, false, m)])
  }

  lemma ToldWakes()
    ensures Notify(PARKED, USIZE_MAX) == TOLD && Elements(Woken(PARKED, TOLD)) == {1}
  {
    assert Wakers(PARKED.items, 0, 0) == [];
    assert Woken(PARKED, TOLD) == [1];
  }

  lemma CloserTells(m: Item)
    ensures Step(Closing(m), Run(3, false)) == Telling(m)
  {
    ToldWakes();
  }

  lemma CloserLeaves(m: Item)
    ensures Step(Telling(m), Run(3, false)) == Told(m)
  {
    assert Telling(m).agents - {3} == Told(m).agents;
  }

  lemma SecondResumes(m: Item)
    ensures Twice(Step(Told(m), Poll(1)), 1) == Resumed(m)
  {
    assert RemoveAt(TOLD, 0) == NOBODY;
  }

  /** Closing wakes a blocked sender, but one that still finds the counter full parks again instead
      of reporting that the channel is closed. */
  lemma ClosedSenderParksAgain(m: Item) returns (r: seq<Event>)
    ensures var s := After(1, r);
            && s.ch.closed && s.agents.Keys == {0, 1} && s.agents[0].pc.SendDone?
            && s.agents[1].pc.SendParked? && 1 !in s.woken && s.ch.sendOps.notified == 0
  {
    r := SecondLooks(m);
    r := Runs2(1, r, 1);
    SeesAndParks(m);
    r := Advance(1, r, Spawn(3, CloseMark, m));
    r := Runs2(1, r, 3);
    CloserMarks(m);
    r := Advance(1, r, Run(3, false));
    CloserTells(m);
    r := Advance(1, r, Run(3, false));
    CloserLeaves(m);
    r := Advance(1, r, Poll(1));
    r := Runs2(1, r, 1);
    SecondResumes(m);
    r := Runs2(1, r, 1);
  }

  // ----- direct sends -----

  /** The counter below zero, and nothing in the channel. */
  function Wrapped(m: Item): State {
    State(Channel([], false, USIZE_MAX, 1, NOBODY, USIZE_MAX, NOBODY, USIZE_MAX),
          map[1 := Agent(RecvCheck(m), false, m)], {}, -1, 1, 0, {}, {}, false)
  }

  function Starving(m: Item): State {
    Wrapped(m).(agents := map[1 := Agent(RecvNew, false, m), 2 := Agent(SendParked, true, m)],
                ch := Wrapped(m).ch.(sendOps := WaitList([Waiter(2, Polling(2))], 0), sendPublished := 0))
  }

  function Sent(m: Item): State {
    State(Channel([m], false, 0, 1, NOBODY, USIZE_MAX, NOBODY, USIZE_MAX), map[], {}, 0, 1, 0, {}, {}, false)
  }

  lemma DirectSends(m: Item)
    ensures Twice(Step(Initial(1), Spawn(0, DirectPush, m)), 0) == Sent(m)
  {
    assert map[0 := Agent(DirectCheck, false, m)] - {0} == map[];
  }

  function Took(m: Item): State {
    Sent(m).(agents := map[1 := Agent(RecvTake(m), false, m)], ch := Sent(m).ch.(items := []), taking := {1})
  }

  lemma DirectReceived(m: Item)
    ensures Step(Begin(Sent(m), 1, RecvNew, m), Run(1, false)) == Took(m)
  {
  }

  lemma DirectCountedOff(m: Item)
    ensures Step(Took(m), Run(1, false)) == Wrapped(m)
  {
    assert (0 + USIZE_MAX) % WORD == USIZE_MAX;
  }

  function Received(m: Item): State {
    Wrapped(m).(agents := map[1 := Agent(RecvNew, false, m)])
  }

  lemma ReceiverRests(m: Item)
    ensures Twice(Wrapped(m), 1) == Received(m)
  {
  }

  function Looking(m: Item): State {
    Received(m).(agents := Received(m).agents[2 := Agent(SendDecide(USIZE_MAX), false, m)])
  }

  lemma SenderLooks(m: Item)
    ensures Step(Begin(Received(m), 2, SendNew, m), Run(2, false)) == Looking(m)
  {
  }

  lemma SenderParks(m: Item)
    ensures Twice(Looking(m), 2) == Starving(m)
  {
    assert Insert(NOBODY, 2 as Aid).items == [Waiter(2, Created)];
  }

  /** A direct send reserves nothing, but counting its message off takes one from the counter.  After
      one that was received on a quiet channel the counter is the largest word, and the next send
      parks on an empty open channel, as `ChannelPolls.StarvedExactly` says. */
  lemma DirectSendStarves(m: Item) returns (r: seq<Event>)
    ensures var s := After(1, r);
            && s.ch.items == [] && !s.ch.closed && s.ch.inQueue == USIZE_MAX && !s.raced && s.direct == 1
            && s.agents.Keys == {1, 2} && s.agents[1].pc.RecvNew? && s.agents[2].pc.SendParked? && 2 !in s.woken
  {
    r := Advance(1, [], Spawn(0, DirectPush, m));
    r := Runs2(1, r, 0);
    DirectSends(m);
    r := Starts(1, r, 1, RecvNew, m);
    r := Advance(1, r, Run(1, false));
    DirectReceived(m);
    r := Advance(1, r, Run(1, false));
    DirectCountedOff(m);
    r := Runs2(1, r, 1);
    ReceiverRests(m);
    r := Starts(1, r, 2, SendNew, m);
    r := Advance(1, r, Run(2, false));
    SenderLooks(m);
    r := Runs2(1, r, 2);
    SenderParks(m);
  }
}
