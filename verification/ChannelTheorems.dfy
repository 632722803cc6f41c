/** What the channel guarantees over whole runs, whatever the order of the steps. */
module ChannelTheorems {
  import opened Spec = ListenerSpec
  import opened ChannelModel
  import opened ChannelInvariant
  import opened ChannelProof
  import opened ChannelSteps

  // ----- receivers -----

  function WaiterOf(l: WaitList<Aid>, a: Aid): Waiter<Aid>
    requires InList(l, a)
  {
    l.items[Find(l.items, a)]
  }

  /** A parked receiver is on the list.  If it has been notified it has also been woken since its
      last poll began; if not, the queue is empty and open, or someone who pushed or closed is still
      on the way to notifying everybody. */
  lemma ReceiverNotForgotten(cap: nat, events: seq<Event>, a: Aid)
    requires 0 < cap <= USIZE_MAX
    requires a in After(cap, events).agents && After(cap, events).agents[a].pc.RecvParked?
    ensures var s := After(cap, events);
            && InList(s.ch.recvOps, a)
            && (WaiterOf(s.ch.recvOps, a).state.Notified? ==> a in s.woken)
            && (!WaiterOf(s.ch.recvOps, a).state.Notified? ==> (s.ch.items == [] && !s.ch.closed) || RecvPending(s))
  {
    Reachable(cap, events);
    ReceiverAt(After(cap, events), a);
  }

  lemma ReceiverAt(s: State, a: Aid)
    requires Lists(s) && RecvWake(s) && a in s.agents && s.agents[a].pc.RecvParked?
    ensures InList(s.ch.recvOps, a)
    ensures WaiterOf(s.ch.recvOps, a).state.Notified? ==> a in s.woken
    ensures !WaiterOf(s.ch.recvOps, a).state.Notified? ==> (s.ch.items == [] && !s.ch.closed) || RecvPending(s)
  {
    assert AgentOk(s, a);
    ListMember(s, s.ch.recvOps, s.ch.recvPublished, false, a);
    assert WaiterOk(s, WaiterOf(s.ch.recvOps, a));
    assert WaiterOf(s.ch.recvOps, a).state.Notified? || Unheard(s, WaiterOf(s.ch.recvOps, a));
  }

  // ----- the counter -----

  /** The counter accounts for the items, the reservations not yet turned into items, the items
      taken but not yet counted off, and the reservations a closed queue turned down, less the items
      pushed without a reservation, as a machine word.  Together they never exceed the capacity by more
      than what was pushed without a reservation; without such pushes the counter is exact. */
  ghost predicate Conserved(s: State) {
    var held := |s.ch.items| + |Reserving(s)| + |Taking(s)| + s.rejected;
    && s.ch.inQueue == (held - s.direct) % WORD
    && held <= s.ch.cap + s.direct
    && (s.direct == 0 ==> held == s.ch.inQueue)
    && (s.rejected > 0 ==> s.ch.closed)
  }

  lemma CapacityConserved(cap: nat, events: seq<Event>)
    requires 0 < cap <= USIZE_MAX
    ensures Conserved(After(cap, events)) && After(cap, events).ch.cap == cap
  {
    Reachable(cap, events);
    CapStays(cap, events);
    CountsMeaning(After(cap, events));
  }

  lemma CountsMeaning(s: State)
    requires Counts(s)
    ensures Conserved(s)
  {
    assert s.reserved == Reserving(s);
    assert s.taking == Taking(s);
  }

  function Reserving(s: State): set<Aid> {
    set a | a in s.agents && s.agents[a].pc.SendPush?
  }

  function Taking(s: State): set<Aid> {
    set a | a in s.agents && s.agents[a].pc.RecvTake?
  }

  lemma {:induction false} CapStays(cap: nat, events: seq<Event>)
    ensures After(cap, events).ch.cap == cap
  {
    if events != [] {
      CapStays(cap, events[..|events| - 1]);
      CapStep(After(cap, events[..|events| - 1]), events[|events| - 1]);
    }
  }

  lemma CapStep(s: State, e: Event)
    ensures Step(s, e).ch.cap == s.ch.cap
  {
    match e
    case Run(a, spurious) =>
      if a in s.agents && IsSender(s.agents[a].pc) { assert RunSender(s, a, spurious).ch.cap == s.ch.cap; }
      else if a in s.agents && IsReceiver(s.agents[a].pc) { assert RunReceiver(s, a).ch.cap == s.ch.cap; }
      else if a in s.agents { assert RunOther(s, a).ch.cap == s.ch.cap; }
    case _ =>
  }

  // ----- senders -----

  /** Whenever there is room and somebody listens for it, a listener is already notified or someone
      is on the way to notify one, closed or not, with direct sends or without: provided no item was
      counted off while a send future was acting on having seen the counter full. */
  lemma SenderNotForgotten(cap: nat, events: seq<Event>, a: Aid)
    requires 0 < cap <= USIZE_MAX
    requires !After(cap, events).raced
    requires a in After(cap, events).agents && After(cap, events).agents[a].pc.SendParked?
    ensures var s := After(cap, events);
            && InList(s.ch.sendOps, a)
            && (WaiterOf(s.ch.sendOps, a).state.Notified? ==> a in s.woken)
            && (s.ch.inQueue < cap ==> s.ch.sendOps.items[0].state.Notified? || SendPending(s))
  {
    Reachable(cap, events);
    CapStays(cap, events);
    SenderAt(After(cap, events), a);
  }

  lemma SenderAt(s: State, a: Aid)
    requires Lists(s) && SendWake(s) && !s.raced && a in s.agents && s.agents[a].pc.SendParked?
    ensures InList(s.ch.sendOps, a)
    ensures WaiterOf(s.ch.sendOps, a).state.Notified? ==> a in s.woken
    ensures s.ch.inQueue < s.ch.cap ==> s.ch.sendOps.items[0].state.Notified? || SendPending(s)
  {
    assert AgentOk(s, a);
    ListMember(s, s.ch.sendOps, s.ch.sendPublished, true, a);
    assert WaiterOk(s, WaiterOf(s.ch.sendOps, a));
  }

  /** While a send future is deciding, only it takes steps; a schedule of whole polls is one such. */
  ghost predicate PollsUndisturbed(cap: nat, events: seq<Event>) {
    forall k, a ::
      0 <= k < |events| && a in After(cap, events[..k]).agents && After(cap, events[..k]).agents[a].pc.SendDecide?
      ==> events[k].Run? && events[k].a == a
  }

  /** Then the proviso of `SenderNotForgotten` holds. */
  lemma {:induction false} UndisturbedNeverRaces(cap: nat, events: seq<Event>)
    requires PollsUndisturbed(cap, events)
    ensures !After(cap, events).raced
  {
    if events != [] {
      var n := |events| - 1;
      var before := events[..n];
      assert forall k :: 0 <= k < n ==> before[..k] == events[..k];
      assert PollsUndisturbed(cap, before);
      UndisturbedNeverRaces(cap, before);
      var s, e := After(cap, before), events[n];
      assert events[..n] == before;
      if Step(s, e).raced { RacesOnlyAt(s, e); }
    }
  }

  lemma RacesOnlyAt(s: State, e: Event)
    requires !s.raced && Step(s, e).raced
    ensures e.Run? && e.a in s.agents && s.agents[e.a].pc.RecvTake?
    ensures exists b :: b in s.agents && s.agents[b].pc.SendDecide?
  {
  }

  // ----- nobody waits for nothing -----

  /** Direct sends that were received have taken the counter below zero, to a word that no
      reservation fits under. */
  predicate Starved(direct: nat, cap: nat) {
    0 < direct % WORD <= WORD - cap
  }

  /** When every agent rests, a sleeping receiver (parked, not woken) means an empty open queue with
      nothing reserved.  Then the counter is as the direct sends left it: it admits no sender exactly
      if the senders are starved.  If it admits one, a parked sender is not stuck beside the receiver:
      a sender has been woken, or a completed send future still holds a notification that its drop
      will pass on. */
  lemma NoDeadlock(cap: nat, events: seq<Event>, r: Aid, a: Aid)
    requires 0 < cap <= USIZE_MAX && !After(cap, events).raced
    requires forall b :: b in After(cap, events).agents ==> Resting(After(cap, events).agents[b].pc)
    requires r in After(cap, events).agents && After(cap, events).agents[r].pc.RecvParked?
    requires r !in After(cap, events).woken
    requires a in After(cap, events).agents && After(cap, events).agents[a].pc.SendParked?
    ensures var s := After(cap, events);
            && s.ch.items == [] && !s.ch.closed && Reserving(s) == {} && Taking(s) == {}
            && s.ch.inQueue == (if s.direct % WORD == 0 then 0 else WORD - s.direct % WORD)
            && (s.ch.inQueue >= cap <==> Starved(s.direct, cap))
            && (Starved(s.direct, cap) || exists b :: Holds(s, b))
  {
    Reachable(cap, events);
    CapStays(cap, events);
    DeadlockAt(After(cap, events), r, a);
  }

  lemma DeadlockAt(s: State, r: Aid, a: Aid)
    requires Inv(s) && !s.raced && forall b :: b in s.agents ==> Resting(s.agents[b].pc)
    requires r in s.agents && s.agents[r].pc.RecvParked? && r !in s.woken
    requires a in s.agents && s.agents[a].pc.SendParked?
    ensures s.ch.items == [] && !s.ch.closed && Reserving(s) == {} && Taking(s) == {}
    ensures s.ch.inQueue == if s.direct % WORD == 0 then 0 else WORD - s.direct % WORD
    ensures s.ch.inQueue >= s.ch.cap <==> Starved(s.direct, s.ch.cap)
    ensures Starved(s.direct, s.ch.cap) || exists b :: Holds(s, b)
  {
    ReceiverAt(s, r);
    assert !RecvPending(s) && !SendPending(s);
    CountsMeaning(s);
    assert Reserving(s) == {} && Taking(s) == {};
    EmptyCounter(s.net, s.direct, s.ch.cap);
    SenderAt(s, a);
    if s.ch.inQueue < s.ch.cap { FirstHolds(s); }
  }

  /** A sender with a notification: woken, or completed and not dropped yet. */
  ghost predicate Holds(s: State, b: Aid) {
    && b in s.agents && InList(s.ch.sendOps, b) && WaiterOf(s.ch.sendOps, b).state.Notified?
    && (s.agents[b].pc.SendDone? || (s.agents[b].pc.SendParked? && b in s.woken))
  }

  lemma FirstHolds(s: State)
    requires Lists(s) && forall b :: b in s.agents ==> Resting(s.agents[b].pc)
    requires s.ch.sendOps.items != [] && s.ch.sendOps.items[0].state.Notified?
    ensures exists b :: Holds(s, b)
  {
    var b := s.ch.sendOps.items[0].key;
    assert WaiterOk(s, s.ch.sendOps.items[0]);
    assert Find(s.ch.sendOps.items, b) == 0;
    assert AgentOk(s, b);
    assert Holds(s, b);
  }

  /** The counter of an empty open channel with nothing reserved or being taken. */
  lemma EmptyCounter(net: int, direct: nat, cap: nat)
    requires 0 < cap <= USIZE_MAX && net + direct == 0
    ensures net % WORD == if direct % WORD == 0 then 0 else WORD - direct % WORD
    ensures net % WORD >= cap <==> Starved(direct, cap)
  {
    var q, d := direct / WORD, direct % WORD;
    assert direct == q * WORD + d;
    if d == 0 { assert net == (0 - q) * WORD; } else { assert net == (0 - q - 1) * WORD + (WORD - d); }
  }
}
