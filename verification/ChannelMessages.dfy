/** What happens to the messages themselves. */
module ChannelMessages {
  import opened Prelude
  import opened Spec = ListenerSpec
  import opened ChannelModel
  import opened ChannelSteps
  import opened ChannelExact

  /** The message an event puts into the channel, if any: that of a sender at its push, while the
      channel is open. */
  function SentBy(s: State, e: Event): seq<Item> {
    if e.Run? && e.a in s.agents && (s.agents[e.a].pc.SendPush? || s.agents[e.a].pc.DirectPush?) && !s.ch.closed
    then [s.agents[e.a].msg] else []
  }

  /** The message a receiver comes to hold between two states. */
  function TakenBy(s: State, s': State, a: Aid): Option<Item> {
    if a in s.agents && s.agents[a].pc.RecvPop? && a in s'.agents && s'.agents[a].pc.RecvTake?
    then Some(s'.agents[a].pc.item) else None
  }

  function Taken(s: State, s': State, a: Aid): seq<Item> {
    if TakenBy(s, s', a).Some? then [TakenBy(s, s', a).value] else []
  }

  function Sent(cap: nat, events: seq<Event>): seq<Item> {
    if events == [] then [] else
    var before := events[..|events| - 1];
    Sent(cap, before) + SentBy(After(cap, before), events[|events| - 1])
  }

  function Received(cap: nat, events: seq<Event>): seq<Item> {
    if events == [] then [] else
    var before, e := events[..|events| - 1], events[|events| - 1];
    Received(cap, before) + Taken(After(cap, before), After(cap, events), Actor(e))
  }

  /** Messages are received once each, in the order in which they were sent; those not received yet
      are in the queue. */
  lemma {:induction false} MessagesInOrder(cap: nat, events: seq<Event>)
    requires 0 < cap <= USIZE_MAX
    ensures Sent(cap, events) == Received(cap, events) + After(cap, events).ch.items
  {
    if events != [] {
      var before, e := events[..|events| - 1], events[|events| - 1];
      MessagesInOrder(cap, before);
      ListsFine(cap, before);
      ItemsStep(After(cap, before), e);
      ItemsAppend(Sent(cap, before), Received(cap, before), After(cap, before).ch.items, SentBy(After(cap, before), e),
                  Taken(After(cap, before), After(cap, events), Actor(e)), After(cap, events).ch.items);
    }
  }

  lemma ListsFine(cap: nat, events: seq<Event>)
    requires 0 < cap <= USIZE_MAX
    ensures ListsOk(After(cap, events))
  {
    Reachable(cap, events);
  }

  lemma ItemsAppend(sent: seq<Item>, received: seq<Item>, items: seq<Item>,
                    entering: seq<Item>, leaving: seq<Item>, items': seq<Item>)
    requires sent == received + items && items + entering == leaving + items'
    ensures sent + entering == received + leaving + items'
  {
    assert received + items + entering == received + (items + entering);
    assert received + leaving + items' == received + (leaving + items');
  }

  lemma ItemsStep(s: State, e: Event)
    requires ListsOk(s)
    ensures var s' := Step(s, e); s.ch.items + SentBy(s, e) == Taken(s, s', Actor(e)) + s'.ch.items
  {
    if e.Run? && e.a in s.agents {
      if IsSender(s.agents[e.a].pc) { SenderItems(s, e.a, e.spurious); }
      else if IsReceiver(s.agents[e.a].pc) { ReceiverItems(s, e.a); }
      else { OtherItems(s, e.a); }
    }
  }

  lemma SenderItems(s: State, a: Aid, spurious: bool)
    requires ListsOk(s) && a in s.agents && IsSender(s.agents[a].pc)
    ensures RunSender(s, a, spurious).ch.items == s.ch.items + SentBy(s, Run(a, spurious))
  {
  }

  lemma ReceiverItems(s: State, a: Aid)
    requires ListsOk(s) && a in s.agents && IsReceiver(s.agents[a].pc)
    ensures s.ch.items == Taken(s, RunReceiver(s, a), a) + RunReceiver(s, a).ch.items
  {
  }

  lemma OtherItems(s: State, a: Aid)
    requires ListsOk(s) && a in s.agents && !IsSender(s.agents[a].pc) && !IsReceiver(s.agents[a].pc)
    ensures RunOther(s, a).ch.items == s.ch.items + SentBy(s, Run(a, false))
  {
  }

  /** What a receiver holds, up to the result of its poll. */
  function Holds(pc: PC): Option<Item> {
    match pc
    case RecvTake(item) => Some(item)
    case RecvCheck(item) => Some(item)
    case RecvLock(item) => Some(item)
    case RecvFinish(result) => result
    case _ => None
  }

  /** What agent `a` holds and has not yielded yet. */
  function InHand(s: State, a: Aid): seq<Item> {
    if a in s.agents && Holds(s.agents[a].pc).Some? then [Holds(s.agents[a].pc).value] else []
  }

  /** The answer with which a receiver's poll ends between two states. */
  function Answer(s: State, s': State, a: Aid): Option<Option<Item>> {
    if a in s.agents && s.agents[a].pc.RecvFinish? && a in s'.agents && s'.agents[a].pc.RecvNew?
    then Some(s.agents[a].pc.result) else None
  }

  function Yielded(s: State, s': State, a: Aid): seq<Item> {
    match Answer(s, s', a)
    case Some(Some(item)) => [item]
    case _ => []
  }

  function TakenOf(cap: nat, events: seq<Event>, a: Aid): seq<Item> {
    if events == [] then [] else
    var before := events[..|events| - 1];
    TakenOf(cap, before, a) + Taken(After(cap, before), After(cap, events), a)
  }

  function YieldedBy(cap: nat, events: seq<Event>, a: Aid): seq<Item> {
    if events == [] then [] else
    var before := events[..|events| - 1];
    YieldedBy(cap, before, a) + Yielded(After(cap, before), After(cap, events), a)
  }

  /** Over a whole run a receiver yields exactly the messages it took, in that order, but for the one it
      still has in hand. */
  lemma {:induction false} YieldsWhatItTook(cap: nat, events: seq<Event>, a: Aid)
    requires 0 < cap <= USIZE_MAX
    ensures TakenOf(cap, events, a) == YieldedBy(cap, events, a) + InHand(After(cap, events), a)
  {
    if events != [] {
      var before := events[..|events| - 1];
      YieldsWhatItTook(cap, before, a);
      ListsFine(cap, before);
      HandStep(After(cap, before), events[|events| - 1], a);
      ItemsAppend(TakenOf(cap, before, a), YieldedBy(cap, before, a), InHand(After(cap, before), a),
                  Taken(After(cap, before), After(cap, events), a), Yielded(After(cap, before), After(cap, events), a),
                  InHand(After(cap, events), a));
    }
  }

  lemma HandStep(s: State, e: Event, a: Aid)
    requires ListsOk(s)
    ensures var s' := Step(s, e); InHand(s, a) + Taken(s, s', a) == Yielded(s, s', a) + InHand(s', a)
  {
    if Actor(e) != a { OthersHoldBack(s, e, a); }
    else if e.Run? && a in s.agents {
      if IsSender(s.agents[a].pc) { SenderHoldsNothing(s, a, e.spurious); }
      else if IsReceiver(s.agents[a].pc) { ReceiverHand(s, a); }
      else { OtherHoldsNothing(s, a); }
    }
  }

  lemma ReceiverHand(s: State, a: Aid)
    requires ListsOk(s) && a in s.agents && IsReceiver(s.agents[a].pc)
    ensures var s' := RunReceiver(s, a); InHand(s, a) + Taken(s, s', a) == Yielded(s, s', a) + InHand(s', a)
  {
    if s.agents[a].pc.RecvFinish? { FinishHand(s, a); }
    else if s.agents[a].pc.RecvPop? { PopHand(s, a); }
    else { BusyHand(s, a); }
  }

  lemma FinishHand(s: State, a: Aid)
    requires ListsOk(s) && a in s.agents && s.agents[a].pc.RecvFinish?
    ensures var s' := RunReceiver(s, a); InHand(s, a) == Yielded(s, s', a) && InHand(s', a) == Taken(s, s', a) == []
  {
  }

  lemma PopHand(s: State, a: Aid)
    requires ListsOk(s) && a in s.agents && s.agents[a].pc.RecvPop?
    ensures var s' := RunReceiver(s, a); InHand(s, a) == [] == Yielded(s, s', a) && Taken(s, s', a) == InHand(s', a)
  {
  }

  lemma BusyHand(s: State, a: Aid)
    requires ListsOk(s) && a in s.agents && IsReceiver(s.agents[a].pc)
    requires !s.agents[a].pc.RecvFinish? && !s.agents[a].pc.RecvPop?
    ensures var s' := RunReceiver(s, a); InHand(s, a) == InHand(s', a) && Yielded(s, s', a) == [] == Taken(s, s', a)
  {
  }

  /** The step of a poll that finds the queue empty and closed. */
  predicate FindsEnd(s: State, e: Event, a: Aid) {
    e.Run? && e.a == a && a in s.agents && s.agents[a].pc.RecvPop? && s.ch.items == [] && s.ch.closed
  }

  predicate Ending(s: State, a: Aid) {
    a in s.agents && s.agents[a].pc == RecvFinish(None)
  }

  /** Step `k` found the end, and the poll has been on its way to say so since. */
  ghost predicate EndingSince(cap: nat, events: seq<Event>, a: Aid, k: nat) {
    && k < |events| && FindsEnd(After(cap, events[..k]), events[k], a)
    && forall j :: k < j <= |events| ==> Ending(After(cap, events[..j]), a)
  }

  /** The end of the stream is answered only by a poll that found the queue empty and closed. */
  lemma {:induction false} EndsOnlyAtTheEnd(cap: nat, events: seq<Event>, a: Aid)
    requires Ending(After(cap, events), a)
    ensures exists k :: EndingSince(cap, events, a, k)
  {
    var before := events[..|events| - 1];
    if Ending(After(cap, before), a) {
      EndsOnlyAtTheEnd(cap, before, a);
      var k :| EndingSince(cap, before, a, k);
      EndingGoesOn(cap, events, a, k);
    } else {
      BeginsEnding(After(cap, before), events[|events| - 1], a);
      EndingBegun(cap, events, a);
    }
  }

  lemma EndingBegun(cap: nat, events: seq<Event>, a: Aid)
    requires events != [] && Ending(After(cap, events), a)
    requires FindsEnd(After(cap, events[..|events| - 1]), events[|events| - 1], a)
    ensures EndingSince(cap, events, a, |events| - 1)
  {
    assert events[..|events|] == events;
  }

  lemma EndingGoesOn(cap: nat, events: seq<Event>, a: Aid, k: nat)
    requires events != [] && EndingSince(cap, events[..|events| - 1], a, k) && Ending(After(cap, events), a)
    ensures EndingSince(cap, events, a, k)
  {
    var n := |events| - 1;
    forall j | k < j <= |events| ensures Ending(After(cap, events[..j]), a) {
      if j <= n { assert events[..n][..j] == events[..j]; } else { assert events[..j] == events; }
    }
    assert events[..n][..k] == events[..k];
  }

  lemma BeginsEnding(s: State, e: Event, a: Aid)
    requires !Ending(s, a) && Ending(Step(s, e), a)
    ensures FindsEnd(s, e, a)
  {
    if Actor(e) != a { OthersHoldBack(s, e, a); }
    else if e.Run? && a in s.agents {
      if IsSender(s.agents[a].pc) { SenderHoldsNothing(s, a, e.spurious); }
      else if IsReceiver(s.agents[a].pc) { ReceiverEnds(s, a); }
      else { OtherNeverEnds(s, a); }
    }
  }

  lemma ReceiverEnds(s: State, a: Aid)
    requires a in s.agents && IsReceiver(s.agents[a].pc) && !Ending(s, a) && Ending(RunReceiver(s, a), a)
    ensures FindsEnd(s, Run(a, false), a)
  {
  }

  lemma OtherNeverEnds(s: State, a: Aid)
    requires a in s.agents && !IsReceiver(s.agents[a].pc)
    ensures !Ending(RunOther(s, a), a)
  {
  }

  lemma OthersHold(s: State, e: Event, a: Aid)
    requires Actor(e) != a && a in Step(s, e).agents
    ensures a in s.agents && Step(s, e).agents[a] == s.agents[a]
  {
    match e
    case Run(b, spurious) =>
      if b in s.agents {
        if IsSender(s.agents[b].pc) { SenderOnly(s, b, spurious); }
        else if IsReceiver(s.agents[b].pc) { ReceiverOnly(s, b); }
        else { OtherOnly(s, b); }
      }
    case _ =>
  }

  lemma OthersHoldBack(s: State, e: Event, a: Aid)
    requires Actor(e) != a
    ensures a in Step(s, e).agents <==> a in s.agents
    ensures a in s.agents ==> Step(s, e).agents[a] == s.agents[a]
  {
    if a in Step(s, e).agents { OthersHold(s, e, a); }
    match e
    case Run(b, spurious) =>
      if b in s.agents {
        if IsSender(s.agents[b].pc) { SenderOnly(s, b, spurious); }
        else if IsReceiver(s.agents[b].pc) { ReceiverOnly(s, b); }
        else { OtherOnly(s, b); }
      }
    case _ =>
  }

  lemma SenderHoldsNothing(s: State, a: Aid, spurious: bool)
    requires a in s.agents && IsSender(s.agents[a].pc)
    ensures var s' := RunSender(s, a, spurious); a in s'.agents && IsSender(s'.agents[a].pc)
  {
  }

  lemma OtherHoldsNothing(s: State, a: Aid)
    requires a in s.agents && !IsReceiver(s.agents[a].pc)
    ensures var s' := RunOther(s, a); a in s'.agents ==> Holds(s'.agents[a].pc).None?
  {
  }
}
