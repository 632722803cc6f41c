/** What the outcome of a send says about its message. */
module ChannelOutcomes {
  import opened Prelude
  import opened Spec = ListenerSpec
  import opened ChannelModel
  import opened ChannelExact
  import opened ChannelMessages

  /** What agent `a` has put into the channel since it was made. */
  function PushedBy(cap: nat, events: seq<Event>, a: Aid): seq<Item> {
    if events == [] then [] else
    var before, e := events[..|events| - 1], events[|events| - 1];
    var s := After(cap, before);
    if Makes(s, e, a) then []
    else PushedBy(cap, before, a) + if Actor(e) == a then SentBy(s, e) else []
  }

  predicate Makes(s: State, e: Event, a: Aid) {
    e.Spawn? && e.a == a && a !in s.agents
  }

  /** Behind its push: a send future from then on until it is dropped, a direct send until it ends. */
  predicate HasPushed(pc: PC) {
    pc.SendCheckRecv? || pc.SendLockRecv? || pc.SendCheckSend? || pc.SendLockSend? || pc == SendDone(true) ||
    pc.DirectCheck? || pc.DirectLock?
  }

  ghost predicate PushOk(s: State, a: Aid, pushed: seq<Item>) {
    && |pushed| <= 1
    && (a in s.agents ==> pushed == if HasPushed(s.agents[a].pc) then [s.agents[a].msg] else [])
  }

  /** A send future has put its message into the channel exactly once if its poll came to `Ok`, and
      not at all if it came to `Closed`, if it has not been polled, or if its last poll was pending;
      nobody ever pushes twice. */
  lemma {:induction false} PushedExactlyOnOk(cap: nat, events: seq<Event>, a: Aid)
    requires 0 < cap <= USIZE_MAX
    ensures var s, pushed := After(cap, events), PushedBy(cap, events, a);
            && |pushed| <= 1
            && (a in s.agents && s.agents[a].pc.SendDone? ==>
                  pushed == if s.agents[a].pc.ok then [s.agents[a].msg] else [])
            && (a in s.agents && (s.agents[a].pc.SendNew? || s.agents[a].pc.SendParked?) ==> pushed == [])
  {
    PushesFine(cap, events, a);
  }

  lemma {:induction false} PushesFine(cap: nat, events: seq<Event>, a: Aid)
    requires 0 < cap <= USIZE_MAX
    ensures PushOk(After(cap, events), a, PushedBy(cap, events, a))
  {
    if events != [] {
      var before, e := events[..|events| - 1], events[|events| - 1];
      PushesFine(cap, before, a);
      ListsFine(cap, before);
      PushStep(After(cap, before), e, a, PushedBy(cap, before, a));
    }
  }

  lemma PushStep(s: State, e: Event, a: Aid, pushed: seq<Item>)
    requires ListsOk(s) && PushOk(s, a, pushed)
    ensures PushOk(Step(s, e), a, if Makes(s, e, a) then [] else pushed + if Actor(e) == a then SentBy(s, e) else [])
  {
    if Actor(e) != a {
      assert pushed + [] == pushed;
      if a in Step(s, e).agents { OthersHold(s, e, a); }
    } else if e.Run? && a in s.agents {
      RunPushes(s, a, e.spurious);
    } else {
      assert pushed + [] == pushed;
    }
  }

  lemma RunPushes(s: State, a: Aid, spurious: bool)
    requires ListsOk(s) && a in s.agents
    ensures var sent := SentBy(s, Run(a, spurious));
            sent != [] ==> !HasPushed(s.agents[a].pc) && sent == [s.agents[a].msg]
    ensures var s', sent := Step(s, Run(a, spurious)), SentBy(s, Run(a, spurious));
            a in s'.agents ==>
              && s'.agents[a].msg == s.agents[a].msg
              && (HasPushed(s'.agents[a].pc) <==> HasPushed(s.agents[a].pc) || sent != [])
  {
    if IsSender(s.agents[a].pc) { SenderPushes(s, a, spurious); }
    else if IsReceiver(s.agents[a].pc) { ReceiverPushes(s, a); }
  }

  lemma SenderPushes(s: State, a: Aid, spurious: bool)
    requires ListsOk(s) && a in s.agents && IsSender(s.agents[a].pc)
    ensures var s' := RunSender(s, a, spurious); var sent := SentBy(s, Run(a, spurious));
            && a in s'.agents && IsSender(s'.agents[a].pc) && s'.agents[a].msg == s.agents[a].msg
            && (HasPushed(s'.agents[a].pc) <==> HasPushed(s.agents[a].pc) || sent != [])
  {
  }

  lemma ReceiverPushes(s: State, a: Aid)
    requires a in s.agents && IsReceiver(s.agents[a].pc)
    ensures var s' := RunReceiver(s, a);
            a in s'.agents && IsReceiver(s'.agents[a].pc) && s'.agents[a].msg == s.agents[a].msg
  {
  }

  /** The message agent `a` was made with. */
  function MadeWith(cap: nat, events: seq<Event>, a: Aid): Option<Item> {
    if events == [] then None else
    var before, e := events[..|events| - 1], events[|events| - 1];
    if Makes(After(cap, before), e, a) then (if MadeBy(e) then Some(e.msg) else None) else MadeWith(cap, before, a)
  }

  predicate MadeBy(e: Event) {
    e.Spawn? && (e.pc.SendNew? || e.pc.DirectPush? || e.pc.CloseMark? || e.pc.RecvNew?)
  }

  /** Nobody pushes a message other than its own. */
  lemma {:induction false} PushesOwnMessage(cap: nat, events: seq<Event>, a: Aid)
    requires 0 < cap <= USIZE_MAX
    ensures var s := After(cap, events); a in s.agents ==> MadeWith(cap, events, a) == Some(s.agents[a].msg)
    ensures forall x :: x in PushedBy(cap, events, a) ==> MadeWith(cap, events, a) == Some(x)
  {
    if events != [] {
      var before, e := events[..|events| - 1], events[|events| - 1];
      PushesOwnMessage(cap, before, a);
      ListsFine(cap, before);
      MessageStays(After(cap, before), e, a);
    }
  }

  lemma MessageStays(s: State, e: Event, a: Aid)
    requires ListsOk(s)
    ensures a in Step(s, e).agents ==>
              if Makes(s, e, a) then MadeBy(e) && Step(s, e).agents[a].msg == e.msg
              else a in s.agents && Step(s, e).agents[a].msg == s.agents[a].msg
    ensures !Makes(s, e, a) && Actor(e) == a && SentBy(s, e) != [] ==>
        a in s.agents && SentBy(s, e) == [s.agents[a].msg]
  {
    if Actor(e) != a {
      if a in Step(s, e).agents { OthersHold(s, e, a); }
    } else if e.Run? && a in s.agents {
      RunPushes(s, a, e.spurious);
    }
  }

  /** A send future dropped before it completed, or after it came to `Closed`, has pushed nothing and
      never will, whatever happens until its name is given to another. */
  lemma {:induction false} DroppedUnsent(cap: nat, events: seq<Event>, a: Aid, more: seq<Event>)
    requires 0 < cap <= USIZE_MAX && a in After(cap, events).agents && Unsent(After(cap, events).agents[a].pc)
    requires forall k :: 0 <= k < |more| ==> !(more[k].Spawn? && more[k].a == a)
    ensures GoneUnsent(cap, events + [DropAgent(a)] + more, a)
  {
    var run := events + [DropAgent(a)] + more;
    if more == [] {
      assert run[..|run| - 1] == events && run[|run| - 1] == DropAgent(a);
      PushesFine(cap, events, a);
      DropsUnsent(cap, events, a, run);
    } else {
      var less := events + [DropAgent(a)] + more[..|more| - 1];
      DroppedUnsent(cap, events, a, more[..|more| - 1]);
      assert run[..|run| - 1] == less && run[|run| - 1] == more[|more| - 1];
      StaysUnsent(cap, less, a, run);
    }
  }

  predicate Unsent(pc: PC) {
    pc.SendNew? || pc.SendParked? || pc == SendDone(false)
  }

  ghost predicate GoneUnsent(cap: nat, run: seq<Event>, a: Aid) {
    a !in After(cap, run).agents && PushedBy(cap, run, a) == []
  }

  lemma DropsUnsent(cap: nat, events: seq<Event>, a: Aid, run: seq<Event>)
    requires run != [] && run[..|run| - 1] == events && run[|run| - 1] == DropAgent(a)
    requires a in After(cap, events).agents && Unsent(After(cap, events).agents[a].pc)
    requires PushOk(After(cap, events), a, PushedBy(cap, events, a))
    ensures GoneUnsent(cap, run, a)
  {
    Drops(After(cap, events), a);
  }

  lemma StaysUnsent(cap: nat, less: seq<Event>, a: Aid, run: seq<Event>)
    requires run != [] && run[..|run| - 1] == less && !(run[|run| - 1].Spawn? && run[|run| - 1].a == a)
    requires GoneUnsent(cap, less, a)
    ensures GoneUnsent(cap, run, a)
  {
    Absent(After(cap, less), run[|run| - 1], a);
  }

  lemma Drops(s: State, a: Aid)
    requires a in s.agents && Resting(s.agents[a].pc)
    ensures a !in Step(s, DropAgent(a)).agents
  {
  }

  lemma Absent(s: State, e: Event, a: Aid)
    requires a !in s.agents && !(e.Spawn? && e.a == a)
    ensures a !in Step(s, e).agents && (Actor(e) == a ==> SentBy(s, e) == [])
  {
    if Actor(e) != a && a in Step(s, e).agents { OthersHold(s, e, a); }
  }
}
