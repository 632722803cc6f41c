/** Exactly which steps leave a sender waiting beside free room with nobody to tell it. */
module ChannelExact {
  import opened Spec = ListenerSpec
  import opened ChannelModel
  import opened ChannelInvariant
  import opened ChannelProof
  import opened ChannelSteps
  import opened ChannelTheorems

  /** There is room, senders listen for it, none is notified, and nobody is about to notify one. */
  ghost predicate Forgotten(s: State) {
    s.ch.inQueue < s.ch.cap && s.ch.sendOps.items != [] && s.ch.sendOps.notified == 0 && !SendPending(s)
  }

  /** The send future decides on a counter that was full when it loaded it and no longer is. */
  predicate Stale(s: State, a: Aid) {
    a in s.agents && s.agents[a].pc.SendDecide? && s.ch.inQueue < s.ch.cap <= s.agents[a].pc.seen
  }

  /** A stale sender begins to listen where nobody else does, or uses up the only notification of a
      list on which others wait; and nobody is about to notify. */
  ghost predicate StaleStep(s: State, e: Event) {
    e.Run? && Stale(s, e.a) && !SendPending(s) &&
    if s.agents[e.a].listening
    then InList(s.ch.sendOps, e.a) && WaiterOf(s.ch.sendOps, e.a).state.Notified? &&
         s.ch.sendOps.notified == 1 && |s.ch.sendOps.items| > 1
    else s.ch.sendOps.items == []
  }

  /** A step forgets the senders if and only if it is a stale one. */
  lemma ForgottenExactly(cap: nat, events: seq<Event>, e: Event)
    requires 0 < cap <= USIZE_MAX && !Forgotten(After(cap, events))
    ensures Forgotten(Step(After(cap, events), e)) <==> StaleStep(After(cap, events), e)
  {
    var s := After(cap, events);
    Reachable(cap, events);
    if e.Run? && Stale(s, e.a) {
      StaleForgets(s, e.a, e.spurious);
    } else if Stale(s, Actor(e)) {
      assert Step(s, e) == s;
    } else {
      CalmKeeps(s, e);
    }
  }

  lemma StaleForgets(s: State, a: Aid, spurious: bool)
    requires Lists(s) && 0 < s.ch.cap <= USIZE_MAX && Stale(s, a) && !Forgotten(s)
    ensures Forgotten(RunSender(s, a, spurious)) <==> StaleStep(s, Run(a, spurious))
  {
    var s' := RunSender(s, a, spurious);
    SenderOnly(s, a, spurious);
    StaleStaysDeciding(s, a, spurious);
    SamePending(s, s', a);
    if s.agents[a].listening {
      assert AgentOk(s, a);
      ListMember(s, s.ch.sendOps, s.ch.sendPublished, true, a);
      StalePolls(s, a);
    }
  }

  lemma StaleStaysDeciding(s: State, a: Aid, spurious: bool)
    requires Stale(s, a)
    ensures var s' := RunSender(s, a, spurious); a in s'.agents && !NotifiesSend(s'.agents[a].pc)
  {
  }

  lemma SamePending(s: State, s': State, a: Aid)
    requires OnlyAgent(s, s', a) && a in s.agents && a in s'.agents
    requires !NotifiesSend(s.agents[a].pc) && !NotifiesSend(s'.agents[a].pc)
    ensures SendPending(s') == SendPending(s)
  {
    if SendPending(s) {
      var b :| b in s.agents && NotifiesSend(s.agents[b].pc);
      assert b in s'.agents && NotifiesSend(s'.agents[b].pc);
    }
  }

  /** What a stale listener's poll leaves of the list. */
  lemma StalePolls(s: State, a: Aid)
    requires Stale(s, a) && InList(s.ch.sendOps, a) && ListOk(s.ch.sendOps, s.ch.sendPublished)
    ensures var l, ch' := s.ch.sendOps, PollSendListener(s, a).ch;
            && ch' == s.ch.(sendOps := ch'.sendOps, sendPublished := ch'.sendPublished)
            && (if WaiterOf(l, a).state.Notified?
                then ch'.sendOps.notified == l.notified - 1 && |ch'.sendOps.items| == |l.items| - 1
                else ch'.sendOps.notified == l.notified && ch'.sendOps.items != [])
  {
  }

  // ----- the same step with no other sender acting on a full counter -----

  function Actor(e: Event): Aid {
    match e
    case Spawn(a, _, _) => a
    case Poll(a) => a
    case Run(a, _) => a
    case DropAgent(a) => a
  }

  function CalmAgent(s: State, b: Aid): Agent
    requires b in s.agents
  {
    var ag := s.agents[b];
    if ag.pc.SendDecide? && ag.pc.seen >= s.ch.cap then ag.(pc := SendLoad) else ag
  }

  function Calm(s: State, a: Aid): State {
    s.(agents := map b | b in s.agents :: if b == a then s.agents[b] else CalmAgent(s, b), raced := false)
  }

  lemma CalmInv(s: State, a: Aid)
    requires Inv(s) && !Forgotten(s) && !Stale(s, a)
    ensures Inv(Calm(s, a))
  {
    CalmLists(s, a);
    CalmCounts(s, a);
    CalmPending(s, a);
    CalmWakes(s, a);
  }

  lemma CalmLists(s: State, a: Aid)
    requires Lists(s)
    ensures Lists(Calm(s, a))
  {
    var s0 := Calm(s, a);
    forall i | 0 <= i < |s.ch.sendOps.items| ensures WaiterOk(s0, s.ch.sendOps.items[i]) {
      assert WaiterOk(s, s.ch.sendOps.items[i]);
    }
    forall i | 0 <= i < |s.ch.recvOps.items| ensures WaiterOk(s0, s.ch.recvOps.items[i]) {
      assert WaiterOk(s, s.ch.recvOps.items[i]);
    }
    forall b | b in s0.agents ensures AgentOk(s0, b) { assert AgentOk(s, b); }
  }

  lemma CalmCounts(s: State, a: Aid)
    requires Counts(s)
    ensures Counts(Calm(s, a))
  {
  }

  lemma CalmWakes(s: State, a: Aid)
    requires RecvWake(s) && !Forgotten(s) && !Stale(s, a)
    requires SendPending(Calm(s, a)) == SendPending(s) && RecvPending(Calm(s, a)) == RecvPending(s)
    ensures RecvWake(Calm(s, a)) && SendWake(Calm(s, a))
  {
    var s0 := Calm(s, a);
    forall i | 0 <= i < |s.ch.recvOps.items| && Unheard(s0, s.ch.recvOps.items[i])
      ensures (s.ch.items == [] && !s.ch.closed) || RecvPending(s)
    {
      assert Unheard(s, s.ch.recvOps.items[i]);
    }
  }

  lemma CalmPending(s: State, a: Aid)
    ensures SendPending(Calm(s, a)) == SendPending(s) && RecvPending(Calm(s, a)) == RecvPending(s)
  {
    var s0 := Calm(s, a);
    if SendPending(s) {
      var b :| b in s.agents && NotifiesSend(s.agents[b].pc);
      assert b in s0.agents && NotifiesSend(s0.agents[b].pc);
    }
    if RecvPending(s) {
      var b :| b in s.agents && NotifiesRecv(s.agents[b].pc);
      assert b in s0.agents && NotifiesRecv(s0.agents[b].pc);
    }
  }

  /** `s1` and `s2`: what follows `s` and its calm form when agent `a` steps. */
  ghost predicate Alike(s: State, s1: State, s2: State, a: Aid) {
    && s1.ch == s2.ch && s1.agents.Keys == s2.agents.Keys
    && (a in s1.agents ==> s1.agents[a] == s2.agents[a])
    && (forall b :: b in s1.agents && b != a ==> b in s.agents && s1.agents[b] == s.agents[b])
    && (forall b :: b in s2.agents && b != a ==> b in s.agents && s2.agents[b] == CalmAgent(s, b))
  }

  /** A step reads the channel and its own agent, nothing of the others but for the history. */
  lemma CalmStep(s: State, e: Event)
    ensures Alike(s, Step(s, e), Step(Calm(s, Actor(e)), e), Actor(e))
  {
    match e
    case Run(a, spurious) =>
      if a in s.agents {
        if IsSender(s.agents[a].pc) { CalmSender(s, a, spurious); }
        else if IsReceiver(s.agents[a].pc) { CalmReceiver(s, a); }
        else { CalmOther(s, a); }
      }
    case Poll(a) => CalmPoll(s, a);
    case Spawn(a, pc, msg) => CalmSpawn(s, a, pc, msg);
    case DropAgent(a) => CalmDrop(s, a);
  }

  lemma CalmPoll(s: State, a: Aid)
    ensures Alike(s, Step(s, Poll(a)), Step(Calm(s, a), Poll(a)), a)
  {
    CalmAlike(s, a);
    if a in s.agents {
      match s.agents[a].pc
      case SendNew => PollAlike(s, a, SendLoad);
      case SendParked => PollAlike(s, a, SendLoad);
      case RecvNew => PollAlike(s, a, RecvPop);
      case RecvParked => PollAlike(s, a, RecvPollListener);
      case _ =>
    }
  }

  lemma CalmAlike(s: State, a: Aid)
    ensures Alike(s, s, Calm(s, a), a)
  {
  }

  lemma PollAlike(s: State, a: Aid, pc: PC)
    requires a in s.agents
    ensures Alike(s, Goto(s, a, pc).(woken := s.woken - {a}), Goto(Calm(s, a), a, pc).(woken := s.woken - {a}), a)
  {
  }

  lemma CalmSpawn(s: State, a: Aid, pc: PC, msg: Item)
    ensures Alike(s, Step(s, Spawn(a, pc, msg)), Step(Calm(s, a), Spawn(a, pc, msg)), a)
  {
  }

  lemma CalmDrop(s: State, a: Aid)
    ensures Alike(s, Step(s, DropAgent(a)), Step(Calm(s, a), DropAgent(a)), a)
  {
  }

  /** `s1` differs from `s` in nobody but `a`, who may be gone. */
  ghost predicate OnlyAgent(s: State, s1: State, a: Aid) {
    && (forall b :: b in s1.agents && b != a ==> b in s.agents && s1.agents[b] == s.agents[b])
    && (forall b :: b in s.agents && b != a ==> b in s1.agents)
  }

  ghost predicate SameView(s: State, s0: State, a: Aid) {
    s.ch == s0.ch && a in s.agents && a in s0.agents && s.agents[a] == s0.agents[a]
  }

  ghost predicate SameResult(s1: State, s2: State, a: Aid) {
    s1.ch == s2.ch && (a in s1.agents <==> a in s2.agents) &&
    (a in s1.agents ==> s1.agents[a] == s2.agents[a])
  }

  lemma CalmSender(s: State, a: Aid, spurious: bool)
    requires a in s.agents && IsSender(s.agents[a].pc)
    ensures Alike(s, RunSender(s, a, spurious), RunSender(Calm(s, a), a, spurious), a)
  {
    SenderActs(s, Calm(s, a), a, spurious);
    SenderOnly(s, a, spurious);
    SenderOnly(Calm(s, a), a, spurious);
  }

  lemma SenderActs(s: State, s0: State, a: Aid, spurious: bool)
    requires SameView(s, s0, a) && IsSender(s.agents[a].pc)
    ensures SameResult(RunSender(s, a, spurious), RunSender(s0, a, spurious), a)
  {
    if s.agents[a].pc.SendDecide? { DecideActs(s, s0, a, spurious); }
    else { OtherSendActs(s, s0, a, spurious); }
  }

  lemma DecideActs(s: State, s0: State, a: Aid, spurious: bool)
    requires SameView(s, s0, a) && s.agents[a].pc.SendDecide?
    ensures SameResult(RunSender(s, a, spurious), RunSender(s0, a, spurious), a)
  {
  }

  lemma OtherSendActs(s: State, s0: State, a: Aid, spurious: bool)
    requires SameView(s, s0, a) && IsSender(s.agents[a].pc) && !s.agents[a].pc.SendDecide?
    ensures SameResult(RunSender(s, a, spurious), RunSender(s0, a, spurious), a)
  {
    assert RunSender(s, a, spurious).ch == RunSender(s0, a, spurious).ch;
  }

  lemma SenderOnly(s: State, a: Aid, spurious: bool)
    requires a in s.agents && IsSender(s.agents[a].pc)
    ensures OnlyAgent(s, RunSender(s, a, spurious), a)
  {
  }

  lemma CalmReceiver(s: State, a: Aid)
    requires a in s.agents && IsReceiver(s.agents[a].pc)
    ensures Alike(s, RunReceiver(s, a), RunReceiver(Calm(s, a), a), a)
  {
    ReceiverActs(s, Calm(s, a), a);
    ReceiverOnly(s, a);
    ReceiverOnly(Calm(s, a), a);
  }

  lemma ReceiverActs(s: State, s0: State, a: Aid)
    requires SameView(s, s0, a) && IsReceiver(s.agents[a].pc)
    ensures SameResult(RunReceiver(s, a), RunReceiver(s0, a), a)
  {
    if s.agents[a].pc.RecvPollListener? || s.agents[a].pc.RecvFinish? || s.agents[a].pc.RecvLock? {
      ListenerActs(s, s0, a);
    } else {
      TakerActs(s, s0, a);
    }
  }

  lemma ListenerActs(s: State, s0: State, a: Aid)
    requires SameView(s, s0, a)
    requires s.agents[a].pc.RecvPollListener? || s.agents[a].pc.RecvFinish? || s.agents[a].pc.RecvLock?
    ensures SameResult(RunReceiver(s, a), RunReceiver(s0, a), a)
  {
  }

  lemma TakerActs(s: State, s0: State, a: Aid)
    requires SameView(s, s0, a) && IsReceiver(s.agents[a].pc)
    requires !s.agents[a].pc.RecvPollListener? && !s.agents[a].pc.RecvFinish? && !s.agents[a].pc.RecvLock?
    ensures SameResult(RunReceiver(s, a), RunReceiver(s0, a), a)
  {
  }

  lemma ReceiverOnly(s: State, a: Aid)
    requires a in s.agents && IsReceiver(s.agents[a].pc)
    ensures OnlyAgent(s, RunReceiver(s, a), a)
  {
  }

  lemma CalmOther(s: State, a: Aid)
    requires a in s.agents
    ensures Alike(s, RunOther(s, a), RunOther(Calm(s, a), a), a)
  {
    OtherActs(s, Calm(s, a), a);
    OtherOnly(s, a);
    OtherOnly(Calm(s, a), a);
  }

  lemma OtherActs(s: State, s0: State, a: Aid)
    requires SameView(s, s0, a)
    ensures SameResult(RunOther(s, a), RunOther(s0, a), a)
  {
    var pc := s.agents[a].pc;
    if pc.CloseLockSend? || pc.DirectLock? || pc.CloseLockRecv? { LockActs(s, s0, a); }
    else { LooksActs(s, s0, a); }
  }

  lemma LockActs(s: State, s0: State, a: Aid)
    requires SameView(s, s0, a)
    requires s.agents[a].pc.CloseLockSend? || s.agents[a].pc.DirectLock? || s.agents[a].pc.CloseLockRecv?
    ensures SameResult(RunOther(s, a), RunOther(s0, a), a)
  {
  }

  lemma LooksActs(s: State, s0: State, a: Aid)
    requires SameView(s, s0, a)
    requires !s.agents[a].pc.CloseLockSend? && !s.agents[a].pc.DirectLock? && !s.agents[a].pc.CloseLockRecv?
    ensures SameResult(RunOther(s, a), RunOther(s0, a), a)
  {
  }

  lemma OtherOnly(s: State, a: Aid)
    requires a in s.agents
    ensures OnlyAgent(s, RunOther(s, a), a)
  {
  }

  lemma CalmStaysCalm(s: State, e: Event)
    ensures !Step(Calm(s, Actor(e)), e).raced
  {
    var s0 := Calm(s, Actor(e));
    if Step(s0, e).raced {
      RacesOnlyAt(s0, e);
    }
  }

  lemma AlikeForgotten(s: State, s1: State, s2: State, a: Aid)
    requires Alike(s, s1, s2, a)
    ensures Forgotten(s1) == Forgotten(s2)
  {
    if SendPending(s1) {
      var b :| b in s1.agents && NotifiesSend(s1.agents[b].pc);
      assert b in s2.agents && NotifiesSend(s2.agents[b].pc);
    }
    if SendPending(s2) {
      var b :| b in s2.agents && NotifiesSend(s2.agents[b].pc);
      assert b in s1.agents && NotifiesSend(s1.agents[b].pc);
    }
  }

  lemma CalmKeeps(s: State, e: Event)
    requires Inv(s) && !Forgotten(s) && !Stale(s, Actor(e))
    ensures !Forgotten(Step(s, e))
  {
    var a := Actor(e);
    CalmInv(s, a);
    CalmStep(s, e);
    CalmStaysCalm(s, e);
    var s2 := Step(Calm(s, a), e);
    AlikeForgotten(s, Step(s, e), s2, a);
    assert Inv(s2) by { StepKeeps(Calm(s, a), e); }
    RemembersWhenCalm(s2);
  }

  lemma RemembersWhenCalm(s: State)
    requires Inv(s) && !s.raced
    ensures !Forgotten(s)
  {
  }
}
