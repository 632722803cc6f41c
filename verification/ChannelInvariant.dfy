/** The inductive invariant of the channel. */
module ChannelInvariant {
  import opened Spec = ListenerSpec
  import opened ChannelModel

  function Keys(l: WaitList<Aid>): set<Aid> {
    set i | 0 <= i < |l.items| :: l.items[i].key
  }

  predicate Parked(pc: PC) {
    pc.SendParked? || pc.RecvParked?
  }

  /** About to check, or holding, the receivers' event for `notify(usize::MAX)`. */
  predicate NotifiesRecv(pc: PC) {
    pc.SendCheckRecv? || pc.SendLockRecv? || pc.DirectCheck? || pc.DirectLock? ||
    pc.CloseCheckSend? || pc.CloseLockSend? || pc.CloseCheckRecv? || pc.CloseLockRecv?
  }

  /** About to check, or holding, the senders' event for `notify(1)`. */
  predicate NotifiesSend(pc: PC) {
    pc.RecvCheck? || pc.RecvLock? || pc.SendCheckSend? || pc.SendLockSend?
  }

  ghost predicate RecvPending(s: State) {
    exists b :: b in s.agents && NotifiesRecv(s.agents[b].pc)
  }

  ghost predicate SendPending(s: State) {
    exists b :: b in s.agents && NotifiesSend(s.agents[b].pc)
  }

  // ----- the lists and the agents on them -----

  ghost predicate ListOk(l: WaitList<Aid>, published: nat) {
    && WellFormed(l) && published == Published(l) && |l.items| <= USIZE_MAX
    && (forall i :: 0 <= i < |l.items| && l.items[i].state.Polling? ==> l.items[i].state.waker == l.items[i].key)
    && (forall i :: 0 <= i < |l.items| && l.items[i].state.Notified? ==> !l.items[i].state.additional)
  }

  /** The agent behind a waiter holds a listener; if it is parked it has left its waker, and once
      notified it has been woken. */
  ghost predicate WaiterOk(s: State, w: Waiter<Aid>) {
    && w.key in s.agents && s.agents[w.key].listening
    && (Parked(s.agents[w.key].pc) ==> !w.state.Created? && (w.state.Notified? ==> w.key in s.woken))
  }

  ghost predicate OneList(s: State, l: WaitList<Aid>, published: nat, sender: bool) {
    && ListOk(l, published)
    && forall i :: 0 <= i < |l.items| ==> WaiterOk(s, l.items[i]) && OfKind(s.agents[l.items[i].key].pc, sender)
  }

  predicate OfKind(pc: PC, sender: bool) {
    if sender then IsSender(pc) else IsReceiver(pc)
  }

  ghost predicate AgentOk(s: State, a: Aid)
    requires a in s.agents
  {
    var ag := s.agents[a];
    && (ag.listening ==> IsSender(ag.pc) || IsReceiver(ag.pc))
    && (ag.listening ==> a in Keys(if IsSender(ag.pc) then s.ch.sendOps else s.ch.recvOps))
    && (Parked(ag.pc) || ag.pc.RecvPollListener? ==> ag.listening)
    && (ag.pc.SendNew? || ag.pc.RecvNew? || ag.pc.RecvListen? ==> !ag.listening)
  }

  ghost predicate Lists(s: State) {
    && OneList(s, s.ch.sendOps, s.ch.sendPublished, true)
    && OneList(s, s.ch.recvOps, s.ch.recvPublished, false)
    && (forall a :: a in s.agents ==> AgentOk(s, a))
  }

  // ----- the counter -----

  ghost predicate Counts(s: State) {
    && 0 < s.ch.cap <= USIZE_MAX
    && (forall a :: a in s.reserved <==> a in s.agents && s.agents[a].pc.SendPush?)
    && (forall a :: a in s.taking <==> a in s.agents && s.agents[a].pc.RecvTake?)
    && s.net == |s.ch.items| + |s.reserved| + |s.taking| + s.rejected - s.direct
    && s.ch.inQueue == s.net % WORD
    && s.net <= s.ch.cap
    && (s.rejected > 0 ==> s.ch.closed)
  }

  // ----- waking -----

  /** Armed: on the receivers' list since before it last found the queue empty. */
  predicate Armed(pc: PC) {
    pc.RecvParked? || pc.RecvPollListener?
  }

  predicate Unheard(s: State, w: Waiter<Aid>) {
    !w.state.Notified? && w.key in s.agents && Armed(s.agents[w.key].pc)
  }

  ghost predicate RecvWake(s: State) {
    forall i :: 0 <= i < |s.ch.recvOps.items| ==> Unheard(s, s.ch.recvOps.items[i]) ==>
      (s.ch.items == [] && !s.ch.closed) || RecvPending(s)
  }

  ghost predicate SendWake(s: State) {
    !s.raced ==>
      && (s.ch.inQueue < s.ch.cap && s.ch.sendOps.notified == 0 && s.ch.sendOps.items != [] ==> SendPending(s))
      && (forall b :: b in s.agents && s.agents[b].pc.SendDecide? && s.agents[b].pc.seen >= s.ch.cap ==>
            s.ch.inQueue >= s.ch.cap)
  }

  ghost predicate Inv(s: State) {
    Lists(s) && Counts(s) && RecvWake(s) && SendWake(s)
  }
}
