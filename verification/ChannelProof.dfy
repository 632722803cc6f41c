/** Every step of the channel keeps its invariant. */
module ChannelProof {
  import opened Spec = ListenerSpec
  import opened ChannelModel
  import opened ChannelInvariant
  import opened ChannelLists

  predicate Counted(pc: PC) {
    pc.SendPush? || pc.RecvTake?
  }

  /** No receiver on the list is left without a notification. */
  ghost predicate RecvAllHeard(s: State) {
    s.ch.recvOps.notified == |s.ch.recvOps.items|
  }

  ghost predicate SendHeard(s: State) {
    s.ch.sendOps.notified > 0 || s.ch.sendOps.items == []
  }

  // ----- steps that only move an agent, or end it -----

  /** What an agent may do without touching the channel. */
  ghost predicate PlainMove(s: State, a: Aid, pc: PC) {
    a in s.agents &&
    var ag := s.agents[a];
    && IsSender(pc) == IsSender(ag.pc) && IsReceiver(pc) == IsReceiver(ag.pc)
    && !Counted(ag.pc) && !Counted(pc) && !Parked(pc)
    && (pc.RecvPollListener? ==> ag.listening) && (pc.SendNew? || pc.RecvNew? || pc.RecvListen? ==> !ag.listening)
    && (NotifiesRecv(ag.pc) ==> NotifiesRecv(pc) || RecvAllHeard(s))
    && (NotifiesSend(ag.pc) ==> NotifiesSend(pc) || SendHeard(s))
    && (Armed(pc) ==> Armed(ag.pc) || (s.ch.items == [] && !s.ch.closed))
    && (pc.SendDecide? && pc.seen >= s.ch.cap ==> s.ch.inQueue >= s.ch.cap)
  }

  lemma PlainGoto(s: State, a: Aid, pc: PC)
    requires Inv(s) && PlainMove(s, a, pc)
    ensures Inv(Goto(s, a, pc)) && Inv(Goto(s, a, pc).(woken := s.woken - {a}))
  {
    PlainGotoWith(s, Goto(s, a, pc), a, pc);
    PlainGotoWith(s, Goto(s, a, pc).(woken := s.woken - {a}), a, pc);
  }

  lemma PlainGotoWith(s: State, s': State, a: Aid, pc: PC)
    requires Inv(s) && PlainMove(s, a, pc) && s' == Goto(s, a, pc).(woken := s'.woken) && s.woken - {a} <= s'.woken
    ensures Inv(s')
  {
    assert AgentOk(s, a);
    KeepList(s, s', a, s.ch.sendOps, s.ch.sendPublished, true) by { KindOfKeys(s, a); }
    KeepList(s, s', a, s.ch.recvOps, s.ch.recvPublished, false) by { KindOfKeys(s, a); }
    forall b | b in s'.agents ensures AgentOk(s', b) { assert AgentOk(s, b); }
    KeepRecvWake(s, s', a);
    KeepSendWake(s, s', a);
  }

  /** Who is on a list. */
  lemma KindOfKeys(s: State, a: Aid)
    requires Lists(s)
    ensures a in Keys(s.ch.sendOps) ==> a in s.agents && s.agents[a].listening && IsSender(s.agents[a].pc)
    ensures a in Keys(s.ch.recvOps) ==> a in s.agents && s.agents[a].listening && IsReceiver(s.agents[a].pc)
  {
    if a in Keys(s.ch.sendOps) {
      var i :| 0 <= i < |s.ch.sendOps.items| && s.ch.sendOps.items[i].key == a;
      assert WaiterOk(s, s.ch.sendOps.items[i]);
    }
    if a in Keys(s.ch.recvOps) {
      var i :| 0 <= i < |s.ch.recvOps.items| && s.ch.recvOps.items[i].key == a;
      assert WaiterOk(s, s.ch.recvOps.items[i]);
    }
  }

  /** The receivers' promise is kept when their list, the items and the flag stay. */
  lemma KeepRecvWake(s: State, s': State, a: Aid)
    requires RecvWake(s) && Moved(s, s', a)
    requires s'.ch.recvOps == s.ch.recvOps && s'.ch.items == s.ch.items && s'.ch.closed == s.ch.closed
    requires a in s.agents && NotifiesRecv(s.agents[a].pc) ==>
               RecvAllHeard(s) || (a in s'.agents && NotifiesRecv(s'.agents[a].pc))
    requires a in s'.agents && Armed(s'.agents[a].pc) ==>
               (a in s.agents && Armed(s.agents[a].pc)) || (s.ch.items == [] && !s.ch.closed)
    requires WellFormed(s.ch.recvOps)
    ensures RecvWake(s')
  {
    forall i | 0 <= i < |s'.ch.recvOps.items| && Unheard(s', s'.ch.recvOps.items[i])
      ensures (s'.ch.items == [] && !s'.ch.closed) || RecvPending(s')
    {
      if !(s.ch.items == [] && !s.ch.closed) {
        assert Unheard(s, s.ch.recvOps.items[i]);
        var b :| b in s.agents && NotifiesRecv(s.agents[b].pc);
        assert b in s'.agents && NotifiesRecv(s'.agents[b].pc);
      }
    }
  }

  /** The senders' promise is kept when their list and the counter stay. */
  lemma KeepSendWake(s: State, s': State, a: Aid)
    requires SendWake(s) && Moved(s, s', a)
    requires s'.ch.sendOps == s.ch.sendOps && s'.ch.inQueue == s.ch.inQueue && s'.ch.cap == s.ch.cap
    requires s.raced ==> s'.raced
    requires a in s.agents && NotifiesSend(s.agents[a].pc) ==>
               SendHeard(s) || (a in s'.agents && NotifiesSend(s'.agents[a].pc))
    requires a in s'.agents && s'.agents[a].pc.SendDecide? && s'.agents[a].pc.seen >= s.ch.cap ==>
               s.ch.inQueue >= s.ch.cap
    ensures SendWake(s')
  {
    if !s'.raced && s.ch.inQueue < s.ch.cap && !SendHeard(s) {
      var b :| b in s.agents && NotifiesSend(s.agents[b].pc);
      assert b in s'.agents && NotifiesSend(s'.agents[b].pc);
    }
  }

  /** An agent that is on no list ends. */
  lemma PlainGone(s: State, a: Aid)
    requires Inv(s) && a in s.agents && !s.agents[a].listening && !Counted(s.agents[a].pc)
    requires NotifiesRecv(s.agents[a].pc) ==> RecvAllHeard(s)
    requires NotifiesSend(s.agents[a].pc) ==> SendHeard(s)
    ensures Inv(s.(agents := s.agents - {a}))
  {
    var s' := s.(agents := s.agents - {a});
    KindOfKeys(s, a);
    KeepList(s, s', a, s.ch.sendOps, s.ch.sendPublished, true);
    KeepList(s, s', a, s.ch.recvOps, s.ch.recvPublished, false);
    forall b | b in s'.agents ensures AgentOk(s', b) { assert AgentOk(s, b); }
    KeepRecvWake(s, s', a);
    KeepSendWake(s, s', a);
  }

  /** The lock-free check is right to skip. */
  lemma RecvSkip(s: State)
    requires Lists(s) && s.ch.recvPublished >= USIZE_MAX
    ensures RecvAllHeard(s)
  {
  }

  lemma SendSkip(s: State)
    requires Lists(s) && s.ch.sendPublished >= 1
    ensures SendHeard(s)
  {
  }

  // ----- notifying -----

  lemma NotifyRecvKeeps(s: State)
    requires Inv(s)
    ensures Inv(NotifyRecv(s, USIZE_MAX)) && RecvAllHeard(NotifyRecv(s, USIZE_MAX))
  {
    var l, s' := s.ch.recvOps, NotifyRecv(s, USIZE_MAX);
    NotifyList(s, s', l, USIZE_MAX, false);
    KeysUpdate(l, Notify(l, USIZE_MAX));
    WakeMore(s, s', s.ch.sendOps, s.ch.sendPublished, true);
    forall b | b in s'.agents ensures AgentOk(s', b) { assert AgentOk(s, b); }
  }

  lemma NotifySendKeeps(s: State, n: nat)
    requires Inv(s) && n > 0
    ensures Inv(NotifySend(s, n)) && SendHeard(NotifySend(s, n))
  {
    var s' := NotifySend(s, n);
    NotifySendLists(s, n);
    if !s'.raced { assert SendHeard(s'); }
    forall i | 0 <= i < |s'.ch.recvOps.items| && Unheard(s', s'.ch.recvOps.items[i])
      ensures (s'.ch.items == [] && !s'.ch.closed) || RecvPending(s')
    {
      assert Unheard(s, s.ch.recvOps.items[i]);
      assert RecvPending(s) ==> RecvPending(s');
    }
  }

  lemma NotifySendLists(s: State, n: nat)
    requires Lists(s)
    ensures Lists(NotifySend(s, n))
  {
    var l, s' := s.ch.sendOps, NotifySend(s, n);
    NotifyList(s, s', l, n, true);
    KeysUpdate(l, Notify(l, n));
    WakeMore(s, s', s.ch.recvOps, s.ch.recvPublished, false);
    forall b | b in s'.agents ensures AgentOk(s', b) { assert AgentOk(s, b); }
  }

  lemma WakeMore(s: State, s': State, l: WaitList<Aid>, published: nat, sender: bool)
    requires OneList(s, l, published, sender) && s'.agents == s.agents && s.woken <= s'.woken
    ensures OneList(s', l, published, sender)
  {
    forall i | 0 <= i < |l.items| ensures WaiterOk(s', l.items[i]) { assert WaiterOk(s, l.items[i]); }
  }

  // ----- joining and leaving a list -----

  lemma SendListens(s: State, a: Aid, seen: nat)
    requires Inv(s) && a in s.agents && s.agents[a].pc == SendDecide(seen) && seen >= s.ch.cap
    requires !s.agents[a].listening && |s.ch.sendOps.items| < USIZE_MAX
    ensures Inv(RunSender(s, a, false)) && RunSender(s, a, true) == RunSender(s, a, false)
  {
    var l, s' := s.ch.sendOps, RunSender(s, a, false);
    KindOfKeys(s, a);
    KeepList(s, s', a, l, s.ch.sendPublished, true);
    KeepList(s, s', a, s.ch.recvOps, s.ch.recvPublished, false);
    InsertList(s', l, a, true);
    KeysInsert(l, a);
    forall b | b in s'.agents ensures AgentOk(s', b) { if b != a { assert AgentOk(s, b); } }
    KeepRecvWake(s, s', a);
    if !s.raced { assert s.ch.inQueue >= s.ch.cap; }
  }

  lemma RecvListens(s: State, a: Aid)
    requires Inv(s) && a in s.agents && s.agents[a].pc.RecvListen? && |s.ch.recvOps.items| < USIZE_MAX
    ensures Inv(RunReceiver(s, a))
  {
    var l, s' := s.ch.recvOps, RunReceiver(s, a);
    assert AgentOk(s, a);
    KindOfKeys(s, a);
    KeepList(s, s', a, l, s.ch.recvPublished, false);
    KeepList(s, s', a, s.ch.sendOps, s.ch.sendPublished, true);
    InsertList(s', l, a, false);
    KeysInsert(l, a);
    forall b | b in s'.agents ensures AgentOk(s', b) { if b != a { assert AgentOk(s, b); } }
    RecvListGrows(s, s', a, Insert(l, a));
    KeepSendWake(s, s', a);
  }

  /** A change of the receivers' list that adds no armed waiter without a notification. */
  lemma RecvListGrows(s: State, s': State, a: Aid, l: WaitList<Aid>)
    requires RecvWake(s) && Moved(s, s', a) && s'.ch.recvOps == l
    requires s'.ch.items == s.ch.items && s'.ch.closed == s.ch.closed
    requires a in s.agents ==> !NotifiesRecv(s.agents[a].pc)
    requires forall i :: 0 <= i < |l.items| && Unheard(s', l.items[i]) ==>
               exists j :: 0 <= j < |s.ch.recvOps.items| && Unheard(s, s.ch.recvOps.items[j])
    ensures RecvWake(s')
  {
    if RecvPending(s) {
      var b :| b in s.agents && NotifiesRecv(s.agents[b].pc);
      assert b in s'.agents && NotifiesRecv(s'.agents[b].pc);
    }
  }

  lemma ListMember(s: State, l: WaitList<Aid>, published: nat, sender: bool, a: Aid)
    requires OneList(s, l, published, sender) && a in Keys(l)
    ensures InList(l, a) && l.items[Find(l.items, a)].key == a
  {
    FindInKeys(l, a);
  }

  lemma SendPolls(s: State, a: Aid, seen: nat)
    requires Inv(s) && a in s.agents && s.agents[a].pc == SendDecide(seen) && seen >= s.ch.cap && s.agents[a].listening
    ensures Inv(PollSendListener(s, a))
  {
    var l, s' := s.ch.sendOps, PollSendListener(s, a);
    assert AgentOk(s, a);
    ListMember(s, l, s.ch.sendPublished, true, a);
    var i := Find(l.items, a);
    if l.items[i].state.Notified? { SendResumes(s, s', a, i); } else { SendParks(s, s', a, i); }
    KeepRecvWake(s, s', a);
    SendPollWakes(s, s', a);
    DropCounts(s, s', a);
  }

  /** A sender that acts on a full counter takes nothing from the promise. */
  lemma SendPollWakes(s: State, s': State, a: Aid)
    requires SendWake(s) && Moved(s, s', a) && a in s.agents && s.agents[a].pc.SendDecide?
    requires s.agents[a].pc.seen >= s.ch.cap
    requires a in s'.agents && (s'.agents[a].pc == s.agents[a].pc || s'.agents[a].pc.SendParked?)
    requires s'.ch.inQueue == s.ch.inQueue && s'.ch.cap == s.ch.cap && s'.raced == s.raced
    ensures SendWake(s')
  {
    if !s.raced { assert s.ch.inQueue >= s.ch.cap; }
  }

  lemma SendResumes(s: State, s': State, a: Aid, i: nat)
    requires Lists(s) && i < |s.ch.sendOps.items| && s.ch.sendOps.items[i].key == a && a in s.agents
    requires IsSender(s.agents[a].pc) && !Parked(s.agents[a].pc)
    requires s' == Put(s, a, s.agents[a].(listening := false)).(ch := SetSend(s.ch, RemoveAt(s.ch.sendOps, i)))
    ensures Lists(s')
  {
    var l := s.ch.sendOps;
    KindOfKeys(s, a);
    RemoveList(s, l, i, true);
    KeysRemove(l, i);
    KeepList(s, s', a, s.ch.recvOps, s.ch.recvPublished, false);
    KeepList(s, s', a, RemoveAt(l, i), Published(RemoveAt(l, i)), true);
    OthersOk(s, s', a);
  }

  lemma SendParks(s: State, s': State, a: Aid, i: nat)
    requires Lists(s) && i < |s.ch.sendOps.items| && s.ch.sendOps.items[i].key == a && a in s.agents
    requires IsSender(s.agents[a].pc) && s.agents[a].listening && !s.ch.sendOps.items[i].state.Notified?
    requires s' == Goto(s, a, SendParked).(ch := SetSend(s.ch, SetState(s.ch.sendOps, i, Polling(a))))
    ensures Lists(s')
  {
    var l := s.ch.sendOps;
    KindOfKeys(s, a);
    PollingList(s, l, i, true);
    KeysUpdate(l, SetState(l, i, Polling(a)));
    KeepList(s, s', a, s.ch.recvOps, s.ch.recvPublished, false);
    ParkList(s, s', a, SetState(l, i, Polling(a)), i, true);
    OthersOk(s, s', a);
  }

  /** Agents other than the one that moved are still fine if nobody else left a list. */
  lemma OthersOk(s: State, s': State, a: Aid)
    requires Lists(s) && Moved(s, s', a)
    requires Keys(s.ch.sendOps) - {a} <= Keys(s'.ch.sendOps) && Keys(s.ch.recvOps) - {a} <= Keys(s'.ch.recvOps)
    ensures forall b :: b in s'.agents && b != a ==> AgentOk(s', b)
  {
    forall b | b in s'.agents && b != a ensures AgentOk(s', b) { assert AgentOk(s, b); }
  }

  /** The agent parks, its waker left in the list. */
  lemma ParkList(s: State, s': State, a: Aid, l: WaitList<Aid>, i: nat, sender: bool)
    requires OneList(s, l, Published(l), sender) && Moved(s, s', a)
    requires i < |l.items| && l.items[i].key == a && l.items[i].state.Polling?
    requires a in s'.agents && s'.agents[a].listening && OfKind(s'.agents[a].pc, sender)
    ensures OneList(s', l, Published(l), sender)
  {
    forall j | 0 <= j < |l.items| ensures WaiterOk(s', l.items[j]) && OfKind(s'.agents[l.items[j].key].pc, sender) {
      assert WaiterOk(s, l.items[j]);
    }
  }

  lemma RecvPolls(s: State, a: Aid)
    requires Inv(s) && a in s.agents && s.agents[a].pc.RecvPollListener?
    ensures Inv(PollRecvListener(s, a))
  {
    var l, s' := s.ch.recvOps, PollRecvListener(s, a);
    assert AgentOk(s, a);
    ListMember(s, l, s.ch.recvPublished, false, a);
    var i := Find(l.items, a);
    if l.items[i].state.Notified? { RecvResumes(s, s', a, i); } else { RecvParks(s, s', a, i); }
    KeepSendWake(s, s', a);
    DropCounts(s, s', a);
  }

  lemma RecvResumes(s: State, s': State, a: Aid, i: nat)
    requires Lists(s) && RecvWake(s) && i < |s.ch.recvOps.items| && s.ch.recvOps.items[i].key == a && a in s.agents
    requires s.agents[a].pc.RecvPollListener? && s.ch.recvOps.items[i].state.Notified?
    requires s' == Put(s, a, s.agents[a].(listening := false, pc := RecvPop)).(
                     ch := SetRecv(s.ch, RemoveAt(s.ch.recvOps, i)))
    ensures Lists(s') && RecvWake(s')
  {
    var l := s.ch.recvOps;
    var l' := RemoveAt(l, i);
    KindOfKeys(s, a);
    RemoveList(s, l, i, false);
    KeysRemove(l, i);
    KeepList(s, s', a, s.ch.sendOps, s.ch.sendPublished, true);
    KeepList(s, s', a, l', Published(l'), false);
    OthersOk(s, s', a);
    RemoveAtIndices(l, i);
    RecvListGrows(s, s', a, l');
  }

  lemma RecvParks(s: State, s': State, a: Aid, i: nat)
    requires Lists(s) && RecvWake(s) && i < |s.ch.recvOps.items| && s.ch.recvOps.items[i].key == a && a in s.agents
    requires s.agents[a].pc.RecvPollListener? && s.agents[a].listening && !s.ch.recvOps.items[i].state.Notified?
    requires s' == Goto(s, a, RecvParked).(ch := SetRecv(s.ch, SetState(s.ch.recvOps, i, Polling(a))))
    ensures Lists(s') && RecvWake(s')
  {
    var l := s.ch.recvOps;
    var l' := SetState(l, i, Polling(a));
    KindOfKeys(s, a);
    PollingList(s, l, i, false);
    KeysUpdate(l, l');
    KeepList(s, s', a, s.ch.sendOps, s.ch.sendPublished, true);
    ParkList(s, s', a, l', i, false);
    OthersOk(s, s', a);
    assert Unheard(s, l.items[i]);
    RecvListGrows(s, s', a, l');
  }

  /** Leaving a list early: the notification, if there was one, is passed on. */
  lemma CancelList(s: State, s': State, a: Aid, l: WaitList<Aid>, i: nat, sender: bool)
    requires OneList(s, l, Published(l), sender) && Moved(s, s', a) && i < |l.items| && l.items[i].key == a
    requires s.woken + CancelWakes(l, i) <= s'.woken
    ensures OneList(s', Cancel(l, i), Published(Cancel(l, i)), sender)
    ensures Keys(Cancel(l, i)) == Keys(l) - {a}
  {
    var rest := RemoveAt(l, i);
    RemoveList(s, l, i, sender);
    KeysRemove(l, i);
    var mid := s.(woken := s.woken + CancelWakes(l, i));
    if l.items[i].state.Notified? {
      NotifyList(s, mid, rest, 1, sender);
      KeysUpdate(rest, Notify(rest, 1));
    } else {
      WakeMore(s, mid, rest, Published(rest), sender);
    }
    KeepList(mid, s', a, Cancel(l, i), Published(Cancel(l, i)), sender);
  }

  lemma DropSend(s: State, a: Aid)
    requires Inv(s) && a in s.agents && s.agents[a].listening && IsSender(s.agents[a].pc)
    requires !Counted(s.agents[a].pc) && !NotifiesRecv(s.agents[a].pc) && !NotifiesSend(s.agents[a].pc)
    ensures var s1 := Unlisten(s, a); Inv(s1.(agents := s1.agents - {a}))
  {
    var l, s1 := s.ch.sendOps, Unlisten(s, a);
    var s' := s1.(agents := s1.agents - {a});
    assert AgentOk(s, a);
    KindOfKeys(s, a);
    ListMember(s, l, s.ch.sendPublished, true, a);
    var i := Find(l.items, a);
    CancelList(s, s', a, l, i, true);
    CancelPassesOn(l, i);
    KeepList(s, s', a, s.ch.recvOps, s.ch.recvPublished, false);
    forall b | b in s'.agents ensures AgentOk(s', b) { assert AgentOk(s, b); }
    KeepRecvWake(s, s', a);
    if SendPending(s) {
      var b :| b in s.agents && NotifiesSend(s.agents[b].pc);
      assert b in s'.agents && NotifiesSend(s'.agents[b].pc);
    }
  }

  lemma DropRecv(s: State, a: Aid, s': State)
    requires Inv(s) && a in s.agents && s.agents[a].listening && IsReceiver(s.agents[a].pc)
    requires !Counted(s.agents[a].pc) && !NotifiesSend(s.agents[a].pc)
    requires var s1 := Unlisten(s, a);
             s' == s1.(agents := s1.agents - {a}) || s' == Put(s1, a, Agent(RecvNew, false, s.agents[a].msg))
    ensures Inv(s')
  {
    var l := s.ch.recvOps;
    assert AgentOk(s, a);
    ListMember(s, l, s.ch.recvPublished, false, a);
    var i := Find(l.items, a);
    DropRecvLeaves(s, a, s', i);
    DropRecvLists(s, s', a, i);
    KeepSendWake(s, s', a);
    DropCounts(s, s', a);
  }

  /** Receiver `a` has left the list, and is new again or gone; nothing else has changed. */
  ghost predicate LeftRecv(s: State, s': State, a: Aid, i: nat)
    requires a in s.agents && InList(s.ch.recvOps, a) && i == Find(s.ch.recvOps.items, a)
  {
    && Moved(s, s', a) && (a in s'.agents ==> s'.agents[a] == Agent(RecvNew, false, s.agents[a].msg))
    && s.woken + CancelWakes(s.ch.recvOps, i) <= s'.woken
    && s' == s.(ch := SetRecv(s.ch, Cancel(s.ch.recvOps, i)), agents := s'.agents, woken := s'.woken)
  }

  lemma DropRecvLeaves(s: State, a: Aid, s': State, i: nat)
    requires a in s.agents && !IsSender(s.agents[a].pc) && InList(s.ch.recvOps, a) && i == Find(s.ch.recvOps.items, a)
    requires var s1 := Unlisten(s, a);
             s' == s1.(agents := s1.agents - {a}) || s' == Put(s1, a, Agent(RecvNew, false, s.agents[a].msg))
    ensures LeftRecv(s, s', a, i)
  {
    UnlistenMoves(s, a, i);
  }

  lemma UnlistenMoves(s: State, a: Aid, i: nat)
    requires a in s.agents && !IsSender(s.agents[a].pc) && InList(s.ch.recvOps, a) && i == Find(s.ch.recvOps.items, a)
    ensures Unlisten(s, a) == Put(s, a, s.agents[a].(listening := false)).(
              ch := SetRecv(s.ch, Cancel(s.ch.recvOps, i)), woken := s.woken + CancelWakes(s.ch.recvOps, i))
  {
  }

  /** The counter does not care about an agent that holds nothing. */
  lemma DropCounts(s: State, s': State, a: Aid)
    requires Counts(s) && Moved(s, s', a) && (a in s.agents ==> !Counted(s.agents[a].pc))
    requires a in s'.agents ==> !Counted(s'.agents[a].pc)
    requires s'.ch.items == s.ch.items && s'.ch.closed == s.ch.closed
    requires s'.ch.inQueue == s.ch.inQueue && s'.ch.cap == s.ch.cap
    requires s'.net == s.net && s'.direct == s.direct && s'.rejected == s.rejected
    requires s'.reserved == s.reserved && s'.taking == s.taking
    ensures Counts(s')
  {
  }

  lemma DropRecvLists(s: State, s': State, a: Aid, i: nat)
    requires Lists(s) && RecvWake(s) && i < |s.ch.recvOps.items| && s.ch.recvOps.items[i].key == a && a in s.agents
    requires Moved(s, s', a) && (a in s'.agents ==> s'.agents[a] == Agent(RecvNew, false, s.agents[a].msg))
    requires !NotifiesRecv(s.agents[a].pc) && s'.ch == SetRecv(s.ch, Cancel(s.ch.recvOps, i))
    requires s.woken + CancelWakes(s.ch.recvOps, i) <= s'.woken
    ensures Lists(s') && RecvWake(s')
  {
    var l := s.ch.recvOps;
    KindOfKeys(s, a);
    CancelList(s, s', a, l, i, false);
    KeepList(s, s', a, s.ch.sendOps, s.ch.sendPublished, true);
    OthersOk(s, s', a);
    RecvListGrows(s, s', a, Cancel(l, i)) by { CancelHears(s, s', a, i); }
  }

  /** Whoever is not notified after the drop was not before. */
  lemma CancelHears(s: State, s': State, a: Aid, i: nat)
    requires WellFormed(s.ch.recvOps) && i < |s.ch.recvOps.items| && s.ch.recvOps.items[i].key == a
    requires Moved(s, s', a)
    ensures forall j :: 0 <= j < |Cancel(s.ch.recvOps, i).items| && Unheard(s', Cancel(s.ch.recvOps, i).items[j]) ==>
              exists k :: 0 <= k < |s.ch.recvOps.items| && Unheard(s, s.ch.recvOps.items[k])
  {
    var l, l' := s.ch.recvOps, Cancel(s.ch.recvOps, i);
    RemoveAtIndices(l, i);
    forall j | 0 <= j < |l'.items| && Unheard(s', l'.items[j])
      ensures exists k :: 0 <= k < |l.items| && Unheard(s, l.items[k])
    {
      var k := if j < i then j else j + 1;
      assert l.items[k].key != a;
      assert Unheard(s, l.items[k]);
    }
  }
}
