/** The steps that move the counter, the items or the closed flag, and every step together. */
module ChannelSteps {
  import opened Prelude
  import opened Spec = ListenerSpec
  import opened ChannelModel
  import opened ChannelInvariant
  import opened ChannelLists
  import opened ChannelProof

  /** Agent `a` goes on; the lists stay. */
  ghost predicate GoesOn(s: State, s': State, a: Aid, pc: PC) {
    && a in s.agents && s'.agents == Goto(s, a, pc).agents && s'.woken == s.woken
    && IsSender(pc) == IsSender(s.agents[a].pc) && IsReceiver(pc) == IsReceiver(s.agents[a].pc)
    && !Parked(pc) && !Armed(pc) && !pc.SendNew? && !pc.RecvNew? && !pc.RecvListen?
    && s'.ch.sendOps == s.ch.sendOps && s'.ch.sendPublished == s.ch.sendPublished
    && s'.ch.recvOps == s.ch.recvOps && s'.ch.recvPublished == s.ch.recvPublished
  }

  lemma KeepLists(s: State, s': State, a: Aid, pc: PC)
    requires Lists(s) && GoesOn(s, s', a, pc)
    ensures Lists(s') && Moved(s, s', a)
  {
    assert AgentOk(s, a);
    KindOfKeys(s, a);
    KeepList(s, s', a, s.ch.sendOps, s.ch.sendPublished, true);
    KeepList(s, s', a, s.ch.recvOps, s.ch.recvPublished, false);
    OthersOk(s, s', a);
  }

  // ----- a send future -----

  lemma ReserveCounts(s: State, s': State, a: Aid, seen: nat)
    requires Counts(s) && a in s.agents && s.agents[a].pc == SendDecide(seen) && s.ch.inQueue == seen < s.ch.cap
    requires s' == Goto(s, a, SendPush(seen)).(
                     ch := s.ch.(inQueue := seen + 1), net := s.net + 1, reserved := s.reserved + {a})
    ensures Counts(s')
  {
    assert a !in s.reserved;
    WordUp(s.net, seen, s.ch.cap);
  }

  lemma WordUp(net: int, seen: nat, cap: nat)
    requires net % WORD == seen < cap <= USIZE_MAX && net <= cap
    ensures (net + 1) % WORD == seen + 1 && net < cap
  {
  }

  lemma Reserve(s: State, a: Aid, seen: nat)
    requires Inv(s) && a in s.agents && s.agents[a].pc == SendDecide(seen) && s.ch.inQueue == seen < s.ch.cap
    ensures Inv(Goto(s, a, SendPush(seen)).(
                  ch := s.ch.(inQueue := seen + 1), net := s.net + 1, reserved := s.reserved + {a}))
  {
    var s' := Goto(s, a, SendPush(seen)).(
                ch := s.ch.(inQueue := seen + 1), net := s.net + 1, reserved := s.reserved + {a});
    KeepLists(s, s', a, SendPush(seen));
    ReserveCounts(s, s', a, seen);
    KeepRecvWake(s, s', a);
    ReserveWake(s, s', a);
  }

  lemma ReserveWake(s: State, s': State, a: Aid)
    requires SendWake(s) && Moved(s, s', a) && a in s.agents && s.agents[a].pc.SendDecide?
    requires a in s'.agents && s'.agents[a].pc.SendPush?
    requires s'.ch.sendOps == s.ch.sendOps && s.ch.inQueue <= s'.ch.inQueue && s'.ch.cap == s.ch.cap
    requires s.raced == s'.raced
    ensures SendWake(s')
  {
    if SendPending(s) {
      var b :| b in s.agents && NotifiesSend(s.agents[b].pc);
      assert b in s'.agents && NotifiesSend(s'.agents[b].pc);
    }
  }

  lemma Rejected(s: State, a: Aid, cur: nat)
    requires Inv(s) && a in s.agents && s.agents[a].pc == SendPush(cur) && s.ch.closed
    ensures Inv(Goto(s, a, SendDone(false)).(reserved := s.reserved - {a}, rejected := s.rejected + 1))
  {
    var s' := Goto(s, a, SendDone(false)).(reserved := s.reserved - {a}, rejected := s.rejected + 1);
    KeepLists(s, s', a, SendDone(false));
    KeepRecvWake(s, s', a);
    KeepSendWake(s, s', a);
  }

  /** An item enters, or the channel closes: the agent now owes the receivers a notification. */
  lemma OwesReceivers(s: State, s': State, a: Aid)
    requires a in s'.agents && NotifiesRecv(s'.agents[a].pc)
    ensures RecvWake(s')
  {
    assert RecvPending(s');
  }

  lemma Pushed(s: State, a: Aid, cur: nat)
    requires Inv(s) && a in s.agents && s.agents[a].pc == SendPush(cur)
    ensures Inv(Goto(s, a, SendCheckRecv(cur)).(
                  ch := s.ch.(items := s.ch.items + [s.agents[a].msg]), reserved := s.reserved - {a}))
  {
    var s' := Goto(s, a, SendCheckRecv(cur)).(
                ch := s.ch.(items := s.ch.items + [s.agents[a].msg]), reserved := s.reserved - {a});
    KeepLists(s, s', a, SendCheckRecv(cur));
    OwesReceivers(s, s', a);
    KeepSendWake(s, s', a);
  }

  // ----- direct sends and closing -----

  lemma DirectPushed(s: State, a: Aid)
    requires Inv(s) && a in s.agents && s.agents[a].pc.DirectPush?
    ensures Inv(Goto(s, a, DirectCheck).(ch := s.ch.(items := s.ch.items + [s.agents[a].msg]), direct := s.direct + 1))
  {
    var s' := Goto(s, a, DirectCheck).(ch := s.ch.(items := s.ch.items + [s.agents[a].msg]), direct := s.direct + 1);
    KeepLists(s, s', a, DirectCheck);
    OwesReceivers(s, s', a);
    KeepSendWake(s, s', a);
  }

  lemma Closed(s: State, a: Aid)
    requires Inv(s) && a in s.agents && s.agents[a].pc.CloseMark?
    ensures Inv(Goto(s, a, CloseCheckSend).(ch := s.ch.(closed := true)))
  {
    var s' := Goto(s, a, CloseCheckSend).(ch := s.ch.(closed := true));
    KeepLists(s, s', a, CloseCheckSend);
    OwesReceivers(s, s', a);
    KeepSendWake(s, s', a);
  }

  // ----- a receiver -----

  lemma Popped(s: State, a: Aid)
    requires Inv(s) && a in s.agents && s.agents[a].pc.RecvPop? && s.ch.items != []
    ensures Inv(Goto(s, a, RecvTake(s.ch.items[0])).(ch := s.ch.(items := s.ch.items[1..]), taking := s.taking + {a}))
  {
    var s' := Goto(s, a, RecvTake(s.ch.items[0])).(ch := s.ch.(items := s.ch.items[1..]), taking := s.taking + {a});
    KeepLists(s, s', a, RecvTake(s.ch.items[0]));
    assert a !in s.taking;
    KeepSendWake(s, s', a);
    PoppedWake(s, s', a);
  }

  lemma PoppedWake(s: State, s': State, a: Aid)
    requires RecvWake(s) && Moved(s, s', a) && s.ch.items != [] && s'.ch.recvOps == s.ch.recvOps
    requires a in s.agents && s.agents[a].pc.RecvPop? && a in s'.agents && s'.agents[a].pc.RecvTake?
    ensures RecvWake(s')
  {
    forall i | 0 <= i < |s'.ch.recvOps.items| && Unheard(s', s'.ch.recvOps.items[i]) ensures RecvPending(s') {
      assert Unheard(s, s.ch.recvOps.items[i]);
      var b :| b in s.agents && NotifiesRecv(s.agents[b].pc);
      assert b in s'.agents && NotifiesRecv(s'.agents[b].pc);
    }
  }

  lemma Taken(s: State, a: Aid)
    requires Inv(s) && a in s.agents && s.agents[a].pc.RecvTake?
    ensures Inv(RunReceiver(s, a))
  {
    var s', item := RunReceiver(s, a), s.agents[a].pc.item;
    KeepLists(s, s', a, if s.ch.cap >= s.ch.inQueue then RecvCheck(item) else RecvFinish(Some(item)));
    TakenCounts(s, s', a);
    KeepRecvWake(s, s', a);
    TakenWake(s, s', a);
  }

  lemma TakenCounts(s: State, s': State, a: Aid)
    requires Counts(s) && a in s.agents && s.agents[a].pc.RecvTake? && Moved(s, s', a)
    requires a in s'.agents && !s'.agents[a].pc.RecvTake? && !s'.agents[a].pc.SendPush?
    requires s'.ch == s.ch.(inQueue := (s.ch.inQueue + USIZE_MAX) % WORD) && s'.net == s.net - 1
    requires s'.taking == s.taking - {a} && s'.reserved == s.reserved && s'.rejected == s.rejected
    requires s'.direct == s.direct
    ensures Counts(s')
  {
    assert a in s.taking;
    WordDown(s.net);
  }

  lemma WordDown(net: int)
    ensures (net % WORD + USIZE_MAX) % WORD == (net - 1) % WORD
  {
  }

  lemma TakenWake(s: State, s': State, a: Aid)
    requires Counts(s) && a in s.agents && s.agents[a].pc.RecvTake? && s' == RunReceiver(s, a) && ListsOk(s)
    ensures SendWake(s')
  {
    CountsDown(s.ch.inQueue);
    if s.ch.cap >= s.ch.inQueue { assert NotifiesSend(s'.agents[a].pc); }
  }

  lemma CountsDown(q: nat)
    requires q < WORD
    ensures (q + USIZE_MAX) % WORD == if q == 0 then USIZE_MAX else q - 1
  {
  }

  // ----- every step -----

  lemma Reloads(s: State, a: Aid)
    requires Inv(s) && a in s.agents && (s.agents[a].pc.SendLoad? || s.agents[a].pc.SendDecide?)
    ensures Inv(Goto(s, a, SendDecide(s.ch.inQueue)))
  {
    PlainGoto(s, a, SendDecide(s.ch.inQueue));
  }

  lemma DecideStep(s: State, a: Aid, spurious: bool)
    requires Inv(s) && a in s.agents && (s.agents[a].pc.SendLoad? || s.agents[a].pc.SendDecide?)
    ensures Inv(RunSender(s, a, spurious))
  {
    var pc, ch := s.agents[a].pc, s.ch;
    if pc.SendLoad? { Reloads(s, a); }
    else if pc.seen < ch.cap { RoomStep(s, a, spurious); }
    else { FullStep(s, a, spurious); }
  }

  lemma RoomStep(s: State, a: Aid, spurious: bool)
    requires Inv(s) && a in s.agents && s.agents[a].pc.SendDecide? && s.agents[a].pc.seen < s.ch.cap
    ensures Inv(RunSender(s, a, spurious))
  {
    if s.ch.inQueue == s.agents[a].pc.seen && !spurious { Reserve(s, a, s.ch.inQueue); } else { Reloads(s, a); }
  }

  lemma FullStep(s: State, a: Aid, spurious: bool)
    requires Inv(s) && a in s.agents && s.agents[a].pc.SendDecide? && s.agents[a].pc.seen >= s.ch.cap
    ensures Inv(RunSender(s, a, spurious))
  {
    if s.agents[a].listening { SendPolls(s, a, s.agents[a].pc.seen); }
    else if |s.ch.sendOps.items| < USIZE_MAX { SendListens(s, a, s.agents[a].pc.seen); }
  }

  /** Between two accesses of the receivers' event. */
  lemma Looked(s: State, a: Aid, pc: PC)
    requires Inv(s) && a in s.agents && NotifiesRecv(s.agents[a].pc) && NotifiesRecv(pc)
    requires IsSender(s.agents[a].pc) == IsSender(pc)
    ensures Inv(Goto(s, a, pc))
  {
    PlainGoto(s, a, pc);
  }

  /** Notifying the receivers, or rightly skipping it, and going on. */
  lemma NotifiesReceivers(s: State, a: Aid, pc: PC)
    requires Inv(s) && a in s.agents && !Counted(s.agents[a].pc) && !NotifiesSend(s.agents[a].pc)
    requires pc.SendDone? || pc.SendCheckSend?
    requires IsSender(s.agents[a].pc)
    ensures Inv(Goto(NotifyRecv(s, USIZE_MAX), a, pc))
    ensures s.ch.recvPublished >= USIZE_MAX ==> Inv(Goto(s, a, pc))
  {
    assert AgentOk(s, a);
    if s.ch.recvPublished >= USIZE_MAX { RecvSkip(s); PlainGoto(s, a, pc); }
    NotifyRecvKeeps(s);
    PlainGoto(NotifyRecv(s, USIZE_MAX), a, pc);
  }

  lemma NotifiesSenders(s: State, a: Aid, pc: PC)
    requires Inv(s) && a in s.agents && !Counted(s.agents[a].pc) && !NotifiesRecv(s.agents[a].pc)
    requires pc.SendDone? || pc.RecvFinish?
    requires IsSender(s.agents[a].pc) == IsSender(pc) && IsReceiver(s.agents[a].pc) == IsReceiver(pc)
    ensures Inv(Goto(NotifySend(s, 1), a, pc))
    ensures s.ch.sendPublished >= 1 ==> Inv(Goto(s, a, pc))
  {
    if s.ch.sendPublished >= 1 { SendSkip(s); PlainGoto(s, a, pc); }
    NotifySendKeeps(s, 1);
    PlainGoto(NotifySend(s, 1), a, pc);
  }

  lemma AfterPushStep(s: State, a: Aid, cur: nat)
    requires Inv(s) && a in s.agents && (s.agents[a].pc == SendCheckRecv(cur) || s.agents[a].pc == SendLockRecv(cur))
    ensures Inv(RunSender(s, a, false)) && RunSender(s, a, true) == RunSender(s, a, false)
  {
    if s.agents[a].pc.SendCheckRecv? && s.ch.recvPublished < USIZE_MAX { Looked(s, a, SendLockRecv(cur)); }
    else { NotifiesReceivers(s, a, AfterRecv(s.ch.cap, cur)); }
  }

  lemma AfterSendStep(s: State, a: Aid)
    requires Inv(s) && a in s.agents && (s.agents[a].pc.SendCheckSend? || s.agents[a].pc.SendLockSend?)
    ensures Inv(RunSender(s, a, false)) && RunSender(s, a, true) == RunSender(s, a, false)
  {
    if s.agents[a].pc.SendCheckSend? && s.ch.sendPublished < 1 { PlainGoto(s, a, SendLockSend); }
    else { NotifiesSenders(s, a, SendDone(true)); }
  }

  lemma SenderStep(s: State, a: Aid, spurious: bool)
    requires Inv(s) && a in s.agents && IsSender(s.agents[a].pc)
    ensures Inv(RunSender(s, a, spurious))
  {
    match s.agents[a].pc
    case SendLoad => DecideStep(s, a, spurious);
    case SendDecide(_) => DecideStep(s, a, spurious);
    case SendPush(cur) => if s.ch.closed { Rejected(s, a, cur); } else { Pushed(s, a, cur); }
    case SendCheckRecv(cur) => AfterPushStep(s, a, cur);
    case SendLockRecv(cur) => AfterPushStep(s, a, cur);
    case SendCheckSend => AfterSendStep(s, a);
    case SendLockSend => AfterSendStep(s, a);
    case _ =>
  }

  lemma PopStep(s: State, a: Aid)
    requires Inv(s) && a in s.agents && s.agents[a].pc.RecvPop?
    ensures Inv(RunReceiver(s, a))
  {
    if s.ch.items != [] { Popped(s, a); }
    else if s.ch.closed { PlainGoto(s, a, RecvFinish(None)); }
    else { PlainGoto(s, a, if s.agents[a].listening then RecvPollListener else RecvListen); }
  }

  lemma ReceiverStep(s: State, a: Aid)
    requires Inv(s) && a in s.agents && IsReceiver(s.agents[a].pc)
    ensures Inv(RunReceiver(s, a))
  {
    match s.agents[a].pc
    case RecvPollListener => RecvPolls(s, a);
    case RecvPop => PopStep(s, a);
    case RecvListen => if |s.ch.recvOps.items| < USIZE_MAX { RecvListens(s, a); }
    case RecvTake(item) => Taken(s, a);
    case RecvCheck(item) =>
      if s.ch.sendPublished < 1 { PlainGoto(s, a, RecvLock(item)); }
      else { NotifiesSenders(s, a, RecvFinish(Some(item))); }
    case RecvLock(item) => NotifiesSenders(s, a, RecvFinish(Some(item)));
    case RecvFinish(_) => if s.agents[a].listening { FinishUnlistens(s, a); } else { PlainGoto(s, a, RecvNew); }
    case _ =>
  }

  lemma FinishUnlistens(s: State, a: Aid)
    requires Inv(s) && a in s.agents && s.agents[a].pc.RecvFinish? && s.agents[a].listening
    ensures Inv(RunReceiver(s, a))
  {
    assert AgentOk(s, a);
    ListMember(s, s.ch.recvOps, s.ch.recvPublished, false, a);
    DropRecv(s, a, RunReceiver(s, a));
  }

  /** Notifying the receivers, or rightly skipping it, as the last thing an agent does. */
  lemma NotifiesAndEnds(s: State, a: Aid)
    requires Inv(s) && a in s.agents && NotifiesRecv(s.agents[a].pc) && !IsSender(s.agents[a].pc)
    ensures Inv(NotifyRecv(s, USIZE_MAX).(agents := s.agents - {a}))
    ensures s.ch.recvPublished >= USIZE_MAX ==> Inv(s.(agents := s.agents - {a}))
  {
    assert AgentOk(s, a);
    if s.ch.recvPublished >= USIZE_MAX { RecvSkip(s); PlainGone(s, a); }
    NotifyRecvKeeps(s);
    PlainGone(NotifyRecv(s, USIZE_MAX), a);
  }

  lemma CloseNotifiesSenders(s: State, a: Aid)
    requires Inv(s) && a in s.agents && s.agents[a].pc.CloseLockSend?
    ensures Inv(Goto(NotifySend(s, USIZE_MAX), a, CloseCheckRecv))
  {
    NotifySendKeeps(s, USIZE_MAX);
    PlainGoto(NotifySend(s, USIZE_MAX), a, CloseCheckRecv);
  }

  lemma DirectPushes(s: State, a: Aid)
    requires Inv(s) && a in s.agents && s.agents[a].pc.DirectPush?
    ensures Inv(RunOther(s, a))
  {
    assert AgentOk(s, a);
    if s.ch.closed { PlainGone(s, a); } else { DirectPushed(s, a); }
  }

  lemma DirectLooks(s: State, a: Aid)
    requires Inv(s) && a in s.agents && s.agents[a].pc.DirectCheck?
    ensures Inv(RunOther(s, a))
  {
    if s.ch.recvPublished < USIZE_MAX { Looked(s, a, DirectLock); } else { NotifiesAndEnds(s, a); }
  }

  lemma DirectStep(s: State, a: Aid)
    requires Inv(s) && a in s.agents
    requires s.agents[a].pc.DirectPush? || s.agents[a].pc.DirectCheck? || s.agents[a].pc.DirectLock?
    ensures Inv(RunOther(s, a))
  {
    assert AgentOk(s, a);
    match s.agents[a].pc
    case DirectPush => DirectPushes(s, a);
    case DirectCheck => DirectLooks(s, a);
    case DirectLock => NotifiesAndEnds(s, a);
  }

  lemma OtherStep(s: State, a: Aid)
    requires Inv(s) && a in s.agents && !IsSender(s.agents[a].pc) && !IsReceiver(s.agents[a].pc)
    ensures Inv(RunOther(s, a))
  {
    assert AgentOk(s, a);
    match s.agents[a].pc
    case CloseMark => if s.ch.closed { PlainGone(s, a); } else { Closed(s, a); }
    case CloseCheckSend => Looked(s, a, if s.ch.sendPublished < USIZE_MAX then CloseLockSend else CloseCheckRecv);
    case CloseLockSend => CloseNotifiesSenders(s, a);
    case CloseCheckRecv =>
      if s.ch.recvPublished < USIZE_MAX { Looked(s, a, CloseLockRecv); } else { NotifiesAndEnds(s, a); }
    case CloseLockRecv => NotifiesAndEnds(s, a);
    case _ => DirectStep(s, a);
  }

  lemma Spawned(s: State, a: Aid, pc: PC, msg: Item)
    requires Inv(s) && a !in s.agents && pc in {SendNew, DirectPush, CloseMark, RecvNew}
    ensures Inv(Put(s, a, Agent(pc, false, msg)))
  {
    var s' := Put(s, a, Agent(pc, false, msg));
    KindOfKeys(s, a);
    KeepList(s, s', a, s.ch.sendOps, s.ch.sendPublished, true);
    KeepList(s, s', a, s.ch.recvOps, s.ch.recvPublished, false);
    OthersOk(s, s', a);
    KeepRecvWake(s, s', a);
    KeepSendWake(s, s', a);
  }

  lemma Dropped(s: State, a: Aid)
    requires Inv(s)
    ensures Inv(Step(s, DropAgent(a)))
  {
    if a in s.agents && Resting(s.agents[a].pc) {
      if !s.agents[a].listening { PlainGone(s, a); }
      else if IsSender(s.agents[a].pc) { DropSend(s, a); }
      else { DropRecv(s, a, Step(s, DropAgent(a))); }
    }
  }

  lemma Polled(s: State, a: Aid)
    requires Inv(s)
    ensures Inv(Step(s, Poll(a)))
  {
    if a in s.agents {
      assert AgentOk(s, a);
      match s.agents[a].pc
      case SendNew => PlainGoto(s, a, SendLoad);
      case SendParked => PlainGoto(s, a, SendLoad);
      case RecvNew => PlainGoto(s, a, RecvPop);
      case RecvParked => PlainGoto(s, a, RecvPollListener);
      case _ =>
    }
  }

  lemma StepKeeps(s: State, e: Event)
    requires Inv(s)
    ensures Inv(Step(s, e))
  {
    match e
    case Spawn(a, pc, msg) =>
      if a !in s.agents && pc in {SendNew, DirectPush, CloseMark, RecvNew} { Spawned(s, a, pc, msg); }
    case Poll(a) => Polled(s, a);
    case Run(a, spurious) =>
      if a in s.agents {
        if IsSender(s.agents[a].pc) { SenderStep(s, a, spurious); }
        else if IsReceiver(s.agents[a].pc) { ReceiverStep(s, a); }
        else { OtherStep(s, a); }
      }
    case DropAgent(a) => Dropped(s, a);
  }

  /** Every run keeps the invariant. */
  lemma {:induction false} Reachable(cap: nat, events: seq<Event>)
    requires 0 < cap <= USIZE_MAX
    ensures Inv(After(cap, events))
  {
    if events != [] {
      Reachable(cap, events[..|events| - 1]);
      StepKeeps(After(cap, events[..|events| - 1]), events[|events| - 1]);
    } else {
      assert Keys(Initial(cap).ch.sendOps) == {};
    }
  }
}
