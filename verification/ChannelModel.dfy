/**
 The bounded channel as a transition system, one shared access per step.

 The queue is the first-in first-out queue that `QueueTheorems.RefinesFifo` shows the segmented
 queue to be; the two events are wait lists as in `ListenerSpec`, each locked section one step,
 together with the summary their lock-free checks read.  Agents are send futures, receivers, direct
 senders and closers, any number of each; an agent that waits is on a list under its own name, and
 its name is also its waker.
 */
module ChannelModel {
  import opened Prelude
  import opened Spec = ListenerSpec

  type Item(==, !new)
  type Aid = nat

  /** The in-queue counter is a machine word. */
  const WORD: nat := USIZE_MAX + 1

  datatype PC =
    // a send future: not polled yet, parked, or completed (with `Ok`, or with `Closed`) and not dropped yet
    | SendNew | SendParked | SendDone(ok: bool)
    // inside its poll: `seen` is the counter as last loaded, `cur` as before its reservation
    | SendLoad | SendDecide(seen: nat) | SendPush(cur: nat)
    | SendCheckRecv(cur: nat) | SendLockRecv(cur: nat)
    | SendCheckSend | SendLockSend
    // a send that reserves nothing
    | DirectPush | DirectCheck | DirectLock
    // closing
    | CloseMark | CloseCheckSend | CloseLockSend | CloseCheckRecv | CloseLockRecv
    // a receiver between polls, and inside a poll
    | RecvNew | RecvParked
    | RecvPollListener | RecvPop | RecvListen
    | RecvTake(item: Item) | RecvCheck(item: Item) | RecvLock(item: Item)
    | RecvFinish(result: Option<Item>)

  /** `listening`: the agent holds a listener. */
  datatype Agent = Agent(pc: PC, listening: bool, msg: Item)

  datatype Channel = Channel(
    items: seq<Item>, closed: bool,
    inQueue: nat, cap: nat,
    sendOps: WaitList<Aid>, sendPublished: nat,
    recvOps: WaitList<Aid>, recvPublished: nat)

  /** `woken`: agents woken since their last poll began.  The rest is history: the counter without
      wrap-around, pushes without a reservation, reservations lost to a closed queue, the agents
      that hold a reservation not yet turned into an item and those that hold an item not yet taken
      off the counter, and whether an item was ever taken off the counter while some send future
      was acting on having seen it full. */
  datatype State = State(
    ch: Channel, agents: map<Aid, Agent>, woken: set<Aid>,
    net: int, direct: nat, rejected: nat, reserved: set<Aid>, taking: set<Aid>, raced: bool)

  function Initial(cap: nat): State {
    State(Channel([], false, 0, cap, WaitList([], 0), USIZE_MAX, WaitList([], 0), USIZE_MAX),
          map[], {}, 0, 0, 0, {}, {}, false)
  }

  // ----- the lists -----

  function Find(items: seq<Waiter<Aid>>, a: Aid): (i: nat)
    ensures i <= |items| && (i < |items| ==> items[i].key == a)
    ensures forall j :: 0 <= j < i ==> items[j].key != a
  {
    if items == [] then 0 else if items[0].key == a then 0 else 1 + Find(items[1..], a)
  }

  function SetSend(ch: Channel, l: WaitList<Aid>): Channel {
    ch.(sendOps := l, sendPublished := Published(l))
  }

  function SetRecv(ch: Channel, l: WaitList<Aid>): Channel {
    ch.(recvOps := l, recvPublished := Published(l))
  }

  function Elements(wakers: seq<Waker>): set<Aid> {
    set w | w in wakers
  }

  /** The waiter at `i` leaves the list; what that wakes. */
  function CancelWakes(l: WaitList<Aid>, i: nat): set<Aid>
    requires i < |l.items| && l.notified <= |l.items| && (l.items[i].state.Notified? <==> i < l.notified)
  {
    Elements(Woken(RemoveAt(l, i), Cancel(l, i)))
  }

  predicate InList(l: WaitList<Aid>, a: Aid) {
    var i := Find(l.items, a);
    i < |l.items| && l.notified <= |l.items| && (l.items[i].state.Notified? <==> i < l.notified)
  }

  predicate IsSender(pc: PC) {
    pc.SendNew? || pc.SendParked? || pc.SendDone? || pc.SendLoad? || pc.SendDecide? || pc.SendPush? ||
    pc.SendCheckRecv? || pc.SendLockRecv? || pc.SendCheckSend? || pc.SendLockSend?
  }

  /** Between polls. */
  predicate Resting(pc: PC) {
    pc.SendNew? || pc.SendParked? || pc.SendDone? || pc.RecvNew? || pc.RecvParked?
  }

  predicate IsReceiver(pc: PC) {
    pc.RecvNew? || pc.RecvParked? || pc.RecvPollListener? || pc.RecvPop? || pc.RecvListen? ||
    pc.RecvTake? || pc.RecvCheck? || pc.RecvLock? || pc.RecvFinish?
  }

  // ----- events -----

  datatype Event =
    | Spawn(a: Aid, pc: PC, msg: Item)        // a new future, receiver, direct send or close
    | Poll(a: Aid)                            // the executor polls a future or receiver
    | Run(a: Aid, spurious: bool)             // the agent takes its next step
    | DropAgent(a: Aid)                       // a future or receiver is dropped between polls

  function Put(s: State, a: Aid, ag: Agent): State {
    s.(agents := s.agents[a := ag])
  }

  function Goto(s: State, a: Aid, pc: PC): State
    requires a in s.agents
  {
    Put(s, a, s.agents[a].(pc := pc))
  }

  function Step(s: State, e: Event): State {
    match e
    case Spawn(a, pc, msg) =>
      if a !in s.agents && pc in {SendNew, DirectPush, CloseMark, RecvNew}
      then Put(s, a, Agent(pc, false, msg)) else s
    case Poll(a) =>
      if a !in s.agents then s else
      match s.agents[a].pc {
        case SendNew => Goto(s, a, SendLoad).(woken := s.woken - {a})
        case SendParked => Goto(s, a, SendLoad).(woken := s.woken - {a})
        case RecvNew => Goto(s, a, RecvPop).(woken := s.woken - {a})
        case RecvParked => Goto(s, a, RecvPollListener).(woken := s.woken - {a})
        case _ => s
      }
    case Run(a, spurious) =>
      if a !in s.agents then s
      else if IsSender(s.agents[a].pc) then RunSender(s, a, spurious)
      else if IsReceiver(s.agents[a].pc) then RunReceiver(s, a)
      else RunOther(s, a)
    case DropAgent(a) =>
      if a !in s.agents || !Resting(s.agents[a].pc) then s else
      var s' := if s.agents[a].listening then Unlisten(s, a) else s;
      s'.(agents := s'.agents - {a})
  }

  /** Dropping the listener an agent holds. */
  function Unlisten(s: State, a: Aid): State
    requires a in s.agents
  {
    var ag := s.agents[a];
    if IsSender(ag.pc) then
      var l := s.ch.sendOps;
      if !InList(l, a) then s else
      var i := Find(l.items, a);
      Put(s, a, ag.(listening := false)).(ch := SetSend(s.ch, Cancel(l, i)), woken := s.woken + CancelWakes(l, i))
    else
      var l := s.ch.recvOps;
      if !InList(l, a) then s else
      var i := Find(l.items, a);
      Put(s, a, ag.(listening := false)).(ch := SetRecv(s.ch, Cancel(l, i)), woken := s.woken + CancelWakes(l, i))
  }

  function NotifySend(s: State, n: nat): State
    requires s.ch.sendOps.notified <= |s.ch.sendOps.items|
  {
    var l := s.ch.sendOps;
    s.(ch := SetSend(s.ch, Notify(l, n)), woken := s.woken + Elements(Woken(l, Notify(l, n))))
  }

  function NotifyRecv(s: State, n: nat): State
    requires s.ch.recvOps.notified <= |s.ch.recvOps.items|
  {
    var l := s.ch.recvOps;
    s.(ch := SetRecv(s.ch, Notify(l, n)), woken := s.woken + Elements(Woken(l, Notify(l, n))))
  }

  predicate ListsOk(s: State) {
    s.ch.sendOps.notified <= |s.ch.sendOps.items| && s.ch.recvOps.notified <= |s.ch.recvOps.items|
  }

  function RunSender(s: State, a: Aid, spurious: bool): State
    requires a in s.agents && IsSender(s.agents[a].pc)
  {
    var ag, ch := s.agents[a], s.ch;
    if !ListsOk(s) then s else
    match ag.pc
    case SendNew => s
    case SendParked => s
    case SendDone(_) => s
    case SendLoad => Goto(s, a, SendDecide(ch.inQueue))
    case SendDecide(seen) =>
      if seen < ch.cap then
        if ch.inQueue == seen && !spurious
        then Goto(s, a, SendPush(seen)).(ch := ch.(inQueue := seen + 1), net := s.net + 1, reserved := s.reserved + {a})
        else Goto(s, a, SendDecide(ch.inQueue))
      else if !ag.listening then
        if |ch.sendOps.items| >= USIZE_MAX then s
        else Put(s, a, ag.(listening := true)).(ch := SetSend(ch, Insert(ch.sendOps, a)))
      else PollSendListener(s, a)
    case SendPush(cur) =>
      if ch.closed then Goto(s, a, SendDone(false)).(reserved := s.reserved - {a}, rejected := s.rejected + 1)
      else Goto(s, a, SendCheckRecv(cur)).(ch := ch.(items := ch.items + [ag.msg]), reserved := s.reserved - {a})
    case SendCheckRecv(cur) =>
      Goto(s, a, if ch.recvPublished < USIZE_MAX then SendLockRecv(cur) else AfterRecv(ch.cap, cur))
    case SendLockRecv(cur) =>
      Goto(NotifyRecv(s, USIZE_MAX), a, AfterRecv(ch.cap, cur))
    case SendCheckSend => Goto(s, a, if ch.sendPublished < 1 then SendLockSend else SendDone(true))
    case SendLockSend => Goto(NotifySend(s, 1), a, SendDone(true))
  }

  /** Another sender is notified unless the reservation took the last place. */
  function AfterRecv(cap: nat, cur: nat): PC {
    if cap == cur + 1 then SendDone(true) else SendCheckSend
  }

  function PollSendListener(s: State, a: Aid): State
    requires a in s.agents
  {
    var ag, l := s.agents[a], s.ch.sendOps;
    if !InList(l, a) then s else
    var i := Find(l.items, a);
    if l.items[i].state.Notified?
    then Put(s, a, ag.(listening := false)).(ch := SetSend(s.ch, RemoveAt(l, i)))
    else Goto(s, a, SendParked).(ch := SetSend(s.ch, SetState(l, i, Polling(a))))
  }

  function RunReceiver(s: State, a: Aid): State
    requires a in s.agents && IsReceiver(s.agents[a].pc)
  {
    var ag, ch := s.agents[a], s.ch;
    if !ListsOk(s) then s else
    match ag.pc
    case RecvNew => s
    case RecvParked => s
    case RecvPollListener => PollRecvListener(s, a)
    case RecvPop =>
      if ch.items != [] then
        Goto(s, a, RecvTake(ch.items[0])).(ch := ch.(items := ch.items[1..]), taking := s.taking + {a})
      else if ch.closed then Goto(s, a, RecvFinish(None))
      else Goto(s, a, if ag.listening then RecvPollListener else RecvListen)
    case RecvListen =>
      if |ch.recvOps.items| >= USIZE_MAX then s
      else Put(s, a, ag.(listening := true, pc := RecvPop)).(ch := SetRecv(ch, Insert(ch.recvOps, a)))
    case RecvTake(item) =>
      Goto(s, a, if ch.cap >= ch.inQueue then RecvCheck(item) else RecvFinish(Some(item))).(
        ch := ch.(inQueue := (ch.inQueue + USIZE_MAX) % WORD), net := s.net - 1, taking := s.taking - {a},
        raced := s.raced || exists b :: b in s.agents && s.agents[b].pc.SendDecide? && s.agents[b].pc.seen >= ch.cap)
    case RecvCheck(item) => Goto(s, a, if ch.sendPublished < 1 then RecvLock(item) else RecvFinish(Some(item)))
    case RecvLock(item) => Goto(NotifySend(s, 1), a, RecvFinish(Some(item)))
    case RecvFinish(_) =>
      var s' := if ag.listening then Unlisten(s, a) else s;
      Put(s', a, s'.agents[a].(pc := RecvNew))
  }

  function PollRecvListener(s: State, a: Aid): State
    requires a in s.agents
  {
    var ag, l := s.agents[a], s.ch.recvOps;
    if !InList(l, a) then s else
    var i := Find(l.items, a);
    if l.items[i].state.Notified?
    then Put(s, a, ag.(listening := false, pc := RecvPop)).(ch := SetRecv(s.ch, RemoveAt(l, i)))
    else Goto(s, a, RecvParked).(ch := SetRecv(s.ch, SetState(l, i, Polling(a))))
  }

  function RunOther(s: State, a: Aid): State
    requires a in s.agents
  {
    var ag, ch := s.agents[a], s.ch;
    if !ListsOk(s) then s else
    match ag.pc
    case DirectPush =>
      if ch.closed then s.(agents := s.agents - {a})
      else Goto(s, a, DirectCheck).(ch := ch.(items := ch.items + [ag.msg]), direct := s.direct + 1)
    case DirectCheck =>
      if ch.recvPublished < USIZE_MAX then Goto(s, a, DirectLock) else s.(agents := s.agents - {a})
    case DirectLock => NotifyRecv(s, USIZE_MAX).(agents := s.agents - {a})
    case CloseMark =>
      if ch.closed then s.(agents := s.agents - {a})
      else Goto(s, a, CloseCheckSend).(ch := ch.(closed := true))
    case CloseCheckSend => Goto(s, a, if ch.sendPublished < USIZE_MAX then CloseLockSend else CloseCheckRecv)
    case CloseLockSend => Goto(NotifySend(s, USIZE_MAX), a, CloseCheckRecv)
    case CloseCheckRecv =>
      if ch.recvPublished < USIZE_MAX then Goto(s, a, CloseLockRecv) else s.(agents := s.agents - {a})
    case CloseLockRecv => NotifyRecv(s, USIZE_MAX).(agents := s.agents - {a})
    case _ => s
  }

  function After(cap: nat, events: seq<Event>): State {
    if events == [] then Initial(cap) else Step(After(cap, events[..|events| - 1]), events[|events| - 1])
  }
}
