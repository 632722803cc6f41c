/**
 The oneshot: one sender, one receiver, one state word, one step per shared access.

 Two parties race on four bits.  The value and the receiver's waker are plain cells that the bits
 guard; reading either before it was written would be a fault.
 */
module Oneshot {
  import opened Prelude

  type V(==)
  type Waker = nat

  // ----- the state word -----

  const CLOSED: bv8 := 8
  const SEND: bv8 := 4
  const RECV: bv8 := 2
  const READY: bv8 := 1

  datatype Bits = Bits(closed: bool, send: bool, recv: bool, ready: bool)

  function Word(b: Bits): bv8 {
    (if b.closed then CLOSED else 0) | (if b.send then SEND else 0) |
    (if b.recv then RECV else 0) | (if b.ready then READY else 0)
  }

  /** Testing a mask reads one bit, and or-ing a mask in sets that bit and no other. */
  lemma WordOperations(b: Bits)
    ensures Word(b) & CLOSED == CLOSED <==> b.closed
    ensures Word(b) & SEND == SEND <==> b.send
    ensures Word(b) & RECV == RECV <==> b.recv
    ensures Word(b) & READY == READY <==> b.ready
    ensures Word(b) | CLOSED == Word(b.(closed := true)) && Word(b) | READY == Word(b.(ready := true))
    ensures Word(b) | RECV == Word(b.(recv := true))
  {
  }

  /** How the sender ended: the value accepted, turned down, or never sent. */
  datatype Sent = Accepted(value: V) | TurnedDown(value: V) | Unsent

  datatype Received = Value(value: V) | Closed

  datatype SenderPC =
    | SIdle
    | SWrite(value: V) | SReady(value: V) | SWake(value: V) | STakeBack(value: V)
    | SDropLoad | SDropClose | SDropWake
    | SDone(outcome: Sent)

  datatype ReceiverPC =
    | RIdle
    | RLoad(waker: Waker) | RWrite(waker: Waker) | RRegister(waker: Waker) | RTake
    | RDropLoad | RDropClose
    | RGone

  /** `result`: set once a poll has completed (the receiver's `done`).  History: the waker of the
      last poll if that returned pending, wakers woken since the last poll began, how often either
      side has taken the value, who set the closed bit, whether the receiver was polled after it
      had yielded the value, and whether a cell was read before it was written. */
  datatype State = State(
    word: Bits, value: Option<V>, recvWaker: Option<Waker>,
    sender: SenderPC, receiver: ReceiverPC, result: Option<Received>,
    waiting: Option<Waker>, woken: set<Waker>, got: nat, back: nat,
    senderClosed: bool, receiverClosed: bool, polledAgain: bool, fault: bool)

  function Initial(): State {
    State(Bits(false, false, false, false), None, None, SIdle, RIdle, None, None, {}, 0, 0, false, false, false, false)
  }

  datatype Event =
    | Send(value: V) | DropSender | SenderRuns
    | Poll(waker: Waker) | DropReceiver | ReceiverRuns

  predicate Yielded(s: State) {
    s.result.Some? && s.result.value.Value?
  }

  function Step(s: State, e: Event): State {
    match e
    case Send(v) => if s.sender.SIdle? then s.(sender := SWrite(v)) else s
    case DropSender => if s.sender.SIdle? then s.(sender := SDropLoad) else s
    case SenderRuns => RunSender(s)
    case Poll(w) =>
      if s.receiver.RIdle?
      then s.(receiver := RLoad(w), waiting := None, woken := {}, polledAgain := s.polledAgain || Yielded(s))
      else s
    case DropReceiver =>
      if !s.receiver.RIdle? then s
      else if s.result.Some? then s.(receiver := RGone) else s.(receiver := RDropLoad)
    case ReceiverRuns => RunReceiver(s)
  }

  function RunSender(s: State): State {
    match s.sender
    case SWrite(v) => s.(value := Some(v), sender := SReady(v))
    case SReady(v) =>
      s.(word := s.word.(ready := true),
         sender := if s.word.closed then STakeBack(v) else if s.word.recv then SWake(v) else SDone(Accepted(v)))
    case SWake(v) => Wake(s).(sender := SDone(Accepted(v)))
    case STakeBack(v) => s.(sender := SDone(TurnedDown(v)), back := s.back + 1, fault := s.fault || s.value.None?)
    case SDropLoad => s.(sender := if s.word.closed then SDone(Unsent) else SDropClose)
    case SDropClose =>
      s.(word := s.word.(closed := true), senderClosed := true,
         sender := if s.word.recv then SDropWake else SDone(Unsent))
    case SDropWake => Wake(s).(sender := SDone(Unsent))
    case _ => s
  }

  /** The sender wakes whatever waker is in the cell now. */
  function Wake(s: State): State {
    match s.recvWaker
    case Some(w) => s.(woken := s.woken + {w})
    case None => s.(fault := true)
  }

  function RunReceiver(s: State): State {
    match s.receiver
    case RLoad(w) => Handle(s, s.word, RWrite(w))
    case RWrite(w) => s.(recvWaker := Some(w), receiver := RRegister(w))
    case RRegister(w) =>
      var s' := Handle(s.(word := s.word.(recv := true)), s.word, RIdle);
      if s'.receiver.RIdle? && s'.result == s.result
      then s'.(waiting := Some(w), fault := s.fault || s.word.send)
      else s'
    case RTake =>
      if s.value.Some? then s.(receiver := RIdle, result := Some(Value(s.value.value)), got := s.got + 1)
      else s.(fault := true)
    case RDropLoad =>
      s.(receiver := if s.word.closed || s.word.ready then RGone else RDropClose)
    case RDropClose =>
      s.(word := s.word.(closed := true), receiverClosed := true, receiver := RGone, fault := s.fault || s.word.send)
    case _ => s
  }

  /** `handle_state`: ready, closed, or else on to `pending`. */
  function Handle(s: State, word: Bits, pending: ReceiverPC): State {
    if word.ready then s.(receiver := RTake)
    else if word.closed then s.(receiver := RIdle, result := Some(Closed))
    else s.(receiver := pending)
  }

  function After(events: seq<Event>): State {
    if events == [] then Initial() else Step(After(events[..|events| - 1]), events[|events| - 1])
  }

  // ----- invariant -----

  predicate Published(pc: SenderPC) {
    pc.SWake? || pc.STakeBack? || (pc.SDone? && !pc.outcome.Unsent?)
  }

  function ValueOf(pc: SenderPC): Option<V> {
    if pc.SReady? || pc.SWake? || pc.STakeBack? then Some(pc.value)
    else if pc.SDone? && !pc.outcome.Unsent? then Some(pc.outcome.value)
    else None
  }

  /** The word says what has happened. */
  ghost predicate WordOk(s: State) {
    && !s.word.send
    && (s.word.recv ==> s.recvWaker.Some?)
    && (s.word.ready <==> Published(s.sender))
    && (s.word.closed <==> s.senderClosed || s.receiverClosed)
  }

  ghost predicate SenderOk(s: State) {
    && (ValueOf(s.sender).Some? ==> s.value == ValueOf(s.sender))
    && (s.senderClosed ==> s.sender.SDropWake? || s.sender == SDone(Unsent))
    && (s.sender.SDropWake? ==> s.senderClosed && s.word.recv)
    && (s.sender.SWake? ==> s.word.recv)
    && (s.sender == SDone(Unsent) ==> s.word.closed)
    && (s.sender.STakeBack? || (s.sender.SDone? && s.sender.outcome.TurnedDown?) ==> s.receiverClosed)
    && (s.sender.SWake? || (s.sender.SDone? && s.sender.outcome.Accepted?) ==> s.back == 0)
    && s.back == (if s.sender.SDone? && s.sender.outcome.TurnedDown? then 1 else 0)
  }

  predicate Polling(pc: ReceiverPC) {
    pc.RLoad? || pc.RWrite? || pc.RRegister? || pc.RTake?
  }

  predicate Working(pc: ReceiverPC) {
    pc.RLoad? || pc.RWrite? || pc.RRegister? || pc.RDropLoad? || pc.RDropClose?
  }

  ghost predicate ReceiverOk(s: State) {
    && (s.receiverClosed ==> s.receiver.RGone?)
    && (s.receiver.RTake? ==> s.word.ready && s.result.None?)
    && (Working(s.receiver) ==> s.result.None? || (s.receiver.RLoad? && s.result == Some(Closed)))
    && (Polling(s.receiver) ==> s.waiting.None?)
    && (s.receiver.RRegister? ==> s.recvWaker == Some(s.receiver.waker))
    && (s.result.Some? ==> !s.receiverClosed)
    && s.got == (if s.result.Some? && s.result.value.Value? then 1 else 0)
    && (s.result.Some? && s.result.value.Value? ==>
          ValueOf(s.sender) == Some(s.result.value.value) && s.word.ready)
    && (s.result == Some(Closed) ==> s.senderClosed)
    && (s.receiver.RGone? ==> s.result.Some? || s.word.closed || s.word.ready)
  }

  /** A pending receiver's latest waker is in place, and woken once the sender is through. */
  ghost predicate WaitOk(s: State) {
    s.waiting.Some? && s.receiver.RIdle? ==>
      s.word.recv && s.recvWaker == s.waiting && s.result.None? &&
      (s.sender.SDone? ==> s.waiting.value in s.woken)
  }

  ghost predicate Inv(s: State) {
    !s.polledAgain ==> WordOk(s) && SenderOk(s) && ReceiverOk(s) && WaitOk(s) && !s.fault
  }

  lemma StepKeeps(s: State, e: Event)
    requires Inv(s)
    ensures Inv(Step(s, e))
  {
    match e
    case SenderRuns => SenderKeeps(s);
    case ReceiverRuns => ReceiverKeeps(s);
    case _ =>
  }

  lemma SenderKeeps(s: State)
    requires Inv(s)
    ensures Inv(RunSender(s))
  {
    if s.sender.SReady? || s.sender.SDropClose? { SenderSets(s); }
    else if s.sender.SWake? || s.sender.SDropWake? { SenderWakes(s); }
    else { SenderReads(s); }
  }

  lemma SenderSets(s: State)
    requires Inv(s) && (s.sender.SReady? || s.sender.SDropClose?)
    ensures Inv(RunSender(s))
  {
  }

  lemma SenderWakes(s: State)
    requires Inv(s) && (s.sender.SWake? || s.sender.SDropWake?)
    ensures Inv(RunSender(s))
  {
  }

  lemma SenderReads(s: State)
    requires Inv(s) && !s.sender.SReady? && !s.sender.SDropClose? && !s.sender.SWake? && !s.sender.SDropWake?
    ensures Inv(RunSender(s))
  {
  }

  lemma ReceiverKeeps(s: State)
    requires Inv(s)
    ensures Inv(RunReceiver(s))
  {
    if s.receiver.RRegister? || s.receiver.RDropClose? { ReceiverSets(s); } else { ReceiverReads(s); }
  }

  lemma ReceiverSets(s: State)
    requires Inv(s) && (s.receiver.RRegister? || s.receiver.RDropClose?)
    ensures Inv(RunReceiver(s))
  {
  }

  lemma ReceiverReads(s: State)
    requires Inv(s) && !s.receiver.RRegister? && !s.receiver.RDropClose?
    ensures Inv(RunReceiver(s))
  {
  }

  lemma {:induction false} Reachable(events: seq<Event>)
    ensures Inv(After(events))
  {
    if events != [] {
      Reachable(events[..|events| - 1]);
      StepKeeps(After(events[..|events| - 1]), events[|events| - 1]);
    }
  }

  // ----- what every run guarantees -----

  /** As long as the receiver is not polled after it yielded the value: nothing is read before it is written
      and the value is taken at most once, by one side only. */
  lemma TakenAtMostOnce(events: seq<Event>)
    requires !After(events).polledAgain
    ensures var s := After(events); !s.fault && s.got + s.back <= 1
  {
    Reachable(events);
  }

  /** The receiver yields only the value that was sent, and `Closed` only if none ever will be. */
  lemma ResultsAreTrue(events: seq<Event>)
    requires !After(events).polledAgain && After(events).result.Some?
    ensures var s := After(events);
            && (s.result.value.Value? ==>
                  (exists k :: 0 <= k < |events| && events[k] == Send(s.result.value.value)) &&
                  (s.sender == SWake(s.result.value.value) || s.sender == SDone(Accepted(s.result.value.value))))
            && (s.result.value.Closed? ==> s.sender.SDropWake? || s.sender == SDone(Unsent))
  {
    Reachable(events);
    SentWasAsked(events);
  }

  function Carried(pc: SenderPC): Option<V> {
    if pc.SWrite? then Some(pc.value) else ValueOf(pc)
  }

  lemma CarriedSteps(s: State, e: Event)
    requires Carried(Step(s, e).sender).Some?
    ensures Carried(s.sender) == Carried(Step(s, e).sender) || e == Send(Carried(Step(s, e).sender).value)
  {
    match e
    case SenderRuns => SenderCarries(s);
    case ReceiverRuns => ReceiverLeavesSender(s);
    case _ =>
  }

  lemma SenderCarries(s: State)
    ensures Carried(RunSender(s).sender) == Carried(s.sender)
  {
  }

  /** What the sender's steps leave alone. */
  lemma SenderLeavesReceiver(s: State)
    ensures var s' := RunSender(s);
            && s'.receiver == s.receiver && s'.result == s.result && s'.waiting == s.waiting
            && s'.receiverClosed == s.receiverClosed && s'.polledAgain == s.polledAgain
    ensures RunSender(s).sender.SIdle? <==> s.sender.SIdle?
  {
    WakeLeavesReceiver(s);
    if s.sender.SWake? || s.sender.SDropWake? {
      assert RunSender(s) == Wake(s).(sender := RunSender(s).sender);
    }
  }

  lemma WakeLeavesReceiver(s: State)
    ensures Wake(s) == s.(woken := Wake(s).woken, fault := Wake(s).fault)
  {
  }

  lemma ReceiverLeavesSender(s: State)
    ensures RunReceiver(s).sender == s.sender
  {
  }

  lemma {:induction false} SentWasAsked(events: seq<Event>)
    ensures Carried(After(events).sender).Some? ==>
              exists k :: 0 <= k < |events| && events[k] == Send(Carried(After(events).sender).value)
  {
    if events != [] && Carried(After(events).sender).Some? {
      var n := |events| - 1;
      var before := events[..n];
      SentWasAsked(before);
      CarriedSteps(After(before), events[n]);
      if Carried(After(before).sender).Some? {
        var k :| 0 <= k < n && before[k] == Send(Carried(After(before).sender).value);
        assert events[k] == before[k];
      } else {
        assert events[n] == Send(Carried(After(events).sender).value);
      }
    }
  }

  /** No lost wake-up: when the last poll returned pending and the sender has since sent or gone,
      that poll's waker has been woken. */
  lemma NoLostWake(events: seq<Event>)
    requires !After(events).polledAgain && After(events).receiver.RIdle? && After(events).sender.SDone?
    ensures var s := After(events); s.waiting.Some? ==> s.waiting.value in s.woken
  {
    Reachable(events);
  }

  function Then(s: State, events: seq<Event>): State
    decreases |events|
  {
    if events == [] then s else Then(Step(s, events[0]), events[1..])
  }

  // ----- what an undisturbed operation comes to -----

  function Repeat(e: Event, n: nat): (r: seq<Event>)
    ensures |r| == n
  {
    seq(n, _ => e)
  }

  lemma ThenRepeat(s: State, e: Event, n: nat)
    requires n > 0
    ensures Then(s, Repeat(e, n)) == Then(Step(s, e), Repeat(e, n - 1))
  {
    assert Repeat(e, n)[1..] == Repeat(e, n - 1);
  }

  lemma ThenThree(s: State, first: Event, e: Event)
    ensures Then(s, [first] + Repeat(e, 3)) == Step(Step(Step(Step(s, first), e), e), e)
  {
    var s1 := Step(s, first);
    assert ([first] + Repeat(e, 3))[1..] == Repeat(e, 3);
    ThenRepeat(s1, e, 3);
    ThenRepeat(Step(s1, e), e, 2);
    ThenRepeat(Step(Step(s1, e), e), e, 1);
  }

  /** An undisturbed send gives the value back if and only if the receiver has closed the word; otherwise
      it is accepted, and a receiver that waits is woken. */
  lemma SendExactly(events: seq<Event>, v: V)
    requires !After(events).polledAgain && After(events).sender.SIdle?
    ensures var s := After(events); var s' := Then(s, [Send(v)] + Repeat(SenderRuns, 3));
            && s'.sender == SDone(if s.receiverClosed then TurnedDown(v) else Accepted(v))
            && s'.back == (if s.receiverClosed then 1 else 0)
            && (s.receiver.RIdle? && s.waiting.Some? ==> s.waiting.value in s'.woken)
  {
    Reachable(events);
    ThenThree(After(events), Send(v), SenderRuns);
    SendsAlone(After(events), v);
  }

  lemma SendsAlone(s: State, v: V)
    requires Inv(s) && !s.polledAgain && s.sender.SIdle?
    ensures var s' := RunSender(RunSender(RunSender(Step(s, Send(v)))));
            && s'.sender == SDone(if s.receiverClosed then TurnedDown(v) else Accepted(v))
            && s'.back == (if s.receiverClosed then 1 else 0)
            && (s.receiver.RIdle? && s.waiting.Some? ==> s.waiting.value in s'.woken)
  {
  }

  /** So does the drop of a sender: the receiver is told, unless it has closed the word. */
  lemma SenderDropExactly(events: seq<Event>)
    requires !After(events).polledAgain && After(events).sender.SIdle?
    ensures var s := After(events); var s' := Then(s, [DropSender] + Repeat(SenderRuns, 3));
            && s'.sender == SDone(Unsent) && s'.word.closed && !s'.word.ready
            && (s.receiver.RIdle? && s.waiting.Some? ==> s.waiting.value in s'.woken)
  {
    Reachable(events);
    ThenThree(After(events), DropSender, SenderRuns);
    DropsAlone(After(events));
  }

  lemma DropsAlone(s: State)
    requires Inv(s) && !s.polledAgain && s.sender.SIdle?
    ensures var s' := RunSender(RunSender(RunSender(Step(s, DropSender))));
            && s'.sender == SDone(Unsent) && s'.word.closed && !s'.word.ready
            && (s.receiver.RIdle? && s.waiting.Some? ==> s.waiting.value in s'.woken)
  {
  }

  /** What an undisturbed poll comes to: the value if it is published, `Closed` if the sender has gone
      without one, and pending, to be woken, otherwise. */
  lemma PollExactly(events: seq<Event>, w: Waker)
    requires !After(events).polledAgain && After(events).receiver.RIdle? && !Yielded(After(events))
    ensures PollComesTo(After(events), Then(After(events), [Poll(w)] + Repeat(ReceiverRuns, 3)), w)
  {
    Reachable(events);
    ThenThree(After(events), Poll(w), ReceiverRuns);
    PollsAlone(After(events), w);
  }

  ghost predicate PollComesTo(s: State, s': State, w: Waker) {
    && s'.receiver.RIdle?
    && (ValueOf(s.sender).Some? && !s.sender.SReady? <==> Yielded(s'))
    && (Yielded(s') ==> s'.result == Some(Value(ValueOf(s.sender).value)))
    && (s.senderClosed <==> s'.result == Some(Closed))
    && (s'.result.None? <==> s'.waiting == Some(w))
  }

  lemma PollsAlone(s: State, w: Waker)
    requires Inv(s) && !s.polledAgain && s.receiver.RIdle? && !Yielded(s)
    ensures PollComesTo(s, RunReceiver(RunReceiver(RunReceiver(Step(s, Poll(w))))), w)
  {
  }

  /** The next poll after the sender is done completes: with the value exactly if one was accepted. */
  lemma NextPollCompletes(events: seq<Event>, w: Waker)
    requires !After(events).polledAgain && After(events).receiver.RIdle? && !Yielded(After(events))
    requires After(events).sender.SDone?
    ensures var s := After(events); var s' := Then(s, [Poll(w)] + Repeat(ReceiverRuns, 3));
            && s'.receiver.RIdle?
            && s'.result == Some(if s.sender.outcome.Accepted? then Value(s.sender.outcome.value) else Closed)
  {
    Reachable(events);
    PollExactly(events, w);
  }

  /** An undisturbed drop of the receiver closes the word if and only if no poll has completed and neither
      the sender's end nor a value has been published. */
  lemma ReceiverDropExactly(events: seq<Event>)
    requires !After(events).polledAgain && After(events).receiver.RIdle?
    ensures var s := After(events); var s' := Then(s, [DropReceiver] + Repeat(ReceiverRuns, 3));
            && s'.receiver.RGone?
            && (s'.receiverClosed <==> s.result.None? && !s.word.closed && !s.word.ready)
  {
    Reachable(events);
    ThenThree(After(events), DropReceiver, ReceiverRuns);
    GoesAlone(After(events));
  }

  lemma GoesAlone(s: State)
    requires Inv(s) && !s.polledAgain && s.receiver.RIdle?
    ensures var s' := RunReceiver(RunReceiver(RunReceiver(Step(s, DropReceiver))));
            && s'.receiver.RGone?
            && (s'.receiverClosed <==> s.result.None? && !s.word.closed && !s.word.ready)
  {
  }

  // ----- which outcome is due -----

  /** The step that publishes the value. */
  predicate Publishes(s: State, e: Event) {
    !s.word.ready && Step(s, e).word.ready
  }

  /** A step at which the receiver sets the closed bit. */
  predicate Closes(s: State, e: Event) {
    e.ReceiverRuns? && !s.word.closed && Step(s, e).word.closed
  }

  ghost predicate ClosedBefore(events: seq<Event>, k: nat)
    requires k <= |events|
  {
    exists j :: 0 <= j < k && Closes(After(events[..j]), events[j])
  }

  /** Over all interleavings: a value that was sent is given back, once, if and only if the receiver set
      the closed bit before the sender published the value; otherwise it is accepted. */
  lemma {:induction false} OutcomeExactly(events: seq<Event>, k: nat)
    requires k < |events| && Publishes(After(events[..k]), events[k]) && !After(events).polledAgain
    ensures DueOutcome(After(events), ClosedBefore(events, k))
  {
    var n := |events| - 1;
    AgainStays(events);
    if k < n {
      assert events[..n][..k] == events[..k];
      OutcomeExactly(events[..n], k);
      OutcomeGoesOn(events, k);
    } else {
      Decides(events[..n], events[n]);
      SamePrefix(events[..n], events, n);
    }
  }

  lemma AgainStays(events: seq<Event>)
    requires events != [] && !After(events).polledAgain
    ensures !After(events[..|events| - 1]).polledAgain
  {
    FlagsStay(After(events[..|events| - 1]), events[|events| - 1]);
  }

  lemma OutcomeGoesOn(events: seq<Event>, k: nat)
    requires k < |events| - 1 && !After(events[..|events| - 1]).polledAgain
    requires var before := events[..|events| - 1]; DueOutcome(After(before), ClosedBefore(before, k))
    ensures DueOutcome(After(events), ClosedBefore(events, k))
  {
    var n := |events| - 1;
    SamePrefix(events[..n], events, k);
    DueStays(events[..n], events[n], ClosedBefore(events, k));
  }

  /** And every value that came to an outcome was published at some step. */
  lemma {:induction false} WasPublished(events: seq<Event>)
    requires After(events).word.ready
    ensures exists k :: 0 <= k < |events| && Publishes(After(events[..k]), events[k])
  {
    var n := |events| - 1;
    var before := events[..n];
    if After(before).word.ready {
      WasPublished(before);
      var k :| 0 <= k < n && Publishes(After(before[..k]), before[k]);
      assert before[..k] == events[..k] && before[k] == events[k];
      assert Publishes(After(events[..k]), events[k]);
    } else {
      assert Publishes(After(events[..n]), events[n]);
    }
  }

  /** With the ready bit set the outcome is on its way. */
  predicate DueOutcome(s: State, closedFirst: bool) {
    if closedFirst
    then s.sender.STakeBack? || (s.sender.SDone? && s.sender.outcome.TurnedDown? && s.back == 1)
    else s.sender.SWake? || (s.sender.SDone? && s.sender.outcome.Accepted? && s.back == 0)
  }

  lemma DueStays(events: seq<Event>, e: Event, closedFirst: bool)
    requires !After(events).polledAgain && DueOutcome(After(events), closedFirst)
    ensures DueOutcome(Step(After(events), e), closedFirst)
  {
    Reachable(events);
    OutcomeStays(After(events), e, closedFirst);
  }

  lemma OutcomeStays(s: State, e: Event, closedFirst: bool)
    requires Inv(s) && !s.polledAgain && DueOutcome(s, closedFirst)
    ensures DueOutcome(Step(s, e), closedFirst)
  {
    match e
    case SenderRuns => SenderLeavesReceiver(s);
    case ReceiverRuns => ReceiverLeavesSender(s);
    case _ =>
  }

  lemma Decides(events: seq<Event>, e: Event)
    requires !After(events).polledAgain && Publishes(After(events), e)
    ensures DueOutcome(Step(After(events), e), ClosedBefore(events, |events|))
  {
    var s := After(events);
    Reachable(events);
    if e.ReceiverRuns? { ReceiverLeavesReady(s); }
    assert !s.senderClosed && DueOutcome(Step(s, e), s.receiverClosed);
    ReceiverClosedExactly(events);
  }

  lemma ReceiverLeavesReady(s: State)
    ensures RunReceiver(s).word.ready == s.word.ready
  {
    match s.receiver
    case RLoad(w) => HandleLeavesWord(s, s.word, RWrite(w));
    case RRegister(w) => HandleLeavesWord(s.(word := s.word.(recv := true)), s.word, RIdle);
    case _ =>
  }

  lemma HandleLeavesWord(s: State, word: Bits, pending: ReceiverPC)
    ensures Handle(s, word, pending).word == s.word
  {
  }

  lemma FlagsStay(s: State, e: Event)
    ensures s.polledAgain ==> Step(s, e).polledAgain
    ensures s.senderClosed ==> Step(s, e).senderClosed
  {
    match e
    case SenderRuns => SenderLeavesReceiver(s); SenderStaysClosed(s);
    case _ =>
  }

  lemma SenderStaysClosed(s: State)
    ensures s.senderClosed ==> RunSender(s).senderClosed
  {
  }

  lemma SamePrefix(before: seq<Event>, events: seq<Event>, k: nat)
    requires k <= |before| <= |events| && before == events[..|before|]
    ensures ClosedBefore(before, k) <==> ClosedBefore(events, k)
  {
    assert forall j :: 0 <= j < k ==> before[..j] == events[..j];
  }

  /** With the sender still there, the receiver has closed the word if and only if it set the bit at
      some step. */
  lemma {:induction false} ReceiverClosedExactly(events: seq<Event>)
    requires !After(events).polledAgain && !After(events).senderClosed
    ensures After(events).receiverClosed <==> ClosedBefore(events, |events|)
  {
    if events != [] {
      var n := |events| - 1;
      var before := events[..n];
      Reachable(before);
      FlagsStay(After(before), events[n]);
      ReceiverClosedExactly(before);
      SamePrefix(before, events, n);
      ClosedStep(After(before), events[n]);
      assert events[..n] == before;
    }
  }

  lemma ClosedStep(s: State, e: Event)
    requires Inv(s) && !s.polledAgain && !Step(s, e).senderClosed
    ensures Step(s, e).receiverClosed <==> s.receiverClosed || Closes(s, e)
  {
    FlagsStay(s, e);
    match e
    case SenderRuns => SenderLeavesReceiver(s);
    case ReceiverRuns => ReceiverCloses(s);
    case _ =>
  }

  lemma ReceiverCloses(s: State)
    requires Inv(s) && !s.polledAgain && !s.senderClosed
    ensures RunReceiver(s).receiverClosed <==> s.receiverClosed || Closes(s, ReceiverRuns)
  {
  }

  /** Where a sent value ends when both sides are finished.  It was taken exactly once, unless the
      sender was told it was accepted and the receiver was dropped without yielding it: then it
      stays in the cell, and nothing ever drops it. */
  lemma FateOfTheValue(events: seq<Event>)
    requires !After(events).polledAgain && After(events).sender.SDone? && After(events).receiver.RGone?
    ensures var s := After(events);
            && (s.sender.outcome.Unsent? ==> s.got + s.back == 0)
            && (s.sender.outcome.TurnedDown? ==> s.back == 1 && s.got == 0 && s.result.None?)
            && (s.sender.outcome.Accepted? ==> s.back == 0 && (s.got == 0 <==> s.result.None?))
            && (s.sender.outcome.Accepted? && s.result.Some? ==> s.result == Some(Value(s.sender.outcome.value)))
  {
    Reachable(events);
  }

  lemma Advance(events: seq<Event>, e: Event) returns (r: seq<Event>)
    ensures After(r) == Step(After(events), e)
  {
    r := events + [e];
    assert r[..|events|] == events;
  }

  /** Such a run: the value is accepted, and the receiver is dropped without having been polled. */
  lemma AcceptedValueCanLeak(v: V) returns (run: seq<Event>)
    ensures var s := After(run);
            && !s.polledAgain && s.sender == SDone(Accepted(v)) && s.receiver.RGone?
            && s.value == Some(v) && s.got == 0 && s.back == 0
  {
    run := Advance([], Send(v));
    run := Advance(run, SenderRuns);
    run := Advance(run, SenderRuns);
    run := Advance(run, DropReceiver);
    run := Advance(run, ReceiverRuns);
  }

  /** The proviso is needed: a poll after the value was yielded takes it a second time. */
  lemma PollAfterValueTakesAgain(events: seq<Event>, w: Waker)
    requires !After(events).polledAgain && After(events).receiver.RIdle? && Yielded(After(events))
    ensures Then(After(events), [Poll(w), ReceiverRuns, ReceiverRuns]).got == 2
  {
    Reachable(events);
    var s := After(events);
    var s1 := Step(s, Poll(w));
    var s2 := Step(s1, ReceiverRuns);
    assert Then(s, [Poll(w), ReceiverRuns, ReceiverRuns]) == Then(s1, [ReceiverRuns, ReceiverRuns])
           == Then(s2, [ReceiverRuns]) == Then(Step(s2, ReceiverRuns), []);
  }
}
