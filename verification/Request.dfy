/**
 A request to an actor: the message on its way to the mailbox, the handler that answers it, and the
 oneshot between the two, together.

 The requester polls a future of two stages, each with an optional timeout.  The first stage is a
 send future of `ChannelModel`, among any other users of the mailbox; the second is the receiving
 end of a oneshot of `Oneshot`.  The other side takes the message once the channel has delivered it,
 runs the handler unless nobody waits for the answer any more, and sends the result.  Each machine
 takes one shared access per step.
 */
module Request {
  import opened Prelude
  import L = ListenerSpec
  import C = ChannelModel
  import X = ChannelExact
  import M = ChannelMessages
  import P = ChannelOutcomes
  import O = Oneshot

  type V = O.V

  /** Whether the timers of the two stages have elapsed, when they are polled. */
  datatype Answer = Answer(sendElapsed: bool, replyElapsed: bool)

  datatype Variant = Request(timeout: bool, timeoutResponse: bool) | Response(timeout: bool) | PlaceHolder

  /** Where the requester's poll is: at the top of its loop, inside the poll of the send future,
      between taking the old variant out and putting the new one in, or inside the poll of the
      oneshot. */
  datatype Phase =
    | Idle
    | Top(waker: nat, answer: Answer)
    | Sending(waker: nat, answer: Answer)
    | Replacing(waker: nat, answer: Answer, timeout: bool)
    | Receiving(answer: Answer)

  datatype Outcome = Answered(value: V) | Closed | SendTimeout | ReceiveTimeout

  /** `Discarded`: the message, or the handler's future before its end, was dropped. */
  datatype Handler = Unstarted | Checking | Running | Finished(value: V) | Skipped | Discarded

  /** `me`: the send future's name in the channel; `log`: the channel's events so far.  `entered`: how
      often the message was put into the mailbox; `runs`: how often the handler ran to its end;
      `dropped`: the request future is gone. */
  datatype State = State(
    cap: nat, me: C.Aid, chan: C.State, log: seq<C.Event>, entered: nat,
    req: Variant, phase: Phase, outcome: Option<Outcome>, dropped: bool,
    one: O.State, handler: Handler, runs: nat, fault: bool)

  datatype Config = Config(cap: nat, me: C.Aid, msg: C.Item, timeout: bool, timeoutResponse: bool)

  function Initial(c: Config): State {
    var make := C.Spawn(c.me, C.SendNew, c.msg);
    State(c.cap, c.me, C.Step(C.Initial(c.cap), make), [make], 0,
          Request(c.timeout, c.timeoutResponse), Idle, None, false, O.Initial(), Unstarted, 0, false)
  }

  datatype Event =
    | Channel(e: C.Event)                // somebody else uses the mailbox
    | Poll(waker: nat, answer: Answer)   // the requester polls
    | RequesterRuns(spurious: bool)
    | DropRequest
    | TakeMail                           // the actor takes the message and calls its handler
    | HandlerRuns                        // the handler's future looks whether anybody waits
    | HandlerDone(value: V)
    | Discard                            // the actor ends with the message queued or being handled
    | SenderRuns                         // the oneshot's sender takes a step

  /** The channel takes a step. */
  function Drive(s: State, e: C.Event): State {
    var log := s.log + [e];
    s.(chan := C.Step(s.chan, e), log := log, entered := |P.PushedBy(s.cap, log, s.me)|)
  }

  /** How many messages were in front when ours was put into the channel. */
  function PlaceOf(cap: nat, log: seq<C.Event>, me: C.Aid): Option<nat> {
    if log == [] then None else
    var before, e := log[..|log| - 1], log[|log| - 1];
    if P.Makes(C.After(cap, before), e, me) then None
    else if X.Actor(e) == me && M.SentBy(C.After(cap, before), e) != [] then Some(|M.Sent(cap, before)|)
    else PlaceOf(cap, before, me)
  }

  /** A receiver has taken our message out of the channel. */
  predicate Delivered(s: State) {
    var place := PlaceOf(s.cap, s.log, s.me);
    place.Some? && place.value < |M.Received(s.cap, s.log)|
  }

  function Step(s: State, e: Event): State {
    match e
    case Channel(e) => if X.Actor(e) != s.me then Drive(s, e) else s
    case Poll(w, answer) =>
      if s.phase.Idle? && s.outcome.None? && !s.dropped then s.(phase := Top(w, answer)) else s
    case RequesterRuns(spurious) => RunRequester(s, spurious)
    case DropRequest => if s.phase.Idle? && !s.dropped then Abandon(s) else s
    case TakeMail => if Delivered(s) && s.handler.Unstarted? then s.(handler := Checking) else s
    case HandlerRuns =>
      if !s.handler.Checking? then s
      else if s.one.word.closed then s.(handler := Skipped, one := O.Step(s.one, O.DropSender))
      else s.(handler := Running)
    case HandlerDone(r) =>
      if s.handler.Running? then s.(handler := Finished(r), runs := s.runs + 1, one := O.Step(s.one, O.Send(r))) else s
    case Discard =>
      if (s.handler.Unstarted? && s.entered > 0) || s.handler.Checking? || s.handler.Running?
      then s.(handler := Discarded, one := O.Step(s.one, O.DropSender)) else s
    case SenderRuns => s.(one := O.Step(s.one, O.SenderRuns))
  }

  /** The receiver goes, and with it the send future if it is still there and a message still in it. */
  function Abandon(s: State): State {
    var s1 := if s.req.Request? then Drive(s, C.DropAgent(s.me)) else s;
    var one := O.Step(s.one, O.DropReceiver);
    if s.req.Request? && s.handler.Unstarted?
    then s1.(dropped := true, one := O.Step(one, O.DropSender), handler := Discarded)
    else s1.(dropped := true, one := one)
  }

  function RunRequester(s: State, spurious: bool): State {
    match s.phase
    case Idle => if s.dropped then s.(one := O.Step(s.one, O.ReceiverRuns)) else s
    case Top(w, answer) =>
      (match s.req
       case Request(_, _) => Drive(s, C.Poll(s.me)).(phase := Sending(w, answer))
       case Response(_) => s.(phase := Receiving(answer), one := O.Step(s.one, O.Poll(w)))
       case PlaceHolder => s.(fault := true))
    case Sending(w, answer) => RunSend(s, w, answer, spurious)
    case Replacing(w, answer, timeout) => s.(req := Response(timeout), phase := Top(w, answer))
    case Receiving(answer) =>
      var one := O.Step(s.one, O.ReceiverRuns);
      if !one.receiver.RIdle? then s.(one := one)
      else s.(one := one, phase := Idle, outcome := Reply(s.req, one.result, answer))
  }

  /** The send future runs, or its poll has returned. */
  function RunSend(s: State, w: nat, answer: Answer, spurious: bool): State {
    if s.me !in s.chan.agents || !s.req.Request? then s.(fault := true) else
    match s.chan.agents[s.me].pc
    case SendParked =>
      s.(outcome := if s.req.timeout && answer.sendElapsed then Some(SendTimeout) else None, phase := Idle)
    case SendDone(ok) =>
      if ok then
        Drive(s, C.DropAgent(s.me)).(req := PlaceHolder, phase := Replacing(w, answer, s.req.timeoutResponse))
      else
        s.(outcome := Some(Closed), phase := Idle, handler := Discarded, one := O.Step(s.one, O.DropSender))
    case _ => Drive(s, C.Run(s.me, spurious))
  }

  function Reply(req: Variant, result: Option<O.Received>, answer: Answer): Option<Outcome> {
    match result
    case Some(Value(r)) => Some(Answered(r))
    case Some(Closed) => Some(Closed)
    case None => if req == Response(true) && answer.replyElapsed then Some(ReceiveTimeout) else None
  }

  function After(c: Config, events: seq<Event>): State {
    if events == [] then Initial(c) else Step(After(c, events[..|events| - 1]), events[|events| - 1])
  }

  // ----- the channel's side -----

  ghost predicate LogOk(s: State) {
    && 0 < s.cap <= L.USIZE_MAX && s.chan == C.After(s.cap, s.log)
    && s.entered == |P.PushedBy(s.cap, s.log, s.me)|
  }

  predicate Present(s: State) {
    s.me in s.chan.agents && C.IsSender(s.chan.agents[s.me].pc)
  }

  predicate Pushed(s: State) {
    s.me in s.chan.agents && P.HasPushed(s.chan.agents[s.me].pc)
  }

  lemma LogMore(cap: nat, log: seq<C.Event>, e: C.Event)
    ensures C.After(cap, log + [e]) == C.Step(C.After(cap, log), e)
  {
    assert (log + [e])[..|log|] == log;
  }

  lemma DriveLogs(s: State, e: C.Event)
    requires LogOk(s)
    ensures LogOk(Drive(s, e))
  {
    LogMore(s.cap, s.log, e);
  }

  /** In a log that goes on, what the channel's agent has pushed is counted on. */
  lemma CountsMore(s: State, e: C.Event)
    requires LogOk(s) && !P.Makes(s.chan, e, s.me)
    ensures Drive(s, e).entered == s.entered + if X.Actor(e) == s.me then |M.SentBy(s.chan, e)| else 0
  {
    assert (s.log + [e])[..|s.log|] == s.log;
  }

  lemma PresentCounts(s: State)
    requires LogOk(s) && Present(s)
    ensures s.entered == if Pushed(s) then 1 else 0
  {
    P.PushesFine(s.cap, s.log, s.me);
  }

  lemma DriveOther(s: State, e: C.Event)
    requires LogOk(s) && X.Actor(e) != s.me
    ensures var s' := Drive(s, e);
            && LogOk(s') && s'.entered == s.entered && (s.me in s'.chan.agents <==> s.me in s.chan.agents)
            && (s.me in s.chan.agents ==> s'.chan.agents[s.me] == s.chan.agents[s.me])
  {
    DriveLogs(s, e);
    CountsMore(s, e);
    M.OthersHoldBack(s.chan, e, s.me);
  }

  lemma DriveRun(s: State, spurious: bool)
    requires LogOk(s) && Present(s)
    ensures var s' := Drive(s, C.Run(s.me, spurious)); LogOk(s') && Present(s') && s.entered <= s'.entered
  {
    var e := C.Run(s.me, spurious);
    DriveLogs(s, e);
    CountsMore(s, e);
    M.ListsFine(s.cap, s.log);
    P.SenderPushes(s.chan, s.me, spurious);
  }

  lemma DrivePoll(s: State)
    requires LogOk(s) && Present(s)
    ensures var s' := Drive(s, C.Poll(s.me)); LogOk(s') && Present(s') && s'.entered == s.entered
  {
    DriveLogs(s, C.Poll(s.me));
    CountsMore(s, C.Poll(s.me));
  }

  lemma DriveDrop(s: State)
    requires LogOk(s) && Present(s) && C.Resting(s.chan.agents[s.me].pc)
    ensures var s' := Drive(s, C.DropAgent(s.me)); LogOk(s') && s.me !in s'.chan.agents && s'.entered == s.entered
  {
    DriveLogs(s, C.DropAgent(s.me));
    CountsMore(s, C.DropAgent(s.me));
    P.Drops(s.chan, s.me);
  }

  // ----- invariant -----

  /** The send future between polls. */
  predicate Waiting(pc: C.PC) {
    pc.SendNew? || pc.SendParked?
  }

  ghost predicate SendStage(s: State) {
    && LogOk(s)
    && (s.req.Request? && !s.dropped ==> Present(s))
    && (s.req.Request? && !s.dropped && (s.phase.Idle? || s.phase.Top?) ==>
          Waiting(s.chan.agents[s.me].pc) || (s.outcome == Some(Closed) && s.chan.agents[s.me].pc == C.SendDone(false)))
    && (!s.req.Request? || s.dropped ==> s.me !in s.chan.agents)
    && (s.phase.Sending? ==> s.req.Request?)
    && (!s.phase.Sending? ==> s.entered == if s.req.Request? then 0 else 1)
    && s.entered <= 1
  }

  predicate Leaving(pc: O.ReceiverPC) {
    pc.RDropLoad? || pc.RDropClose? || pc.RGone?
  }

  /** The requester: what its variant, its phase and its outcome say about the message. */
  ghost predicate RequesterOk(s: State) {
    && (s.req.PlaceHolder? <==> s.phase.Replacing?)
    && (s.phase.Receiving? ==> s.req.Response? && O.Polling(s.one.receiver))
    && (!s.phase.Receiving? && !s.dropped ==> s.one.receiver.RIdle?)
    && (s.dropped ==> s.phase.Idle? && Leaving(s.one.receiver))
    && (s.outcome.Some? ==> s.phase.Idle?)
    && (s.outcome == Some(SendTimeout) ==> s.req.Request? && s.req.timeout)
    && (s.outcome == Some(ReceiveTimeout) ==> s.req == Response(true))
    && !s.fault
  }

  /** How the outcome relates to the oneshot and the handler. */
  ghost predicate OutcomeOk(s: State) {
    && (s.outcome.Some? && s.outcome.value.Answered? ==> s.one.result == Some(O.Value(s.outcome.value.value)))
    && (s.one.result.Some? ==>
          s.req.Response? &&
          s.outcome == Some(if s.one.result.value.Value? then Answered(s.one.result.value.value) else Closed))
    && (s.outcome == Some(Closed) ==> s.one.result == Some(O.Closed) || (s.req.Request? && s.handler.Discarded?))
    && (s.outcome.None? && !s.dropped && s.entered == 0 ==> s.handler.Unstarted?)
    && (s.phase.Idle? && s.req.Response? && s.outcome.None? && !s.dropped ==> s.one.waiting.Some?)
    && (s.outcome == Some(SendTimeout) && !s.dropped ==> s.handler.Unstarted?)
  }

  /** The responder: what the handler did is what the oneshot carries. */
  ghost predicate ResponderOk(s: State) {
    && (s.one.sender.SIdle? <==> s.handler.Unstarted? || s.handler.Checking? || s.handler.Running?)
    && (O.Carried(s.one.sender).Some? <==> s.handler.Finished?)
    && (s.handler.Finished? ==> O.Carried(s.one.sender) == Some(s.handler.value))
    && s.runs == (if s.handler.Finished? then 1 else 0)
    && (s.entered == 0 ==> s.handler.Unstarted? || s.handler.Discarded?)
    && (s.handler.Skipped? ==> s.one.receiverClosed)
    && O.Inv(s.one) && !s.one.polledAgain
  }

  ghost predicate Inv(s: State) {
    SendStage(s) && RequesterOk(s) && OutcomeOk(s) && ResponderOk(s)
  }

  // ----- every step keeps it -----

  lemma ChannelKeeps(s: State, e: C.Event)
    requires Inv(s) && X.Actor(e) != s.me
    ensures Inv(Drive(s, e))
  {
    DriveOther(s, e);
  }

  lemma SendKeeps(s: State, spurious: bool)
    requires Inv(s) && s.phase.Sending?
    ensures Inv(RunRequester(s, spurious))
  {
    PresentCounts(s);
    match s.chan.agents[s.me].pc
    case SendParked => ParkedKeeps(s, spurious);
    case SendDone(ok) => if ok { SentKeeps(s); } else { RefusedKeeps(s, spurious); }
    case _ => RunsKeeps(s, spurious);
  }

  lemma RunsKeeps(s: State, spurious: bool)
    requires Inv(s) && s.phase.Sending? && Present(s)
    ensures Inv(Drive(s, C.Run(s.me, spurious)))
  {
    DriveRun(s, spurious);
    PresentCounts(Drive(s, C.Run(s.me, spurious)));
  }

  lemma ParkedKeeps(s: State, spurious: bool)
    requires Inv(s) && s.phase.Sending? && Present(s) && s.chan.agents[s.me].pc == C.SendParked && s.entered == 0
    ensures Inv(RunRequester(s, spurious))
  {
  }

  lemma RefusedKeeps(s: State, spurious: bool)
    requires Inv(s) && s.phase.Sending? && Present(s) && s.chan.agents[s.me].pc == C.SendDone(false) && s.entered == 0
    ensures Inv(RunRequester(s, spurious))
  {
    O.StepKeeps(s.one, O.DropSender);
  }

  lemma SentKeeps(s: State)
    requires Inv(s) && s.phase.Sending? && Present(s) && s.chan.agents[s.me].pc == C.SendDone(true) && s.entered == 1
    ensures var s' := Drive(s, C.DropAgent(s.me)).(
              req := PlaceHolder, phase := Replacing(s.phase.waker, s.phase.answer, s.req.timeoutResponse));
            Inv(s')
  {
    DriveDrop(s);
  }

  lemma TopKeeps(s: State, spurious: bool)
    requires Inv(s) && s.phase.Top?
    ensures Inv(RunRequester(s, spurious))
  {
    if s.req.Request? { DrivePoll(s); } else { O.StepKeeps(s.one, O.Poll(s.phase.waker)); }
  }

  lemma RequesterKeeps(s: State, spurious: bool)
    requires Inv(s)
    ensures Inv(RunRequester(s, spurious))
  {
    match s.phase
    case Idle => if s.dropped { ReceiverKeeps(s); }
    case Top(_, _) => TopKeeps(s, spurious);
    case Sending(_, _) => SendKeeps(s, spurious);
    case Replacing(_, _, _) =>
    case Receiving(_) => ReceiverKeeps(s); ReceivingKeeps(s, spurious);
  }

  lemma ReceiverKeeps(s: State)
    requires Inv(s)
    ensures var one := O.Step(s.one, O.ReceiverRuns);
            O.Inv(one) && one.polledAgain == s.one.polledAgain && one.sender == s.one.sender
  {
    O.StepKeeps(s.one, O.ReceiverRuns);
    O.ReceiverLeavesSender(s.one);
  }

  lemma ReceivingKeeps(s: State, spurious: bool)
    requires Inv(s) && s.phase.Receiving?
    ensures Inv(RunRequester(s, spurious))
  {
    ReceiverKeeps(s);
    var one := O.Step(s.one, O.ReceiverRuns);
    if one.receiver.RIdle? { RepliesKeep(s, one); } else { WaitsKeep(s, one); }
  }

  lemma WaitsKeep(s: State, one: O.State)
    requires Inv(s) && s.phase.Receiving? && one == O.Step(s.one, O.ReceiverRuns) && !one.receiver.RIdle?
    requires O.Inv(one) && !one.polledAgain && one.sender == s.one.sender
    ensures Inv(s.(one := one))
  {
  }

  lemma RepliesKeep(s: State, one: O.State)
    requires Inv(s) && s.phase.Receiving? && one == O.Step(s.one, O.ReceiverRuns) && one.receiver.RIdle?
    requires O.Inv(one) && !one.polledAgain && one.sender == s.one.sender
    ensures Inv(s.(one := one, phase := Idle, outcome := Reply(s.req, one.result, s.phase.answer)))
  {
  }

  lemma AbandonKeeps(s: State)
    requires Inv(s) && s.phase.Idle? && !s.dropped
    ensures Inv(Abandon(s))
  {
    O.StepKeeps(s.one, O.DropReceiver);
    O.StepKeeps(O.Step(s.one, O.DropReceiver), O.DropSender);
    if s.req.Request? { DriveDrop(s); AbandonRequest(s, Abandon(s)); } else { AbandonResponse(s); }
  }

  lemma AbandonResponse(s: State)
    requires Inv(s) && s.phase.Idle? && !s.dropped && !s.req.Request? && O.Inv(O.Step(s.one, O.DropReceiver))
    ensures Inv(Abandon(s))
  {
  }

  lemma AbandonRequest(s: State, s': State)
    requires Inv(s) && s.phase.Idle? && !s.dropped && s.req.Request?
    requires var s1, one := Drive(s, C.DropAgent(s.me)), O.Step(s.one, O.DropReceiver);
             && LogOk(s1) && s1.me !in s1.chan.agents && s1.entered == s.entered
             && O.Inv(one) && O.Inv(O.Step(one, O.DropSender))
             && s' == (if s.handler.Unstarted?
                       then s1.(dropped := true, one := O.Step(one, O.DropSender), handler := Discarded)
                       else s1.(dropped := true, one := one))
    ensures Inv(s')
  {
  }

  lemma ResponderKeeps(s: State, e: Event)
    requires Inv(s) && (e.TakeMail? || e.HandlerRuns? || e.HandlerDone? || e.Discard? || e.SenderRuns?)
    ensures Inv(Step(s, e))
  {
    match e
    case TakeMail => PlacePushed(s.cap, s.log, s.me);
    case HandlerDone(r) => AnswerKeeps(s, r);
    case SenderRuns => SendingKeeps(s);
    case _ => EndsKeeps(s, e);
  }

  lemma AnswerKeeps(s: State, r: V)
    requires Inv(s)
    ensures Inv(Step(s, HandlerDone(r)))
  {
    O.StepKeeps(s.one, O.Send(r));
  }

  lemma SendingKeeps(s: State)
    requires Inv(s)
    ensures Inv(Step(s, SenderRuns))
  {
    O.StepKeeps(s.one, O.SenderRuns);
    O.SenderCarries(s.one);
    O.SenderLeavesReceiver(s.one);
    OneMoves(s, O.Step(s.one, O.SenderRuns));
  }

  lemma OneMoves(s: State, one: O.State)
    requires Inv(s) && O.Inv(one) && O.Carried(one.sender) == O.Carried(s.one.sender)
    requires one.receiver == s.one.receiver && one.result == s.one.result && one.waiting == s.one.waiting
    requires one.receiverClosed == s.one.receiverClosed && one.polledAgain == s.one.polledAgain
    requires one.sender.SIdle? <==> s.one.sender.SIdle?
    ensures Inv(s.(one := one))
  {
  }

  lemma EndsKeeps(s: State, e: Event)
    requires Inv(s) && (e.HandlerRuns? || e.Discard?)
    ensures Inv(Step(s, e))
  {
    O.StepKeeps(s.one, O.DropSender);
  }

  lemma {:induction false} PlacePushed(cap: nat, log: seq<C.Event>, me: C.Aid)
    ensures PlaceOf(cap, log, me).Some? <==> P.PushedBy(cap, log, me) != []
  {
    if log != [] { PlacePushed(cap, log[..|log| - 1], me); }
  }

  lemma StepKeeps(s: State, e: Event)
    requires Inv(s)
    ensures Inv(Step(s, e))
  {
    match e
    case Channel(ce) => if X.Actor(ce) != s.me { ChannelKeeps(s, ce); }
    case Poll(_, _) =>
    case RequesterRuns(spurious) => RequesterKeeps(s, spurious);
    case DropRequest => if s.phase.Idle? && !s.dropped { AbandonKeeps(s); }
    case _ => ResponderKeeps(s, e);
  }

  lemma {:induction false} Reachable(c: Config, events: seq<Event>)
    requires 0 < c.cap <= L.USIZE_MAX
    ensures Inv(After(c, events))
  {
    if events != [] {
      Reachable(c, events[..|events| - 1]);
      StepKeeps(After(c, events[..|events| - 1]), events[|events| - 1]);
    } else {
      InitialOk(c);
    }
  }

  lemma InitialOk(c: Config)
    requires 0 < c.cap <= L.USIZE_MAX
    ensures Inv(Initial(c))
  {
    FirstEntry(c);
    NothingPushed(c);
  }

  lemma FirstEntry(c: Config)
    ensures var make := C.Spawn(c.me, C.SendNew, c.msg); C.After(c.cap, [make]) == C.Step(C.Initial(c.cap), make)
  {
    var make := C.Spawn(c.me, C.SendNew, c.msg);
    LogMore(c.cap, [], make);
    assert [] + [make] == [make];
  }

  lemma NothingPushed(c: Config)
    ensures P.PushedBy(c.cap, [C.Spawn(c.me, C.SendNew, c.msg)], c.me) == []
  {
    assert [C.Spawn(c.me, C.SendNew, c.msg)][..0] == [];
  }

  // ----- whose message it is -----

  /** The channel's event in a step, if there is one. */
  function Driven(s: State, e: Event): Option<C.Event> {
    match e
    case Channel(ce) => if X.Actor(ce) != s.me then Some(ce) else None
    case RequesterRuns(spurious) =>
      if s.phase.Top? && s.req.Request? then Some(C.Poll(s.me))
      else if s.phase.Sending? then DrivenBySend(s, spurious)
      else None
    case DropRequest => if s.phase.Idle? && !s.dropped && s.req.Request? then Some(C.DropAgent(s.me)) else None
    case _ => None
  }

  function DrivenBySend(s: State, spurious: bool): Option<C.Event> {
    if s.me !in s.chan.agents || !s.req.Request? then None else
    match s.chan.agents[s.me].pc
    case SendParked => None
    case SendDone(ok) => if ok then Some(C.DropAgent(s.me)) else None
    case _ => Some(C.Run(s.me, spurious))
  }

  lemma StepDrives(s: State, e: Event)
    ensures var s', driven := Step(s, e), Driven(s, e);
            && s'.log == (if driven.Some? then s.log + [driven.value] else s.log)
            && s'.cap == s.cap && s'.me == s.me
  {
    match e
    case RequesterRuns(spurious) =>
      if s.phase.Sending? { assert RunRequester(s, spurious) == RunSend(s, s.phase.waker, s.phase.answer, spurious); }
    case _ =>
  }

  lemma NobodyTakesOurName(s: State, e: Event)
    requires Driven(s, e).Some? && (s.me in s.chan.agents || !e.DropRequest?)
    ensures !P.Makes(s.chan, Driven(s, e).value, s.me)
  {
  }

  predicate Started(h: Handler) {
    h.Checking? || h.Running? || h.Finished? || h.Skipped?
  }

  lemma StartsWhenDelivered(s: State, e: Event)
    ensures Started(Step(s, e).handler) ==> Started(s.handler) || (e.TakeMail? && Delivered(s))
  {
    match e
    case RequesterRuns(spurious) =>
      if s.phase.Sending? { assert RunRequester(s, spurious) == RunSend(s, s.phase.waker, s.phase.answer, spurious); }
    case _ =>
  }

  /** What the request was made with stays. */
  ghost predicate MadeAs(s: State, c: Config) {
    s.cap == c.cap && s.me == c.me && P.MadeWith(c.cap, s.log, c.me) == Some(c.msg) && Configured(s, c)
  }

  ghost predicate TakenWell(s: State) {
    Started(s.handler) ==> Delivered(s)
  }

  lemma {:induction false} ConfigurationStays(c: Config, events: seq<Event>)
    requires 0 < c.cap <= L.USIZE_MAX
    ensures MadeAs(After(c, events), c) && TakenWell(After(c, events))
  {
    if events == [] {
      assert [C.Spawn(c.me, C.SendNew, c.msg)][..0] == [];
    } else {
      var before, e := events[..|events| - 1], events[|events| - 1];
      ConfigurationStays(c, before);
      Reachable(c, before);
      StaysMadeAs(After(c, before), e, c);
    }
  }

  lemma StaysMadeAs(s: State, e: Event, c: Config)
    requires Inv(s) && MadeAs(s, c) && TakenWell(s)
    ensures MadeAs(Step(s, e), c) && TakenWell(Step(s, e))
  {
    var s', driven := Step(s, e), Driven(s, e);
    ConfigurationStep(s, e, c);
    StepDrives(s, e);
    StartsWhenDelivered(s, e);
    if driven.Some? {
      assert s'.log[..|s'.log| - 1] == s.log;
      NobodyTakesOurName(s, e);
      if Delivered(s) { StaysDelivered(s.cap, s.log, driven.value, s.me); }
    }
  }

  predicate Configured(s: State, c: Config) {
    match s.req
    case Request(t, r) => t == c.timeout && r == c.timeoutResponse
    case Response(r) => r == c.timeoutResponse
    case PlaceHolder => s.phase.Replacing? ==> s.phase.timeout == c.timeoutResponse
  }

  lemma ConfigurationStep(s: State, e: Event, c: Config)
    requires Configured(s, c) && (s.phase.Replacing? <==> s.req.PlaceHolder?)
    ensures Configured(Step(s, e), c)
  {
    if e.RequesterRuns? { ConfigurationRun(s, e.spurious, c); }
  }

  lemma ConfigurationRun(s: State, spurious: bool, c: Config)
    requires Configured(s, c) && (s.phase.Replacing? <==> s.req.PlaceHolder?)
    ensures Configured(RunRequester(s, spurious), c)
  {
    if s.phase.Sending? {
      assert RunRequester(s, spurious) == RunSend(s, s.phase.waker, s.phase.answer, spurious);
    }
  }

  predicate DeliveredIn(cap: nat, log: seq<C.Event>, me: C.Aid) {
    var place := PlaceOf(cap, log, me);
    place.Some? && place.value < |M.Received(cap, log)|
  }

  lemma StaysDelivered(cap: nat, log: seq<C.Event>, e: C.Event, me: C.Aid)
    requires 0 < cap <= L.USIZE_MAX && !P.Makes(C.After(cap, log), e, me) && DeliveredIn(cap, log, me)
    ensures DeliveredIn(cap, log + [e], me)
  {
    var more := log + [e];
    assert more[..|more| - 1] == log;
    PlacePushed(cap, log, me);
    P.PushesFine(cap, more, me);
  }

  /** The place of our message is the place at which it was sent. */
  lemma {:induction false} PlaceHolds(cap: nat, log: seq<C.Event>, me: C.Aid)
    requires PlaceOf(cap, log, me).Some?
    ensures var p := PlaceOf(cap, log, me).value;
            p < |M.Sent(cap, log)| && M.Sent(cap, log)[p] in P.PushedBy(cap, log, me)
  {
    var before, e := log[..|log| - 1], log[|log| - 1];
    var s := C.After(cap, before);
    if X.Actor(e) == me && M.SentBy(s, e) != [] {
      assert M.Sent(cap, log) == M.Sent(cap, before) + M.SentBy(s, e);
      assert P.PushedBy(cap, log, me) == P.PushedBy(cap, before, me) + M.SentBy(s, e);
      assert M.Sent(cap, log)[|M.Sent(cap, before)|] == M.SentBy(s, e)[0];
    } else {
      PlaceHolds(cap, before, me);
    }
  }

  // ----- what every run guarantees -----

  /** What the request has put into the mailbox. */
  function PushedFor(c: Config, s: State): seq<C.Item> {
    P.PushedBy(c.cap, s.log, c.me)
  }

  ghost predicate OutcomeMeans(c: Config, s: State, pushed: seq<C.Item>)
    requires s.outcome.Some?
  {
    match s.outcome.value
    case Answered(r) => pushed == [c.msg] && s.runs == 1 && s.handler == Finished(r)
    case SendTimeout => c.timeout && pushed == [] && s.runs == 0 && (s.handler.Unstarted? || s.handler.Discarded?)
    case ReceiveTimeout => c.timeoutResponse && pushed == [c.msg]
    case Closed => s.runs == 0 && s.handler.Discarded?
  }

  /** The outcome tells where the message is, whenever it is looked at.  If the send timed out it was
      never put into the mailbox and no handler runs; if the reply timed out it was put in, once; an
      answer is what the handler, run once, came to; and after `Closed` no handler has come to its end
      or will, though one may have been started and dropped. */
  lemma OutcomeTellsWhere(c: Config, events: seq<Event>)
    requires 0 < c.cap <= L.USIZE_MAX && After(c, events).outcome.Some?
    ensures OutcomeMeans(c, After(c, events), PushedFor(c, After(c, events)))
  {
    Reachable(c, events);
    ConfigurationStays(c, events);
    OutcomeAt(c, After(c, events));
  }

  lemma OutcomeAt(c: Config, s: State)
    requires Inv(s) && MadeAs(s, c) && s.outcome.Some?
    ensures OutcomeMeans(c, s, PushedFor(c, s))
  {
    P.PushesOwnMessage(c.cap, s.log, c.me);
    var pushed := PushedFor(c, s);
    assert pushed != [] ==> pushed[0] in pushed && pushed == [pushed[0]];
  }

  /** As long as the first stage is pending the message is not in the mailbox; once it has made way
      for the second it has been put in, exactly once. */
  lemma StageTellsWhere(c: Config, events: seq<Event>)
    requires 0 < c.cap <= L.USIZE_MAX && !After(c, events).phase.Sending?
    ensures PushedFor(c, After(c, events)) == if After(c, events).req.Request? then [] else [c.msg]
  {
    Reachable(c, events);
    ConfigurationStays(c, events);
    StageAt(c, After(c, events));
  }

  lemma StageAt(c: Config, s: State)
    requires Inv(s) && MadeAs(s, c) && !s.phase.Sending?
    ensures PushedFor(c, s) == if s.req.Request? then [] else [c.msg]
  {
    P.PushesOwnMessage(c.cap, s.log, c.me);
    var pushed := PushedFor(c, s);
    assert pushed != [] ==> pushed[0] in pushed && pushed == [pushed[0]];
  }

  /** A handler is started only on the request's own message, delivered at its place in the order of
      the mailbox. */
  lemma HandlerGetsOwnMessage(c: Config, events: seq<Event>)
    requires 0 < c.cap <= L.USIZE_MAX && Started(After(c, events).handler)
    ensures var log := After(c, events).log; var place := PlaceOf(c.cap, log, c.me);
            place.Some? && place.value < |M.Received(c.cap, log)| && M.Received(c.cap, log)[place.value] == c.msg
  {
    ConfigurationStays(c, events);
    var log := After(c, events).log;
    PlaceHolds(c.cap, log, c.me);
    P.PushesOwnMessage(c.cap, log, c.me);
    M.MessagesInOrder(c.cap, log);
  }

  /** The outcome is given once, and the message is put into the mailbox and handled at most once. */
  lemma AtMostOnce(c: Config, events: seq<Event>, e: Event)
    requires 0 < c.cap <= L.USIZE_MAX
    ensures var s := After(c, events);
            && |PushedFor(c, s)| <= 1 && s.runs <= 1
            && (s.outcome.Some? ==> Step(s, e).outcome == s.outcome)
            && (s.runs == 1 ==> Step(s, e).handler == s.handler && Step(s, e).runs == 1)
  {
    Reachable(c, events);
    P.PushesFine(c.cap, After(c, events).log, c.me);
    OutcomeStays(After(c, events), e);
  }

  lemma OutcomeStays(s: State, e: Event)
    requires Inv(s)
    ensures s.runs <= 1
    ensures s.outcome.Some? ==> Step(s, e).outcome == s.outcome
    ensures s.runs == 1 ==> Step(s, e).handler == s.handler && Step(s, e).runs == 1
  {
    if e.RequesterRuns? && s.phase.Sending? {
      PresentCounts(s);
      assert RunRequester(s, e.spurious) == RunSend(s, s.phase.waker, s.phase.answer, e.spurious);
    }
  }

  /** A handler is skipped only if the request was dropped without an answer. */
  lemma SkippedOnlyIfAbandoned(c: Config, events: seq<Event>)
    requires 0 < c.cap <= L.USIZE_MAX && After(c, events).handler.Skipped?
    ensures var s := After(c, events);
            && s.dropped && |PushedFor(c, s)| == 1 && s.runs == 0
            && (s.outcome.Some? ==> s.outcome.value.ReceiveTimeout?)
  {
    Reachable(c, events);
    ConfigurationStays(c, events);
  }

  /** The handler's future looks when it starts: it is skipped if and only if the other end of the oneshot is
      gone, which has closed the word then. */
  lemma SkipsExactly(c: Config, events: seq<Event>)
    requires 0 < c.cap <= L.USIZE_MAX && After(c, events).handler.Checking?
    ensures var s := After(c, events); var s' := Step(s, HandlerRuns);
            && s'.handler == (if s.one.receiver.RGone? then Skipped else Running)
            && (s.one.receiver.RGone? <==> s.one.receiverClosed)
  {
    Reachable(c, events);
    SkipsAt(After(c, events));
  }

  lemma SkipsAt(s: State)
    requires Inv(s) && s.handler.Checking?
    ensures Step(s, HandlerRuns).handler == if s.one.receiver.RGone? then Skipped else Running
    ensures s.one.receiver.RGone? <==> s.one.receiverClosed
  {
  }

  /** What a poll that ends in the step from `s` to `s'` comes to.  In the first stage: a timeout exactly if there
      is one and it has elapsed while the send future waits for room, `Closed` if that was refused.  In
      the second: what the oneshot gave, or else a timeout, exactly if there is one and it has elapsed. */
  ghost predicate PollEnds(c: Config, s: State, s': State) {
    && (s.phase.Sending? || s.phase.Receiving?)
    && (s.phase.Sending? ==>
          && s.me in s.chan.agents && s'.chan == s.chan
          && (s'.outcome == Some(Closed) <==> s.chan.agents[s.me].pc == C.SendDone(false))
          && (s'.outcome != Some(Closed) ==>
                && s.chan.agents[s.me].pc.SendParked?
                && s'.outcome == if c.timeout && s.phase.answer.sendElapsed then Some(SendTimeout) else None))
    && (s.phase.Receiving? ==>
          && (s'.one.result == Some(O.Closed) <==> s'.outcome == Some(Closed))
          && (s'.one.result.Some? && s'.one.result.value.Value? ==>
                s'.outcome == Some(Answered(s'.one.result.value.value)))
          && (s'.one.result.None? ==>
                && s'.one.waiting.Some?
                && s'.outcome ==
                   if c.timeoutResponse && s.phase.answer.replyElapsed then Some(ReceiveTimeout) else None))
  }

  lemma PollEndsExactly(c: Config, events: seq<Event>, e: Event)
    requires 0 < c.cap <= L.USIZE_MAX
    requires !After(c, events).phase.Idle? && Step(After(c, events), e).phase.Idle?
    ensures PollEnds(c, After(c, events), Step(After(c, events), e))
  {
    var s := After(c, events);
    Reachable(c, events);
    ConfigurationStays(c, events);
    OnlyRunsEnd(s, e);
    if s.phase.Sending? { SendEnds(c, s, e.spurious); } else { ReceiveEnds(c, s, e.spurious); }
  }

  lemma OnlyRunsEnd(s: State, e: Event)
    requires !s.phase.Idle? && Step(s, e).phase.Idle?
    ensures e.RequesterRuns? && (s.phase.Sending? || s.phase.Receiving?)
  {
  }

  lemma SendEnds(c: Config, s: State, spurious: bool)
    requires Inv(s) && Configured(s, c) && s.phase.Sending? && RunRequester(s, spurious).phase.Idle?
    ensures PollEnds(c, s, RunRequester(s, spurious))
  {
    assert RunRequester(s, spurious) == RunSend(s, s.phase.waker, s.phase.answer, spurious);
  }

  lemma ReceiveEnds(c: Config, s: State, spurious: bool)
    requires Inv(s) && Configured(s, c) && s.phase.Receiving? && RunRequester(s, spurious).phase.Idle?
    ensures PollEnds(c, s, RunRequester(s, spurious))
  {
    O.StepKeeps(s.one, O.ReceiverRuns);
  }

  /** The poll never finds the placeholder at the top of its loop. */
  lemma PlaceHolderNeverSeen(c: Config, events: seq<Event>)
    requires 0 < c.cap <= L.USIZE_MAX
    ensures var s := After(c, events); !s.fault && (s.phase.Top? ==> !s.req.PlaceHolder?)
  {
    Reachable(c, events);
  }

  /** A request that waits for its answer when the other side is through has been woken. */
  lemma AnswerWakes(c: Config, events: seq<Event>)
    requires 0 < c.cap <= L.USIZE_MAX
    requires var s := After(c, events);
             s.phase.Idle? && s.req.Response? && s.outcome.None? && !s.dropped && s.one.sender.SDone?
    ensures var s := After(c, events); s.one.waiting.Some? && s.one.waiting.value in s.one.woken
  {
    Reachable(c, events);
  }
}
