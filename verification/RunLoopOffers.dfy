/** What a poll of the select is offered, and what becomes of it. */
module RunLoopOffers {
  import opened Prelude
  import opened RunLoop
  import opened RunLoopInvariant
  import opened RunLoopTheorems

  /** `poll_task` is ready: a turn was taken for every task, or the turns left none. */
  predicate TasksReady(s: Loop, turns: seq<Turn>)
    requires s.control.Selecting?
  {
    s.control.tasks && (|turns| >= |s.tasks| || s.tasks <= Done(turns))
  }

  /** The mailbox, or else the tasks, end the select before the streams and timers are looked at. */
  predicate Preempted(s: Loop, e: Event)
    requires s.control.Selecting? && e.PollSelect?
  {
    (Looks(s) && (s.box.queue != [] || s.box.closed)) || TasksReady(s, e.turns)
  }

  function KindOf(exclusive: bool): Kind {
    if exclusive then Mut else Ref
  }

  /** The offer of the first ready source, in the order mailbox, tasks, streams, timers; the end of
      the mailbox, or of the tasks' turns, is no offer. */
  function Offer(s: Loop, e: Event): Option<Kind> {
    if !s.control.Selecting? || !e.PollSelect? then None
    else if Looks(s) && s.box.queue != [] then Some(s.box.queue[0])
    else if Preempted(s, e) || !s.control.sources then None
    else if e.stream.Some? then Some(KindOf(e.stream.value))
    else if e.timer.Some? then Some(KindOf(e.timer.value))
    else None
  }

  /** A concurrent message becomes a task, an exclusive one waits as the pending one, and a stop message
      is noted. */
  ghost predicate Accepts(s: Loop, s': Loop, kind: Kind) {
    var id := |s.accepted|;
    && s'.accepted == s.accepted + [kind] && s'.control.Inner? && s'.last == Took(kind)
    && (kind.Ref? ==> id in s'.tasks && s'.tasks <= s.tasks + {id} && s'.pending == s.pending)
    && (kind.Mut? ==> s'.pending == Some(id) && s'.tasks <= s.tasks)
    && (kind.StopMessage? ==>
          s'.notify == Some(id) && s'.state == (if kind.graceful then StopGraceful else Stop) &&
          s'.tasks <= s.tasks && s'.pending == s.pending)
  }

  /** What one event accepts, and which tasks it completes. */
  ghost predicate Follows(s: Loop, e: Event, s': Loop) {
    match Offer(s, e)
    case Some(kind) => Accepts(s, s', kind)
    case None => s'.accepted == s.accepted && (s.control.Selecting? ==> s'.pending == s.pending && s'.tasks <= s.tasks)
  }

  /** What was offered over a run. */
  function Offers(hint: nat, events: seq<Event>): seq<Kind> {
    if events == [] then [] else
    var before, e := events[..|events| - 1], events[|events| - 1];
    var offer := Offer(After(hint, before), e);
    Offers(hint, before) + if offer.Some? then [offer.value] else []
  }

  /** Every step accepts exactly what it is offered, as what it is. */
  lemma TakesTheOffer(hint: nat, events: seq<Event>, e: Event)
    ensures Follows(After(hint, events), e, Step(After(hint, events), e))
  {
    StepFollows(After(hint, events), e);
  }

  /** So a run accepts what it was offered, each as the kind it was, and in that order; a message in flight
      beside others is concurrent, and one that waits is exclusive. */
  lemma {:induction false} AcceptsTheOffers(hint: nat, events: seq<Event>)
    ensures var s := After(hint, events);
            && s.accepted == Offers(hint, events)
            && (forall id :: id in s.tasks ==> id < |s.accepted| && s.accepted[id].Ref?)
            && (s.pending.Some? ==> s.pending.value < |s.accepted| && s.accepted[s.pending.value].Mut?)
  {
    Reachable(hint, events);
    if events != [] {
      AcceptsTheOffers(hint, events[..|events| - 1]);
      StepFollows(After(hint, events[..|events| - 1]), events[|events| - 1]);
    }
  }

  lemma StepFollows(s: Loop, e: Event)
    ensures Follows(s, e, Step(s, e))
  {
    if e.PollSelect? && s.control.Selecting? { SelectFollows(s, e); } else { ElseAccepts(s, e); }
  }

  lemma ElseAccepts(s: Loop, e: Event)
    requires !(e.PollSelect? && s.control.Selecting?)
    ensures Step(s, e).accepted == s.accepted
    ensures s.control.Selecting? ==> Step(s, e).pending == s.pending && Step(s, e).tasks == s.tasks
  {
  }

  lemma TakeAccepts(s: Loop, kind: Kind, stops: bool)
    ensures Accepts(s, Take(s, kind, stops), kind)
  {
  }

  lemma FinishShrinks(s: Loop, turns: seq<Turn>)
    ensures var s' := Finish(s, turns); s'.tasks == s.tasks - Done(turns)
  {
  }

  lemma SelectFollows(s: Loop, e: Event)
    requires s.control.Selecting? && e.PollSelect?
    ensures Follows(s, e, Step(s, e))
  {
    if Looks(s) && s.box.queue != [] {
      TakeAccepts(s, s.box.queue[0], e.handlerStops);
    } else if !(Looks(s) && s.box.closed) {
      RestFollows(s, e);
    }
  }

  /** The state in which the streams and timers are looked at. */
  function AtSources(s: Loop, e: Event): Loop
    requires s.control.Selecting? && e.PollSelect?
  {
    var s1 := s.(box := Listen(s.box, s.control.mailbox));
    if s.control.tasks then Finish(s1, Bounded(e.turns, |s.tasks|)) else s1
  }

  /** Behind the mailbox: the tasks' turn, or the sources'. */
  lemma RestSplits(s: Loop, e: Event)
    requires s.control.Selecting? && e.PollSelect? && !(Looks(s) && (s.box.queue != [] || s.box.closed))
    ensures var s1 := AtSources(s, e);
            && Step(s, e) == (if TasksReady(s, e.turns) then s1.(last := TasksPolled, control := Yielding)
                              else FromSources(s1, e.stream, e.timer, e.handlerStops))
            && s1.control == s.control && s1.accepted == s.accepted && s1.pending == s.pending && s1.tasks <= s.tasks
            && s1.left == s.left
  {
    var s1, turns := s.(box := Listen(s.box, s.control.mailbox)), Bounded(e.turns, |s.tasks|);
    FinishSame(s1, turns);
    FinishShrinks(s1, turns);
    NoneLeft(s.tasks, Done(turns));
    assert |e.turns| < |s.tasks| ==> turns == e.turns;
  }

  lemma NoneLeft(tasks: set<nat>, done: set<nat>)
    ensures tasks <= done <==> tasks - done == {}
  {
    if tasks - done == {} {
      forall x | x in tasks ensures x in done { assert x !in tasks - done; }
    }
  }

  lemma RestFollows(s: Loop, e: Event)
    requires s.control.Selecting? && e.PollSelect? && !(Looks(s) && (s.box.queue != [] || s.box.closed))
    ensures Follows(s, e, Step(s, e))
  {
    RestSplits(s, e);
    SourcesFollow(AtSources(s, e), e.stream, e.timer, e.handlerStops);
  }

  lemma SourcesFollow(s: Loop, stream: Option<bool>, timer: Option<bool>, stops: bool)
    requires s.control.Selecting?
    ensures var s' := FromSources(s, stream, timer, stops);
            if !s.control.sources || (stream.None? && timer.None?) then s' == s
            else Accepts(s, s', KindOf(if stream.Some? then stream.value else timer.value))
  {
    TakeAccepts(s, Mut, stops);
    TakeAccepts(s, Ref, stops);
  }

  // ----- when a select completes -----

  /** A poll leaves the select pending if and only if the mailbox, asked and listening, has nothing and is
      open, tasks are left for another turn, and no stream or timer is offered.  A closed mailbox ends
      the loop early; the tasks' end goes on with the next look. */
  lemma CompletesExactly(hint: nat, events: seq<Event>, e: Event)
    requires After(hint, events).control.Selecting? && e.PollSelect?
    ensures var s := After(hint, events); var s' := Step(s, e);
            && (s'.control.Selecting? <==> Offer(s, e).None? && !Preempted(s, e))
            && (Looks(s) && s.box.queue == [] && s.box.closed <==> Doomed(s') && Offer(s, e).None?)
            && (s'.control.Yielding? <==> Offer(s, e).None? && !(Looks(s) && s.box.closed) && TasksReady(s, e.turns))
  {
    Reachable(hint, events);
    SelectCompletes(After(hint, events), e);
  }

  lemma SelectCompletes(s: Loop, e: Event)
    requires s.control.Selecting? && e.PollSelect? && s.left.None?
    ensures var s' := Step(s, e);
            && (s'.control.Selecting? <==> Offer(s, e).None? && !Preempted(s, e))
            && (Looks(s) && s.box.queue == [] && s.box.closed <==> Doomed(s') && Offer(s, e).None?)
            && (s'.control.Yielding? <==> Offer(s, e).None? && !(Looks(s) && s.box.closed) && TasksReady(s, e.turns))
  {
    if Looks(s) && s.box.queue != [] {
      TakeAccepts(s, s.box.queue[0], e.handlerStops);
    } else if !(Looks(s) && s.box.closed) {
      RestCompletes(s, e);
    }
  }

  lemma RestCompletes(s: Loop, e: Event)
    requires s.control.Selecting? && e.PollSelect? && s.left.None?
    requires !(Looks(s) && (s.box.queue != [] || s.box.closed))
    ensures var s' := Step(s, e);
            && s'.left.None? && (s'.control.Selecting? || s'.control.Yielding? || Offer(s, e).Some?)
            && (s'.control.Selecting? <==> Offer(s, e).None? && !TasksReady(s, e.turns))
            && (s'.control.Yielding? <==> TasksReady(s, e.turns))
  {
    RestSplits(s, e);
    SourcesFollow(AtSources(s, e), e.stream, e.timer, e.handlerStops);
  }

  // ----- when a task is done -----

  /** The event polls the tasks: in a select the mailbox does not end, or while resolving. */
  predicate PollsTasks(s: Loop, e: Event) {
    if s.control.Selecting?
    then e.PollSelect? && s.control.tasks && !(Looks(s) && (s.box.queue != [] || s.box.closed))
    else s.control.Resolving? && e.PollTasks?
  }

  /** A turn within the first `n` polls the task, which is ready. */
  predicate FoundReady(turns: seq<Turn>, n: nat, id: nat) {
    exists i :: 0 <= i < |turns| && i < n && turns[i].Polled? && turns[i].id == id && turns[i].ready
  }

  predicate Finishes(s: Loop, e: Event, id: nat) {
    PollsTasks(s, e) && FoundReady(e.turns, |s.tasks|, id)
  }

  /** The loop is left early. */
  predicate Abandons(s: Loop, e: Event) {
    e.Advance? && s.control.Inner? && s.state.Stop?
  }

  /** A task in flight completes exactly when it is polled within as many turns as there are tasks and is ready, is
      dropped exactly when the loop is left early, and otherwise stays in flight. */
  lemma TaskEndsExactly(hint: nat, events: seq<Event>, e: Event, id: nat)
    requires id in After(hint, events).tasks
    ensures var s := After(hint, events); var s' := Step(s, e);
            && (id in s'.completed <==> Finishes(s, e, id))
            && (id in s'.dropped <==> Abandons(s, e))
            && (id in s'.tasks <==> !Finishes(s, e, id) && !Abandons(s, e))
  {
    var s := After(hint, events);
    Reachable(hint, events);
    if PollsTasks(s, e) { PolledEnds(s, e, id); }
    else if s.control.Selecting? && e.PollSelect? { UnpolledStays(s, e, id); }
    else { ElsewhereEnds(s, e, id); }
  }

  ghost predicate InFlight(s: Loop, id: nat) {
    id in s.tasks && id !in s.completed && id !in s.dropped && id < |s.accepted|
  }

  lemma ElsewhereEnds(s: Loop, e: Event, id: nat)
    requires Stages(s) && InFlight(s, id) && !PollsTasks(s, e) && !(s.control.Selecting? && e.PollSelect?)
    requires id !in Alive(s.control) && id !in Waiting(s.pending)
    ensures var s' := Step(s, e); id !in s'.completed
    ensures var s' := Step(s, e); id in s'.dropped <==> Abandons(s, e)
    ensures var s' := Step(s, e); id in s'.tasks <==> !Abandons(s, e)
  {
  }

  lemma UnpolledStays(s: Loop, e: Event, id: nat)
    requires InFlight(s, id) && !PollsTasks(s, e) && s.control.Selecting? && e.PollSelect?
    ensures InFlight(Step(s, e), id)
  {
    if Looks(s) && s.box.queue != [] {
      TakeLeaves(s, s.box.queue[0], e.handlerStops, id);
    } else if !(Looks(s) && s.box.closed) {
      RestSplits(s, e);
      SourcesLeave(AtSources(s, e), e, id);
    }
  }

  lemma TakeLeaves(s: Loop, kind: Kind, stops: bool, id: nat)
    ensures var s' := Take(s, kind, stops);
            && s'.completed == s.completed && s'.dropped == s.dropped
            && (id < |s.accepted| ==> (id in s'.tasks <==> id in s.tasks) && id < |s'.accepted|)
  {
  }

  lemma SourcesLeave(s: Loop, e: Event, id: nat)
    requires s.control.Selecting? && e.PollSelect? && id < |s.accepted|
    ensures var s' := FromSources(s, e.stream, e.timer, e.handlerStops);
            && s'.completed == s.completed && s'.dropped == s.dropped
            && (id in s'.tasks <==> id in s.tasks) && id < |s'.accepted|
  {
    TakeLeaves(s, Ref, e.handlerStops, id);
    TakeLeaves(s, Mut, e.handlerStops, id);
  }

  lemma ReadyIsDone(turns: seq<Turn>, n: nat, id: nat)
    ensures id in Done(Bounded(turns, n)) <==> FoundReady(turns, n, id)
  {
    var bounded := Bounded(turns, n);
    if FoundReady(turns, n, id) {
      var i :| 0 <= i < |turns| && i < n && turns[i].Polled? && turns[i].id == id && turns[i].ready;
      assert bounded[i] == turns[i];
    }
    if id in Done(bounded) {
      var i :| 0 <= i < |bounded| && bounded[i].Polled? && bounded[i].ready && bounded[i].id == id;
      assert turns[i] == bounded[i];
    }
  }

  lemma FinishEnds(s: Loop, turns: seq<Turn>, id: nat)
    requires InFlight(s, id)
    ensures var s' := Finish(s, turns);
            && (id in s'.completed <==> id in Done(turns)) && (id in s'.tasks <==> id !in Done(turns))
            && s'.dropped == s.dropped && s'.accepted == s.accepted
  {
  }

  lemma PolledEnds(s: Loop, e: Event, id: nat)
    requires InFlight(s, id) && PollsTasks(s, e)
    ensures var s' := Step(s, e);
            && (id in s'.completed <==> FoundReady(e.turns, |s.tasks|, id))
            && (id in s'.tasks <==> !FoundReady(e.turns, |s.tasks|, id)) && id !in s'.dropped
  {
    ReadyIsDone(e.turns, |s.tasks|, id);
    if s.control.Resolving? {
      FinishEnds(s, Bounded(e.turns, |s.tasks|), id);
    } else {
      RestSplits(s, e);
      FinishEnds(s.(box := Listen(s.box, s.control.mailbox)), Bounded(e.turns, |s.tasks|), id);
      SourcesLeave(AtSources(s, e), e, id);
    }
  }

  // ----- a handler's stop -----

  /** A handler called by the select that asks for a stop ends the loop gracefully, and nothing is
      accepted after its message. */
  lemma HandlerStopIsFinal(hint: nat, events: seq<Event>, e: Event, more: seq<Event>)
    requires Offer(After(hint, events), e) == Some(Ref) && e.handlerStops
    ensures var s := Step(After(hint, events), e); var s' := Then(s, more);
            && NothingMore(s, s') && (s'.left.Some? ==> s'.left == Some(StopGraceful))
            && s.accepted == After(hint, events).accepted + [Ref] && s.box.closed
  {
    var s := After(hint, events);
    Reachable(hint, events);
    StepFollows(s, e);
    StepKeeps(s, e);
    HandlerAsks(s, e);
    FinalFrom(Step(s, e), more);
  }

  lemma HandlerAsks(s: Loop, e: Event)
    requires Offer(s, e) == Some(Ref) && e.handlerStops
    ensures var s' := Step(s, e); s'.control.Inner? && s'.state.StopGraceful? && s'.box.closed
  {
    TakeAsks(s);
    if !(Looks(s) && s.box.queue != []) {
      RestSplits(s, e);
      TakeAsks(AtSources(s, e));
    }
  }

  lemma TakeAsks(s: Loop)
    ensures var s' := Take(s, Ref, true); s'.control.Inner? && s'.state.StopGraceful? && s'.box.closed
  {
  }

  // ----- what the loop goes on to -----

  /** Running on, undisturbed, until the next suspension point or the end of the loop. */
  function RunOn(s: Loop, n: nat): Loop
    decreases n
  {
    if n == 0 || !(s.control.Top? || s.control.Inner? || s.control.Yielding?) then s
    else RunOn(Step(s, Advance), n - 1)
  }

  /** Whatever it has just done, a loop that runs on comes to the exclusive message if one waits and nothing is in
      flight; or asks the mailbox, unless a message waits or the hint is reached, the tasks, if any, and the
      streams and timers, unless a message waits.  Asked to stop it resolves its tasks, or drops them. */
  lemma RunsOnExactly(hint: nat, events: seq<Event>)
    requires var c := After(hint, events).control; c.Top? || c.Inner? || c.Yielding?
    ensures ComesTo(After(hint, events), RunOn(After(hint, events), 4))
  {
    Reachable(hint, events);
    var s := After(hint, events);
    if s.control.Top? { TopComesTo(s, 4); }
    else if s.control.Inner? { InnerComesTo(s, 4); }
    else { InnerComesTo(Step(s, Advance), 3); }
  }

  ghost predicate ComesTo(s: Loop, s': Loop) {
    && s'.accepted == s.accepted && s'.box == s.box && s'.completed == s.completed
    && (match s.state
        case StopGraceful =>
          if s.control.Top? && s.pending.Some? then BeginsExclusive(s, s')
          else s'.control.Resolving? && s'.tasks == s.tasks
        case Stop => s'.left == Some(Stop) && s'.dropped == s.dropped + s.tasks && s'.tasks == {}
        case Running =>
          if s.pending.Some? && s.tasks == {} then BeginsExclusive(s, s')
          else s'.tasks == s.tasks && s'.pending == s.pending &&
               s'.control == Selecting(s.pending.None? && |s.tasks| < s.hint, s.tasks != {}, s.pending.None?))
  }

  predicate BeginsExclusive(s: Loop, s': Loop) {
    s.pending.Some? && s.tasks == {} && s'.control == Exclusive(s.pending.value) && s'.pending.None? && s'.tasks == {}
  }

  lemma TopComesTo(s: Loop, n: nat)
    requires Stages(s) && Reasons(s) && s.control.Top? && n >= 2
    ensures ComesTo(s, RunOn(s, n))
  {
    var s1 := Step(s, Advance);
    assert RunOn(s, n) == RunOn(s1, n - 1);
    if s.pending.None? {
      assert RunOn(s1, n - 1) == RunOn(Step(s1, Advance), n - 2);
    }
  }

  lemma PendingBegins(s: Loop, n: nat)
    requires s.control.Top? && s.pending.Some? && n >= 1
    ensures RunOn(s, n) == s.(pending := None, control := Exclusive(s.pending.value))
  {
    assert RunOn(s, n) == RunOn(Step(s, Advance), n - 1);
  }

  lemma InnerComesTo(s: Loop, n: nat)
    requires s.control.Inner? && n >= 3
    ensures ComesTo(s, RunOn(s, n))
  {
    var s1 := Step(s, Advance);
    assert RunOn(s, n) == RunOn(s1, n - 1);
    if s1.control.Top? { PendingBegins(s1, n - 1); } else { assert RunOn(s1, n - 1) == s1; }
  }

  /** Left, or with nothing more to resolve, the loop goes on to the exclusive message that still waits, which is
      never dropped, or else to `on_stop`; both end the loop. */
  lemma LeavesExactly(hint: nat, events: seq<Event>)
    requires var s := After(hint, events); (s.control.Resolving? && s.tasks == {}) || s.control.Leaving?
    ensures var s := After(hint, events);
            var s' := if s.control.Leaving? then Step(s, Advance) else Step(Step(s, Advance), Advance);
            && s'.control == (if s.pending.Some? then LastExclusive(s.pending.value) else Stopping)
            && s'.tasks == {} && s'.pending.None? && s'.completed == s.completed && s'.dropped == s.dropped
            && Step(if s.pending.Some? then Step(s', HookDone) else s', HookDone).control.Ended?
  {
    Reachable(hint, events);
    LeavesAt(After(hint, events));
  }

  lemma LeavesAt(s: Loop)
    requires Stages(s) && Reasons(s) && ((s.control.Resolving? && s.tasks == {}) || s.control.Leaving?)
    ensures var s' := if s.control.Leaving? then Step(s, Advance) else Step(Step(s, Advance), Advance);
            && s'.control == (if s.pending.Some? then LastExclusive(s.pending.value) else Stopping)
            && s'.tasks == {} && s'.pending.None? && s'.completed == s.completed && s'.dropped == s.dropped
            && Step(if s.pending.Some? then Step(s', HookDone) else s', HookDone).control.Ended?
  {
  }

  predicate AsksSomething(c: Control) {
    c.Selecting? ==> (c.tasks || c.sources) && (c.mailbox ==> c.sources)
  }

  /** A select never waits for nothing. */
  lemma {:induction false} AlwaysAsksSomething(hint: nat, events: seq<Event>)
    ensures AsksSomething(After(hint, events).control)
  {
    if events != [] {
      AlwaysAsksSomething(hint, events[..|events| - 1]);
      AsksStep(After(hint, events[..|events| - 1]), events[|events| - 1]);
    }
  }

  lemma AsksStep(s: Loop, e: Event)
    requires AsksSomething(s.control)
    ensures AsksSomething(Step(s, e).control)
  {
    if s.control.Selecting? && e.PollSelect? { SelectAsks(s, e); }
  }

  lemma SelectAsks(s: Loop, e: Event)
    requires s.control.Selecting? && e.PollSelect?
    ensures Step(s, e).control == s.control || !Step(s, e).control.Selecting?
  {
    if !(Looks(s) && (s.box.queue != [] || s.box.closed)) {
      RestSplits(s, e);
      SourcesFollow(AtSources(s, e), e.stream, e.timer, e.handlerStops);
    } else if s.box.queue != [] {
      TakeAccepts(s, s.box.queue[0], e.handlerStops);
    }
  }

  // ----- the mailbox -----

  /** What was sent while the mailbox was open. */
  function Arrivals(hint: nat, events: seq<Event>): seq<Kind> {
    if events == [] then [] else
    var before, e := events[..|events| - 1], events[|events| - 1];
    Arrivals(hint, before) + if e.Arrive? && !After(hint, before).box.closed then [e.kind] else []
  }

  /** The select asks the mailbox, which has nothing for it. */
  predicate AsksInVain(s: Loop, e: Event) {
    s.control.Selecting? && e.PollSelect? && s.control.mailbox &&
    !(Looks(s) && (s.box.queue != [] || s.box.closed))
  }

  /** A stop closes the open mailbox, which notifies the loop's listener. */
  predicate ClosedByStop(s: Loop, e: Event) {
    !s.box.closed && Step(s, e).box.closed && !e.CloseMailbox?
  }

  /** Everything sent while the mailbox was open has been put into it.  The loop stops looking exactly when it
      has asked in vain, until its listener is notified. */
  lemma {:induction false} MailboxExactly(hint: nat, events: seq<Event>, e: Event)
    ensures var s := After(hint, events); var s' := Step(s, e);
            && s.box.sent == Arrivals(hint, events)
            && (s'.box.deaf <==> (s.box.deaf || AsksInVain(s, e)) && !e.Hear? && !ClosedByStop(s, e))
  {
    Listens(After(hint, events), e);
    if events != [] {
      var n := |events| - 1;
      MailboxExactly(hint, events[..n], events[n]);
      Listens(After(hint, events[..n]), events[n]);
    }
  }

  /** What an event leaves of the mailbox. */
  ghost predicate BoxAfter(s: Loop, e: Event, s': Loop) {
    && s'.box.sent == s.box.sent + (if e.Arrive? && !s.box.closed then [e.kind] else [])
    && (s'.box.deaf <==> (s.box.deaf || AsksInVain(s, e)) && !e.Hear? && !ClosedByStop(s, e))
  }

  lemma Listens(s: Loop, e: Event)
    ensures BoxAfter(s, e, Step(s, e))
  {
    if !(s.control.Selecting? && e.PollSelect?) {
      ElseListens(s, e);
    } else if Looks(s) && s.box.queue != [] {
      TakeRings(s, s.box.queue[0], e.handlerStops);
    } else if !(Looks(s) && s.box.closed) {
      RestListens(s, e);
    }
  }

  lemma ElseListens(s: Loop, e: Event)
    requires !(s.control.Selecting? && e.PollSelect?)
    ensures BoxAfter(s, e, Step(s, e))
  {
  }

  /** A stop may have been asked for, and no more. */
  predicate Rings(b: Box, b': Box) {
    b' == b || b' == b.(closed := true, deaf := b.closed && b.deaf)
  }

  lemma TakeRings(s: Loop, kind: Kind, stops: bool)
    ensures Rings(s.box, Take(s, kind, stops).box)
  {
  }

  lemma FinishRings(s: Loop, turns: seq<Turn>)
    ensures Rings(s.box, Finish(s, turns).box)
  {
  }

  lemma RestListens(s: Loop, e: Event)
    requires s.control.Selecting? && e.PollSelect? && !(Looks(s) && (s.box.queue != [] || s.box.closed))
    ensures BoxAfter(s, e, Step(s, e))
  {
    RestSplits(s, e);
    FinishRings(s.(box := Listen(s.box, s.control.mailbox)), Bounded(e.turns, |s.tasks|));
    SourcesRing(AtSources(s, e), e);
    assert Rings(Listen(s.box, s.control.mailbox), Step(s, e).box);
  }

  lemma SourcesRing(s: Loop, e: Event)
    requires s.control.Selecting? && e.PollSelect?
    ensures Rings(s.box, FromSources(s, e.stream, e.timer, e.handlerStops).box)
  {
    TakeRings(s, Ref, e.handlerStops);
    TakeRings(s, Mut, e.handlerStops);
  }
}
