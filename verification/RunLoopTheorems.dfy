/** What every run of the loop guarantees. */
module RunLoopTheorems {
  import opened Prelude
  import opened RunLoop
  import opened RunLoopInvariant

  // ----- what the parts of a select leave alone -----

  /** The select looks into the queue. */
  predicate Looks(s: Loop) {
    s.control.Selecting? && s.control.mailbox && !s.box.deaf
  }

  /** Neither the queue nor what was taken from it changed; a stop may have been asked for, which
      closes the mailbox. */
  ghost predicate SameMail(s: Loop, s': Loop) {
    && s'.hint == s.hint && s'.left == s.left
    && s'.box == s.box.(closed := s'.box.closed, deaf := s'.box.deaf) && (s.box.closed ==> s'.box.closed)
    && (s'.state == s.state || (s'.state.StopGraceful? && s'.box.closed))
  }

  lemma FinishSame(s: Loop, turns: seq<Turn>)
    ensures var s' := Finish(s, turns);
            && SameMail(s, s') && s'.control == s.control && s'.accepted == s.accepted && s'.pending == s.pending
            && s'.left == s.left
  {
  }

  lemma TakeSame(s: Loop, kind: Kind, stops: bool)
    ensures var s' := Take(s, kind, stops);
            && s'.control.Inner? && (!kind.StopMessage? ==> SameMail(s, s'))
            && s'.hint == s.hint && s'.left == s.left && s'.box == s.box.(closed := s'.box.closed, deaf := s'.box.deaf)
            && (s.box.closed ==> s'.box.closed)
            && (kind.StopMessage? ==> s'.state == (if kind.graceful then StopGraceful else Stop) && s'.tasks == s.tasks)
  {
  }

  lemma SourcesSame(s: Loop, stream: Option<bool>, timer: Option<bool>, stops: bool)
    requires s.control.Selecting?
    ensures var s' := FromSources(s, stream, timer, stops); SameMail(s, s') && (s' == s || s'.control.Inner?)
  {
    if s.control.sources && stream.Some? { TakeSame(s, if stream.value then Mut else Ref, stops); }
    else if s.control.sources && timer.Some? { TakeSame(s, if timer.value then Mut else Ref, stops); }
  }

  /** The part behind the mailbox: still pending, with nothing accepted, or completed. */
  lemma RestSame(s: Loop, turns: seq<Turn>, stream: Option<bool>, timer: Option<bool>, stops: bool)
    requires s.control.Selecting?
    ensures var s' := SelectRest(s, turns, stream, timer, stops);
            && SameMail(s, s') && (s'.control == s.control || s'.control.Inner? || s'.control.Yielding?)
            && (s'.control.Selecting? ==>
                  s'.accepted == s.accepted && s'.pending == s.pending &&
                  (s.control.tasks ==> |turns| < |s.tasks| && s'.tasks != {}))
            && (s'.control.Selecting? && !s.control.tasks ==> s' == s)
  {
    if s.control.tasks {
      FinishSame(s, turns);
      SourcesSame(Finish(s, turns), stream, timer, stops);
    } else {
      SourcesSame(s, stream, timer, stops);
    }
  }

  lemma TakeMailSame(s: Loop, stops: bool)
    requires s.box.queue != []
    ensures var s', kind := TakeMail(s, stops), s.box.queue[0];
            && s'.control.Inner? && s'.hint == s.hint && s'.left == s.left
            && s'.box.queue == s.box.queue[1..] && (s.box.closed ==> s'.box.closed)
            && (kind.StopMessage? ==> s'.state == (if kind.graceful then StopGraceful else Stop) && s'.tasks == s.tasks)
            && (!kind.StopMessage? ==> s'.state == s.state || (s'.state.StopGraceful? && s'.box.closed))
  {
    TakeSame(s, s.box.queue[0], stops);
  }

  // ----- the barrier -----

  /** The barrier.  While an exclusive message runs nothing else is in flight, nothing has been
      accepted after it, and everything accepted before it has completed. */
  lemma ExclusiveBarrier(hint: nat, events: seq<Event>)
    requires After(hint, events).control.Exclusive? || After(hint, events).control.LastExclusive?
    ensures var s := After(hint, events);
            && s.tasks == {} && s.pending.None?
            && s.control.id == |s.accepted| - 1 && s.accepted[s.control.id].Mut? && s.control.id !in s.completed
            && forall j :: 0 <= j < s.control.id && Handled(s.accepted[j]) ==> j in s.completed
  {
    Reachable(hint, events);
    var s := After(hint, events);
    assert Busy(s) == {s.control.id};
  }

  /** While an exclusive message waits, nothing more is taken, from wherever. */
  lemma NothingTakenWhilePending(hint: nat, events: seq<Event>, e: Event)
    requires After(hint, events).pending.Some?
    ensures var s := After(hint, events);
            && Step(s, e).accepted == s.accepted && Step(s, e).box.fetched == s.box.fetched
            && s.pending.value == |s.accepted| - 1
            && (Step(s, e).pending == s.pending || Step(s, e).pending.None?)
  {
    Reachable(hint, events);
    PendingStep(After(hint, events), e);
  }

  lemma PendingStep(s: Loop, e: Event)
    requires Alone(s) && Stages(s) && s.pending.Some?
    ensures Step(s, e).accepted == s.accepted && Step(s, e).box.fetched == s.box.fetched
    ensures Step(s, e).pending == s.pending || Step(s, e).pending.None?
  {
  }

  /** The hint bounds the tasks that came from the mailbox, and how many messages are taken from it
      in a row while tasks wait to be polled. */
  lemma MailboxBounded(hint: nat, events: seq<Event>)
    ensures var s := After(hint, events);
            && s.fromMail <= s.tasks && |s.fromMail| <= hint
            && (s.since > 0 ==> s.since < hint)
  {
    Reachable(hint, events);
    HintStays(hint, events);
  }

  lemma {:induction false} HintStays(hint: nat, events: seq<Event>)
    ensures After(hint, events).hint == hint
  {
    if events != [] {
      HintStays(hint, events[..|events| - 1]);
      HintStep(After(hint, events[..|events| - 1]), events[|events| - 1]);
    }
  }

  lemma HintStep(s: Loop, e: Event)
    ensures Step(s, e).hint == s.hint
  {
    if s.control.Selecting? && e.PollSelect? {
      var turns := Bounded(e.turns, |s.tasks|);
      if Looks(s) && s.box.queue != [] { TakeMailSame(s, e.handlerStops); }
      else { RestSame(s.(box := Listen(s.box, s.control.mailbox)), turns, e.stream, e.timer, e.handlerStops); }
    }
  }

  /** Every handled message has one fate at a time: in flight or waiting, completed, or dropped. */
  lemma NothingLost(hint: nat, events: seq<Event>, id: nat)
    requires id < |After(hint, events).accepted| && Handled(After(hint, events).accepted[id])
    ensures OneFate(After(hint, events), id)
    ensures After(hint, events).control.Ended? ==> id !in Busy(After(hint, events))
  {
    Reachable(hint, events);
  }

  ghost predicate OneFate(s: Loop, id: nat) {
    && (id in Busy(s) || id in s.completed || id in s.dropped)
    && !(id in Busy(s) && id in s.completed)
    && !(id in Busy(s) && id in s.dropped)
    && !(id in s.completed && id in s.dropped)
  }

  /** A run that leaves through the graceful branch has completed every message it accepted before
      `on_stop` begins; it leaves so exactly if the last select found no closed mailbox and took no
      stop message without grace. */
  lemma GracefulExit(hint: nat, events: seq<Event>)
    requires After(hint, events).control.Stopping? || After(hint, events).control.Ended?
    ensures var s := After(hint, events);
            && s.left == Some(if Abrupt(s.last) then Stop else StopGraceful)
            && (s.left == Some(StopGraceful) ==>
                  forall j :: 0 <= j < |s.accepted| && Handled(s.accepted[j]) ==> j in s.completed)
  {
    Reachable(hint, events);
    assert Busy(After(hint, events)) == {};
  }

  /** At most one stop message is taken in a run; its responder is used once, and only when `on_stop`
      is over. */
  lemma OneStopMessage(hint: nat, events: seq<Event>)
    ensures var s := After(hint, events);
            && (forall i, j ::
                  0 <= i < j < |s.accepted| && s.accepted[i].StopMessage? ==> !s.accepted[j].StopMessage?)
            && (!s.stopped ==> s.responded == [])
            && (s.control.Ended? ==> s.responded == if s.notify.Some? then [s.notify.value] else [])
            && (s.notify.Some? <==> exists j :: 0 <= j < |s.accepted| && s.accepted[j].StopMessage?)
  {
    Reachable(hint, events);
  }

  // ----- the backlog -----

  /** What was put into the mailbox is accepted in that order, once each; what was not is still
      queued. */
  lemma MailInOrder(hint: nat, events: seq<Event>)
    ensures var s := After(hint, events);
            && |s.box.fetched| <= |s.box.sent| && s.box.queue == s.box.sent[|s.box.fetched|..]
            && (forall i :: 0 <= i < |s.box.fetched| ==>
                  s.box.fetched[i] < |s.accepted| && s.accepted[s.box.fetched[i]] == s.box.sent[i])
            && (forall i, j :: 0 <= i < j < |s.box.fetched| ==> s.box.fetched[i] < s.box.fetched[j])
  {
    Reachable(hint, events);
  }

  /** Without a stop asked for since the loop began it is left only when the mailbox is closed and
      every message ever put into it has been accepted.  What is dropped then is exactly the tasks that
      were in flight when the mailbox was found closed. */
  lemma UnaskedExitDrains(hint: nat, events: seq<Event>)
    requires After(hint, events).left.Some? && !After(hint, events).asked
    ensures var s := After(hint, events);
            && s.left == Some(Stop) && s.last == Closed
            && s.box.closed && s.box.queue == [] && |s.box.fetched| == |s.box.sent|
            && exists k :: 0 <= k < |events| && FindsClosed(After(hint, events[..k]), events[k]) &&
                           s.dropped == After(hint, events[..k]).tasks
  {
    Reachable(hint, events);
    ClosedWasFound(hint, events);
  }

  /** The select is polled, looks into the mailbox, and finds it closed and empty. */
  predicate FindsClosed(s: Loop, e: Event) {
    e.PollSelect? && Looks(s) && s.box.queue == [] && s.box.closed
  }

  /** Since the mailbox was found closed in `b`: its tasks are in flight still, or were dropped. */
  predicate DropsTasksOf(b: Loop, s: Loop) {
    if s.left.Some? then s.dropped == b.tasks else s.control.Inner? && s.state.Stop? && s.tasks == b.tasks
  }

  lemma {:induction false} ClosedWasFound(hint: nat, events: seq<Event>)
    requires After(hint, events).last == Closed
    ensures exists k :: 0 <= k < |events| && FindsClosed(After(hint, events[..k]), events[k]) &&
                        DropsTasksOf(After(hint, events[..k]), After(hint, events))
  {
    var n := |events| - 1;
    var before := events[..n];
    var s, e := After(hint, before), events[n];
    Reachable(hint, before);
    if s.last == Closed {
      ClosedWasFound(hint, before);
      var k :| 0 <= k < n && FindsClosed(After(hint, before[..k]), before[k]) &&
               DropsTasksOf(After(hint, before[..k]), s);
      assert before[..k] == events[..k] && before[k] == events[k];
      DropsStep(After(hint, before[..k]), s, e);
      assert FindsClosed(After(hint, events[..k]), events[k]);
    } else {
      ClosedFirst(s, e);
      assert FindsClosed(After(hint, events[..n]), events[n]);
    }
  }

  lemma DropsStep(b: Loop, s: Loop, e: Event)
    requires Inv(s) && s.last == Closed && DropsTasksOf(b, s)
    ensures DropsTasksOf(b, Step(s, e))
  {
    assert Doomed(s);
    DoomedStep(s, e);
  }

  lemma ClosedFirst(s: Loop, e: Event)
    requires Inv(s) && s.last != Closed && Step(s, e).last == Closed
    ensures FindsClosed(s, e) && DropsTasksOf(s, Step(s, e))
  {
    if s.control.Selecting? && e.PollSelect? {
      if Looks(s) && s.box.queue != [] { LastTaken(s, e.handlerStops); }
      else if !(Looks(s) && s.box.closed) {
        var turns := Bounded(e.turns, |s.tasks|);
        LastOfRest(s.(box := Listen(s.box, s.control.mailbox)), turns, e.stream, e.timer, e.handlerStops);
      }
    }
  }

  lemma LastTaken(s: Loop, stops: bool)
    requires s.box.queue != []
    ensures TakeMail(s, stops).last.Took?
  {
  }

  lemma LastOfRest(s: Loop, turns: seq<Turn>, stream: Option<bool>, timer: Option<bool>, stops: bool)
    requires s.control.Selecting?
    ensures var s' := SelectRest(s, turns, stream, timer, stops); s'.last == s.last || !s'.last.Closed?
  {
    if s.control.tasks { assert Finish(s, turns).last == s.last; }
  }

  function Then(s: Loop, events: seq<Event>): Loop {
    if events == [] then s else Step(Then(s, events[..|events| - 1]), events[|events| - 1])
  }

  lemma {:induction false} ThenKeeps(s: Loop, more: seq<Event>)
    requires Inv(s)
    ensures Inv(Then(s, more))
  {
    if more != [] {
      ThenKeeps(s, more[..|more| - 1]);
      StepKeeps(Then(s, more[..|more| - 1]), more[|more| - 1]);
    }
  }

  /** A graceful stop has been asked for and no select is pending, or the loop has been left so. */
  predicate Going(s: Loop) {
    (InLoop(s.control) && !s.control.Selecting? && s.state.StopGraceful?) || s.left == Some(StopGraceful)
  }

  /** The loop is about to be left early, or has been. */
  predicate Doomed(s: Loop) {
    (s.control.Inner? && s.state.Stop?) || s.left == Some(Stop)
  }

  /** Nothing more is accepted, and the backlog stays as it is but for what others still add. */
  ghost predicate NothingMore(s: Loop, s': Loop) {
    && s'.accepted == s.accepted && s'.box.fetched == s.box.fetched
    && s.box.queue <= s'.box.queue && (s.box.closed ==> s'.box.queue == s.box.queue && s'.box.closed)
  }

  lemma GoingStep(s: Loop, e: Event)
    requires Going(s) && Stages(s) && !(s.left == Some(StopGraceful) && InLoop(s.control))
    ensures Going(Step(s, e)) && NothingMore(s, Step(s, e))
  {
  }

  lemma DoomedStep(s: Loop, e: Event)
    requires Doomed(s) && Stages(s) && s.pending.None? && !s.control.LastExclusive?
    ensures var s' := Step(s, e);
            && Doomed(s') && NothingMore(s, s') && s'.pending.None? && !s'.control.LastExclusive?
            && (s.left.Some? ==> s'.left == s.left && s'.dropped == s.dropped)
            && (s.left.None? && s'.left.Some? ==> s'.dropped == s.dropped + s.tasks)
            && (s'.left.None? ==> s'.tasks == s.tasks && s'.dropped == s.dropped)
  {
  }

  /** A graceful stop is final unless a select is pending when it is asked for: the loop is left
      gracefully and accepts nothing more, so that the backlog is left as it is at the stop.  In
      particular none of it is handled. */
  lemma {:induction false} StopIsFinal(hint: nat, events: seq<Event>, more: seq<Event>)
    requires Going(After(hint, events))
    ensures var s, s' := After(hint, events), Then(After(hint, events), more);
            && Going(s') && NothingMore(s, s')
            && (s'.left.Some? ==> s'.left == Some(StopGraceful))
  {
    Reachable(hint, events);
    FinalFrom(After(hint, events), more);
  }

  lemma {:induction false} FinalFrom(s: Loop, more: seq<Event>)
    requires Inv(s) && Going(s)
    ensures var s' := Then(s, more);
            && Inv(s') && Going(s') && NothingMore(s, s')
            && (s'.left.Some? ==> s'.left == Some(StopGraceful))
  {
    ThenKeeps(s, more);
    if more != [] {
      var s1 := Then(s, more[..|more| - 1]);
      FinalFrom(s, more[..|more| - 1]);
      GoingStep(s1, more[|more| - 1]);
    }
  }

  /** What being doomed since `s` means in `s'`. */
  ghost predicate DoomedSince(s: Loop, s': Loop) {
    && Doomed(s') && NothingMore(s, s') && s'.pending.None? && !s'.control.LastExclusive?
    && (if s'.left.Some? then s'.left == Some(Stop) && s'.dropped == s.dropped + s.tasks
        else s'.tasks == s.tasks && s'.dropped == s.dropped)
  }

  lemma {:induction false} DoomedFrom(s: Loop, more: seq<Event>)
    requires Inv(s) && Doomed(s) && s.left.None?
    ensures var s' := Then(s, more);
            Inv(s') && DoomedSince(s, s')
  {
    ThenKeeps(s, more);
    if more != [] {
      var s1 := Then(s, more[..|more| - 1]);
      DoomedFrom(s, more[..|more| - 1]);
      DoomedMore(s, s1, more[|more| - 1]);
    }
  }

  lemma DoomedMore(s: Loop, s1: Loop, e: Event)
    requires DoomedSince(s, s1) && Stages(s1)
    ensures DoomedSince(s, Step(s1, e))
  {
    DoomedStep(s1, e);
  }

  /** A task's stop leaves its select pending only if fewer turns were taken than there were tasks
      and a task is left; otherwise it is final. */
  lemma StopInTasks(hint: nat, events: seq<Event>, turns: seq<Turn>,
                    stream: Option<bool>, timer: Option<bool>, stops: bool)
    requires After(hint, events).control.Selecting? && After(hint, events).state.Running?
    requires Step(After(hint, events), PollSelect(turns, stream, timer, stops)).state.StopGraceful?
    ensures var s := After(hint, events); var s' := Step(s, PollSelect(turns, stream, timer, stops));
            Going(s') || (s'.control.Selecting? && |turns| < |s.tasks| && s'.tasks != {} && s'.box.closed)
  {
    Reachable(hint, events);
    PendingAt(After(hint, events), turns, stream, timer, stops);
  }

  lemma PendingAt(s: Loop, turns: seq<Turn>, stream: Option<bool>, timer: Option<bool>, stops: bool)
    requires Inv(s) && s.control.Selecting? && s.state.Running?
    requires Step(s, PollSelect(turns, stream, timer, stops)).state.StopGraceful?
    ensures var s' := Step(s, PollSelect(turns, stream, timer, stops));
            Going(s') || (s'.control.Selecting? && |turns| < |s.tasks| && s'.tasks != {} && s'.box.closed)
  {
    if Looks(s) && s.box.queue != [] { TakeMailSame(s, stops); }
    else if !(Looks(s) && s.box.closed) {
      RestSame(s.(box := Listen(s.box, s.control.mailbox)), Bounded(turns, |s.tasks|), stream, timer, stops);
    }
  }

  /** A stop asked for in a select that is still pending is overridden if and only if the next poll of
      that select to complete it looks into the mailbox and finds it empty, or finds a stop message
      without grace in front: then the loop is left early and exactly the tasks in flight are dropped.  At
      most the front message of the backlog is accepted, and exactly if the poll looks and finds one. */
  lemma StopOverriddenExactly(hint: nat, events: seq<Event>, e: Event, more: seq<Event>)
    requires After(hint, events).control.Selecting? && After(hint, events).state.StopGraceful?
    requires e.PollSelect? && !Step(After(hint, events), e).control.Selecting?
    requires Then(Step(After(hint, events), e), more).left.Some?
    ensures var s := After(hint, events); var s' := Then(Step(s, e), more);
            && (s'.left == Some(Stop) <==> Looks(s) && (s.box.queue == [] || s.box.queue[0] == StopMessage(false)))
            && (s'.left == Some(Stop) ==> s'.dropped == s.tasks)
            && s'.box.queue == (if Looks(s) && s.box.queue != [] then s.box.queue[1..] else s.box.queue)
  {
    var s := After(hint, events);
    var s1 := Step(s, e);
    Reachable(hint, events);
    StepKeeps(s, e);
    SelectDecides(s, e);
    if Doomed(s1) { DoomedFrom(s1, more); } else { FinalFrom(s1, more); }
  }

  lemma SelectDecides(s: Loop, e: Event)
    requires s.control.Selecting? && s.state.StopGraceful? && s.box.closed && s.left.None?
    requires e.PollSelect? && !Step(s, e).control.Selecting?
    ensures var s1 := Step(s, e);
            && s1.left.None? && s1.box.closed && (Doomed(s1) || Going(s1)) && (Doomed(s1) ==> s1.tasks == s.tasks)
            && (Doomed(s1) <==> Looks(s) && (s.box.queue == [] || s.box.queue[0] == StopMessage(false)))
            && s1.box.queue == (if Looks(s) && s.box.queue != [] then s.box.queue[1..] else s.box.queue)
  {
    if Looks(s) && s.box.queue != [] { TakeMailSame(s, e.handlerStops); }
    else if !Looks(s) {
      var turns := Bounded(e.turns, |s.tasks|);
      RestSame(s.(box := Listen(s.box, s.control.mailbox)), turns, e.stream, e.timer, e.handlerStops);
    }
  }

  /** A poll that does not complete the select leaves everything as it was asked. */
  lemma StopStaysPending(s: Loop, e: Event)
    requires s.control.Selecting? && s.state.StopGraceful? && e.PollSelect? && Step(s, e).control.Selecting?
    ensures Step(s, e).state.StopGraceful? && Step(s, e).box.fetched == s.box.fetched
    ensures Step(s, e).accepted == s.accepted
  {
    if Looks(s) && s.box.queue != [] { TakeMailSame(s, e.handlerStops); }
    else if !(Looks(s) && s.box.closed) {
      var turns := Bounded(e.turns, |s.tasks|);
      RestSame(s.(box := Listen(s.box, s.control.mailbox)), turns, e.stream, e.timer, e.handlerStops);
    }
  }

  /** During `on_start` a stop closes the mailbox and does no more: the loop begins as if running, and
      `UnaskedExitDrains` says how it ends. */
  lemma StopOnStart(hint: nat, events: seq<Event>)
    requires After(hint, events).control.Starting?
    ensures var s := After(hint, events); var s' := Step(Step(s, ContextStop), HookDone);
            && s'.control.Top? && s'.state.Running? && !s'.asked && s'.box.closed
            && s' == Step(s, HookDone).(box := s'.box) && s'.box == s.box.(closed := true, deaf := s'.box.deaf)
  {
    Reachable(hint, events);
    StartsUnasked(hint, events);
  }

  lemma {:induction false} StartsUnasked(hint: nat, events: seq<Event>)
    ensures After(hint, events).control.Starting? ==> !After(hint, events).asked
  {
    if events != [] {
      StartsUnasked(hint, events[..|events| - 1]);
      StartStep(After(hint, events[..|events| - 1]), events[|events| - 1]);
    }
  }

  lemma StartStep(s: Loop, e: Event)
    requires s.control.Starting? ==> !s.asked
    ensures Step(s, e).control.Starting? ==> !Step(s, e).asked
  {
    if s.control.Selecting? && e.PollSelect? {
      var turns := Bounded(e.turns, |s.tasks|);
      if Looks(s) && s.box.queue != [] { TakeMailSame(s, e.handlerStops); }
      else { RestSame(s.(box := Listen(s.box, s.control.mailbox)), turns, e.stream, e.timer, e.handlerStops); }
    }
  }
}
