/** The run loop's invariant, and that every step keeps it. */
module RunLoopInvariant {
  import opened Prelude
  import opened RunLoop

  function Waiting(pending: Option<nat>): set<nat> {
    if pending.Some? then {pending.value} else {}
  }

  function Alive(c: Control): set<nat> {
    if c.Exclusive? || c.LastExclusive? then {c.id} else {}
  }

  function Busy(s: Loop): set<nat> {
    s.tasks + Waiting(s.pending) + Alive(s.control)
  }

  predicate Handled(k: Kind) {
    k.Ref? || k.Mut?
  }

  /** Every accepted message is being worked on, or waits, or was completed, or was dropped: one of
      these, and only these. */
  ghost predicate Accounted(s: Loop) {
    && (forall j :: 0 <= j < |s.accepted| && Handled(s.accepted[j]) ==>
          j in Busy(s) || j in s.completed || j in s.dropped)
    && (forall j :: j in Busy(s) || j in s.completed || j in s.dropped ==> j < |s.accepted| && Handled(s.accepted[j]))
    && (forall j :: j in s.completed ==> j !in Busy(s) && j !in s.dropped)
    && (forall j :: j in s.dropped ==> j !in Busy(s))
    && (forall j :: j in s.tasks ==> s.accepted[j].Ref?)
  }

  /** An exclusive message that waits or runs is the last one accepted, and runs with nothing else
      in flight. */
  ghost predicate Alone(s: Loop) {
    && (s.pending.Some? ==>
          s.pending.value == |s.accepted| - 1 && s.accepted[s.pending.value].Mut? && !s.control.Exclusive?)
    && (s.control.Exclusive? || s.control.LastExclusive? ==>
          s.tasks == {} && s.pending.None? && s.control.id == |s.accepted| - 1 && s.accepted[s.control.id].Mut?)
  }

  predicate InLoop(c: Control) {
    c.Top? || c.Exclusive? || c.Inner? || c.Selecting? || c.Yielding? || c.Resolving?
  }

  /** No task is in flight there. */
  predicate Quiet(c: Control) {
    c.Starting? || c.Top? || c.Leaving? || c.LastExclusive? || c.Stopping? || c.Ended?
  }

  ghost predicate Stages(s: Loop) {
    && (s.control.Starting? ==> s.accepted == [] && s.last == NothingYet)
    && (Quiet(s.control) ==> s.tasks == {})
    && (s.control.Stopping? || s.control.Ended? ==> s.pending.None?)
    && (s.left.Some? <==> !s.control.Starting? && !InLoop(s.control))
    && (s.left.None? || s.left == Some(StopGraceful) ==> s.dropped == {})
    && (s.control.Resolving? || s.left == Some(StopGraceful) ==> s.state.StopGraceful?)
    && (s.control.Selecting? && s.pending.Some? ==> !s.control.mailbox && !s.control.sources)
    && (s.control.Selecting? ==> (s.control.mailbox ==> |s.tasks| < s.hint) && (s.control.tasks <==> s.tasks != {}))
    && (s.stopped <==> s.control.Ended?)
  }

  /** Stop messages. */
  ghost predicate Notifies(s: Loop) {
    && (forall j :: 0 <= j < |s.accepted| && s.accepted[j].StopMessage? ==> s.notify == Some(j))
    && (s.notify.Some? ==> s.notify.value < |s.accepted| && s.accepted[s.notify.value].StopMessage?)
    && s.responded == (if s.control.Ended? && s.notify.Some? then [s.notify.value] else [])
    && (InLoop(s.control) && s.notify.Some? ==>
          (s.control.Inner? && !s.state.Running?) || s.control.Resolving?)
  }

  /** The mailbox was found closed, or a stop message asked for no grace. */
  predicate Abrupt(o: Output) {
    o.Closed? || o == Took(StopMessage(false))
  }

  /** Why the loop is left as it is. */
  ghost predicate Reasons(s: Loop) {
    && (InLoop(s.control) && !s.control.Inner? ==> !s.state.Stop? && !Abrupt(s.last))
    && (s.control.Inner? ==> (s.state.Stop? <==> Abrupt(s.last)))
    && (s.left.Some? ==> s.left.value == (if Abrupt(s.last) then Stop else StopGraceful))
    && (Abrupt(s.last) ==> s.pending.None? && !s.control.LastExclusive?)
  }

  ghost predicate Bounds(s: Loop) {
    Counts(s.fromMail, s.tasks, s.since, s.pending.Some? || s.notify.Some?, s.hint)
  }

  /** `extra`: the last message taken did not become a task. */
  ghost predicate Counts(fromMail: set<nat>, tasks: set<nat>, since: nat, extra: bool, hint: nat) {
    && fromMail <= tasks && |fromMail| <= hint
    && (since == 0 || (tasks != {} && since < hint && since < |tasks| + if extra then 1 else 0))
  }

  /** What was put into the mailbox was taken, in order, or is still there. */
  ghost predicate BoxOk(b: Box, accepted: seq<Kind>) {
    && |b.fetched| <= |b.sent| && b.queue == b.sent[|b.fetched|..]
    && (forall i :: 0 <= i < |b.fetched| ==> b.fetched[i] < |accepted| && accepted[b.fetched[i]] == b.sent[i])
    && (forall i, j :: 0 <= i < j < |b.fetched| ==> b.fetched[i] < b.fetched[j])
  }

  /** The mailbox was found closed only when it was empty; without being asked to stop the loop runs
      until then. */
  ghost predicate AskedOk(s: Loop) {
    && (s.last == Closed ==> s.box.closed && s.box.queue == [])
    && (s.control.Selecting? && s.state.StopGraceful? ==> s.box.closed && s.asked)
    && (s.last.Took? && s.last.kind.StopMessage? ==> s.asked)
    && (!s.asked && !s.control.Starting? ==>
          !s.state.StopGraceful? && !s.control.Resolving? && s.left != Some(StopGraceful))
  }

  ghost predicate Inv(s: Loop) {
    Accounted(s) && Alone(s) && Stages(s) && Notifies(s) && Reasons(s) && Bounds(s) &&
    BoxOk(s.box, s.accepted) && AskedOk(s)
  }

  // ----- asking for a stop -----

  lemma AskKeeps(s: Loop)
    requires Inv(s) && (UserCode(s.control) || s.control.Selecting? || s.control.Resolving?)
    ensures Inv(AskStop(s))
  {
    assert Busy(AskStop(s)) == Busy(s);
  }

  lemma SmallerSet(a: set<nat>, b: set<nat>)
    requires a <= b
    ensures |a| <= |b|
  {
    assert |b| == |a| + |b - a| by { assert a + (b - a) == b && a * (b - a) == {}; }
  }

  /** What does not depend on the mailbox. */
  ghost predicate Core(s: Loop) {
    Accounted(s) && Alone(s) && Stages(s) && Notifies(s) && Reasons(s)
  }

  lemma CoreStays(s: Loop, s': Loop)
    requires Core(s) && s' == s.(box := s'.box, fromMail := s'.fromMail, since := s'.since)
    ensures Core(s')
  {
    assert Busy(s') == Busy(s);
  }

  // ----- taking a message -----

  /** A message may be taken. */
  ghost predicate MayTake(s: Loop) {
    s.control.Selecting? && s.pending.None? && s.notify.None?
  }

  lemma TakeKeeps(s: Loop, kind: Kind, handlerStops: bool)
    requires Inv(s) && MayTake(s)
    ensures Inv(Take(s, kind, handlerStops))
  {
    TakeCore(s, kind, handlerStops);
    TakeBounds(s, kind, handlerStops);
    TakeAsked(s, kind, handlerStops);
    BoxStays(s.box, Take(s, kind, handlerStops).box, s.accepted, kind);
  }

  lemma TakeCore(s: Loop, kind: Kind, handlerStops: bool)
    requires Core(s) && MayTake(s)
    ensures Core(Take(s, kind, handlerStops))
  {
    TakeAccounts(s, kind, handlerStops);
    TakeStages(s, kind, handlerStops);
    TakeNotifies(s, kind, handlerStops);
  }

  lemma TakeAccounts(s: Loop, kind: Kind, handlerStops: bool)
    requires Accounted(s) && MayTake(s)
    ensures Accounted(Take(s, kind, handlerStops))
  {
    var s', id := Take(s, kind, handlerStops), |s.accepted|;
    assert forall j :: 0 <= j < id ==> s'.accepted[j] == s.accepted[j];
    assert Busy(s') == if Handled(kind) then Busy(s) + {id} else Busy(s);
  }

  lemma TakeStages(s: Loop, kind: Kind, handlerStops: bool)
    requires Alone(s) && Stages(s) && Reasons(s) && MayTake(s)
    ensures var s' := Take(s, kind, handlerStops); Alone(s') && Stages(s') && Reasons(s')
  {
  }

  lemma TakeNotifies(s: Loop, kind: Kind, handlerStops: bool)
    requires Notifies(s) && MayTake(s)
    ensures Notifies(Take(s, kind, handlerStops))
  {
  }

  lemma TakeBounds(s: Loop, kind: Kind, handlerStops: bool)
    requires Accounted(s) && Bounds(s) && MayTake(s)
    ensures Bounds(Take(s, kind, handlerStops))
  {
    assert |s.accepted| !in s.tasks;
  }

  lemma TakeAsked(s: Loop, kind: Kind, handlerStops: bool)
    requires AskedOk(s) && MayTake(s)
    ensures AskedOk(Take(s, kind, handlerStops))
  {
  }

  lemma BoxStays(b: Box, b': Box, accepted: seq<Kind>, kind: Kind)
    requires BoxOk(b, accepted) && b' == b.(closed := b'.closed, deaf := b'.deaf)
    ensures BoxOk(b', accepted + [kind])
  {
  }

  lemma TakeMailKeeps(s: Loop, handlerStops: bool)
    requires Inv(s) && MayTake(s) && s.box.queue != [] && |s.tasks| < s.hint
    ensures Inv(TakeMail(s, handlerStops))
  {
    TakeMailCore(s, handlerStops);
    TakeMailBounds(s, handlerStops);
    TakeMailAsked(s, handlerStops);
    TakeMailBox(s, handlerStops);
  }

  lemma TakeMailBox(s: Loop, handlerStops: bool)
    requires BoxOk(s.box, s.accepted) && MayTake(s) && s.box.queue != []
    ensures BoxOk(TakeMail(s, handlerStops).box, TakeMail(s, handlerStops).accepted)
  {
    var s1 := Take(s, s.box.queue[0], handlerStops);
    assert s1.accepted == s.accepted + [s.box.queue[0]];
    Fetches(s.box, s1.box, s.accepted);
  }

  lemma TakeMailCore(s: Loop, handlerStops: bool)
    requires Core(s) && MayTake(s) && s.box.queue != []
    ensures Core(TakeMail(s, handlerStops))
  {
    TakeCore(s, s.box.queue[0], handlerStops);
    CoreStays(Take(s, s.box.queue[0], handlerStops), TakeMail(s, handlerStops));
  }

  lemma TakeMailAsked(s: Loop, handlerStops: bool)
    requires AskedOk(s) && MayTake(s) && s.box.queue != []
    ensures AskedOk(TakeMail(s, handlerStops))
  {
    TakeAsked(s, s.box.queue[0], handlerStops);
  }

  lemma TakeMailBounds(s: Loop, handlerStops: bool)
    requires Accounted(s) && Bounds(s) && MayTake(s) && s.box.queue != [] && |s.tasks| < s.hint
    ensures Bounds(TakeMail(s, handlerStops))
  {
    assert |s.accepted| !in s.tasks;
    CountsGrow(s.fromMail, s.tasks, s.since, s.hint, |s.accepted|);
  }

  lemma CountsGrow(fromMail: set<nat>, tasks: set<nat>, since: nat, hint: nat, id: nat)
    requires Counts(fromMail, tasks, since, false, hint) && |tasks| < hint && id !in tasks
    ensures var since' := if tasks == {} then 0 else since + 1;
            Counts(fromMail + {id}, tasks + {id}, since', false, hint) && Counts(fromMail, tasks, since', true, hint)
  {
    SmallerSet(fromMail, tasks);
    assert |tasks + {id}| == |tasks| + 1 && |fromMail + {id}| == |fromMail| + 1;
  }

  lemma Fetches(b: Box, b': Box, accepted: seq<Kind>)
    requires BoxOk(b, accepted) && b.queue != [] && b' == b.(closed := b'.closed, deaf := b'.deaf)
    ensures BoxOk(Fetch(b', |accepted|), accepted + [b.queue[0]])
  {
    assert b.queue[0] == b.sent[|b.fetched|];
    assert b.queue[1..] == b.sent[|b.fetched| + 1..];
  }

  // ----- polling the tasks -----

  lemma SettleKeeps(s: Loop, done: set<nat>)
    requires Inv(s) && (s.control.Resolving? || (s.control.Selecting? && s.control.tasks))
    ensures var s' := Settle(s, done); s.control.Resolving? || s'.tasks != {} ==> Inv(s')
  {
    SettleAccounts(s, done);
    SettleRest(s, done);
  }

  lemma SettleYields(s: Loop, done: set<nat>)
    requires Inv(s) && s.control.Selecting? && s.control.tasks
    ensures Inv(Settle(s, done).(last := TasksPolled, control := Yielding))
  {
    SettleAccounts(s, done);
    SettleRest(s, done);
    YieldAccounts(Settle(s, done));
    YieldRest(Settle(s, done));
  }

  lemma YieldAccounts(s: Loop)
    requires Accounted(s) && Alone(s) && s.control.Selecting?
    ensures var s' := s.(last := TasksPolled, control := Yielding); Accounted(s') && Alone(s')
  {
    assert Busy(s.(last := TasksPolled, control := Yielding)) == Busy(s);
  }

  lemma YieldRest(s: Loop)
    requires s.control.Selecting? && Notifies(s) && Reasons(s) && Bounds(s) && AskedOk(s)
    requires Stages(s.(control := Yielding))
    ensures var s' := s.(last := TasksPolled, control := Yielding);
            Notifies(s') && Reasons(s') && Bounds(s') && AskedOk(s') && Stages(s')
  {
  }

  lemma SettleAccounts(s: Loop, done: set<nat>)
    requires Accounted(s) && Alone(s) && (s.control.Resolving? || s.control.Selecting?)
    ensures Accounted(Settle(s, done)) && Alone(Settle(s, done))
  {
    assert s.pending.Some? ==> s.pending.value !in s.tasks;
    assert Busy(Settle(s, done)) == Busy(s) - s.tasks * done;
  }

  lemma SettleRest(s: Loop, done: set<nat>)
    requires Stages(s) && Notifies(s) && Reasons(s) && Bounds(s) && AskedOk(s)
    requires s.control.Resolving? || (s.control.Selecting? && s.control.tasks)
    ensures var s' := Settle(s, done);
            && Notifies(s') && Reasons(s') && Bounds(s') && AskedOk(s')
            && (s.control.Resolving? || s'.tasks != {} ==> Stages(s'))
            && (s.control.Selecting? ==> Stages(s'.(control := Yielding)))
  {
    SmallerSet(s.fromMail - done, s.fromMail);
    SmallerSet(s.tasks - done, s.tasks);
  }

  lemma FinishKeeps(s: Loop, turns: seq<Turn>)
    requires Inv(s) && (s.control.Resolving? || (s.control.Selecting? && s.control.tasks))
    ensures s.control.Resolving? || Finish(s, turns).tasks != {} ==> Inv(Finish(s, turns))
  {
    SettleKeeps(s, Done(turns));
    var s' := Settle(s, Done(turns));
    if s.control.Resolving? || s'.tasks != {} { AskKeeps(s'); }
  }

  lemma YieldKeeps(s: Loop, turns: seq<Turn>)
    requires Inv(s) && s.control.Selecting? && s.control.tasks
    ensures Inv(Finish(s, turns).(last := TasksPolled, control := Yielding))
  {
    SettleYields(s, Done(turns));
    AskYields(Settle(s, Done(turns)).(last := TasksPolled, control := Yielding));
  }

  lemma AskYields(s: Loop)
    requires Inv(s) && s.control.Yielding?
    ensures Inv(AskStop(s))
  {
    assert Busy(AskStop(s)) == Busy(s);
  }

  // ----- the select -----

  lemma SelectKeeps(s: Loop, turns: seq<Turn>, stream: Option<bool>, timer: Option<bool>, handlerStops: bool)
    requires Inv(s) && s.control.Selecting?
    ensures Inv(Select(s, turns, stream, timer, handlerStops))
  {
    if s.control.mailbox && !s.box.deaf && s.box.queue != [] { TakeMailKeeps(s, handlerStops); }
    else if s.control.mailbox && !s.box.deaf && s.box.closed { MailClosedKeeps(s); }
    else {
      ListenKeeps(s, s.control.mailbox);
      RestKeeps(s.(box := Listen(s.box, s.control.mailbox)), turns, stream, timer, handlerStops);
    }
  }

  lemma RestKeeps(s: Loop, turns: seq<Turn>, stream: Option<bool>, timer: Option<bool>, handlerStops: bool)
    requires Inv(s) && s.control.Selecting?
    ensures Inv(SelectRest(s, turns, stream, timer, handlerStops))
  {
    if s.control.tasks {
      if |turns| >= |s.tasks| || Finish(s, turns).tasks == {} { YieldKeeps(s, turns); }
      else {
        FinishKeeps(s, turns);
        SourcesKeep(Finish(s, turns), stream, timer, handlerStops);
      }
    } else {
      SourcesKeep(s, stream, timer, handlerStops);
    }
  }

  lemma SourcesKeep(s: Loop, stream: Option<bool>, timer: Option<bool>, handlerStops: bool)
    requires Inv(s) && s.control.Selecting?
    ensures Inv(FromSources(s, stream, timer, handlerStops))
  {
    if s.control.sources && stream.Some? { TakeKeeps(s, if stream.value then Mut else Ref, handlerStops); }
    else if s.control.sources && timer.Some? { TakeKeeps(s, if timer.value then Mut else Ref, handlerStops); }
  }

  lemma ListenKeeps(s: Loop, asked: bool)
    requires Inv(s)
    ensures Inv(s.(box := Listen(s.box, asked)))
  {
    CoreStays(s, s.(box := Listen(s.box, asked)));
  }

  lemma MailClosedKeeps(s: Loop)
    requires Inv(s) && s.control.Selecting? && s.control.mailbox && s.box.closed && s.box.queue == []
    ensures Inv(s.(state := Stop, last := Closed, control := Inner))
  {
    assert Busy(s.(state := Stop, last := Closed, control := Inner)) == Busy(s);
  }

  // ----- hooks that complete -----

  lemma CompleteKeeps(s: Loop)
    requires Inv(s)
    ensures Inv(Complete(s))
  {
    CompleteAccounts(s);
    CompleteRest(s);
  }

  lemma CompleteAccounts(s: Loop)
    requires Accounted(s) && Alone(s)
    ensures Accounted(Complete(s)) && Alone(Complete(s))
  {
    var s' := Complete(s);
    if s.control.Exclusive? || s.control.LastExclusive? {
      assert Busy(s) == {s.control.id} && Busy(s') == {};
    } else {
      assert Busy(s') == Busy(s);
    }
  }

  lemma CompleteRest(s: Loop)
    requires Alone(s) && Stages(s) && Notifies(s) && Reasons(s) && Bounds(s) && AskedOk(s)
    ensures var s' := Complete(s);
            Stages(s') && Notifies(s') && Reasons(s') && Bounds(s') && AskedOk(s')
  {
  }

  // ----- the loop running on -----

  lemma RunKeeps(s: Loop)
    requires Inv(s)
    ensures Inv(Run(s))
  {
    RunAccounts(s);
    RunRest(s);
    RunLeavesMail(s);
  }

  lemma RunRest(s: Loop)
    requires Alone(s) && Stages(s) && Notifies(s) && Reasons(s) && Bounds(s) && AskedOk(s)
    ensures var s' := Run(s); Stages(s') && Notifies(s') && Reasons(s') && Bounds(s') && AskedOk(s')
  {
    if s.control.Inner? { LookRest(s); } else { LeaveRest(s); }
  }

  lemma RunLeavesMail(s: Loop)
    ensures Run(s).box == s.box && Run(s).accepted == s.accepted
  {
  }

  lemma RunAccounts(s: Loop)
    requires Accounted(s) && Alone(s) && Stages(s)
    ensures Accounted(Run(s)) && Alone(Run(s))
  {
    if s.control.Leaving? && s.pending.Some? && !s.state.StopGraceful? { DiscardAccounts(s); }
    else if s.control.Inner? && s.state.Stop? { DropAccounts(s); }
    else {
      RunMoves(s);
      SameAccounts(s, Run(s));
    }
  }

  /** Otherwise the step moves messages about, but none is finished. */
  lemma RunMoves(s: Loop)
    requires Alone(s) && Stages(s)
    requires !(s.control.Leaving? && s.pending.Some? && !s.state.StopGraceful?) && !(s.control.Inner? && s.state.Stop?)
    ensures Alone(Run(s)) && Busy(Run(s)) == Busy(s) && Run(s).tasks == s.tasks
    ensures Run(s).accepted == s.accepted && Run(s).completed == s.completed && Run(s).dropped == s.dropped
  {
    if s.pending.Some? && (s.control.Top? || s.control.Leaving?) { PendingStarts(s); } else { RunStays(s); }
  }

  lemma PendingStarts(s: Loop)
    requires Alone(s) && Stages(s) && s.pending.Some?
    requires s.control.Top? || (s.control.Leaving? && s.state.StopGraceful?)
    ensures Alone(Run(s)) && Busy(Run(s)) == Busy(s) && Run(s).tasks == s.tasks
    ensures Run(s).accepted == s.accepted && Run(s).completed == s.completed && Run(s).dropped == s.dropped
  {
    assert Busy(s) == {s.pending.value} && Busy(Run(s)) == {s.pending.value};
  }

  lemma RunStays(s: Loop)
    requires Alone(s) && !(s.control.Inner? && s.state.Stop?)
    requires s.pending.Some? ==> !s.control.Top? && !s.control.Leaving?
    ensures Alone(Run(s)) && Busy(Run(s)) == Busy(s) && Run(s).tasks == s.tasks
    ensures Run(s).accepted == s.accepted && Run(s).completed == s.completed && Run(s).dropped == s.dropped
  {
    if s.control.Inner? { LookStays(s); }
    else { assert Run(s).pending == s.pending && Alive(Run(s).control) == Alive(s.control); }
  }

  lemma LookStays(s: Loop)
    requires s.control.Inner? && !s.state.Stop?
    ensures Look(s) == s.(control := Look(s).control) && Alive(Look(s).control) == Alive(s.control)
    ensures Look(s).control.Resolving? || Look(s).control.Top? || Look(s).control.Selecting?
  {
  }

  lemma DiscardAccounts(s: Loop)
    requires Accounted(s) && Alone(s) && Stages(s) && s.control.Leaving? && s.pending.Some? && !s.state.StopGraceful?
    ensures Accounted(Run(s)) && Alone(Run(s))
  {
    var id := s.pending.value;
    assert Run(s) == s.(pending := None, dropped := s.dropped + {id}, control := Stopping);
    assert Busy(s) == {id} && Busy(Run(s)) == {};
  }

  lemma DropAccounts(s: Loop)
    requires Accounted(s) && Alone(s) && s.control.Inner? && s.state.Stop?
    ensures Accounted(Run(s)) && Alone(Run(s))
  {
    assert s.pending.Some? ==> s.pending.value !in s.tasks;
    assert Busy(Run(s)) == Busy(s) - s.tasks;
  }

  lemma SameAccounts(s: Loop, s': Loop)
    requires Accounted(s) && Busy(s') == Busy(s) && s'.tasks == s.tasks
    requires s'.accepted == s.accepted && s'.completed == s.completed && s'.dropped == s.dropped
    ensures Accounted(s')
  {
  }

  lemma LookRest(s: Loop)
    requires s.control.Inner? && Alone(s) && Stages(s) && Notifies(s) && Reasons(s) && Bounds(s) && AskedOk(s)
    ensures var s' := Look(s); Stages(s') && Notifies(s') && Reasons(s') && Bounds(s') && AskedOk(s')
  {
  }

  lemma LeaveRest(s: Loop)
    requires !s.control.Inner? && Alone(s) && Stages(s) && Notifies(s) && Reasons(s) && Bounds(s) && AskedOk(s)
    ensures var s' := Run(s); Stages(s') && Notifies(s') && Reasons(s') && Bounds(s') && AskedOk(s')
  {
  }

  // ----- the mailbox from outside -----

  lemma OutsideKeeps(s: Loop, e: Event)
    requires Inv(s) && (e.Arrive? || e.CloseMailbox? || e.Hear?)
    ensures Inv(Step(s, e))
  {
    CoreStays(s, Step(s, e));
    if e.Arrive? { Puts(s.box, s.accepted, e.kind); }
  }

  lemma Puts(b: Box, accepted: seq<Kind>, kind: Kind)
    requires BoxOk(b, accepted)
    ensures BoxOk(Put(b, kind), accepted)
  {
    assert (b.sent + [kind])[|b.fetched|..] == b.sent[|b.fetched|..] + [kind];
  }

  // ----- every step -----

  lemma StepKeeps(s: Loop, e: Event)
    requires Inv(s)
    ensures Inv(Step(s, e))
  {
    match e
    case HookDone => CompleteKeeps(s);
    case ContextStop => if UserCode(s.control) { AskKeeps(s); }
    case Advance => RunKeeps(s);
    case PollSelect(turns, stream, timer, handlerStops) =>
      if s.control.Selecting? { SelectKeeps(s, Bounded(turns, |s.tasks|), stream, timer, handlerStops); }
    case PollTasks(turns) => if s.control.Resolving? { FinishKeeps(s, Bounded(turns, |s.tasks|)); }
    case _ => OutsideKeeps(s, e);
  }

  lemma {:induction false} Reachable(hint: nat, events: seq<Event>)
    ensures Inv(After(hint, events))
  {
    if events != [] {
      Reachable(hint, events[..|events| - 1]);
      StepKeeps(After(hint, events[..|events| - 1]), events[|events| - 1]);
    }
  }
}
