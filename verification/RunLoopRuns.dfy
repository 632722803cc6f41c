/** Three short runs in which a graceful stop does less than it is documented to. */
module RunLoopRuns {
  import opened Prelude
  import opened RunLoop

  lemma Go(hint: nat, run: seq<Event>, e: Event) returns (r: seq<Event>)
    ensures After(hint, r) == Step(After(hint, run), e)
  {
    r := run + [e];
    assert r[..|run|] == run;
  }

  const IDLE := PollSelect([], None, None, false)

  // ----- two tasks, of which one stops the actor while the other sleeps -----

  /** Two messages in the mailbox, and the loop's select. */
  function Both(n: nat): Loop
    requires n <= 2
  {
    var box := Box([Ref, Ref][n..], false, false, [Ref, Ref], [0, 1][..n]);
    Initial(3).(control := Selecting(true, n > 0, true), state := Running, box := box,
                tasks := Below(n), fromMail := Below(n), accepted := [Ref, Ref][..n],
                last := if n == 0 then NothingYet else Took(Ref), since := if n < 2 then 0 else 1)
  }

  function Below(n: nat): set<nat> {
    if n == 0 then {} else if n == 1 then {0} else {0, 1}
  }

  lemma Begins() returns (run: seq<Event>)
    ensures After(3, run) == Both(0)
  {
    run := Go(3, [], Arrive(Ref));
    run := Go(3, run, Arrive(Ref));
    assert [] + [Ref] == [Ref] && [Ref] + [Ref] == [Ref, Ref];
    ghost var s := Initial(3).(box := Box([Ref, Ref], false, false, [Ref, Ref], []));
    assert After(3, run) == s;
    run := Go(3, run, HookDone);
    run := Go(3, run, Advance);
    run := Go(3, run, Advance);
    Selects(s);
  }

  lemma Selects(s: Loop)
    requires s == Initial(3).(box := Box([Ref, Ref], false, false, [Ref, Ref], []))
    ensures Step(Step(Step(s, HookDone), Advance), Advance) == Both(0)
  {
  }

  lemma TakesOne(n: nat)
    requires n < 2
    ensures Step(Step(Both(n), IDLE), Advance) == Both(n + 1)
  {
    var s, s' := Both(n), Both(n + 1);
    assert s.box.queue[0] == Ref && s.box.queue[1..] == s'.box.queue && !s.box.deaf;
    assert [0, 1][..n] + [n] == [0, 1][..n + 1] && [Ref, Ref][..n] + [Ref] == [Ref, Ref][..n + 1];
    assert Below(n) + {n} == Below(n + 1) && |Below(n + 1)| < 3;
  }

  /** Both have been polled once, and the mailbox is waited on. */
  function Asleep(): Loop {
    Both(2).(box := Both(2).box.(deaf := true), last := TasksPolled, since := 0)
  }

  lemma BothSleep()
    ensures Step(Step(Step(Both(2), PollSelect([Polled(0, false, false), Polled(1, false, false)], None, None, false)),
                      Advance), Advance) == Asleep()
  {
    var turns := [Polled(0, false, false), Polled(1, false, false)];
    var s := Both(2);
    assert s.tasks == {0, 1} && s.box.queue == [];
    assert Done(turns) == {} && !Stops(s.tasks, turns);
    assert s.tasks - {} == s.tasks && s.fromMail - {} == s.fromMail && s.completed + s.tasks * {} == s.completed;
  }

  function Asked(): Loop {
    Asleep().(state := StopGraceful, asked := true, box := Asleep().box.(closed := true, deaf := false))
  }

  lemma FirstStops()
    ensures Step(Asleep(), PollSelect([Polled(0, false, true)], None, None, false)) == Asked()
  {
    var turns := [Polled(0, false, true)];
    var s := Asleep();
    assert s.tasks == {0, 1};
    assert Done(turns) == {} && Done(turns[..0]) == {} && StopsAt(s.tasks, turns, 0);
    assert s.tasks - {} == s.tasks && s.fromMail - {} == s.fromMail && s.completed + s.tasks * {} == s.completed;
  }

  /** A task asks for a graceful stop while another sleeps; the same select then finds the mailbox,
      which the stop has closed, empty, and both tasks are dropped. */
  lemma GracefulStopOverridden() returns (run: seq<Event>)
    ensures var s := After(3, run);
            s.control.Stopping? && s.left == Some(Stop) && s.accepted == [Ref, Ref] &&
            s.dropped == {0, 1} && s.completed == {}
  {
    run := Begins();
    run := Go(3, run, IDLE);
    run := Go(3, run, Advance);
    TakesOne(0);
    run := Go(3, run, IDLE);
    run := Go(3, run, Advance);
    TakesOne(1);
    run := Go(3, run, PollSelect([Polled(0, false, false), Polled(1, false, false)], None, None, false));
    run := Go(3, run, Advance);
    run := Go(3, run, Advance);
    BothSleep();
    run := Go(3, run, PollSelect([Polled(0, false, true)], None, None, false));
    FirstStops();
    run := Go(3, run, IDLE);
    run := Go(3, run, Advance);
    run := Go(3, run, Advance);
    Overridden();
  }

  lemma Overridden()
    ensures var s := Step(Step(Step(Asked(), IDLE), Advance), Advance);
            s.control.Stopping? && s.left == Some(Stop) && s.accepted == [Ref, Ref] &&
            s.dropped == {0, 1} && s.completed == {}
  {
    var s := Asked();
    assert s.tasks == {0, 1} && s.box.queue == [];
    assert Step(s, IDLE) == s.(state := Stop, last := Closed, control := Inner);
  }

  // ----- an exclusive handler stops the actor with a message queued -----

  function Queued(): Loop {
    Initial(2).(control := Selecting(true, false, true), state := Running,
                box := Box([Mut, Ref], false, false, [Mut, Ref], []))
  }

  function Handling(): Loop {
    Queued().(control := Exclusive(0), box := Box([Ref], false, false, [Mut, Ref], [0]),
              accepted := [Mut], last := Took(Mut))
  }

  lemma ExclusiveBegins()
    ensures Step(Step(Step(Queued(), IDLE), Advance), Advance) == Handling()
  {
    var s := Queued();
    assert s.box.queue[1..] == [Ref] && [] + [0] == [0] && [] + [Mut] == [Mut];
    assert Step(s, IDLE).control.Inner?;
  }

  lemma ExclusiveStops()
    ensures var s := Step(Step(Handling(), ContextStop), HookDone);
            s == Handling().(control := Top, state := StopGraceful, asked := true, completed := {0},
                             box := Handling().box.(closed := true))
  {
  }

  lemma ExclusiveLeaves(s: Loop)
    requires s == Handling().(control := Top, state := StopGraceful, asked := true, completed := {0},
                              box := Handling().box.(closed := true))
    ensures var s' := Step(Step(Step(Step(s, Advance), Advance), Advance), Advance);
            s'.control.Stopping? && s'.left == Some(StopGraceful) && s'.box.queue == [Ref] && s'.accepted == [Mut]
  {
  }

  /** The handler of an exclusive message asks for a graceful stop; the message queued behind it is
      never handled. */
  lemma BacklogLeft() returns (run: seq<Event>)
    ensures var s := After(2, run);
            s.control.Stopping? && s.left == Some(StopGraceful) && s.box.queue == [Ref] && s.accepted == [Mut]
  {
    run := Go(2, [], Arrive(Mut));
    run := Go(2, run, Arrive(Ref));
    run := Go(2, run, HookDone);
    run := Go(2, run, Advance);
    run := Go(2, run, Advance);
    assert [] + [Mut] == [Mut] && [Mut] + [Ref] == [Mut, Ref];
    assert After(2, run) == Queued();
    run := Go(2, run, IDLE);
    run := Go(2, run, Advance);
    run := Go(2, run, Advance);
    ExclusiveBegins();
    run := Go(2, run, ContextStop);
    run := Go(2, run, HookDone);
    ExclusiveStops();
    ghost var s := After(2, run);
    run := Go(2, run, Advance);
    run := Go(2, run, Advance);
    run := Go(2, run, Advance);
    run := Go(2, run, Advance);
    ExclusiveLeaves(s);
  }

  // ----- a stop during `on_start` with a message queued -----

  function Started(): Loop {
    Initial(2).(control := Selecting(true, false, true), state := Running, box := Box([Ref], true, false, [Ref], []))
  }

  function Accepted(): Loop {
    Started().(control := Selecting(true, true, true), box := Box([], true, false, [Ref], [0]),
               tasks := {0}, fromMail := {0}, accepted := [Ref], last := Took(Ref))
  }

  lemma StartedTakes()
    ensures Step(Step(Started(), IDLE), Advance) == Accepted()
  {
    var s := Started();
    assert s.box.queue[1..] == [] && [] + [0] == [0] && [] + [Ref] == [Ref] && {} + {0} == {0 as nat};
  }

  lemma AcceptedDropped()
    ensures var s := Step(Step(Step(Accepted(), IDLE), Advance), Advance);
            s.control.Stopping? && s.left == Some(Stop) && !s.asked &&
            s.box.queue == [] && s.dropped == {0} && s.completed == {}
  {
    var s := Accepted();
    assert Step(s, IDLE) == s.(state := Stop, last := Closed, control := Inner);
  }

  /** A stop during `on_start` with a message queued: the message is accepted, but its task is dropped
      at the next poll of the mailbox. */
  lemma StartStopDrops() returns (run: seq<Event>)
    ensures var s := After(2, run);
            s.control.Stopping? && s.left == Some(Stop) && !s.asked &&
            s.box.queue == [] && s.dropped == {0} && s.completed == {}
  {
    run := Go(2, [], Arrive(Ref));
    run := Go(2, run, ContextStop);
    run := Go(2, run, HookDone);
    run := Go(2, run, Advance);
    run := Go(2, run, Advance);
    assert [] + [Ref] == [Ref];
    assert After(2, run) == Started();
    run := Go(2, run, IDLE);
    run := Go(2, run, Advance);
    StartedTakes();
    run := Go(2, run, IDLE);
    run := Go(2, run, Advance);
    run := Go(2, run, Advance);
    AcceptedDropped();
  }
}
