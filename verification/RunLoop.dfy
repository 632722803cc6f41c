/**
 The actor's run loop, one step between two suspension points.

 Concurrent messages become tasks that are in flight together; an exclusive message waits until all
 of them are done and then runs alone.  The mailbox is part of the state; what the streams and the
 timers hold, which tasks are polled and finish when, and whose code calls `Context::stop`, is left
 to the events.
 */
module RunLoop {
  import opened Prelude

  datatype ActorState = Running | StopGraceful | Stop

  /** A message taken off the mailbox, a stream or a timer. */
  datatype Kind = Ref | Mut | StopMessage(graceful: bool)

  datatype Control =
    | Starting
    | Top                          // about to take the pending exclusive message
    | Exclusive(id: nat)           // inside `handle_wait`
    | Inner                        // about to look at the state
    | Selecting(mailbox: bool, tasks: bool, sources: bool)
    | Yielding
    | Resolving                    // inside `graceful_resolve`
    | Leaving                      // out of the loop, its tasks gone
    | LastExclusive(id: nat)
    | Stopping
    | Ended

  /** What the last completed select came to. */
  datatype Output = NothingYet | Closed | TasksPolled | Took(kind: Kind)

  /** One turn of `poll_task`: a slot without a task, or a task that is polled; it may be ready, and
      may call `Context::stop`. */
  datatype Turn = Stale | Polled(id: nat, ready: bool, stops: bool)

  /** The mailbox.  `deaf`: the receiver holds a listener that has not been notified, and does not
      look at the queue.  History: everything ever put in, and which of it was taken, under which
      names. */
  datatype Box = Box(queue: seq<Kind>, closed: bool, deaf: bool, sent: seq<Kind>, fetched: seq<nat>)

  /** A message is known by its place in `accepted`.  `fromMail`: tasks that came from the mailbox.
      History: `completed` and `dropped` messages, how the loop was left, the last output, mailbox
      messages taken since the tasks were last polled or there were none, whether `on_stop` is over,
      the responders that were sent to, and whether a stop was asked for since the loop began. */
  datatype Loop = Loop(
    hint: nat, control: Control, state: ActorState, box: Box,
    tasks: set<nat>, fromMail: set<nat>, pending: Option<nat>, notify: Option<nat>,
    accepted: seq<Kind>, completed: set<nat>, dropped: set<nat>,
    left: Option<ActorState>, last: Output, since: nat, stopped: bool, responded: seq<nat>, asked: bool)

  function Initial(hint: nat): Loop {
    Loop(hint, Starting, Stop, Box([], false, false, [], []), {}, {}, None, None, [], {}, {},
         None, NothingYet, 0, false, [], false)
  }

  /** `stream` and `timer`: what they would yield, if anything, and whether it is exclusive. */
  datatype Event =
    | Arrive(kind: Kind)           // somebody puts a message into the mailbox
    | CloseMailbox                 // the last address goes, or is told to close
    | Hear                         // the listener is notified
    | HookDone                     // the awaited `on_start`, `handle_wait` or `on_stop` completes
    | ContextStop                  // a hook, or the drop of a task, calls `Context::stop`
    | Advance                      // the loop runs on to its next suspension point
    | PollSelect(turns: seq<Turn>, stream: Option<bool>, timer: Option<bool>, handlerStops: bool)
    | PollTasks(turns: seq<Turn>)  // while resolving

  /** User code outside tasks and handlers: in hooks, and when the tasks of a loop left early are
      dropped. */
  predicate UserCode(c: Control) {
    c.Starting? || c.Exclusive? || c.Leaving? || c.LastExclusive? || c.Stopping?
  }

  function Step(s: Loop, e: Event): Loop {
    match e
    case Arrive(kind) => if s.box.closed then s else s.(box := Put(s.box, kind))
    case CloseMailbox => s.(box := s.box.(closed := true))
    case Hear => s.(box := s.box.(deaf := false))
    case HookDone => Complete(s)
    case ContextStop => if UserCode(s.control) then AskStop(s) else s
    case Advance => Run(s)
    case PollSelect(turns, stream, timer, handlerStops) =>
      if s.control.Selecting? then Select(s, Bounded(turns, |s.tasks|), stream, timer, handlerStops) else s
    case PollTasks(turns) => if s.control.Resolving? then Finish(s, Bounded(turns, |s.tasks|)) else s
  }

  function Put(b: Box, kind: Kind): Box {
    b.(queue := b.queue + [kind], sent := b.sent + [kind])
  }

  /** `Context::stop`: the mailbox is closed, which notifies the listener unless it was closed
      already, and a graceful stop is asked for. */
  function AskStop(s: Loop): Loop {
    s.(state := StopGraceful, box := s.box.(closed := true, deaf := s.box.closed && s.box.deaf),
       asked := s.asked || !s.control.Starting?)
  }

  function Complete(s: Loop): Loop {
    match s.control
    case Starting => s.(state := Running, control := Top)
    case Exclusive(id) => s.(completed := s.completed + {id}, control := Top)
    case LastExclusive(id) => s.(completed := s.completed + {id}, control := Stopping)
    case Stopping =>
      s.(stopped := true, control := Ended,
         responded := if s.notify.Some? then s.responded + [s.notify.value] else s.responded)
    case _ => s
  }

  function Run(s: Loop): Loop {
    match s.control
    case Top =>
      (match s.pending
       case Some(id) => s.(pending := None, control := Exclusive(id))
       case None => s.(control := Inner))
    case Inner => Look(s)
    case Yielding => s.(control := Inner)
    case Resolving => if s.tasks == {} then s.(left := Some(StopGraceful), control := Leaving) else s
    case Leaving =>
      (match s.pending
       case Some(id) =>
         if s.state.StopGraceful? then s.(pending := None, control := LastExclusive(id))
         else s.(pending := None, dropped := s.dropped + {id}, control := Stopping)
       case None => s.(control := Stopping))
    case _ => s
  }

  function Look(s: Loop): Loop {
    if s.state.StopGraceful? then s.(control := Resolving)
    else if s.state.Stop? then
      s.(dropped := s.dropped + s.tasks, tasks := {}, fromMail := {}, since := 0,
         left := Some(Stop), control := Leaving)
    else if s.pending.Some? && s.tasks == {} then s.(control := Top)
    else s.(control := Selecting(s.pending.None? && |s.tasks| < s.hint, s.tasks != {}, s.pending.None?))
  }

  // ----- polling the tasks -----

  /** `poll_task` takes at most as many turns as there are tasks. */
  function Bounded(turns: seq<Turn>, n: nat): (r: seq<Turn>)
    ensures |r| <= n
  {
    if |turns| > n then turns[..n] else turns
  }

  function Done(turns: seq<Turn>): set<nat> {
    set i | 0 <= i < |turns| && turns[i].Polled? && turns[i].ready :: turns[i].id
  }

  /** In turn `i` a task that has not been ready before calls `Context::stop`. */
  predicate StopsAt(tasks: set<nat>, turns: seq<Turn>, i: nat)
    requires i < |turns|
  {
    turns[i].Polled? && turns[i].stops && turns[i].id in tasks && turns[i].id !in Done(turns[..i])
  }

  predicate Stops(tasks: set<nat>, turns: seq<Turn>) {
    exists i :: 0 <= i < |turns| && StopsAt(tasks, turns, i)
  }

  /** The tasks polled in these turns that are ready complete, and some may ask for a stop. */
  function Finish(s: Loop, turns: seq<Turn>): Loop {
    var s' := Settle(s, Done(turns));
    if Stops(s.tasks, turns) then AskStop(s') else s'
  }

  function Settle(s: Loop, done: set<nat>): Loop {
    s.(tasks := s.tasks - done, fromMail := s.fromMail - done, completed := s.completed + s.tasks * done, since := 0)
  }

  // ----- the select -----

  /** One poll of the four futures, in order, those left out skipped. */
  function Select(s: Loop, turns: seq<Turn>, stream: Option<bool>, timer: Option<bool>, handlerStops: bool): Loop
    requires s.control.Selecting?
  {
    if s.control.mailbox && !s.box.deaf && s.box.queue != [] then TakeMail(s, handlerStops)
    else if s.control.mailbox && !s.box.deaf && s.box.closed then s.(state := Stop, last := Closed, control := Inner)
    else SelectRest(s.(box := Listen(s.box, s.control.mailbox)), turns, stream, timer, handlerStops)
  }

  function Listen(b: Box, asked: bool): Box {
    b.(deaf := b.deaf || asked)
  }

  /** The mailbox has nothing, or is not asked.  `poll_task` is ready when it has taken a turn for
      every task, or no task is left. */
  function SelectRest(s: Loop, turns: seq<Turn>, stream: Option<bool>, timer: Option<bool>, handlerStops: bool): Loop
    requires s.control.Selecting?
  {
    if s.control.tasks then
      var s' := Finish(s, turns);
      if |turns| >= |s.tasks| || s'.tasks == {} then s'.(last := TasksPolled, control := Yielding)
      else FromSources(s', stream, timer, handlerStops)
    else FromSources(s, stream, timer, handlerStops)
  }

  function FromSources(s: Loop, stream: Option<bool>, timer: Option<bool>, handlerStops: bool): Loop
    requires s.control.Selecting?
  {
    if s.control.sources && stream.Some? then Take(s, if stream.value then Mut else Ref, handlerStops)
    else if s.control.sources && timer.Some? then Take(s, if timer.value then Mut else Ref, handlerStops)
    else s
  }

  function TakeMail(s: Loop, handlerStops: bool): Loop
    requires s.box.queue != []
  {
    var id, kind := |s.accepted|, s.box.queue[0];
    var s' := Take(s, kind, handlerStops);
    s'.(box := Fetch(s'.box, id),
        fromMail := if kind.Ref? then s.fromMail + {id} else s.fromMail,
        since := if s.tasks == {} then 0 else s.since + 1)
  }

  function Fetch(b: Box, id: nat): Box
    requires b.queue != []
  {
    b.(queue := b.queue[1..], fetched := b.fetched + [id])
  }

  /** The handler of a concurrent message is called at once, and may ask for a stop. */
  function Take(s: Loop, kind: Kind, handlerStops: bool): Loop {
    var id := |s.accepted|;
    var s' := s.(accepted := s.accepted + [kind], last := Took(kind), control := Inner);
    match kind
    case Ref => if handlerStops then AskStop(s'.(tasks := s.tasks + {id})) else s'.(tasks := s.tasks + {id})
    case Mut => s'.(pending := Some(id))
    case StopMessage(graceful) =>
      s'.(state := if graceful then StopGraceful else Stop, notify := Some(id), asked := true)
  }

  function After(hint: nat, events: seq<Event>): Loop {
    if events == [] then Initial(hint) else Step(After(hint, events[..|events| - 1]), events[|events| - 1])
  }
}
