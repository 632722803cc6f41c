/** Closing tells every sender that is parked. */
module ChannelClosing {
  import opened Spec = ListenerSpec
  import opened ChannelModel
  import opened ChannelInvariant
  import opened ChannelProof
  import opened ChannelSteps
  import opened ChannelExact
  import opened ChannelMessages

  /** The step that closes the channel. */
  predicate Closes(s: State, e: Event) {
    !s.ch.closed && Step(s, e).ch.closed
  }

  /** About to check, or holding, the senders' event to notify every sender. */
  predicate OwesSenders(s: State, c: Aid) {
    c in s.agents && (s.agents[c].pc.CloseCheckSend? || s.agents[c].pc.CloseLockSend?)
  }

  predicate NotifiedOn(l: WaitList<Aid>, b: Aid) {
    exists i :: 0 <= i < |l.items| && l.items[i].key == b && l.items[i].state.Notified?
  }

  predicate IsParked(s: State, b: Aid) {
    b in s.agents && s.agents[b].pc.SendParked?
  }

  /** A parked send future that has been notified, and woken since its last poll began. */
  predicate Told(s: State, b: Aid) {
    IsParked(s, b) && b in s.woken && NotifiedOn(s.ch.sendOps, b)
  }

  /** The executor has heard of it: it polled the future, or dropped it. */
  predicate Attended(events: seq<Event>, from: nat, b: Aid) {
    exists j :: from <= j < |events| && (events[j] == Poll(b) || events[j] == DropAgent(b))
  }

  /** When the channel is closed, every send future that is parked is told, and stays so until it is polled
      or dropped, whatever else happens: at the latest when the closer has passed the senders' event. */
  lemma ClosingTellsSenders(cap: nat, events: seq<Event>, k: nat, b: Aid)
    requires 0 < cap <= USIZE_MAX && k < |events| && Closes(After(cap, events[..k]), events[k])
    requires IsParked(After(cap, events[..k]), b)
    ensures Told(After(cap, events), b) || OwesSenders(After(cap, events), Actor(events[k])) || Attended(events, k, b)
  {
    var upTo := events[..k + 1];
    assert upTo[..k] == events[..k];
    ClosingOwes(After(cap, events[..k]), events[k], b);
    UnderwaySince(cap, events, k + 1, Actor(events[k]), b);
    if Attended(events, k + 1, b) { AttendedEarlier(events, k, b); }
  }

  lemma AttendedEarlier(events: seq<Event>, k: nat, b: Aid)
    requires Attended(events, k + 1, b)
    ensures Attended(events, k, b)
  {
  }

  /** The closer still owes the senders a notification, or the future has been told. */
  predicate Underway(s: State, c: Aid, b: Aid) {
    (OwesSenders(s, c) && IsParked(s, b)) || Told(s, b)
  }

  lemma {:induction false} UnderwaySince(cap: nat, events: seq<Event>, k: nat, c: Aid, b: Aid)
    requires 0 < cap <= USIZE_MAX && k <= |events| && Underway(After(cap, events[..k]), c, b)
    ensures Underway(After(cap, events), c, b) || Attended(events, k, b)
  {
    var n := |events| - 1;
    if k <= n {
      assert events[..n][..k] == events[..k];
      UnderwaySince(cap, events[..n], k, c, b);
      StillUnderway(cap, events, k, c, b);
    } else {
      assert events[..k] == events;
    }
  }

  lemma StillUnderway(cap: nat, events: seq<Event>, k: nat, c: Aid, b: Aid)
    requires 0 < cap <= USIZE_MAX && k < |events|
    requires var before := events[..|events| - 1]; Underway(After(cap, before), c, b) || Attended(before, k, b)
    ensures Underway(After(cap, events), c, b) || Attended(events, k, b)
  {
    var n := |events| - 1;
    var before := events[..n];
    if Attended(before, k, b) { AttendedStays(before, events, k, b); }
    else if events[n] == Poll(b) || events[n] == DropAgent(b) { assert Attended(events, k, b); }
    else { UnderwayAt(cap, before, events[n], c, b); }
  }

  lemma UnderwayAt(cap: nat, events: seq<Event>, e: Event, c: Aid, b: Aid)
    requires 0 < cap <= USIZE_MAX && Underway(After(cap, events), c, b) && e != Poll(b) && e != DropAgent(b)
    ensures Underway(Step(After(cap, events), e), c, b)
  {
    Reachable(cap, events);
    UnderwayStep(After(cap, events), e, c, b);
  }

  lemma AttendedStays(before: seq<Event>, events: seq<Event>, from: nat, b: Aid)
    requires |before| <= |events| && events[..|before|] == before && Attended(before, from, b)
    ensures Attended(events, from, b)
  {
    var j :| from <= j < |before| && (before[j] == Poll(b) || before[j] == DropAgent(b));
    assert events[j] == before[j];
  }

  // ----- the closer's step -----

  lemma ClosingOwes(s: State, e: Event, b: Aid)
    requires Closes(s, e) && IsParked(s, b)
    ensures Underway(Step(s, e), Actor(e), b)
  {
    if e.Run? && e.a in s.agents {
      if IsSender(s.agents[e.a].pc) { SenderNeverCloses(s, e.a, e.spurious); }
      else if IsReceiver(s.agents[e.a].pc) { ReceiverNeverCloses(s, e.a); }
      else { OtherCloses(s, e.a, b); }
    }
  }

  lemma SenderNeverCloses(s: State, a: Aid, spurious: bool)
    requires a in s.agents && IsSender(s.agents[a].pc)
    ensures RunSender(s, a, spurious).ch.closed == s.ch.closed
  {
  }

  lemma ReceiverNeverCloses(s: State, a: Aid)
    requires a in s.agents && IsReceiver(s.agents[a].pc)
    ensures RunReceiver(s, a).ch.closed == s.ch.closed
  {
  }

  lemma OtherCloses(s: State, c: Aid, b: Aid)
    requires c in s.agents && !IsSender(s.agents[c].pc) && !s.ch.closed && RunOther(s, c).ch.closed && IsParked(s, b)
    ensures OwesSenders(RunOther(s, c), c) && IsParked(RunOther(s, c), b)
  {
  }

  lemma UnderwayStep(s: State, e: Event, c: Aid, b: Aid)
    requires Inv(s) && Underway(s, c, b) && e != Poll(b) && e != DropAgent(b)
    ensures Underway(Step(s, e), c, b)
  {
    if Told(s, b) { ToldStays(s, e, b); }
    else {
      if Actor(e) == b { assert Step(s, e) == s; } else { OthersHoldBack(s, e, b); }
      if Actor(e) != c { OthersHoldBack(s, e, c); } else if e.Run? { CloserRuns(s, e, c, b); }
    }
  }

  /** The closer's step leaves it owing, or tells everybody. */
  lemma CloserRuns(s: State, e: Event, c: Aid, b: Aid)
    requires Inv(s) && e.Run? && e.a == c && OwesSenders(s, c) && IsParked(s, b)
    ensures Underway(Step(s, e), c, b)
  {
    StepKeeps(s, e);
    if s.agents[c].pc.CloseLockSend? {
      AllNotified(s.ch.sendOps);
      LockTells(s, c, b);
      ParkedTold(Step(s, e), b);
    } else if !OwesSenders(Step(s, e), c) {
      SkipTells(s, c, b);
      ParkedTold(Step(s, e), b);
    } else {
      assert IsParked(RunOther(s, c), b);
    }
  }

  ghost predicate Everybody(l: WaitList<Aid>) {
    l.notified == |l.items|
  }

  lemma AllNotified(l: WaitList<Aid>)
    requires WellFormed(l) && |l.items| <= USIZE_MAX
    ensures Everybody(Notify(l, USIZE_MAX))
  {
  }

  lemma LockTells(s: State, c: Aid, b: Aid)
    requires ListsOk(s) && c in s.agents && s.agents[c].pc.CloseLockSend? && IsParked(s, b)
    requires Everybody(Notify(s.ch.sendOps, USIZE_MAX))
    ensures IsParked(RunOther(s, c), b) && Everybody(RunOther(s, c).ch.sendOps)
  {
  }

  lemma SkipTells(s: State, c: Aid, b: Aid)
    requires Lists(s) && c in s.agents && s.agents[c].pc.CloseCheckSend? && IsParked(s, b)
    requires var s' := RunOther(s, c); c in s'.agents ==> !s'.agents[c].pc.CloseLockSend?
    ensures IsParked(RunOther(s, c), b) && Everybody(RunOther(s, c).ch.sendOps)
  {
  }

  lemma ParkedTold(s: State, b: Aid)
    requires Lists(s) && IsParked(s, b) && Everybody(s.ch.sendOps)
    ensures Told(s, b)
  {
    assert AgentOk(s, b);
    ListMember(s, s.ch.sendOps, s.ch.sendPublished, true, b);
    var i := Find(s.ch.sendOps.items, b);
    assert WaiterOk(s, s.ch.sendOps.items[i]);
  }

  // ----- nobody else takes it back -----

  lemma ToldStays(s: State, e: Event, b: Aid)
    requires Inv(s) && Told(s, b) && e != Poll(b) && e != DropAgent(b)
    ensures Told(Step(s, e), b)
  {
    if Actor(e) == b {
      assert Step(s, e) == s;
    } else {
      OthersHoldBack(s, e, b);
      StillWoken(s, e, b);
      StillNotified(s, e, b);
    }
  }

  lemma StillWoken(s: State, e: Event, b: Aid)
    requires b in s.woken && e != Poll(b)
    ensures b in Step(s, e).woken
  {
    match e
    case Run(a, spurious) =>
      if a in s.agents {
        if IsSender(s.agents[a].pc) { assert s.woken <= RunSender(s, a, spurious).woken; }
        else if IsReceiver(s.agents[a].pc) { assert s.woken <= RunReceiver(s, a).woken; }
        else { assert s.woken <= RunOther(s, a).woken; }
      }
    case _ =>
  }

  lemma StillNotified(s: State, e: Event, b: Aid)
    requires Inv(s) && NotifiedOn(s.ch.sendOps, b) && Actor(e) != b
    ensures NotifiedOn(Step(s, e).ch.sendOps, b)
  {
    var l, a := s.ch.sendOps, Actor(e);
    match e
    case Run(_, spurious) =>
      if a in s.agents {
        if IsSender(s.agents[a].pc) { SenderLeavesNotified(s, a, spurious, b); }
        else if IsReceiver(s.agents[a].pc) { ReceiverLeavesNotified(s, a, b); }
        else { OtherLeavesNotified(s, a, b); }
      }
    case DropAgent(_) =>
      if InList(l, a) { CancelStays(l, Find(l.items, a), b); }
    case _ =>
  }

  lemma NotifyStays(l: WaitList<Aid>, n: nat, b: Aid)
    requires l.notified <= |l.items| && NotifiedOn(l, b)
    ensures NotifiedOn(Notify(l, n), b) && NotifiedOn(NotifyMore(l, n), b)
  {
    var i :| 0 <= i < |l.items| && l.items[i].key == b && l.items[i].state.Notified?;
    assert Notify(l, n).items[i].state.Notified? && Notify(l, n).items[i].key == b;
    assert NotifyMore(l, n).items[i].state.Notified? && NotifyMore(l, n).items[i].key == b;
  }

  lemma RemoveStays(l: WaitList<Aid>, i: nat, b: Aid)
    requires WellFormed(l) && i < |l.items| && l.items[i].key != b && NotifiedOn(l, b)
    ensures NotifiedOn(RemoveAt(l, i), b)
  {
    var j :| 0 <= j < |l.items| && l.items[j].key == b && l.items[j].state.Notified?;
    RemoveAtIndices(l, i);
    assert RemoveAt(l, i).items[if j < i then j else j - 1] == l.items[j];
  }

  lemma CancelStays(l: WaitList<Aid>, i: nat, b: Aid)
    requires WellFormed(l) && i < |l.items| && l.items[i].key != b && NotifiedOn(l, b)
    ensures NotifiedOn(Cancel(l, i), b)
  {
    RemoveAtIndices(l, i);
    RemoveStays(l, i, b);
    NotifyStays(RemoveAt(l, i), 1, b);
  }

  lemma InsertStays(l: WaitList<Aid>, a: Aid, b: Aid)
    requires NotifiedOn(l, b)
    ensures NotifiedOn(Insert(l, a), b)
  {
    var i :| 0 <= i < |l.items| && l.items[i].key == b && l.items[i].state.Notified?;
    assert Insert(l, a).items[i] == l.items[i];
  }

  lemma SetStays(l: WaitList<Aid>, i: nat, state: EntryState, b: Aid)
    requires i < |l.items| && l.items[i].key != b && NotifiedOn(l, b)
    ensures NotifiedOn(SetState(l, i, state), b)
  {
    var j :| 0 <= j < |l.items| && l.items[j].key == b && l.items[j].state.Notified?;
    assert SetState(l, i, state).items[j] == l.items[j];
  }

  lemma SenderLeavesNotified(s: State, a: Aid, spurious: bool, b: Aid)
    requires Lists(s) && a in s.agents && IsSender(s.agents[a].pc) && a != b && NotifiedOn(s.ch.sendOps, b)
    ensures NotifiedOn(RunSender(s, a, spurious).ch.sendOps, b)
  {
    var l := s.ch.sendOps;
    if s.agents[a].pc.SendDecide? {
      InsertStays(l, a, b);
      if InList(l, a) {
        RemoveStays(l, Find(l.items, a), b);
        SetStays(l, Find(l.items, a), Polling(a), b);
      }
      DecideLeavesList(s, a, spurious);
    } else {
      NotifyStays(l, 1, b);
      SendLeavesList(s, a, spurious);
    }
  }

  lemma DecideLeavesList(s: State, a: Aid, spurious: bool)
    requires ListsOk(s) && a in s.agents && s.agents[a].pc.SendDecide?
    ensures var l, l' := s.ch.sendOps, RunSender(s, a, spurious).ch.sendOps;
            || l' == l || l' == Insert(l, a)
            || (InList(l, a) && l.items[Find(l.items, a)].state.Notified? && l' == RemoveAt(l, Find(l.items, a)))
            || (InList(l, a) && l' == SetState(l, Find(l.items, a), Polling(a)))
  {
  }

  lemma SendLeavesList(s: State, a: Aid, spurious: bool)
    requires ListsOk(s) && a in s.agents && IsSender(s.agents[a].pc) && !s.agents[a].pc.SendDecide?
    ensures var l, l' := s.ch.sendOps, RunSender(s, a, spurious).ch.sendOps; l' == l || l' == Notify(l, 1)
  {
  }

  lemma ReceiverLeavesNotified(s: State, a: Aid, b: Aid)
    requires Lists(s) && a in s.agents && IsReceiver(s.agents[a].pc) && NotifiedOn(s.ch.sendOps, b)
    ensures NotifiedOn(RunReceiver(s, a).ch.sendOps, b)
  {
    ReceiverLeavesList(s, a);
    NotifyStays(s.ch.sendOps, 1, b);
  }

  lemma ReceiverLeavesList(s: State, a: Aid)
    requires ListsOk(s) && a in s.agents && IsReceiver(s.agents[a].pc)
    ensures var l, l' := s.ch.sendOps, RunReceiver(s, a).ch.sendOps; l' == l || l' == Notify(l, 1)
  {
  }

  lemma OtherLeavesNotified(s: State, a: Aid, b: Aid)
    requires Lists(s) && a in s.agents && NotifiedOn(s.ch.sendOps, b)
    ensures NotifiedOn(RunOther(s, a).ch.sendOps, b)
  {
    var l, l' := s.ch.sendOps, RunOther(s, a).ch.sendOps;
    assert l' == l || l' == Notify(l, USIZE_MAX);
    NotifyStays(l, USIZE_MAX, b);
  }

  /** Nothing else notifies more than one sender: no other step leaves more of them notified than were before,
      or than one. */
  lemma ElseOneAtATime(cap: nat, events: seq<Event>, e: Event)
    requires 0 < cap <= USIZE_MAX
    ensures var s := After(cap, events);
            Step(s, e).ch.sendOps.notified <= Max(s.ch.sendOps.notified, 1) ||
            (e.Run? && OwesSenders(s, e.a))
  {
    Reachable(cap, events);
    if !(e.Run? && OwesSenders(After(cap, events), e.a)) { OneMore(After(cap, events), e); }
  }

  lemma OneMore(s: State, e: Event)
    requires Lists(s) && !(e.Run? && OwesSenders(s, e.a))
    ensures Step(s, e).ch.sendOps.notified <= Max(s.ch.sendOps.notified, 1)
  {
    var l, a := s.ch.sendOps, Actor(e);
    match e
    case Run(_, spurious) =>
      if a in s.agents {
        if IsSender(s.agents[a].pc) {
          if s.agents[a].pc.SendDecide? { DecideLeavesList(s, a, spurious); } else { SendLeavesList(s, a, spurious); }
        } else if IsReceiver(s.agents[a].pc) { ReceiverLeavesList(s, a); }
        else { assert RunOther(s, a).ch.sendOps == l; }
      }
    case DropAgent(_) =>
      if InList(l, a) { CancelTellsOne(l, Find(l.items, a)); }
    case _ =>
  }

  lemma CancelTellsOne(l: WaitList<Aid>, i: nat)
    requires WellFormed(l) && i < |l.items|
    requires forall j :: 0 <= j < |l.items| && l.items[j].state.Notified? ==> !l.items[j].state.additional
    ensures Cancel(l, i).notified <= Max(l.notified, 1)
  {
  }

  // ----- undisturbed -----

  /** Agent `a` runs with nobody else stepping until it has ended, for at most `n` steps. */
  function RunOut(s: State, a: Aid, n: nat): State
    decreases n
  {
    if n == 0 || a !in s.agents then s else RunOut(Step(s, Run(a, false)), a, n - 1)
  }

  /** What a direct send and a close come to. */
  ghost predicate EndsAs(s: State, s': State, a: Aid) {
    && a in s.agents && a !in s'.agents
    && s'.ch.closed == (s.ch.closed || s.agents[a].pc.CloseMark?)
    && s'.ch.items == s.ch.items + if s.agents[a].pc.DirectPush? && !s.ch.closed then [s.agents[a].msg] else []
  }

  /** Undisturbed, a direct send pushes its message exactly if the channel is open, a close closes it, and
      both end, whatever step they have reached. */
  lemma OthersEndExactly(cap: nat, events: seq<Event>, a: Aid)
    requires 0 < cap <= USIZE_MAX && a in After(cap, events).agents
    requires !IsSender(After(cap, events).agents[a].pc) && !IsReceiver(After(cap, events).agents[a].pc)
    ensures EndsAs(After(cap, events), RunOut(After(cap, events), a, 5), a)
  {
    ListsFine(cap, events);
    OtherEnds(After(cap, events), a, 5);
  }

  /** Steps a close or a direct send has still to take, at most. */
  function StepsLeft(pc: PC): nat {
    match pc
    case CloseMark => 5
    case CloseCheckSend => 4
    case CloseLockSend => 3
    case CloseCheckRecv => 2
    case DirectPush => 3
    case DirectCheck => 2
    case _ => 1
  }

  lemma {:induction false} OtherEnds(s: State, a: Aid, n: nat)
    requires ListsOk(s) && a in s.agents && !IsSender(s.agents[a].pc) && !IsReceiver(s.agents[a].pc)
    requires StepsLeft(s.agents[a].pc) <= n
    ensures EndsAs(s, RunOut(s, a, n), a)
    decreases n
  {
    var s1 := Step(s, Run(a, false));
    OtherMoves(s, a);
    if a in s1.agents { OtherEnds(s1, a, n - 1); }
    assert RunOut(s, a, n) == RunOut(s1, a, n - 1);
  }

  lemma OtherMoves(s: State, a: Aid)
    requires ListsOk(s) && a in s.agents && !IsSender(s.agents[a].pc) && !IsReceiver(s.agents[a].pc)
    ensures var s1 := RunOther(s, a);
            if a in s1.agents then Moves(s, s1, a) else EndsAs(s, s1, a)
  {
    var pc := s.agents[a].pc;
    if pc.CloseLockSend? || pc.CloseLockRecv? || pc.DirectLock? { LockMoves(s, a); } else { LookMoves(s, a); }
  }

  lemma LockMoves(s: State, a: Aid)
    requires ListsOk(s) && a in s.agents
    requires s.agents[a].pc.CloseLockSend? || s.agents[a].pc.CloseLockRecv? || s.agents[a].pc.DirectLock?
    ensures var s1 := RunOther(s, a);
            if a in s1.agents then Moves(s, s1, a) else EndsAs(s, s1, a)
  {
  }

  lemma LookMoves(s: State, a: Aid)
    requires ListsOk(s) && a in s.agents && !IsSender(s.agents[a].pc) && !IsReceiver(s.agents[a].pc)
    requires !s.agents[a].pc.CloseLockSend? && !s.agents[a].pc.CloseLockRecv? && !s.agents[a].pc.DirectLock?
    ensures var s1 := RunOther(s, a);
            if a in s1.agents then Moves(s, s1, a) else EndsAs(s, s1, a)
  {
  }

  /** One step further: past the push or the mark once that has been made. */
  predicate Moves(s: State, s1: State, a: Aid) {
    && ListsOk(s1) && a in s.agents && a in s1.agents && StepsLeft(s1.agents[a].pc) < StepsLeft(s.agents[a].pc)
    && !IsSender(s1.agents[a].pc) && !IsReceiver(s1.agents[a].pc)
    && !s1.agents[a].pc.DirectPush? && !s1.agents[a].pc.CloseMark?
    && s1.ch.closed == (s.ch.closed || s.agents[a].pc.CloseMark?)
    && s1.ch.items == s.ch.items + if s.agents[a].pc.DirectPush? && !s.ch.closed then [s.agents[a].msg] else []
  }
}
