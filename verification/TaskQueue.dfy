/**
 The concurrent tasks of an actor and the queue of slots to poll.

 A task's waker puts the task's slot on a queue that outlives the task and even the whole slab, so
 the queue may hold slots that are free, that have been given to another task since, or that are on
 it twice.  Each call of `poll_task` takes a bounded number of slots off the queue.
 */
module TaskQueue {
  import opened Prelude

  /** `owner`, the task a waker was made for, is known to nobody but the model. */
  datatype ActorWaker = ActorWaker(slot: nat, owner: nat, parent: nat)

  datatype Task = Task(id: nat, waker: Option<ActorWaker>)

  /** What the world does in one turn of the loop: wakers used before the lock is tried, who holds it
      then, and what the polled task does, if one is polled.  Besides the loop only wakers take the
      lock, to queue their slot before they wake their parent. */
  datatype Turn = Turn(before: seq<ActorWaker>, holder: Option<ActorWaker>, during: seq<ActorWaker>, ready: bool)

  /** `runnable`: slots of tasks never polled, or woken since their last poll began.
      `polled`: the tasks polled so far, in order.  `signalled`: the parent wakers used, in order. */
  datatype Tasks = Tasks(
    slab: map<nat, Task>, queue: seq<nat>, runnable: set<nat>, polled: seq<nat>, signalled: seq<nat>)

  // ----- what one call does -----

  function Wake(t: Tasks, w: ActorWaker): Tasks {
    t.(queue := t.queue + [w.slot], signalled := t.signalled + [w.parent],
       runnable := if w.slot in t.slab && t.slab[w.slot].id == w.owner then t.runnable + {w.slot} else t.runnable)
  }

  function WakeAll(t: Tasks, ws: seq<ActorWaker>): Tasks
    decreases |ws|
  {
    if ws == [] then t else Wake(WakeAll(t, ws[..|ws| - 1]), ws[|ws| - 1])
  }

  /** A task is given the waker of the actor's own poll when it is first polled. */
  function Begin(task: Task, slot: nat, parent: nat): Task {
    if task.waker.Some? then task else task.(waker := Some(ActorWaker(slot, task.id, parent)))
  }

  function PollSlot(t: Tasks, parent: nat, turn: Turn): Tasks
    requires t.queue != []
  {
    var slot, rest := t.queue[0], t.(queue := t.queue[1..]);
    if slot !in t.slab then rest
    else
      var t' := WakeAll(rest.(slab := t.slab[slot := Begin(t.slab[slot], slot, parent)],
                              runnable := t.runnable - {slot}, polled := t.polled + [t.slab[slot].id]), turn.during);
      if turn.ready then t'.(slab := t'.slab - {slot}, runnable := t'.runnable - {slot}) else t'
  }

  /** The loop's turns, while there is a slot to take. */
  function Turns(t: Tasks, parent: nat, world: nat -> Turn, n: nat): Tasks {
    if n == 0 then t
    else OneTurn(Turns(t, parent, world, n - 1), parent, world(n - 1))
  }

  function OneTurn(t: Tasks, parent: nat, turn: Turn): Tasks {
    var t' := WakeAll(t, turn.before);
    if t'.queue == [] then t' else PollSlot(t', parent, turn)
  }

  // ----- nothing runnable is ever off the queue -----

  ghost predicate Sound(t: Tasks) {
    && (forall slot :: slot in t.runnable ==> slot in t.slab && slot in t.queue)
    && (forall slot :: slot in t.slab && t.slab[slot].waker.None? ==> slot in t.runnable)
    && (forall slot :: slot in t.slab && t.slab[slot].waker.Some? ==>
          t.slab[slot].waker.value.slot == slot && t.slab[slot].waker.value.owner == t.slab[slot].id)
  }

  function Slots(ws: seq<ActorWaker>): (r: seq<nat>)
    ensures |r| == |ws| && forall i :: 0 <= i < |ws| ==> r[i] == ws[i].slot
  {
    seq(|ws|, i requires 0 <= i < |ws| => ws[i].slot)
  }

  lemma {:induction false} WakeAllKeeps(t: Tasks, ws: seq<ActorWaker>)
    ensures var t' := WakeAll(t, ws);
            && t'.slab == t.slab && t'.polled == t.polled && t'.queue == t.queue + Slots(ws)
            && t.signalled <= t'.signalled && t.runnable <= t'.runnable && (Sound(t) ==> Sound(t'))
    decreases |ws|
  {
    if ws != [] {
      var n := |ws| - 1;
      WakeAllKeeps(t, ws[..n]);
      assert Slots(ws) == Slots(ws[..n]) + [ws[n].slot];
      var t1 := WakeAll(t, ws[..n]);
      assert forall slot :: slot in t1.queue ==> slot in (t1.queue + [ws[n].slot]);
    } else {
      assert t.queue + [] == t.queue;
    }
  }

  lemma PollSlotKeeps(t: Tasks, parent: nat, turn: Turn)
    requires Sound(t) && t.queue != []
    ensures Sound(PollSlot(t, parent, turn))
  {
    var slot := t.queue[0];
    assert forall i :: i in t.queue && i != slot ==> i in t.queue[1..];
    if slot in t.slab {
      var task := Begin(t.slab[slot], slot, parent);
      var polled := t.(queue := t.queue[1..], slab := t.slab[slot := task],
                       runnable := t.runnable - {slot}, polled := t.polled + [t.slab[slot].id]);
      assert Sound(polled);
      WakeAllKeeps(polled, turn.during);
    }
  }

  lemma {:induction false} TurnsKeep(t: Tasks, parent: nat, world: nat -> Turn, n: nat)
    requires Sound(t)
    ensures Sound(Turns(t, parent, world, n))
  {
    if n > 0 {
      TurnsKeep(t, parent, world, n - 1);
      var t1 := Turns(t, parent, world, n - 1);
      WakeAllKeeps(t1, world(n - 1).before);
      var t2 := WakeAll(t1, world(n - 1).before);
      if t2.queue != [] { PollSlotKeeps(t2, parent, world(n - 1)); }
    }
  }

  // ----- who holds which waker -----

  /** The tasks of `t'` are tasks of `t`, with the waker they had, or, if they had none, perhaps one
      for their own slot under `parent`. */
  ghost predicate Wakers(t: Tasks, t': Tasks, parent: nat) {
    forall slot :: slot in t'.slab ==>
      && slot in t.slab && t'.slab[slot].id == t.slab[slot].id
      && (t'.slab[slot].waker == t.slab[slot].waker ||
          (t.slab[slot].waker.None? && t'.slab[slot].waker == Some(ActorWaker(slot, t.slab[slot].id, parent))))
  }

  lemma {:induction false} WakersStay(t: Tasks, parent: nat, world: nat -> Turn, n: nat)
    ensures Wakers(t, Turns(t, parent, world, n), parent)
  {
    if n > 0 {
      WakersStay(t, parent, world, n - 1);
      var t1 := Turns(t, parent, world, n - 1);
      WakeAllKeeps(t1, world(n - 1).before);
      var t2 := WakeAll(t1, world(n - 1).before);
      if t2.queue != [] && t2.queue[0] in t2.slab {
        var slot := t2.queue[0];
        WakeAllKeeps(t2.(queue := t2.queue[1..], slab := t2.slab[slot := Begin(t2.slab[slot], slot, parent)],
                         runnable := t2.runnable - {slot}, polled := t2.polled + [t2.slab[slot].id]),
                     world(n - 1).during);
      }
    }
  }

  /** Using the waker of a task that has been polled is never lost: its slot goes on the queue, the
      task counts as runnable, and the waker under which it was first polled is used. */
  lemma WakeReaches(t: Tasks, slot: nat)
    requires Sound(t) && slot in t.slab && t.slab[slot].waker.Some?
    ensures var w := t.slab[slot].waker.value; var t' := Wake(t, w);
            && Sound(t') && slot in t'.runnable
            && t'.queue == t.queue + [slot] && t'.signalled == t.signalled + [w.parent]
  {
    WakeAllKeeps(t, [t.slab[slot].waker.value]);
    assert WakeAll(t, [t.slab[slot].waker.value][..0]) == t;
  }

  /** That waker is never renewed.  After a poll of the actor under `parent`, using a task's waker
      tells `parent` if and only if the task was first polled under it: now, or earlier under the
      same. */
  lemma ToldExactlyIfFirst(t: Tasks, parent: nat, world: nat -> Turn, n: nat, slot: nat)
    requires slot in Turns(t, parent, world, n).slab && Turns(t, parent, world, n).slab[slot].waker.Some?
    ensures slot in t.slab
    ensures var now := Turns(t, parent, world, n); var w, first := now.slab[slot].waker.value, t.slab[slot].waker;
            Wake(now, w).signalled == now.signalled + [parent] <==> first.None? || first.value.parent == parent
  {
    WakersStay(t, parent, world, n);
    var now := Turns(t, parent, world, n);
    var w := now.slab[slot].waker.value;
    assert (now.signalled + [w.parent])[|now.signalled|] == w.parent;
    assert (now.signalled + [parent])[|now.signalled|] == parent;
  }

  /** Such a run: a task is polled by the actor under one parent and then under another, and its waker,
      used after that, does not tell the second. */
  lemma SecondParentNotTold() returns (t: Tasks)
    ensures var world := (k: nat) => Turn([], None, [], false);
            var start := Tasks(map[0 := Task(7, None)], [0], {0}, [], []);
            var first := Turns(start, 1, world, 1);
            && 0 in first.slab && first.slab[0].waker == Some(ActorWaker(0, 7, 1))
            && var second := Turns(Wake(first, ActorWaker(0, 7, 1)), 2, world, 1);
               && second.polled == [7, 7] && 0 in second.slab && second.slab[0].waker.Some?
               && t == Wake(second, second.slab[0].waker.value)
    ensures 0 in t.runnable && t.queue == [0] && t.signalled == [1, 1]
  {
    var world := (k: nat) => Turn([], None, [], false);
    var start := Tasks(map[0 := Task(7, None)], [0], {0}, [], []);
    var w := ActorWaker(0, 7, 1);
    var polled := map[0 := Task(7, Some(w))];
    SilentTurn(start, 1, world);
    var first := Tasks(polled, [], {}, [7], []);
    assert Turns(start, 1, world, 1) == first;
    var woken := Tasks(polled, [0], {0}, [7], [1]);
    assert Wake(first, w) == woken;
    SilentTurn(woken, 2, world);
    var second := Tasks(polled, [], {}, [7, 7], [1]);
    assert Turns(woken, 2, world, 1) == second;
    t := Wake(second, w);
  }

  lemma SilentTurn(t: Tasks, parent: nat, world: nat -> Turn)
    requires world(0) == Turn([], None, [], false) && t.queue != [] && t.queue[0] in t.slab
    ensures var slot := t.queue[0];
            Turns(t, parent, world, 1) ==
            t.(queue := t.queue[1..], slab := t.slab[slot := Begin(t.slab[slot], slot, parent)],
               runnable := t.runnable - {slot}, polled := t.polled + [t.slab[slot].id])
  {
    assert Turns(t, parent, world, 1) == OneTurn(Turns(t, parent, world, 0), parent, world(0));
  }

  // ----- a task is gone exactly when it is done -----

  ghost predicate DistinctIds(t: Tasks) {
    forall a, b :: a in t.slab && b in t.slab && a != b ==> t.slab[a].id != t.slab[b].id
  }

  /** The task polled between two states, if any. */
  function PolledBetween(t: Tasks, t': Tasks): Option<nat> {
    if |t'.polled| > |t.polled| then Some(t'.polled[|t'.polled| - 1]) else None
  }

  function PolledAt(t: Tasks, parent: nat, world: nat -> Turn, k: nat): Option<nat> {
    PolledBetween(Turns(t, parent, world, k), Turns(t, parent, world, k + 1))
  }

  /** In turn `k` the task is polled and answers that it is ready. */
  predicate Resolves(t: Tasks, parent: nat, world: nat -> Turn, k: nat, id: nat) {
    world(k).ready && PolledAt(t, parent, world, k) == Some(id)
  }

  predicate HasTask(t: Tasks, id: nat) {
    exists slot :: slot in t.slab && t.slab[slot].id == id
  }

  lemma TurnResolves(t: Tasks, parent: nat, turn: Turn, id: nat)
    requires DistinctIds(t)
    ensures var t' := OneTurn(t, parent, turn);
            && DistinctIds(t')
            && (HasTask(t', id) <==> HasTask(t, id) && !(turn.ready && PolledBetween(t, t') == Some(id)))
            && (PolledBetween(t, t') == Some(id) ==> HasTask(t, id))
  {
    WakeAllKeeps(t, turn.before);
    var t2, t' := WakeAll(t, turn.before), OneTurn(t, parent, turn);
    if t2.queue != [] && t2.queue[0] in t2.slab {
      var slot := t2.queue[0];
      var mid := t2.(queue := t2.queue[1..], slab := t2.slab[slot := Begin(t2.slab[slot], slot, parent)],
                     runnable := t2.runnable - {slot}, polled := t2.polled + [t2.slab[slot].id]);
      WakeAllKeeps(mid, turn.during);
      assert forall s :: s in t2.slab ==> mid.slab[s].id == t2.slab[s].id;
      assert PolledBetween(t, t') == Some(t.slab[slot].id);
      assert t'.slab == if turn.ready then mid.slab - {slot} else mid.slab;
      if HasTask(t, id) && t.slab[slot].id != id {
        var s :| s in t.slab && t.slab[s].id == id;
        assert s in t'.slab;
      }
      if !turn.ready { assert slot in t'.slab; }
    } else {
      assert t'.slab == t.slab && t'.polled == t.polled;
    }
  }

  lemma TurnResolvesAt(t: Tasks, parent: nat, world: nat -> Turn, k: nat, id: nat)
    requires DistinctIds(Turns(t, parent, world, k))
    ensures var now, next := Turns(t, parent, world, k), Turns(t, parent, world, k + 1);
            && DistinctIds(next)
            && (HasTask(next, id) <==> HasTask(now, id) && !Resolves(t, parent, world, k, id))
            && (PolledAt(t, parent, world, k) == Some(id) ==> HasTask(now, id))
  {
    TurnResolves(Turns(t, parent, world, k), parent, world(k), id);
  }

  ghost predicate Unresolved(t: Tasks, parent: nat, world: nat -> Turn, n: nat, id: nat) {
    forall k :: 0 <= k < n ==> !Resolves(t, parent, world, k, id)
  }

  /** After any number of turns a task is gone if and only if one of its polls said that it was
      ready. */
  lemma {:induction false} GoneExactlyWhenDone(t: Tasks, parent: nat, world: nat -> Turn, n: nat, id: nat)
    requires DistinctIds(t) && HasTask(t, id)
    ensures DistinctIds(Turns(t, parent, world, n))
    ensures HasTask(Turns(t, parent, world, n), id) <==> Unresolved(t, parent, world, n, id)
  {
    if n > 0 {
      var m := n - 1;
      GoneExactlyWhenDone(t, parent, world, m, id);
      TurnResolvesAt(t, parent, world, m, id);
      assert Unresolved(t, parent, world, m + 1, id) <==>
          Unresolved(t, parent, world, m, id) && !Resolves(t, parent, world, m, id);
    }
  }

  /** A task that has said so is never polled again, whatever slots are still queued. */
  lemma DoneNeverPolledAgain(t: Tasks, parent: nat, world: nat -> Turn, k: nat, j: nat, id: nat)
    requires DistinctIds(t) && HasTask(t, id) && k < j && Resolves(t, parent, world, k, id)
    ensures PolledAt(t, parent, world, j) != Some(id)
  {
    GoneExactlyWhenDone(t, parent, world, j, id);
    TurnResolvesAt(t, parent, world, j, id);
  }

  // ----- a queued task is reached -----

  /** The slot at position `p` of the queue has been taken off after `p + 1` turns; the task in it,
      if it was there, has been polled by then, or is polled at the turn that takes the slot. */
  lemma {:induction false} QueuedIsPolled(t: Tasks, parent: nat, world: nat -> Turn, p: nat, n: nat)
    requires p < |t.queue| && p < n && t.queue[p] in t.slab
    ensures t.slab[t.queue[p]].id in Turns(t, parent, world, n).polled
    decreases n
  {
    var slot := t.queue[p];
    Survives(t, parent, world, p, slot);
    var t1 := Turns(t, parent, world, p);
    WakeAllKeeps(t1, world(p).before);
    var t2 := WakeAll(t1, world(p).before);
    if slot in t1.slab && t1.slab[slot].id == t.slab[slot].id {
      assert t2.queue[0] == slot;
      FrontIsPolled(t2, parent, world(p));
    } else {
      PolledStays(t, parent, world, p, p + 1, t.slab[slot].id);
    }
    PolledStays(t, parent, world, p + 1, n, t.slab[slot].id);
  }

  lemma FrontIsPolled(t: Tasks, parent: nat, turn: Turn)
    requires t.queue != [] && t.queue[0] in t.slab
    ensures t.slab[t.queue[0]].id in PollSlot(t, parent, turn).polled
  {
    var slot := t.queue[0];
    var mid := t.(queue := t.queue[1..], slab := t.slab[slot := Begin(t.slab[slot], slot, parent)],
                  runnable := t.runnable - {slot}, polled := t.polled + [t.slab[slot].id]);
    WakeAllKeeps(mid, turn.during);
    assert mid.polled[|t.polled|] == t.slab[slot].id;
  }

  // ----- every use of a waker is queued, in order -----

  /** The slots of the wakers used in the first `n` turns: those of a turn's task only if it was polled. */
  function Used(t: Tasks, parent: nat, world: nat -> Turn, n: nat): seq<nat> {
    if n == 0 then []
    else Used(t, parent, world, n - 1) + UsedIn(Turns(t, parent, world, n - 1), parent, world(n - 1))
  }

  function UsedIn(t: Tasks, parent: nat, turn: Turn): seq<nat> {
    Slots(turn.before) + if PolledBetween(t, OneTurn(t, parent, turn)).Some? then Slots(turn.during) else []
  }

  /** How many of them found a slot to take. */
  function Takes(t: Tasks, parent: nat, world: nat -> Turn, n: nat): (r: nat)
    ensures r <= n
  {
    if n == 0 then 0 else Takes(t, parent, world, n - 1) + TakesIn(Turns(t, parent, world, n - 1), world(n - 1))
  }

  function TakesIn(t: Tasks, turn: Turn): (r: nat)
    ensures r <= 1
  {
    if WakeAll(t, turn.before).queue == [] then 0 else 1
  }

  /** What is left of a queue when slots were appended and `k` taken off in front. */
  ghost predicate Left(queue: seq<nat>, used: seq<nat>, k: nat, now: seq<nat>) {
    k <= |queue + used| && now == (queue + used)[k..]
  }

  /** The queue is what was on it, followed by every slot woken since, less those taken off in front. */
  lemma {:induction false} QueueConserved(t: Tasks, parent: nat, world: nat -> Turn, n: nat)
    ensures Left(t.queue, Used(t, parent, world, n), Takes(t, parent, world, n), Turns(t, parent, world, n).queue)
  {
    if n > 0 {
      QueueConserved(t, parent, world, n - 1);
      var t1, turn := Turns(t, parent, world, n - 1), world(n - 1);
      TurnQueue(t1, parent, turn);
      LeftMore(t.queue, Used(t, parent, world, n - 1), Takes(t, parent, world, n - 1), t1.queue,
               UsedIn(t1, parent, turn), TakesIn(t1, turn), OneTurn(t1, parent, turn).queue);
    } else {
      assert t.queue + [] == t.queue;
    }
  }

  lemma LeftMore(queue: seq<nat>, used: seq<nat>, k: nat, now: seq<nat>, extra: seq<nat>, d: nat, next: seq<nat>)
    requires Left(queue, used, k, now) && Left(now, extra, d, next)
    ensures Left(queue, used + extra, k + d, next)
  {
    assert queue + (used + extra) == queue + used + extra;
    assert (queue + used + extra)[k..] == now + extra;
  }

  lemma TurnQueue(t: Tasks, parent: nat, turn: Turn)
    ensures Left(t.queue, UsedIn(t, parent, turn), TakesIn(t, turn), OneTurn(t, parent, turn).queue)
  {
    WakeAllKeeps(t, turn.before);
    var t2 := WakeAll(t, turn.before);
    if t2.queue != [] && t2.queue[0] in t2.slab {
      var slot := t2.queue[0];
      WakeAllKeeps(t2.(queue := t2.queue[1..], slab := t2.slab[slot := Begin(t2.slab[slot], slot, parent)],
                       runnable := t2.runnable - {slot}, polled := t2.polled + [t2.slab[slot].id]), turn.during);
      assert t.queue + UsedIn(t, parent, turn) == t2.queue + Slots(turn.during);
    } else {
      assert t.queue + UsedIn(t, parent, turn) == t2.queue;
    }
  }

  /** The queue is served in order, and a task leaves the slab only by being polled. */
  lemma {:induction false} Survives(t: Tasks, parent: nat, world: nat -> Turn, n: nat, slot: nat)
    requires n < |t.queue| && slot in t.slab
    ensures var t' := Turns(t, parent, world, n);
            && t.queue[n..] <= t'.queue
            && ((slot in t'.slab && t'.slab[slot].id == t.slab[slot].id) || t.slab[slot].id in t'.polled)
  {
    if n > 0 {
      Survives(t, parent, world, n - 1, slot);
      var t1 := Turns(t, parent, world, n - 1);
      WakeAllKeeps(t1, world(n - 1).before);
      var t2 := WakeAll(t1, world(n - 1).before);
      assert t.queue[n - 1..] <= t2.queue;
      PollSlotServes(t2, parent, world(n - 1), slot, t.slab[slot].id);
      assert t.queue[n..] == t.queue[n - 1..][1..];
      assert t.queue[n..] <= t2.queue[1..];
    }
  }

  lemma PollSlotServes(t: Tasks, parent: nat, turn: Turn, slot: nat, id: nat)
    requires t.queue != [] && ((slot in t.slab && t.slab[slot].id == id) || id in t.polled)
    ensures var t' := PollSlot(t, parent, turn);
            && t.queue[1..] <= t'.queue && t.polled <= t'.polled
            && ((slot in t'.slab && t'.slab[slot].id == id) || id in t'.polled)
  {
    var first := t.queue[0];
    if first in t.slab {
      var polled := t.(queue := t.queue[1..], slab := t.slab[first := Begin(t.slab[first], first, parent)],
                       runnable := t.runnable - {first}, polled := t.polled + [t.slab[first].id]);
      WakeAllKeeps(polled, turn.during);
      assert polled.polled[|t.polled|] == t.slab[first].id;
    }
  }

  lemma {:induction false} PolledStays(t: Tasks, parent: nat, world: nat -> Turn, m: nat, n: nat, id: nat)
    requires m <= n && id in Turns(t, parent, world, m).polled
    ensures id in Turns(t, parent, world, n).polled
    decreases n
  {
    if m < n {
      PolledStays(t, parent, world, m, n - 1, id);
      var t1 := Turns(t, parent, world, n - 1);
      WakeAllKeeps(t1, world(n - 1).before);
      var t2 := WakeAll(t1, world(n - 1).before);
      if t2.queue != [] { PollSlotServes(t2, parent, world(n - 1), 0, id); }
    }
  }

  // ----- the objects -----

  class WakeQueue {
    var slots: seq<nat>

    constructor ()
      ensures slots == []
    {
      slots := [];
    }

    method Enqueue(slot: nat)
      modifies this
      ensures slots == old(slots) + [slot]
    {
      slots := slots + [slot];
    }

    /** Nothing when the lock is held elsewhere or the queue is empty. */
    method TryPop(contended: bool) returns (slot: Option<nat>)
      modifies this
      ensures slot.None? <==> contended || old(slots) == []
      ensures slot.None? ==> slots == old(slots)
      ensures slot.Some? ==> old(slots) == [slot.value] + slots
    {
      if contended || slots == [] { return None; }
      slot := Some(slots[0]);
      slots := slots[1..];
    }
  }

  class TaskRef {
    var task: map<nat, Task>
    const queue: WakeQueue
    ghost var runnable: set<nat>
    ghost var polled: seq<nat>
    ghost var signalled: seq<nat>

    ghost function View(): Tasks
      reads this, queue
    {
      Tasks(task, queue.slots, runnable, polled, signalled)
    }

    ghost predicate Valid()
      reads this, queue
    {
      Sound(View())
    }

    /** A new slab on a queue that may still hold slots of an earlier one. */
    constructor (queue: WakeQueue)
      ensures Valid() && this.queue == queue && task == map[] && polled == [] && signalled == []
    {
      this.queue := queue;
      task := map[];
      runnable := {};
      polled, signalled := [], [];
    }

    /** `slot` is a vacant slot, as the slab chooses it. */
    method AddTask(slot: nat, id: nat)
      requires Valid() && slot !in task
      modifies this, queue
      ensures Valid() && task == old(task)[slot := Task(id, None)] && queue.slots == old(queue.slots) + [slot]
      ensures runnable == old(runnable) + {slot} && polled == old(polled) && signalled == old(signalled)
    {
      task := task[slot := Task(id, None)];
      queue.Enqueue(slot);
      runnable := runnable + {slot};
    }

    /** A waker is used, by whoever holds it: a task, another thread, or a leftover from a task that
        is gone. */
    method WakeByRef(w: ActorWaker)
      modifies this, queue
      ensures View() == Wake(old(View()), w)
      ensures old(Valid()) ==> Valid()
    {
      queue.Enqueue(w.slot);
      signalled := signalled + [w.parent];
      if w.slot in task && task[w.slot].id == w.owner { runnable := runnable + {w.slot}; }
    }

    method WakeEach(ws: seq<ActorWaker>)
      modifies this, queue
      ensures View() == WakeAll(old(View()), ws)
    {
      for i := 0 to |ws|
        invariant View() == WakeAll(old(View()), ws[..i])
      {
        assert ws[..i + 1][..i] == ws[..i];
        WakeByRef(ws[i]);
      }
      assert ws[..|ws|] == ws;
    }

    /** One slot taken off the queue: the task in it, if any, is polled. */
    method PollNext(slot: nat, parent: nat, turn: Turn, ghost before: Tasks)
      requires before.queue != [] && before == Tasks(task, [slot] + queue.slots, runnable, polled, signalled)
      modifies this, queue
      ensures View() == PollSlot(before, parent, turn)
    {
      if slot in task {
        ghost var id := task[slot].id;
        task := task[slot := Begin(task[slot], slot, parent)];
        runnable := runnable - {slot};
        polled := polled + [id];
        WakeEach(turn.during);
        if turn.ready {
          task := task - {slot};
          runnable := runnable - {slot};
        }
      }
    }

    method TakeTurn(parent: nat, turn: Turn) returns (taken: bool)
      requires Valid()
      modifies this, queue
      ensures Valid()
      ensures taken ==> View() == OneTurn(old(View()), parent, turn)
      ensures !taken ==> View() == WakeAll(old(View()), turn.before)
      ensures !taken ==> turn.holder.Some? || queue.slots == []
    {
      WakeAllKeeps(View(), turn.before);
      WakeEach(turn.before);
      ghost var woken := View();
      var slot := queue.TryPop(turn.holder.Some?);
      if slot.None? { return false; }
      PollSlotKeeps(woken, parent, turn);
      PollNext(slot.value, parent, turn, woken);
      taken := true;
    }

    /** At most as many turns as there were tasks.  If the call is not ready and the lock was free to
        the end, every task has been polled, so that it holds a waker, and none has been woken since
        its last poll began; if it is not ready and a task is left runnable, a waker holds the lock,
        whose wake of its parent is still to come.  A ready result says that the bound was reached or
        no task is left. */
    method PollTask(parent: nat, world: nat -> Turn) returns (ready: bool, turns: nat)
      requires Valid() && task.Keys != {}
      modifies this, queue
      ensures Valid() && turns <= |old(task)|
      ensures turns == |old(task)| ==> ready && View() == Turns(old(View()), parent, world, turns)
      ensures turns < |old(task)| ==> View() == WakeAll(Turns(old(View()), parent, world, turns), world(turns).before)
      ensures turns < |old(task)| && world(turns).holder.None? ==>
                queue.slots == [] && runnable == {} && forall slot :: slot in task ==> task[slot].waker.Some?
      ensures !ready && runnable != {} ==>
                var holder := world(turns).holder;
                holder.Some? && Wake(View(), holder.value).signalled == signalled + [holder.value.parent]
      ensures ready <==> turns == |old(task)| || task.Keys == {}
    {
      var len := |task|;
      turns := 0;
      ghost var before := View();
      while true
        invariant turns < len && View() == Turns(before, parent, world, turns) && Valid()
        decreases len - turns
      {
        var taken := TakeTurn(parent, world(turns));
        if !taken { return task.Keys == {}, turns; }
        turns := turns + 1;
        if turns == len { return true, turns; }
      }
    }
  }
}
