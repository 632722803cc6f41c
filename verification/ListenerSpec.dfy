/**
 The wait list of an event, as a value: who waits, in registration order, and who has been notified.
 */
module ListenerSpec {

  /** A task to wake. */
  type Waker = nat

  const USIZE_MAX: nat := 0xFFFF_FFFF_FFFF_FFFF

  /** `Created`: listening, not polled yet.  `Polling`: polled, to be woken through the waker. */
  datatype EntryState = Created | Notified(additional: bool) | Polling(waker: Waker)

  datatype Waiter<K> = Waiter(key: K, state: EntryState)

  /** The first `notified` waiters are the notified ones. */
  datatype WaitList<K> = WaitList(items: seq<Waiter<K>>, notified: nat)

  ghost predicate WellFormed<K>(l: WaitList<K>) {
    && l.notified <= |l.items|
    && (forall i :: 0 <= i < |l.items| ==> (l.items[i].state.Notified? <==> i < l.notified))
    && (forall i, j :: 0 <= i < j < |l.items| ==> l.items[i].key != l.items[j].key)
  }

  function Insert<K>(l: WaitList<K>, key: K): WaitList<K> {
    l.(items := l.items + [Waiter(key, Created)])
  }

  function RemoveAt<K>(l: WaitList<K>, i: nat): WaitList<K>
    requires i < |l.items| && (l.items[i].state.Notified? ==> l.notified > 0)
  {
    WaitList(l.items[..i] + l.items[i + 1..], if l.items[i].state.Notified? then l.notified - 1 else l.notified)
  }

  lemma RemoveAtIndices<K>(l: WaitList<K>, i: nat)
    requires i < |l.items| && l.notified <= |l.items|
    requires forall j :: 0 <= j < |l.items| ==> (l.items[j].state.Notified? <==> j < l.notified)
    ensures var l' := RemoveAt(l, i);
            && |l'.items| == |l.items| - 1 && l'.notified <= |l'.items|
            && (forall j :: 0 <= j < |l'.items| ==> l'.items[j] == l.items[if j < i then j else j + 1])
            && (forall j :: 0 <= j < |l'.items| ==> (l'.items[j].state.Notified? <==> j < l'.notified))
  {
  }

  function SetState<K>(l: WaitList<K>, i: nat, state: EntryState): WaitList<K>
    requires i < |l.items|
  {
    l.(items := l.items[i := l.items[i].(state := state)])
  }

  function Min(a: nat, b: nat): nat {
    if a < b then a else b
  }

  function Max(a: nat, b: nat): nat {
    if a < b then b else a
  }

  /** The list with the waiters up to position `end` notified. */
  function NotifyTo<K>(l: WaitList<K>, end: nat, additional: bool): WaitList<K>
    requires l.notified <= end <= |l.items|
  {
    WaitList(seq(|l.items|, i requires 0 <= i < |l.items| =>
                   if l.notified <= i < end then l.items[i].(state := Notified(additional)) else l.items[i]), end)
  }

  /** The wakers of the waiters from `from` up to `end` that have been polled, in order. */
  function Wakers<K>(items: seq<Waiter<K>>, from: nat, end: nat): seq<Waker>
    requires from <= end <= |items|
    decreases end
  {
    if from == end then []
    else Wakers(items, from, end - 1) + (if items[end - 1].state.Polling? then [items[end - 1].state.waker] else [])
  }

  /** `notify(n)`: at least `n` waiters, or all of them, are notified afterwards. */
  function Notify<K>(l: WaitList<K>, n: nat): WaitList<K>
    requires l.notified <= |l.items|
  {
    NotifyTo(l, Max(l.notified, Min(n, |l.items|)), false)
  }

  /** `notify_additional(n)`: `n` more waiters, or all the rest. */
  function NotifyMore<K>(l: WaitList<K>, n: nat): WaitList<K>
    requires l.notified <= |l.items|
  {
    NotifyTo(l, Min(l.notified + n, |l.items|), true)
  }

  function Woken<K>(l: WaitList<K>, l': WaitList<K>): seq<Waker>
    requires l.notified <= l'.notified <= |l.items|
  {
    Wakers(l.items, l.notified, l'.notified)
  }

  /** Dropping a listener takes it off the list; a notification it never used goes to the next one. */
  function Cancel<K>(l: WaitList<K>, i: nat): WaitList<K>
    requires i < |l.items| && l.notified <= |l.items| && (l.items[i].state.Notified? <==> i < l.notified)
  {
    var rest := RemoveAt(l, i);
    match l.items[i].state
    case Notified(additional) => if additional then NotifyMore(rest, 1) else Notify(rest, 1)
    case _ => rest
  }

  /** What is published for the lock-free check of `notify`. */
  function Published<K>(l: WaitList<K>): nat {
    if l.notified < |l.items| then l.notified else USIZE_MAX
  }

  // ----- what the operations mean -----

  /** Notifying one by one is notifying the whole stretch. */
  lemma NotifyStep<K>(l: WaitList<K>, m: nat, additional: bool)
    requires l.notified <= m < |l.items|
    ensures NotifyTo(NotifyTo(l, m, additional), m + 1, additional) == NotifyTo(l, m + 1, additional)
    ensures NotifyTo(l, m, additional).items[m] == l.items[m]
  {
  }

  lemma NotifyNone<K>(l: WaitList<K>, additional: bool)
    requires l.notified <= |l.items|
    ensures NotifyTo(l, l.notified, additional) == l
  {
  }

  lemma OperationsKeepWellFormed<K>(l: WaitList<K>, key: K, i: nat, n: nat)
    requires WellFormed(l) && i < |l.items|
    ensures (forall j :: 0 <= j < |l.items| ==> l.items[j].key != key) ==> WellFormed(Insert(l, key))
    ensures WellFormed(RemoveAt(l, i)) && WellFormed(Notify(l, n)) && WellFormed(NotifyMore(l, n))
    ensures WellFormed(Cancel(l, i))
  {
    var rest := RemoveAt(l, i);
    RemoveAtIndices(l, i);
    assert WellFormed(rest);
    NotifyToKeeps(l, Notify(l, n).notified, false);
    NotifyToKeeps(l, NotifyMore(l, n).notified, true);
    NotifyToKeeps(rest, Notify(rest, 1).notified, false);
    NotifyToKeeps(rest, NotifyMore(rest, 1).notified, true);
  }

  lemma NotifyToKeeps<K>(l: WaitList<K>, end: nat, additional: bool)
    requires WellFormed(l) && l.notified <= end <= |l.items|
    ensures WellFormed(NotifyTo(l, end, additional))
  {
  }

  /** The lock-free check is exact: `notify(n)` skips the lock precisely when going through it would
      change nothing, and then it would also wake nobody. */
  lemma FastPathExact<K>(l: WaitList<K>, n: nat)
    requires WellFormed(l) && n <= USIZE_MAX
    ensures Published(l) >= n <==> Notify(l, n) == l
    ensures Published(l) >= n ==> Woken(l, Notify(l, n)) == []
  {
    var l' := Notify(l, n);
    if l'.notified == l.notified {
      assert l'.items == l.items;
    }
  }

  /** `notify(n)` never revokes: it notifies a longer prefix, in registration order, tells exactly
      the newly notified, and reaches `n` unless nobody is left. */
  lemma NotifyPrefix<K>(l: WaitList<K>, n: nat)
    requires WellFormed(l)
    ensures var l' := Notify(l, n);
            && l'.notified == Max(l.notified, Min(n, |l.items|)) && |l'.items| == |l.items|
            && (forall i :: 0 <= i < |l.items| ==> l'.items[i].key == l.items[i].key)
            && (forall i :: 0 <= i < |l.items| && !(l.notified <= i < l'.notified) ==> l'.items[i] == l.items[i])
            && (forall i :: l.notified <= i < l'.notified ==> l'.items[i].state == Notified(false))
            && (l'.notified >= n || l'.notified == |l'.items|)
            && (forall i :: l.notified <= i < l'.notified && l.items[i].state.Polling? ==>
                  l.items[i].state.waker in Woken(l, l'))
  {
    var l' := Notify(l, n);
    forall i | l.notified <= i < l'.notified && l.items[i].state.Polling?
      ensures l.items[i].state.waker in Woken(l, l')
    {
      WakerIncluded(l.items, l.notified, l'.notified, i);
    }
  }

  lemma {:induction false} WakerIncluded<K>(items: seq<Waiter<K>>, from: nat, end: nat, i: nat)
    requires from <= i < end <= |items| && items[i].state.Polling?
    ensures items[i].state.waker in Wakers(items, from, end)
  {
    if i < end - 1 { WakerIncluded(items, from, end - 1, i); }
  }

  /** The wakers are those of the polled waiters at `at`: of these and no others, each once and in order. */
  ghost predicate WakersAt<K>(items: seq<Waiter<K>>, from: nat, end: nat, wakers: seq<Waker>, at: seq<nat>) {
    && end <= |items| && |at| == |wakers|
    && (forall k :: 0 <= k < |at| ==> from <= at[k] < end && items[at[k]].state == Polling(wakers[k]))
    && (forall j, k :: 0 <= j < k < |at| ==> at[j] < at[k])
    && (forall i :: from <= i < end && items[i].state.Polling? ==> i in at)
  }

  /** Who is woken: the waiters from `from` up to `end` that have been polled. */
  lemma {:induction false} WakersExactly<K>(items: seq<Waiter<K>>, from: nat, end: nat) returns (at: seq<nat>)
    requires from <= end <= |items|
    ensures WakersAt(items, from, end, Wakers(items, from, end), at)
    decreases end
  {
    at := [];
    if from < end {
      at := WakersExactly(items, from, end - 1);
      if items[end - 1].state.Polling? {
        OneMoreWaker(items, from, end, Wakers(items, from, end - 1), at);
        at := at + [end - 1];
      }
    }
  }

  lemma OneMoreWaker<K>(items: seq<Waiter<K>>, from: nat, end: nat, wakers: seq<Waker>, at: seq<nat>)
    requires from < end <= |items| && items[end - 1].state.Polling? && WakersAt(items, from, end - 1, wakers, at)
    ensures WakersAt(items, from, end, wakers + [items[end - 1].state.waker], at + [end - 1])
  {
    var at' := at + [end - 1];
    forall i | from <= i < end && items[i].state.Polling? ensures i in at' {
      if i == end - 1 { assert at'[|at|] == i; }
    }
  }

  /** A notification is never lost with its listener: after the drop somebody still on the list is
      notified, or nobody is left.  An additional one always goes to the next waiter; another one only
      if no waiter is notified any more. */
  lemma CancelPassesOn<K>(l: WaitList<K>, i: nat)
    requires WellFormed(l) && i < |l.items|
    ensures l.notified > 0 ==> Cancel(l, i).notified > 0 || Cancel(l, i).items == []
    ensures l.notified - 1 <= Cancel(l, i).notified && |Cancel(l, i).items| == |l.items| - 1
    ensures !l.items[i].state.Notified? ==> Cancel(l, i).notified == l.notified
    ensures l.items[i].state == Notified(true) ==> Cancel(l, i).notified == Min(l.notified, |l.items| - 1)
    ensures l.items[i].state == Notified(false) ==>
              Cancel(l, i).notified == Max(l.notified - 1, Min(1, |l.items| - 1))
    ensures forall j :: 0 <= j < |l.items| - 1 ==>
              Cancel(l, i).items[j].key == l.items[if j < i then j else j + 1].key
  {
  }

  /** `notify_additional(n)` notifies the next `n` waiters, or all the rest, and changes no other. */
  lemma NotifyMorePrefix<K>(l: WaitList<K>, n: nat)
    requires WellFormed(l)
    ensures var l' := NotifyMore(l, n);
            && |l'.items| == |l.items|
            && (l'.notified == l.notified + n || l'.notified == |l.items| <= l.notified + n)
            && (forall i :: 0 <= i < |l.items| ==>
                  l'.items[i] == if l.notified <= i < l'.notified then Waiter(l.items[i].key, Notified(true))
                                 else l.items[i])
  {
  }
}
