/**
 The intrusive wait list of an event: a doubly linked list with a cursor at the first waiter not
 notified, one reusable entry, and a published summary for the lock-free check of `notify`.

 `List` is what the lock protects; every method of `Event` and `EventListener` takes the lock once
 and publishes the summary when it lets go.  Each is proved against `ListenerSpec`.
 */
module Listener {
  import opened Spec = ListenerSpec

  class Entry {
    var state: EntryState
    var prev: Entry?
    var next: Entry?

    constructor (state: EntryState, prev: Entry?)
      ensures this.state == state && this.prev == prev && this.next == null
    {
      this.state, this.prev, this.next := state, prev, null;
    }
  }

  /** The cursor stands behind the notified waiters, and the counters count. */
  ghost predicate CountsAgree(es: seq<Entry>, l: WaitList<Entry>, start: Entry?, len: nat, notified: nat) {
    && (forall i :: 0 <= i < |l.items| ==> (l.items[i].state.Notified? <==> i < notified))
    && len == |es| && l.notified == notified <= len
    && start == (if notified < len then es[notified] else null)
  }

  /** Where the cursor stands once the waiter at `i` is gone. */
  lemma CursorAfterRemoval(es: seq<Entry>, was: WaitList<Entry>, i: nat)
    requires i < |es| == |was.items| && was.notified <= |es|
    requires was.items[i].state.Notified? <==> i < was.notified
    ensures var es', n := es[..i] + es[i + 1..], RemoveAt(was, i).notified;
            && |es'| == |es| - 1 && n <= |es'|
            && (n < |es'| ==> es'[n] == es[if was.notified == i then i + 1 else was.notified])
  {
  }

  lemma CountsAfterRemoval(es: seq<Entry>, was: WaitList<Entry>, i: nat, start: Entry?, next: Entry?)
    requires i < |es| == |was.items| && CountsAgree(es, was, start, |es|, was.notified)
    requires next == (if i == |es| - 1 then null else es[i + 1])
    requires forall j :: 0 <= j < |es| && j != i ==> es[j] != es[i]
    ensures CountsAgree(es[..i] + es[i + 1..], RemoveAt(was, i), if start == es[i] then next else start,
                        |es| - 1, RemoveAt(was, i).notified)
  {
    RemoveAtIndices(was, i);
    CursorAfterRemoval(es, was, i);
  }

  lemma CountsAfterNotify(es: seq<Entry>, was: WaitList<Entry>, start: Entry?, additional: bool)
    requires |es| == |was.items| && CountsAgree(es, was, start, |es|, was.notified) && was.notified < |es|
    ensures CountsAgree(es, NotifyTo(was, was.notified + 1, additional),
                        if was.notified + 1 < |es| then es[was.notified + 1] else null, |es|, was.notified + 1)
  {
  }

  class List {
    var head: Entry?
    var tail: Entry?
    var start: Entry?
    var len: nat
    var notified: nat
    var cacheUsed: bool
    const cache: Entry
    ghost var entries: seq<Entry>
    ghost var view: WaitList<Entry>    // who waits, in order, and in which state

    /** The links agree, forward and backward, with `entries`. */
    ghost predicate Linked()
      reads `head, `tail, `entries, entries
    {
      && (forall i, j :: 0 <= i < j < |entries| ==> entries[i] != entries[j])
      && (forall i {:trigger entries[i].prev} :: 0 <= i < |entries| ==>
            entries[i].prev == if i == 0 then null else entries[i - 1])
      && (forall i {:trigger entries[i].next} :: 0 <= i < |entries| ==>
            entries[i].next == if i == |entries| - 1 then null else entries[i + 1])
      && head == (if entries == [] then null else entries[0])
      && tail == (if entries == [] then null else entries[|entries| - 1])
    }

    /** The entries hold what the view says. */
    ghost predicate Viewed()
      reads `view, `entries, entries
    {
      && |view.items| == |entries|
      && forall i :: 0 <= i < |entries| ==> view.items[i] == Waiter(entries[i], entries[i].state)
    }

    /** The cursor stands behind the notified waiters, and the counters count. */
    ghost predicate Counted()
      reads `start, `len, `notified, `cacheUsed, `entries, `view
    {
      CountsAgree(entries, view, start, len, notified) && (cacheUsed <==> cache in entries)
    }

    ghost predicate Valid()
      reads this, entries
    {
      Linked() && Viewed() && Counted()
    }

    ghost function IndexOf(e: Entry): (i: nat)
      requires e in entries
      reads this
      ensures i < |entries| && entries[i] == e
    {
      var i :| 0 <= i < |entries| && entries[i] == e;
      i
    }

    constructor ()
      ensures Valid() && view == WaitList([], 0) && fresh(cache) && entries == []
    {
      head, tail, start, len, notified, cacheUsed := null, null, null, 0, 0, false;
      cache := new Entry(Created, null);
      entries, view := [], WaitList([], 0);
    }

    // ----- the steps of insertion and removal -----

    /** The cached entry if it is free, otherwise a new one; its `prev` is the tail already. */
    method TakeEntry() returns (entry: Entry)
      requires Valid()
      modifies `cacheUsed, cache
      ensures Linked() && Viewed() && cacheUsed
      ensures entry !in entries && entry.state == Created && entry.prev == tail && entry.next == null
      ensures if old(cacheUsed) then fresh(entry) else entry == cache
    {
      if cacheUsed {
        entry := new Entry(Created, tail);
      } else {
        cacheUsed := true;
        entry := cache;
        entry.state, entry.prev, entry.next := Created, tail, null;
      }
    }

    method LinkLast(entry: Entry)
      requires Linked() && Viewed() && entry !in entries
      requires entry.state == Created && entry.prev == tail && entry.next == null
      modifies `head, `tail, `entries, `view, entries`next
      ensures Linked() && Viewed() && tail == entry
      ensures entries == old(entries) + [entry] && view == Spec.Insert(old(view), entry)
    {
      var t := tail;
      tail := entry;
      if t == null { head := entry; } else { t.next := entry; }
      entries := entries + [entry];
      view := Spec.Insert(view, entry);
    }

    method CountInserted()
      requires Linked() && Viewed() && entries != [] && len + 1 == |entries| && view.notified == notified <= len
      requires forall i :: 0 <= i < |view.items| ==> (view.items[i].state.Notified? <==> i < notified)
      requires start == (if notified < len then entries[notified] else null)
      requires cacheUsed <==> cache in entries
      modifies `start, `len
      ensures Valid()
    {
      if start == null { start := tail; }
      len := len + 1;
    }

    /** Takes `entry` out of the links; its own links stay. */
    method Unlink(entry: Entry, ghost i: nat)
      requires Linked() && i < |entries| && entries[i] == entry
      modifies `head, `tail, `entries, entries`next, entries`prev
      ensures Linked() && entries == old(entries[..i] + entries[i + 1..]) && entry !in entries
    {
      var prev, next := entry.prev, entry.next;
      if prev == null { head := next; } else { prev.next := next; }
      if next == null { tail := prev; } else { next.prev := prev; }
      entries := entries[..i] + entries[i + 1..];
    }

    method UnlinkViewed(entry: Entry, ghost i: nat)
      requires Linked() && Viewed() && i < |entries| && entries[i] == entry && view.notified <= |entries|
      requires forall j :: 0 <= j < |view.items| ==> (view.items[j].state.Notified? <==> j < view.notified)
      modifies `head, `tail, `entries, `view, entries`next, entries`prev
      ensures Linked() && Viewed() && entries == old(entries[..i] + entries[i + 1..]) && entry !in entries
      ensures view == RemoveAt(old(view), i)
    {
      ghost var es := entries;
      RemoveAtIndices(view, i);
      Unlink(entry, i);
      view := RemoveAt(view, i);
      assert forall j :: 0 <= j < |entries| ==> entries[j] == es[if j < i then j else j + 1];
    }

    static lemma RemovedElements<X>(es: seq<X>, i: nat)
      requires i < |es| && forall j, k :: 0 <= j < k < |es| ==> es[j] != es[k]
      ensures forall x :: x in es[..i] + es[i + 1..] <==> x in es && x != es[i]
    {
      forall x | x in es && x != es[i] ensures x in es[..i] + es[i + 1..] {
        var j :| 0 <= j < |es| && es[j] == x;
        assert if j < i then es[..i][j] == x else es[i + 1..][j - i - 1] == x;
      }
    }

    /** Gives the cached entry back, or deallocates the entry. */
    method FreeEntry(entry: Entry, ghost es: seq<Entry>, ghost i: nat) returns (state: EntryState)
      requires Linked() && Viewed() && i < |es| && es[i] == entry && entry !in entries
      requires forall x :: x in entries <==> x in es && x != entry
      requires cacheUsed <==> cache in es
      modifies `cacheUsed, entry`state
      ensures Linked() && Viewed() && state == old(entry.state) && (cacheUsed <==> cache in entries)
    {
      state := entry.state;
      if entry == cache {
        cacheUsed := false;
        entry.state := Created;
      }
    }

    method Recount(entry: Entry, next: Entry?, state: EntryState,
                   ghost was: WaitList<Entry>, ghost es: seq<Entry>, ghost i: nat)
      requires i < |was.items| == |es| == len && es[i] == entry && was.items[i].state == state
      requires CountsAgree(es, was, start, len, notified)
      requires entries == es[..i] + es[i + 1..] && view == RemoveAt(was, i)
      requires next == (if i == len - 1 then null else es[i + 1])
      requires forall j :: 0 <= j < |es| && j != i ==> es[j] != entry
      requires cacheUsed <==> cache in entries
      modifies `start, `len, `notified
      ensures Counted()
    {
      CountsAfterRemoval(es, was, i, start, next);
      if start == entry { start := next; }
      if state.Notified? { notified := notified - 1; }
      len := len - 1;
    }

    method CountRemoved(entry: Entry, next: Entry?, state: EntryState,
                        ghost was: WaitList<Entry>, ghost es: seq<Entry>, ghost i: nat)
      requires Linked() && Viewed() && i < |was.items| == |es| == len && es[i] == entry && was.items[i].state == state
      requires CountsAgree(es, was, start, len, notified)
      requires entries == es[..i] + es[i + 1..] && view == RemoveAt(was, i)
      requires next == (if i == len - 1 then null else es[i + 1])
      requires forall j :: 0 <= j < |es| && j != i ==> es[j] != entry
      requires cacheUsed <==> cache in entries
      modifies `start, `len, `notified
      ensures Valid()
    {
      Recount(entry, next, state, was, es, i);
    }

    /** Appends a waiter. */
    method Insert() returns (entry: Entry)
      requires Valid()
      modifies this, entries, cache
      ensures Valid() && entry !in old(entries)
      ensures if old(cacheUsed) then fresh(entry) else entry == cache
      ensures entries == old(entries) + [entry]
      ensures view == Spec.Insert(old(view), entry)
    {
      entry := TakeEntry();
      LinkLast(entry);
      CountInserted();
    }

    /** Unlinks a waiter and returns the state it was in. */
    method Remove(entry: Entry) returns (state: EntryState)
      requires Valid() && entry in entries
      modifies this, entries
      ensures Valid() && state == old(entry.state)
      ensures entries == old(entries[..IndexOf(entry)] + entries[IndexOf(entry) + 1..])
      ensures view == RemoveAt(old(view), old(IndexOf(entry)))
    {
      ghost var i, es, was := IndexOf(entry), entries, view;
      var next := entry.next;
      RemovedElements(es, i);
      UnlinkViewed(entry, i);
      state := FreeEntry(entry, es, i);
      CountRemoved(entry, next, state, was, es, i);
    }

    /** Notifies the first waiter behind the cursor. */
    method NotifyFirst(additional: bool) returns (woken: seq<Waker>)
      requires Valid() && start != null
      modifies `start, `notified, `view, entries`state
      ensures Valid() && entries == old(entries)
      ensures view == NotifyTo(old(view), old(notified) + 1, additional)
      ensures old(notified) < |old(view.items)|
      ensures var state := old(view.items[notified].state); woken == if state.Polling? then [state.waker] else []
    {
      var e := start;
      ghost var was := view;
      CountsAfterNotify(entries, was, start, additional);
      assert e == entries[notified] && was.items[notified].state == e.state;
      woken := AdvanceStart(e);
      Mark(e, additional);
      assert Counted();
    }

    /** The cursor moves past `e`; whom a notification of it wakes. */
    method AdvanceStart(e: Entry) returns (woken: seq<Waker>)
      requires Linked() && notified < |entries| && e == entries[notified]
      modifies `start
      ensures start == (if notified + 1 < |entries| then entries[notified + 1] else null)
      ensures woken == if e.state.Polling? then [e.state.waker] else []
    {
      start := e.next;
      match e.state {
        case Notified(_) => woken := [];
        case Created => woken := [];
        case Polling(w) => woken := [w];
      }
    }

    /** The first waiter without a notification gets one, and is counted. */
    method Mark(e: Entry, additional: bool)
      requires Linked() && Viewed() && view.notified < |entries| && e == entries[view.notified]
      modifies `view, `notified, e`state
      ensures Linked() && Viewed() && view == NotifyTo(old(view), old(view.notified) + 1, additional)
      ensures notified == old(notified) + 1
    {
      assert forall j :: 0 <= j < |entries| && j != view.notified ==> entries[j] != e;
      e.state := Notified(additional);
      notified := notified + 1;
      view := NotifyTo(view, view.notified + 1, additional);
    }

    /** Since the list was `was`, a stretch of waiters has been notified, and `woken` is whom that woke. */
    ghost predicate Progress(was: WaitList<Entry>, additional: bool, woken: seq<Waker>)
      reads `view
    {
      && was.notified <= view.notified <= |was.items|
      && view == NotifyTo(was, view.notified, additional)
      && woken == Wakers(was.items, was.notified, view.notified)
    }

    /** One round of the notification loops. */
    method NotifyNext(additional: bool, ghost was: WaitList<Entry>, before: seq<Waker>) returns (woken: seq<Waker>)
      requires Valid() && start != null && Progress(was, additional, before)
      modifies `start, `notified, `view, entries`state
      ensures Valid() && entries == old(entries) && notified == old(notified) + 1
      ensures Progress(was, additional, woken)
    {
      NotifyStep(was, notified, additional);
      var w := NotifyFirst(additional);
      woken := before + w;
    }

    /** Makes sure that `n` waiters are notified, or all of them. */
    method Notify(n: nat) returns (woken: seq<Waker>)
      requires Valid()
      modifies `start, `notified, `view, entries`state
      ensures Valid() && entries == old(entries)
      ensures view == Spec.Notify(old(view), n) && woken == Spec.Woken(old(view), view)
    {
      ghost var was := view;
      NotifyNone(was, false);
      woken := [];
      if n <= notified { return; }
      var left := n - notified;
      while left > 0
        modifies `start, `notified, `view, entries`state
        invariant Valid() && entries == old(entries)
        invariant 0 <= left == n - notified && Progress(was, false, woken)
      {
        left := left - 1;
        if start == null { break; }
        woken := NotifyNext(false, was, woken);
      }
      assert notified == Spec.Max(was.notified, Spec.Min(n, |was.items|));
    }

    /** Notifies `n` more waiters, or all the rest. */
    method NotifyAdditional(n: nat) returns (woken: seq<Waker>)
      requires Valid()
      modifies `start, `notified, `view, entries`state
      ensures Valid() && entries == old(entries)
      ensures view == NotifyMore(old(view), n) && woken == Spec.Woken(old(view), view)
    {
      ghost var was := view;
      NotifyNone(was, true);
      woken := [];
      var left := n;
      while left > 0
        modifies `start, `notified, `view, entries`state
        invariant Valid() && entries == old(entries)
        invariant 0 <= left == was.notified + n - notified && Progress(was, true, woken)
      {
        left := left - 1;
        if start == null { break; }
        woken := NotifyNext(true, was, woken);
      }
    }

    /** Takes a waiter off the list, and passes its notification on if it had one. */
    method Cancel(entry: Entry) returns (woken: seq<Waker>)
      requires Valid() && entry in entries
      modifies this, entries
      ensures Valid()
      ensures var was, i := old(view), old(IndexOf(entry));
              view == Spec.Cancel(was, i) && RemoveAt(was, i).notified <= view.notified &&
              woken == Spec.Woken(RemoveAt(was, i), view)
    {
      woken := [];
      var state := Remove(entry);
      if state.Notified? {
        if state.additional { woken := NotifyAdditional(1); } else { woken := Notify(1); }
      }
    }

    /** Changes the state of a waiter that has not been notified. */
    method SetPolling(entry: Entry, waker: Waker)
      requires Valid() && entry in entries && !entry.state.Notified?
      modifies `view, entry`state
      ensures Valid() && view == SetState(old(view), old(IndexOf(entry)), Polling(waker))
    {
      ghost var i := IndexOf(entry);
      entry.state := Polling(waker);
      view := SetState(view, i, Polling(waker));
    }

    /** Takes a notified waiter off the list; leaves the waker with any other. */
    method Poll(entry: Entry, waker: Waker) returns (ready: bool)
      requires Valid() && entry in entries
      modifies this, entries
      ensures Valid() && ready == old(entry.state.Notified?)
      ensures view == (if ready then RemoveAt(old(view), old(IndexOf(entry)))
                       else SetState(old(view), old(IndexOf(entry)), Polling(waker)))
    {
      match entry.state {
        case Notified(_) =>
          var _ := Remove(entry);
          ready := true;
        case Created =>
          SetPolling(entry, waker);
          ready := false;
        case Polling(w) =>
          SetPolling(entry, if w == waker then w else waker);
          ready := false;
      }
    }
  }

  // ----- the event, and the listeners it hands out -----

  class Event {
    const list: List
    var published: nat      // the summary the lock-free check reads

    ghost predicate Valid()
      reads this, list, list.entries
    {
      list.Valid() && published == Published(list.view)
    }

    constructor ()
      ensures Valid() && list.view == WaitList([], 0)
      ensures fresh(list) && fresh(list.cache)
    {
      list := new List();
      published := USIZE_MAX;
    }

    /** What happens when the lock is let go. */
    method Publish()
      requires list.Valid()
      modifies `published
      ensures Valid()
    {
      published := if list.notified < list.len then list.notified else USIZE_MAX;
    }

    method Listen() returns (listener: EventListener)
      requires Valid()
      modifies this, list, list.entries, list.cache
      ensures Valid() && fresh(listener) && listener.entry != null && listener.event == this
      ensures listener.entry !in old(list.entries) && listener.entry in list.entries
      ensures list.view == Spec.Insert(old(list.view), listener.entry)
    {
      var entry := list.Insert();
      Publish();
      listener := new EventListener(this, entry);
    }

    /** Skips the lock when the summary says that there is nothing to do.  Whether it does or not,
        the list ends up as `notify` on it would leave it, and the same waiters are woken. */
    method Notify(n: nat) returns (woken: seq<Waker>)
      requires Valid() && n <= USIZE_MAX
      modifies this, list, list.entries
      ensures Valid() && list.entries == old(list.entries)
      ensures list.view == Spec.Notify(old(list.view), n)
      ensures woken == Spec.Woken(old(list.view), list.view)
    {
      WellFormedView(list);
      FastPathExact(list.view, n);
      woken := [];
      if published < n {
        woken := list.Notify(n);
        Publish();
      }
    }
  }

  lemma WellFormedView(list: List)
    requires list.Valid()
    ensures WellFormed(list.view)
  {
  }

  class EventListener {
    const event: Event
    var entry: Entry?

    constructor (event: Event, entry: Entry)
      ensures this.event == event && this.entry == entry
    {
      this.event, this.entry := event, entry;
    }

    /** On the event's list until it is polled to completion or dropped. */
    ghost predicate Listening()
      reads this, event, event.list, event.list.entries
    {
      event.Valid() && entry != null && entry in event.list.entries
    }

    /** A notified listener completes and leaves the list; any other leaves its waker. */
    method Poll(waker: Waker) returns (ready: bool)
      requires Listening()
      modifies this, event, event.list, event.list.entries
      ensures event.Valid()
      ensures var was, i := old(event.list.view), old(event.list.IndexOf(entry));
              && ready == was.items[i].state.Notified?
              && (ready ==> entry == null && event.list.view == RemoveAt(was, i))
              && (!ready ==> entry == old(entry) && event.list.view == SetState(was, i, Polling(waker)))
    {
      ready := event.list.Poll(entry, waker);
      if ready { entry := null; }
      event.Publish();
    }

    /** Dropping a listener passes an unused notification on. */
    method Drop() returns (woken: seq<Waker>)
      requires entry != null ==> Listening()
      modifies this, event, event.list, event.list.entries
      ensures entry == null && (old(entry) != null ==> event.Valid())
      ensures old(entry) != null ==>
                var was, i := old(event.list.view), old(event.list.IndexOf(entry));
                event.list.view == Cancel(was, i) && RemoveAt(was, i).notified <= event.list.view.notified &&
                woken == Spec.Woken(RemoveAt(was, i), event.list.view)
      ensures old(entry) == null ==> woken == []
    {
      woken := [];
      if entry != null {
        woken := event.list.Cancel(entry);
        entry := null;
        event.Publish();
      }
    }
  }
}
