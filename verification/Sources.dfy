/**
 Delayed messages, intervals and streams of an actor, and one pass over either cache.

 Each source can be cancelled through a handle, the receiving end of a oneshot, which must not be
 polled again once it has resolved.  A pass polls the entries in place and removes those that are
 over by swapping in the last one.
 */
module Sources {
  import opened Prelude

  type Msg(==, !new)

  datatype Poll<+T> = Pending | Ready(value: T)

  /** What the handle's oneshot would say: nothing yet, cancelled, or dropped. */
  datatype HandleSays = Quiet | Cancelled | Detached

  datatype StreamSays = NotYet | Item(msg: Msg) | End

  /** What the world would answer a source polled now. */
  datatype Answer = Answer(handle: HandleSays, elapsed: bool, stream: StreamSays)

  // ----- a pass, on values -----

  datatype Kind = Delayed(msg: Msg) | Interval(msg: Msg) | Boxed

  /** `handle`: the source still listens to its handle. */
  datatype Entry = Entry(id: nat, handle: bool, kind: Kind)

  predicate CancelledBy(e: Entry, a: Answer) {
    e.handle && a.handle.Cancelled?
  }

  function Ask(e: Entry, a: Answer): Poll<Option<Msg>> {
    if CancelledBy(e, a) then Ready(None)
    else if e.kind.Boxed? then
      match a.stream {
        case NotYet => Pending
        case Item(m) => Ready(Some(m))
        case End => Ready(None)
      }
    else if a.elapsed then Ready(Some(e.kind.msg))
    else Pending
  }

  /** What an entry yields when polled: a timer its message once its time is up, a stream its next item,
      neither when it is cancelled. */
  predicate YieldsNow(e: Entry, a: Answer, msg: Msg) {
    !CancelledBy(e, a) &&
    match e.kind
    case Delayed(m) => a.elapsed && msg == m
    case Interval(m) => a.elapsed && msg == m
    case Boxed => a.stream == Item(msg)
  }

  /** An entry is over when it is cancelled, when its stream ends, and when its delayed message is due. */
  predicate Over(e: Entry, a: Answer) {
    CancelledBy(e, a) || (e.kind.Boxed? && a.stream.End?) || (e.kind.Delayed? && a.elapsed)
  }

  lemma AskExactly(e: Entry, a: Answer)
    ensures forall msg :: Ask(e, a) == Ready(Some(msg)) <==> YieldsNow(e, a, msg)
    ensures Ask(e, a).Ready? && Ask(e, a).value.None? <==> CancelledBy(e, a) || (e.kind.Boxed? && a.stream.End?)
    ensures Goes(e, a) <==> Over(e, a)
  {
  }

  /** The entry after a poll that leaves it in its cache. */
  function Kept(e: Entry, a: Answer): Entry {
    e.(handle := e.handle && !a.handle.Detached?)
  }

  /** A polled entry goes when it is over; a delayed message is over once it is yielded. */
  predicate Goes(e: Entry, a: Answer) {
    Ask(e, a).Ready? && (Ask(e, a).value.None? || e.kind.Delayed?)
  }

  /** The last element takes the place of the one removed; the others keep theirs. */
  function SwapRemove<T>(s: seq<T>, i: nat): (r: seq<T>)
    requires i < |s|
    ensures |r| == |s| - 1
    ensures forall j :: 0 <= j < |r| ==> r[j] == s[if j == i then |s| - 1 else j]
  {
    var n := |s| - 1;
    if i == n then s[..n] else s[..n][i := s[n]]
  }

  datatype Pass = Pass(result: Poll<Msg>, rest: seq<Entry>, polled: seq<nat>)

  function RunPass(s: seq<Entry>, i: nat, world: nat -> Answer): Pass
    requires i <= |s|
    decreases |s| - i
  {
    if i == |s| then Pass(Pending, s, [])
    else
      var e, a := s[i], world(s[i].id);
      var s' := if Goes(e, a) then SwapRemove(s, i) else s[i := Kept(e, a)];
      if Ask(e, a).Ready? && Ask(e, a).value.Some? then Pass(Ready(Ask(e, a).value.value), s', [e.id])
      else
        var p := RunPass(s', if Goes(e, a) then i else i + 1, world);
        p.(polled := [e.id] + p.polled)
  }

  predicate DistinctIds(s: seq<Entry>) {
    forall i, j :: 0 <= i < j < |s| ==> s[i].id != s[j].id
  }

  function Ids(s: seq<Entry>, from: nat): set<nat> {
    set k | from <= k < |s| :: s[k].id
  }

  /** A cache by name. */
  function Named(s: seq<Entry>): map<nat, Entry>
    requires DistinctIds(s)
  {
    map k | 0 <= k < |s| :: s[k].id := s[k]
  }

  /** A cache after the entries in `polled` were polled: those that are over are gone, the others
      are kept, nothing else has changed. */
  function Settled(m: map<nat, Entry>, polled: seq<nat>, world: nat -> Answer): map<nat, Entry> {
    map x | x in m && !(x in polled && Over(m[x], world(x))) :: if x in polled then Kept(m[x], world(x)) else m[x]
  }

  lemma RemoveIds(s: seq<Entry>, i: nat, from: nat)
    requires from <= i < |s| && DistinctIds(s)
    ensures DistinctIds(SwapRemove(s, i)) && Ids(SwapRemove(s, i), from) == Ids(s, from) - {s[i].id}
  {
    var s', n := SwapRemove(s, i), |s| - 1;
    assert forall k :: 0 <= k < |s'| ==> s'[k] == s[if k == i then n else k];
    forall x | x in Ids(s, from) - {s[i].id} ensures x in Ids(s', from) {
      var k :| from <= k < |s| && s[k].id == x;
      assert s'[if k == n then i else k].id == x;
    }
  }

  lemma RemoveNamed(s: seq<Entry>, i: nat)
    requires i < |s| && DistinctIds(s) && DistinctIds(SwapRemove(s, i))
    ensures Named(SwapRemove(s, i)) == Named(s) - {s[i].id}
  {
    var s' := SwapRemove(s, i);
    RemoveIds(s, i, 0);
    NamedKeys(s);
    NamedKeys(s');
    forall x | x in Named(s') ensures Named(s')[x] == Named(s)[x] { RemoveLooksUp(s, i, x); }
  }

  lemma RemoveLooksUp(s: seq<Entry>, i: nat, x: nat)
    requires i < |s| && DistinctIds(s) && DistinctIds(SwapRemove(s, i)) && x in Named(SwapRemove(s, i))
    ensures x in Named(s) && Named(s)[x] == Named(SwapRemove(s, i))[x]
  {
    var s' := SwapRemove(s, i);
    var k :| 0 <= k < |s'| && s'[k].id == x;
    NamedAt(s', k);
    NamedAt(s, if k == i then |s| - 1 else k);
  }

  lemma NamedKeys(s: seq<Entry>)
    requires DistinctIds(s)
    ensures Named(s).Keys == Ids(s, 0)
  {
  }

  lemma NamedAt(s: seq<Entry>, k: nat)
    requires DistinctIds(s) && k < |s|
    ensures s[k].id in Named(s) && Named(s)[s[k].id] == s[k]
  {
  }

  lemma KeepNamed(s: seq<Entry>, i: nat, e: Entry)
    requires i < |s| && DistinctIds(s) && e.id == s[i].id
    ensures var s' := s[i := e];
            DistinctIds(s') && Ids(s', i + 1) == Ids(s, i) - {s[i].id} && Named(s') == Named(s)[e.id := e]
  {
    var s' := s[i := e];
    forall x | x in Ids(s, i) - {s[i].id} ensures x in Ids(s', i + 1) {
      var k :| i <= k < |s| && s[k].id == x;
      assert s'[k].id == x;
    }
    forall x | x in Named(s) ensures x in Named(s') {
      var k :| 0 <= k < |s| && s[k].id == x;
      assert s'[k].id == x;
    }
  }

  predicate NoRepeats(s: seq<nat>) {
    forall i, j :: 0 <= i < j < |s| ==> s[i] != s[j]
  }

  /** What one step of a pass leaves, and where it goes on. */
  function Stepped(s: seq<Entry>, i: nat, world: nat -> Answer): (seq<Entry>, nat)
    requires i < |s|
  {
    if Goes(s[i], world(s[i].id)) then (SwapRemove(s, i), i) else (s[i := Kept(s[i], world(s[i].id))], i + 1)
  }

  predicate YieldsAt(s: seq<Entry>, i: nat, world: nat -> Answer)
    requires i < |s|
  {
    Ask(s[i], world(s[i].id)).Ready? && Ask(s[i], world(s[i].id)).value.Some?
  }

  lemma StepNamed(s: seq<Entry>, i: nat, world: nat -> Answer)
    requires i < |s| && DistinctIds(s)
    ensures var (s', i') := Stepped(s, i, world); var e, a := s[i], world(s[i].id);
            && DistinctIds(s') && Ids(s', i') == Ids(s, i) - {e.id}
            && Named(s') == (if Goes(e, a) then Named(s) - {e.id} else Named(s)[e.id := Kept(e, a)])
    ensures s[i].id in Named(s) && Named(s)[s[i].id] == s[i]
  {
    if Goes(s[i], world(s[i].id)) {
      RemoveIds(s, i, i);
      RemoveNamed(s, i);
    } else {
      KeepNamed(s, i, Kept(s[i], world(s[i].id)));
    }
  }

  /** No entry is polled twice, and a pending pass polls every one. */
  lemma {:induction false} PassPolls(s: seq<Entry>, i: nat, world: nat -> Answer)
    requires i <= |s| && DistinctIds(s)
    ensures var p := RunPass(s, i, world);
            && NoRepeats(p.polled) && (forall x :: x in p.polled ==> x in Ids(s, i))
            && (p.result.Pending? ==> forall x :: x in Ids(s, i) ==> x in p.polled)
    decreases |s| - i
  {
    if i < |s| && !YieldsAt(s, i, world) {
      StepNamed(s, i, world);
      var (s', i') := Stepped(s, i, world);
      PassPolls(s', i', world);
      var p, p' := RunPass(s, i, world), RunPass(s', i', world);
      assert p.polled == [s[i].id] + p'.polled;
    }
  }

  /** The entries polled settle, and the others stay as they are. */
  lemma {:induction false} PassSettles(s: seq<Entry>, i: nat, world: nat -> Answer)
    requires i <= |s| && DistinctIds(s)
    ensures var p := RunPass(s, i, world);
            DistinctIds(p.rest) && Named(p.rest) == Settled(Named(s), p.polled, world)
    decreases |s| - i
  {
    if i < |s| {
      StepNamed(s, i, world);
      var (s', i') := Stepped(s, i, world);
      if YieldsAt(s, i, world) {
        YieldSettles(s, i, world);
      } else {
        PassPolls(s', i', world);
        PassSettles(s', i', world);
        SettleOne(Named(s), RunPass(s', i', world).polled, s[i].id, world);
      }
    } else {
      SettleNone(Named(s), world);
    }
  }

  lemma YieldSettles(s: seq<Entry>, i: nat, world: nat -> Answer)
    requires i < |s| && DistinctIds(s) && DistinctIds(Stepped(s, i, world).0)
    ensures Named(Stepped(s, i, world).0) == Settled(Named(s), [s[i].id], world)
  {
    StepNamed(s, i, world);
    SettleOne(Named(s), [], s[i].id, world);
    assert [s[i].id] + [] == [s[i].id];
    SettleNone(Named(Stepped(s, i, world).0), world);
  }

  lemma SettleNone(m: map<nat, Entry>, world: nat -> Answer)
    ensures Settled(m, [], world) == m
  {
  }

  lemma SettleOne(m: map<nat, Entry>, polled: seq<nat>, id: nat, world: nat -> Answer)
    requires id in m && id !in polled
    ensures var m' := if Goes(m[id], world(id)) then m - {id} else m[id := Kept(m[id], world(id))];
            Settled(m', polled, world) == Settled(m, [id] + polled, world)
  {
    assert forall x :: x in [id] + polled <==> x == id || x in polled;
  }

  ghost predicate Silent(m: map<nat, Entry>, x: nat, world: nat -> Answer) {
    x in m && forall msg :: !YieldsNow(m[x], world(x), msg)
  }

  predicate Yields(m: map<nat, Entry>, x: nat, msg: Msg, world: nat -> Answer) {
    x in m && YieldsNow(m[x], world(x), msg)
  }

  /** What the answers polled by a pass come to: the last entry polled yields the message, if there is
      one, without having been cancelled; every entry polled before it, or every one, nothing. */
  ghost predicate Explains(m: map<nat, Entry>, p: Pass, world: nat -> Answer) {
    && (p.result.Ready? ==> p.polled != [] && Yields(m, p.polled[|p.polled| - 1], p.result.value, world))
    && (forall k :: Earlier(p, k) ==> Silent(m, p.polled[k], world))
  }

  predicate Earlier(p: Pass, k: int) {
    0 <= k < |p.polled| && (p.result.Ready? ==> k < |p.polled| - 1)
  }

  lemma OthersAnswerAlike(s: seq<Entry>, i: nat, world: nat -> Answer)
    requires i < |s| && DistinctIds(s)
    ensures DistinctIds(Stepped(s, i, world).0)
    ensures forall x :: x != s[i].id && x in Named(Stepped(s, i, world).0) ==>
              x in Named(s) && Named(s)[x] == Named(Stepped(s, i, world).0)[x]
  {
    StepNamed(s, i, world);
  }

  /** One step of a pass that does not end it. */
  lemma PassGoesOn(s: seq<Entry>, i: nat, world: nat -> Answer)
    requires i < |s| && DistinctIds(s) && !YieldsAt(s, i, world)
    ensures var (s', i') := Stepped(s, i, world); var p, p' := RunPass(s, i, world), RunPass(s', i', world);
            && p.result == p'.result && p.polled == [s[i].id] + p'.polled && DistinctIds(s')
            && (forall x :: x in p'.polled ==> x != s[i].id)
  {
    StepNamed(s, i, world);
    var (s', i') := Stepped(s, i, world);
    PassPolls(s', i', world);
  }

  lemma ExplainsMore(m: map<nat, Entry>, m': map<nat, Entry>, id: nat, p: Pass, p': Pass, world: nat -> Answer)
    requires Explains(m', p', world) && p.result == p'.result && p.polled == [id] + p'.polled && Silent(m, id, world)
    requires forall x :: x in p'.polled ==> x != id
    requires forall x :: x != id && x in m' ==> x in m && m[x] == m'[x]
    ensures Explains(m, p, world)
  {
    forall k | Earlier(p, k) ensures Silent(m, p.polled[k], world) {
      if k > 0 { assert Earlier(p', k - 1) && p'.polled[k - 1] in p'.polled; }
    }
    if p.result.Ready? { assert p'.polled[|p'.polled| - 1] in p'.polled; }
  }

  /** Every pass explains itself, whatever the world answers. */
  lemma {:induction false} PassExplains(s: seq<Entry>, i: nat, world: nat -> Answer)
    requires i <= |s| && DistinctIds(s)
    ensures Explains(Named(s), RunPass(s, i, world), world)
    decreases |s| - i
  {
    if i < |s| {
      NamedAt(s, i);
      AskExactly(s[i], world(s[i].id));
      if YieldsAt(s, i, world) {
        assert RunPass(s, i, world).polled == [s[i].id];
      } else {
        var (s', i') := Stepped(s, i, world);
        PassGoesOn(s, i, world);
        PassExplains(s', i', world);
        OthersAnswerAlike(s, i, world);
        ExplainsMore(Named(s), Named(s'), s[i].id, RunPass(s, i, world), RunPass(s', i', world), world);
      }
    }
  }

  /** A pass over `s` has come to position `i` of `now`, having polled `polled`. */
  ghost predicate Reached(s: seq<Entry>, now: seq<Entry>, i: nat, polled: seq<nat>, world: nat -> Answer) {
    i <= |now| &&
    var p, rest := RunPass(s, 0, world), RunPass(now, i, world);
    p.result == rest.result && p.rest == rest.rest && p.polled == polled + rest.polled
  }

  lemma PassUnfolds(s: seq<Entry>, now: seq<Entry>, i: nat, polled: seq<nat>, world: nat -> Answer)
    requires Reached(s, now, i, polled, world)
    ensures i == |now| ==> RunPass(s, 0, world) == Pass(Pending, now, polled)
    ensures i < |now| ==>
              var (now', i') := Stepped(now, i, world);
              var answer, polled' := Ask(now[i], world(now[i].id)), polled + [now[i].id];
              if answer.Ready? && answer.value.Some?
              then RunPass(s, 0, world) == Pass(Ready(answer.value.value), now', polled')
              else Reached(s, now', i', polled', world)
  {
    if i < |now| {
      var (now', i') := Stepped(now, i, world);
      if !YieldsAt(now, i, world) {
        assert polled + ([now[i].id] + RunPass(now', i', world).polled)
            == polled + [now[i].id] + RunPass(now', i', world).polled;
      }
    }
  }

  // ----- a delayed message -----

  class FutureMessage {
    const id: nat
    var handle: bool
    var msg: Option<Msg>
    ghost var over: bool   // the handle's oneshot has resolved
    ghost var polls: nat

    ghost predicate Valid()
      reads this
    {
      msg.Some? && (handle ==> !over)
    }

    ghost function View(): Entry
      reads this
      requires Valid()
    {
      Entry(id, handle, Delayed(msg.value))
    }

    constructor (id: nat, msg: Msg)
      ensures Valid() && View() == Entry(id, true, Delayed(msg))
    {
      this.id := id;
      this.msg := Some(msg);
      handle := true;
      over := false;
      polls := 0;
    }

    /** The oneshot must not have resolved before. */
    method PollHandle(a: Answer) returns (says: HandleSays)
      requires !over
      modifies this`over
      ensures says == a.handle && over == !says.Quiet?
    {
      says := a.handle;
      over := !says.Quiet?;
    }

    method Poll(a: Answer) returns (r: Poll<Option<Msg>>)
      requires Valid()
      modifies this
      ensures r == old(Ask(View(), a)) && polls == old(polls) + 1
      ensures r == Ready(None) <==> old(handle) && a.handle.Cancelled?
      ensures !(old(handle) && a.handle.Cancelled?) ==> r == if a.elapsed then Ready(old(msg)) else Pending
      ensures r.Pending? ==> Valid() && View() == old(Kept(View(), a))
      ensures r.Pending? ==> msg == old(msg) && handle == (old(handle) && !a.handle.Detached?)
    {
      polls := polls + 1;
      if handle {
        var says := PollHandle(a);
        if says.Cancelled? { return Ready(None); }
        if says.Detached? { handle := false; }
      }
      if !a.elapsed { return Pending; }
      r := Ready(msg);
      msg := None;
    }
  }

  class FutureCache {
    var entries: seq<FutureMessage>
    ghost var repr: set<FutureMessage>   // all that ever were in the cache

    ghost predicate Valid()
      reads this, repr
    {
      && (forall e :: e in entries ==> e in repr && e.Valid())
      && (forall i, j :: 0 <= i < j < |entries| ==> entries[i].id != entries[j].id)
    }

    ghost function View(): (r: seq<Entry>)
      reads this, repr
      requires forall e :: e in entries ==> e in repr && e.Valid()
      ensures |r| == |entries| && forall i :: 0 <= i < |r| ==> r[i] == entries[i].View()
    {
      seq(|entries|, i requires 0 <= i < |entries| && entries[i] in repr && entries[i].Valid()
                       reads this, repr => entries[i].View())
    }

    constructor ()
      ensures Valid() && entries == []
    {
      entries := [];
      repr := {};
    }

    method Push(e: FutureMessage)
      requires Valid() && e.Valid() && forall d :: d in entries ==> d.id != e.id
      modifies this
      ensures Valid() && View() == old(View()) + [e.View()]
    {
      entries := entries + [e];
      repr := repr + {e};
    }

    /** Polls the entry at `i`, once, and no other. */
    method PollAt(i: nat, world: nat -> Answer) returns (answer: Poll<Option<Msg>>, ghost who: nat)
      requires Valid() && i < |entries|
      modifies this, repr
      ensures Valid() && repr == old(repr) && who == old(entries[i]).id
      ensures forall e :: e in repr ==> e.polls == old(e.polls) + if e == old(entries[i]) then 1 else 0
      ensures View() == old(Stepped(View(), i, world).0) && answer == old(Ask(View()[i], world(View()[i].id)))
    {
      var e := entries[i];
      who := e.id;
      assert e in entries && forall j :: 0 <= j < |entries| && j != i ==> entries[j] != e;
      ghost var was := View();
      answer := e.Poll(world(e.id));
      if answer.Ready? {
        Discard(i, was);
      } else {
        assert View() == was[i := Kept(was[i], world(e.id))];
      }
    }

    /** Takes the entry at `i` out; `was` is what the others hold. */
    method Discard(i: nat, ghost was: seq<Entry>)
      requires i < |entries| == |was|
      requires forall j :: 0 <= j < |entries| ==> entries[j] in repr
      requires forall j, k :: 0 <= j < k < |entries| ==> entries[j].id != entries[k].id
      requires forall j :: 0 <= j < |entries| && j != i ==> entries[j].Valid() && entries[j].View() == was[j]
      modifies `entries
      ensures Valid() && View() == SwapRemove(was, i)
    {
      ghost var n, es := |entries| - 1, entries;
      entries := SwapRemove(entries, i);
      assert forall j :: 0 <= j < |entries| ==> entries[j] == es[if j == i then n else j];
    }

    /** The pass, in place, polling exactly the entries it says, in that order; no handle is polled
        once it has resolved, and all that stay are sound. */
    method PollFuture(world: nat -> Answer) returns (r: Poll<Msg>, ghost polled: seq<nat>)
      requires Valid()
      modifies this, repr
      ensures Valid() && DistinctIds(old(View())) && repr == old(repr)
      ensures Pass(r, View(), polled) == RunPass(old(View()), 0, world)
    {
      ghost var before := View();
      var i := 0;
      polled := [];
      while i < |entries|
        invariant i <= |entries| && Valid() && DistinctIds(before)
        invariant repr == old(repr)
        invariant Reached(before, View(), i, polled, world)
        decreases |entries| - i
      {
        PassUnfolds(before, View(), i, polled, world);
        ghost var who;
        var answer;
        answer, who := PollAt(i, world);
        polled := polled + [who];
        if answer.Ready? {
          if answer.value.Some? { return Ready(answer.value.value), polled; }
        } else {
          i := i + 1;
        }
      }
      PassUnfolds(before, View(), i, polled, world);
      r := Pending;
    }
  }

  // ----- an interval or a stream -----

  class StreamMessage {
    const id: nat
    const interval: Option<Msg>   // nothing for a boxed stream
    var handle: bool
    ghost var over: bool
    ghost var polls: nat

    ghost predicate Valid()
      reads this
    {
      handle ==> !over
    }

    ghost function View(): Entry
      reads this
    {
      Entry(id, handle, if interval.Some? then Interval(interval.value) else Boxed)
    }

    constructor (id: nat, interval: Option<Msg>)
      ensures Valid() && handle && this.id == id && this.interval == interval
    {
      this.id := id;
      this.interval := interval;
      handle := true;
      over := false;
      polls := 0;
    }

    method PollHandle(a: Answer) returns (says: HandleSays)
      requires !over
      modifies this`over
      ensures says == a.handle && over == !says.Quiet?
    {
      says := a.handle;
      over := !says.Quiet?;
    }

    method PollNext(a: Answer) returns (r: Poll<Option<Msg>>)
      requires Valid()
      modifies this
      ensures r == old(Ask(View(), a)) && polls == old(polls) + 1
      ensures old(handle) && a.handle.Cancelled? ==> r == Ready(None)
      ensures !(old(handle) && a.handle.Cancelled?) && interval.Some? ==>
                r == if a.elapsed then Ready(interval) else Pending
      ensures !(old(handle) && a.handle.Cancelled?) && interval.None? ==>
                && (r.Pending? <==> a.stream.NotYet?) && (r == Ready(None) <==> a.stream.End?)
                && forall m :: r == Ready(Some(m)) <==> a.stream == Item(m)
      ensures r.Pending? || r.value.Some? ==> Valid() && View() == old(Kept(View(), a))
      ensures r.Pending? || r.value.Some? ==> handle == (old(handle) && !a.handle.Detached?)
    {
      polls := polls + 1;
      if handle {
        var says := PollHandle(a);
        if says.Cancelled? { return Ready(None); }
        if says.Detached? { handle := false; }
      }
      if interval.Some? {
        return if a.elapsed then Ready(interval) else Pending;
      }
      match a.stream
      case NotYet => r := Pending;
      case Item(m) => r := Ready(Some(m));
      case End => r := Ready(None);
    }
  }

  class StreamCache {
    var entries: seq<StreamMessage>
    ghost var repr: set<StreamMessage>   // all that ever were in the cache

    ghost predicate Valid()
      reads this, repr
    {
      && (forall e :: e in entries ==> e in repr && e.Valid())
      && (forall i, j :: 0 <= i < j < |entries| ==> entries[i].id != entries[j].id)
    }

    ghost function View(): (r: seq<Entry>)
      reads this, repr
      requires forall e :: e in entries ==> e in repr
      ensures |r| == |entries| && forall i :: 0 <= i < |r| ==> r[i] == entries[i].View()
    {
      seq(|entries|, i requires 0 <= i < |entries| && entries[i] in repr reads this, repr => entries[i].View())
    }

    constructor ()
      ensures Valid() && entries == []
    {
      entries := [];
      repr := {};
    }

    method Push(e: StreamMessage)
      requires Valid() && e.Valid() && forall d :: d in entries ==> d.id != e.id
      modifies this
      ensures Valid() && View() == old(View()) + [e.View()]
    {
      entries := entries + [e];
      repr := repr + {e};
    }

    /** Polls the entry at `i`, once, and no other. */
    method PollAt(i: nat, world: nat -> Answer) returns (answer: Poll<Option<Msg>>, ghost who: nat)
      requires Valid() && i < |entries|
      modifies this, repr
      ensures Valid() && repr == old(repr) && who == old(entries[i]).id
      ensures forall e :: e in repr ==> e.polls == old(e.polls) + if e == old(entries[i]) then 1 else 0
      ensures View() == old(Stepped(View(), i, world).0) && answer == old(Ask(View()[i], world(View()[i].id)))
    {
      var e := entries[i];
      who := e.id;
      assert e in entries && forall j :: 0 <= j < |entries| && j != i ==> entries[j] != e;
      ghost var was := View();
      answer := e.PollNext(world(e.id));
      if answer.Ready? && answer.value.None? {
        entries := SwapRemove(entries, i);
        assert View() == SwapRemove(was, i);
      } else {
        assert View() == was[i := Kept(was[i], world(e.id))];
      }
    }

    /** The pass, in place, polling exactly the entries it says, in that order; a stream that yields
        stays. */
    method PollStream(world: nat -> Answer) returns (r: Poll<Msg>, ghost polled: seq<nat>)
      requires Valid()
      modifies this, repr
      ensures Valid() && DistinctIds(old(View())) && repr == old(repr)
      ensures Pass(r, View(), polled) == RunPass(old(View()), 0, world)
    {
      ghost var before := View();
      var i := 0;
      polled := [];
      while i < |entries|
        invariant i <= |entries| && Valid() && DistinctIds(before)
        invariant repr == old(repr)
        invariant Reached(before, View(), i, polled, world)
        decreases |entries| - i
      {
        PassUnfolds(before, View(), i, polled, world);
        ghost var who;
        var answer;
        answer, who := PollAt(i, world);
        polled := polled + [who];
        if answer.Pending? { i := i + 1; }
        else if answer.value.Some? { return Ready(answer.value.value), polled; }
      }
      PassUnfolds(before, View(), i, polled, world);
      r := Pending;
    }
  }
}
