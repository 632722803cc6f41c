/** What the steps of the channel do to its two wait lists. */
module ChannelLists {
  import opened Spec = ListenerSpec
  import opened ChannelModel
  import opened ChannelInvariant

  /** Only agent `a` changed, and only it may have lost its wake-up mark. */
  ghost predicate Moved(s: State, s': State, a: Aid) {
    && (forall b :: b != a && b in s.agents ==> b in s'.agents && s'.agents[b] == s.agents[b])
    && (forall b :: b != a && b in s'.agents ==> b in s.agents)
    && s.woken - {a} <= s'.woken
  }

  lemma FindInKeys(l: WaitList<Aid>, a: Aid)
    ensures Find(l.items, a) < |l.items| <==> a in Keys(l)
  {
  }

  lemma KeysInsert(l: WaitList<Aid>, a: Aid)
    ensures Keys(Insert(l, a)) == Keys(l) + {a}
  {
    var l' := Insert(l, a);
    assert l'.items[|l.items|].key == a;
    forall b | b in Keys(l) ensures b in Keys(l') {
      var j :| 0 <= j < |l.items| && l.items[j].key == b;
      assert l'.items[j].key == b;
    }
  }

  lemma KeysRemove(l: WaitList<Aid>, i: nat)
    requires WellFormed(l) && i < |l.items|
    ensures Keys(RemoveAt(l, i)) == Keys(l) - {l.items[i].key}
  {
    var l' := RemoveAt(l, i);
    forall b | b in Keys(l) - {l.items[i].key} ensures b in Keys(l') {
      var j :| 0 <= j < |l.items| && l.items[j].key == b;
      assert l'.items[if j < i then j else j - 1].key == b;
    }
  }

  lemma KeysUpdate(l: WaitList<Aid>, l': WaitList<Aid>)
    requires |l'.items| == |l.items| && forall j :: 0 <= j < |l.items| ==> l'.items[j].key == l.items[j].key
    ensures Keys(l') == Keys(l)
  {
    forall b | b in Keys(l) ensures b in Keys(l') {
      var j :| 0 <= j < |l.items| && l.items[j].key == b;
      assert l'.items[j].key == b;
    }
  }

  // ----- one list at a time -----

  lemma KeepList(s: State, s': State, a: Aid, l: WaitList<Aid>, published: nat, sender: bool)
    requires OneList(s, l, published, sender) && Moved(s, s', a)
    requires a in Keys(l) ==> a in s'.agents && s'.agents[a].listening && !Parked(s'.agents[a].pc)
    requires a in Keys(l) ==> OfKind(s'.agents[a].pc, sender)
    ensures OneList(s', l, published, sender)
  {
    forall i | 0 <= i < |l.items| ensures WaiterOk(s', l.items[i]) && OfKind(s'.agents[l.items[i].key].pc, sender) {
      assert WaiterOk(s, l.items[i]);
      assert l.items[i].key in Keys(l);
    }
  }

  lemma InsertList(s: State, l: WaitList<Aid>, a: Aid, sender: bool)
    requires OneList(s, l, Published(l), sender) && |l.items| < USIZE_MAX && a !in Keys(l)
    requires a in s.agents && s.agents[a].listening && OfKind(s.agents[a].pc, sender) && !Parked(s.agents[a].pc)
    ensures OneList(s, Insert(l, a), Published(Insert(l, a)), sender)
  {
    assert forall i :: 0 <= i < |l.items| ==> l.items[i].key in Keys(l);
  }

  lemma RemoveList(s: State, l: WaitList<Aid>, i: nat, sender: bool)
    requires OneList(s, l, Published(l), sender) && i < |l.items|
    ensures OneList(s, RemoveAt(l, i), Published(RemoveAt(l, i)), sender)
  {
    var l' := RemoveAt(l, i);
    RemoveAtIndices(l, i);
  }

  lemma PollingList(s: State, l: WaitList<Aid>, i: nat, sender: bool)
    requires OneList(s, l, Published(l), sender) && i < |l.items| && !l.items[i].state.Notified?
    ensures var l' := SetState(l, i, Polling(l.items[i].key)); OneList(s, l', Published(l'), sender)
  {
  }

  /** Notifying wakes whoever is parked and becomes notified. */
  lemma NotifyList(s: State, s': State, l: WaitList<Aid>, n: nat, sender: bool)
    requires OneList(s, l, Published(l), sender)
    requires s'.agents == s.agents && s.woken + Elements(Woken(l, Notify(l, n))) <= s'.woken
    ensures OneList(s', Notify(l, n), Published(Notify(l, n)), sender)
  {
    var l' := Notify(l, n);
    forall i | 0 <= i < |l'.items| ensures WaiterOk(s', l'.items[i]) {
      assert WaiterOk(s, l.items[i]);
      if l.notified <= i < l'.notified && l.items[i].state.Polling? {
        WakerIncluded(l.items, l.notified, l'.notified, i);
      }
    }
  }
}
