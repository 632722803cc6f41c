/**
 Dropping the queue: the remaining values are dropped, and the remaining blocks given back.
 */
module QueueDrop {
  import opened Prelude
  import opened PackedIndex
  import opened QueueModel
  import opened QueueInvariant
  import opened QueueTheorems

  /** No operation is in progress: what `&mut self` guarantees to the destructor. */
  ghost predicate Quiescent(s: State) {
    Inv(s) && s.threads == map[]
  }

  /** With no operation in progress every pushed value is written, every claimed one returned, and
      the blocks that are not freed are exactly those from the head's lap to the tail's. */
  lemma QuiescentShape(s: State)
    requires Quiescent(s)
    ensures s.mem.head.pos.off < BLOCK_CAP && s.mem.tail.pos.off < BLOCK_CAP
    ensures AtOrBefore(s.mem.head.pos, s.mem.tail.pos)
    ensures |s.hist.chain| > 0 ==> s.mem.headBlock == Some(s.hist.chain[s.mem.head.pos.lap])
    ensures |s.hist.chain| > 0 ==> |s.hist.chain| == s.mem.tail.pos.lap + 1
    ensures |s.hist.chain| == 0 ==> s.mem.headBlock == None && s.mem.head.pos == s.mem.tail.pos == Pos(0, 0)
    ensures forall k :: 0 <= k < |s.hist.chain| ==>
              s.hist.chain[k] < |s.mem.blocks| &&
              (s.hist.chain[k] in s.mem.freed <==> k < s.mem.head.pos.lap)
    ensures forall k :: 0 <= k < |s.hist.chain| - 1 ==> NextOf(s, k) == Some(s.hist.chain[k + 1])
    ensures forall b :: 0 <= b < |s.mem.blocks| && b !in s.mem.freed ==>
              s.hist.home[b].OfLap? && s.hist.home[b].k < |s.hist.chain| && s.hist.chain[s.hist.home[b].k] == b
  {
    forall k | 0 <= k < |s.hist.chain|
      ensures s.hist.chain[k] in s.mem.freed <==> k < s.mem.head.pos.lap
      ensures k + 1 < |s.hist.chain| ==> NextOf(s, k) == Some(s.hist.chain[k + 1])
    {
      assert ReclaimOk(s, k) && LinkOk(s, k);
      var parked := if s.hist.reclaim[k].Parked? then s.hist.reclaim[k].i else 0;
      assert ReadOk(s, k, BLOCK_CAP - 1) && ReadOk(s, k, parked);
    }
  }

  lemma QuiescentSlot(s: State, p: Pos)
    requires Quiescent(s) && p.off < BLOCK_CAP && Before(p, s.mem.tail.pos)
    ensures p.lap < |s.hist.chain| && Ord(p) < |s.hist.pushed|
    ensures SlotOf(s, p.lap, p.off).value == Some(s.hist.pushed[Ord(p)])
    ensures Before(p, s.mem.head.pos) <==> p in s.hist.returned
  {
    assert WriteOk(s, p.lap, p.off) && ReadOk(s, p.lap, p.off);
  }

  /** What the destructor finds: `chain` names the blocks of the laps, `pushed` is everything ever
      pushed.  The live blocks are those from the head's lap on, linked in order, and hold the
      values between head and tail. */
  ghost predicate Remaining(m: Memory, chain: seq<Bid>, pushed: seq<Value>) {
    var head, tail := m.head.pos, m.tail.pos;
    && head.off < BLOCK_CAP && tail.off < BLOCK_CAP && AtOrBefore(head, tail) && |pushed| == Ord(tail)
    && (if |chain| == 0 then m.headBlock == None && head == tail == Pos(0, 0)
        else |chain| == tail.lap + 1 && m.headBlock == Some(chain[head.lap]))
    && (forall b :: 0 <= b < |m.blocks| && b !in m.freed ==> b in chain)
    && (forall k :: 0 <= k < |chain| ==> RemainingLap(m, chain, pushed, k))
  }

  ghost predicate RemainingLap(m: Memory, chain: seq<Bid>, pushed: seq<Value>, k: nat)
    requires k < |chain|
  {
    && chain[k] < |m.blocks| && (chain[k] in m.freed <==> k < m.head.pos.lap)
    && (forall j :: 0 <= j < k ==> chain[j] != chain[k])
    && (k + 1 < |chain| ==> m.blocks[chain[k]].next == Some(chain[k + 1]))
    && (forall o :: 0 <= o < BLOCK_CAP && Before(Pos(k, o), m.tail.pos) ==>
          Ord(Pos(k, o)) < |pushed| && m.blocks[chain[k]].slots[o].value == Some(pushed[Ord(Pos(k, o))]))
  }

  lemma QuiescentRemaining(s: State)
    requires Quiescent(s)
    ensures Remaining(s.mem, s.hist.chain, s.hist.pushed)
  {
    QuiescentShape(s);
    forall k | 0 <= k < |s.hist.chain| ensures RemainingLap(s.mem, s.hist.chain, s.hist.pushed, k) {
      assert k + 1 < |s.hist.chain| ==> NextOf(s, k) == Some(s.hist.chain[k + 1]);
      forall o | 0 <= o < BLOCK_CAP && Before(Pos(k, o), s.mem.tail.pos)
        ensures Ord(Pos(k, o)) < |s.hist.pushed|
        ensures s.mem.blocks[s.hist.chain[k]].slots[o].value == Some(s.hist.pushed[Ord(Pos(k, o))])
      {
        QuiescentSlot(s, Pos(k, o));
      }
    }
  }

  lemma SliceGrows<X>(xs: seq<X>, from: nat, to: nat)
    requires from <= to < |xs|
    ensures xs[from..to + 1] == xs[from..to] + [xs[to]]
  {
  }

  lemma RemainingSlot(m: Memory, chain: seq<Bid>, pushed: seq<Value>, p: Pos)
    requires Remaining(m, chain, pushed) && p.off < BLOCK_CAP && Before(p, m.tail.pos) && |chain| > 0
    ensures p.lap < |chain| && chain[p.lap] < |m.blocks| && Ord(p) < |pushed|
    ensures m.blocks[chain[p.lap]].slots[p.off].value == Some(pushed[Ord(p)])
  {
    assert RemainingLap(m, chain, pushed, p.lap);
    assert p == Pos(p.lap, p.off);
  }

  /** The block of a lap from the head's on is live, not released with an earlier lap, and linked. */
  lemma RemainingBlock(m: Memory, chain: seq<Bid>, pushed: seq<Value>, k: nat)
    requires Remaining(m, chain, pushed) && m.head.pos.lap <= k < |chain|
    ensures chain[k] < |m.blocks| && chain[k] !in m.freed && chain[k] !in chain[m.head.pos.lap..k]
    ensures k + 1 < |chain| ==> m.blocks[chain[k]].next == Some(chain[k + 1])
  {
    assert RemainingLap(m, chain, pushed, k);
  }

  /** Every block not freed so far, and no other, once. */
  ghost predicate Released(m: Memory, released: seq<Bid>) {
    && (forall i :: 0 <= i < |released| ==> released[i] < |m.blocks| && released[i] !in m.freed)
    && (forall i, j :: 0 <= i < j < |released| ==> released[i] != released[j])
    && (forall b :: 0 <= b < |m.blocks| ==> b in m.freed || b in released)
  }

  lemma RemainingReleased(m: Memory, chain: seq<Bid>, pushed: seq<Value>, released: seq<Bid>)
    requires Remaining(m, chain, pushed) && m.head.pos.lap <= |chain|
    requires released == chain[m.head.pos.lap..]
    ensures Released(m, released)
  {
    forall i | 0 <= i < |released|
      ensures released[i] < |m.blocks| && released[i] !in m.freed
      ensures forall j :: 0 <= j < i ==> released[j] != released[i]
    {
      assert RemainingLap(m, chain, pushed, m.head.pos.lap + i);
    }
    forall b | 0 <= b < |m.blocks| && b !in m.freed ensures b in released {
      var k :| 0 <= k < |chain| && chain[k] == b;
      assert RemainingLap(m, chain, pushed, k);
      assert released[k - m.head.pos.lap] == b;
    }
  }

  function Elements(bs: seq<Bid>): set<Bid> {
    set b | b in bs
  }

  class Unbounded {
    var head: Index
    var headBlock: Option<Bid>
    var tail: Index
    var tailBlock: Option<Bid>
    var blocks: seq<Block>
    var freed: set<Bid>

    ghost function Mem(): Memory
      reads this
    {
      Memory(head, headBlock, tail, tailBlock, blocks, freed)
    }

    method Free(b: Bid, ghost before: seq<Bid>, ghost first: set<Bid>)
      requires b !in freed && freed == first + Elements(before)
      modifies this`freed
      ensures freed == first + Elements(before + [b])
    {
      freed := freed + {b};
      assert forall x :: x in before + [b] <==> x in before || x == b;
    }

    /** The destructor.  It drops exactly the values pushed and not popped, in order, and gives back
        exactly the blocks not given back so far, each once. */
    method Drop(ghost chain: seq<Bid>, ghost pushed: seq<Value>) returns (dropped: seq<Value>, released: seq<Bid>)
      requires Remaining(Mem(), chain, pushed)
      modifies this`freed
      ensures Ord(head.pos) <= |pushed| && dropped == pushed[Ord(head.pos)..]
      ensures Released(old(Mem()), released) && freed == old(freed) + Elements(released)
    {
      ghost var m := Mem();
      var at, end, block := head.pos, tail.pos, headBlock;
      dropped, released := [], [];
      OrdNumbersPositions(at, end);
      while at != end
        invariant DroppedUpTo(m, chain, pushed, at, block, dropped, released) && end == m.tail.pos
        invariant freed == m.freed + Elements(released)
        decreases end.lap - at.lap, LAP - at.off
      {
        if at.off < BLOCK_CAP {
          DropSlot(m, chain, pushed, at, block, dropped, released);
          dropped := dropped + [blocks[block.value].slots[at.off].value.value];
        } else {
          DropBlock(m, chain, pushed, at, block, dropped, released);
          var next := blocks[block.value].next;
          Free(block.value, released, m.freed);
          released := released + [block.value];
          block := next;
        }
        at := Succ(at);
      }
      DropEnds(m, chain, pushed, at, block, dropped, released);
      if block.Some? {
        Free(block.value, released, m.freed);
        released := released + [block.value];
      }
    }
  }

  /** The destructor has come to position `at` of the block `block`. */
  ghost predicate DroppedUpTo(m: Memory, chain: seq<Bid>, pushed: seq<Value>, at: Pos, block: Option<Bid>,
                              dropped: seq<Value>, released: seq<Bid>) {
    && Remaining(m, chain, pushed)
    && at.off <= BLOCK_CAP && AtOrBefore(at, m.tail.pos) && m.head.pos.lap <= at.lap
    && Ord(m.head.pos) <= Ord(at) <= |pushed| && dropped == pushed[Ord(m.head.pos)..Ord(at)]
    && (if |chain| > 0
        then at.lap < |chain| && block == Some(chain[at.lap]) && released == chain[m.head.pos.lap..at.lap]
        else at == m.tail.pos && block == None && released == [])
  }

  lemma DropSlot(m: Memory, chain: seq<Bid>, pushed: seq<Value>, at: Pos, block: Option<Bid>,
                 dropped: seq<Value>, released: seq<Bid>)
    requires DroppedUpTo(m, chain, pushed, at, block, dropped, released) && at != m.tail.pos && at.off < BLOCK_CAP
    ensures block.Some? && block.value < |m.blocks| && m.blocks[block.value].slots[at.off].value.Some?
    ensures var v := m.blocks[block.value].slots[at.off].value.value;
            DroppedUpTo(m, chain, pushed, Succ(at), block, dropped + [v], released)
  {
    OrdNumbersPositions(at, m.tail.pos);
    OrdNumbersPositions(Succ(at), m.tail.pos);
    RemainingSlot(m, chain, pushed, at);
    SliceGrows(pushed, Ord(m.head.pos), Ord(at));
  }

  lemma DropBlock(m: Memory, chain: seq<Bid>, pushed: seq<Value>, at: Pos, block: Option<Bid>,
                  dropped: seq<Value>, released: seq<Bid>)
    requires DroppedUpTo(m, chain, pushed, at, block, dropped, released) && at != m.tail.pos && at.off == BLOCK_CAP
    ensures block.Some? && block.value < |m.blocks| && block.value !in m.freed + Elements(released)
    ensures DroppedUpTo(m, chain, pushed, Succ(at), m.blocks[block.value].next, dropped, released + [block.value])
  {
    OrdNumbersPositions(at, m.tail.pos);
    OrdNumbersPositions(Succ(at), m.tail.pos);
    RemainingBlock(m, chain, pushed, at.lap);
    SliceGrows(chain, m.head.pos.lap, at.lap);
  }

  lemma DropEnds(m: Memory, chain: seq<Bid>, pushed: seq<Value>, at: Pos, block: Option<Bid>,
                 dropped: seq<Value>, released: seq<Bid>)
    requires DroppedUpTo(m, chain, pushed, at, block, dropped, released) && at == m.tail.pos
    ensures Ord(m.head.pos) <= |pushed| && dropped == pushed[Ord(m.head.pos)..]
    ensures block.Some? ==> block.value !in m.freed + Elements(released)
    ensures Released(m, if block.Some? then released + [block.value] else released)
  {
    if block.Some? {
      RemainingBlock(m, chain, pushed, at.lap);
      SliceGrows(chain, m.head.pos.lap, at.lap);
      assert released + [block.value] == chain[m.head.pos.lap..];
      RemainingReleased(m, chain, pushed, released + [block.value]);
    } else {
      RemainingReleased(m, chain, pushed, released);
    }
  }

  /** Over the life of a queue, from any run that ends with no operation in progress: the values
      returned by pops and the values dropped with the queue are together the pushed values, in
      order; and the destructor's precondition holds, so that every block ever allocated, among
      them the speculative ones, is given back exactly once. */
  lemma LifetimeConservation(events: seq<Event>, n: nat)
    requires After(events).threads == map[]
    ensures var s := After(events); Remaining(s.mem, s.hist.chain, s.hist.pushed)
    ensures var s := After(events);
            n < |s.hist.pushed| ==>
              && Ord(PosOf(n)) == n
              && (PosOf(n) in s.hist.returned <==> n < Ord(s.mem.head.pos))
              && (n < Ord(s.mem.head.pos) ==> s.hist.returned[PosOf(n)] == s.hist.pushed[n])
  {
    var s := After(events);
    Reachable(events);
    QuiescentRemaining(s);
    if n < |s.hist.pushed| {
      var p := PosOf(n);
      OrdNumbersPositions(p, s.mem.tail.pos);
      OrdNumbersPositions(p, s.mem.head.pos);
      QuiescentSlot(s, p);
      PrefixDelivered(events, p, p);
    }
  }

  /** The usable position with number `n`. */
  function PosOf(n: nat): (p: Pos)
    ensures p.off < BLOCK_CAP && Ord(p) == n
  {
    Pos(n / BLOCK_CAP, n % BLOCK_CAP)
  }
}
