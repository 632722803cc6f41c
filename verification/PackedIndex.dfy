/**
 The packed index words of the segmented queue.

 The program keeps a position and one flag in a single machine word: the low bit is the flag
 (`MARK_BIT`), the rest is the position, and a position is a lap (block number) and an offset in
 it.  The queue model works on the unpacked form; the lemmas here show that every word operation
 the program performs is the corresponding operation on the unpacked form.  Words are unbounded.
 */
module PackedIndex {
  const SHIFT_FACTOR := 2
  const LAP := 32
  const BLOCK_CAP := 31

  /** A slot position: `off` runs up to `BLOCK_CAP`, which is the unusable last position of a lap. */
  datatype Pos = Pos(lap: nat, off: nat)

  datatype Index = Index(pos: Pos, mark: bool)

  ghost predicate WellFormed(i: Index) {
    i.pos.off < LAP
  }

  predicate Before(a: Pos, b: Pos) {
    a.lap < b.lap || (a.lap == b.lap && a.off < b.off)
  }

  predicate AtOrBefore(a: Pos, b: Pos) {
    a == b || Before(a, b)
  }

  /** The position that follows `p`. */
  function Succ(p: Pos): Pos {
    if p.off < BLOCK_CAP then Pos(p.lap, p.off + 1) else Pos(p.lap + 1, 0)
  }

  /** How many usable positions precede `p`. */
  function Ord(p: Pos): nat {
    BLOCK_CAP * p.lap + if p.off < BLOCK_CAP then p.off else BLOCK_CAP
  }

  function Pack(i: Index): nat {
    SHIFT_FACTOR * (LAP * i.pos.lap + i.pos.off) + if i.mark then 1 else 0
  }

  function Unpack(w: nat): Index {
    Index(Pos(w / SHIFT_FACTOR / LAP, w / SHIFT_FACTOR % LAP), w % SHIFT_FACTOR == 1)
  }

  /** Packing loses nothing, and every word is the packing of a well-formed index. */
  lemma PackRoundTrip(i: Index, w: nat)
    requires WellFormed(i)
    ensures Unpack(Pack(i)) == i
    ensures WellFormed(Unpack(w)) && Pack(Unpack(w)) == w
  {
    var p := LAP * i.pos.lap + i.pos.off;
    assert Pack(i) / SHIFT_FACTOR == p;
    assert p / LAP == i.pos.lap && p % LAP == i.pos.off;
  }

  /** Adding `1 << SHIFT` moves to the next position and keeps the flag; `|= MARK_BIT` sets the
      flag and keeps the position; equality of the shifted words is equality of positions. */
  lemma WordOperations(i: Index, j: Index)
    requires WellFormed(i) && WellFormed(j)
    ensures Pack(i) + SHIFT_FACTOR == Pack(Index(Succ(i.pos), i.mark))
    ensures Pack(i) - Pack(i) % SHIFT_FACTOR + 1 == Pack(i.(mark := true))
    ensures Pack(i) / SHIFT_FACTOR == Pack(j) / SHIFT_FACTOR <==> i.pos == j.pos
    ensures Pack(i) / SHIFT_FACTOR < Pack(j) / SHIFT_FACTOR <==> Before(i.pos, j.pos)
    ensures Pack(i) / SHIFT_FACTOR / LAP == Pack(j) / SHIFT_FACTOR / LAP <==> i.pos.lap == j.pos.lap
  {
    PackRoundTrip(i, 0);
    PackRoundTrip(j, 0);
  }

  /** `Ord` numbers the usable positions consecutively, and in order. */
  lemma OrdNumbersPositions(p: Pos, q: Pos)
    requires p.off < LAP && q.off < LAP
    ensures Ord(Succ(p)) == Ord(p) + if p.off < BLOCK_CAP then 1 else 0
    ensures p.off < BLOCK_CAP && q.off < BLOCK_CAP ==> (Ord(p) == Ord(q) <==> p == q)
    ensures p.off < BLOCK_CAP ==> (Ord(p) < Ord(q) <==> Before(p, q))
    ensures AtOrBefore(p, q) ==> Ord(p) <= Ord(q)
  {
  }
}
