/**
 The inductive invariant of the segmented queue.

 `Inv` ties the memory, the threads and the history together: `Blocks` accounts for every block,
 `Ends` for the head and tail words, `Links` for the next pointers, `Writes` and `Reads` for every
 slot position, `Reclamation` for the READ/DESTROY hand-off, and `ThreadOk` for what each program
 point knows.
 */
module QueueInvariant {
  import opened Prelude
  import opened PackedIndex
  import opened QueueModel

  // ----- what a program point holds -----

  /** The private block a pushing thread holds. */
  function SpareIn(pc: PC): Option<Bid> {
    match pc
    case PushLoadIndex(_, spare) => spare
    case PushLoadBlock(_, spare, _) => spare
    case PushTry(_, spare, _, _) => spare
    case PushSetHead(_, spare, _, _) => spare
    case PushInstallBlock(_, _, _, next) => Some(next)
    case PushWrite(_, spare, _, _, _) => spare
    case PushMark(_, spare, _, _, _) => spare
    case _ => None
  }

  /** The position a pushing thread has won and not yet marked as written. */
  function WriteAt(pc: PC): Option<Pos> {
    match pc
    case PushInstallBlock(_, lap, _, _) => Some(Pos(lap, BLOCK_CAP - 1))
    case PushInstallIndex(_, lap, _, _) => Some(Pos(lap, BLOCK_CAP - 1))
    case PushInstallNext(_, lap, _, _) => Some(Pos(lap, BLOCK_CAP - 1))
    case PushWrite(_, _, lap, off, _) => Some(Pos(lap, off))
    case PushMark(_, _, lap, off, _) => Some(Pos(lap, off))
    case _ => None
  }

  /** The position a popping thread has won and not yet returned from. */
  function ReadAt(pc: PC): Option<Pos> {
    match pc
    case PopWaitNext(lap, _) => Some(Pos(lap, BLOCK_CAP - 1))
    case PopPeek(lap, _, _) => Some(Pos(lap, BLOCK_CAP - 1))
    case PopSetBlock(lap, _, _, _) => Some(Pos(lap, BLOCK_CAP - 1))
    case PopSetIndex(lap, _, _) => Some(Pos(lap, BLOCK_CAP - 1))
    case PopWaitWrite(lap, off, _) => Some(Pos(lap, off))
    case PopRead(lap, off, _) => Some(Pos(lap, off))
    case PopMarkRead(lap, off, _, _) => Some(Pos(lap, off))
    case Destroy(lap, off, _, _, _) => Some(Pos(lap, off))
    case DestroyMark(lap, off, _, _, _) => Some(Pos(lap, off))
    case _ => None
  }

  /** The part of a multi-step update a thread is in. */
  datatype Stage =
    | Plain
    | SetsHead                     // has installed the first block, has not told the head
    | InstallsBlock(k: nat)        // has filled lap k, has not put the next block at the tail
    | InstallsIndex(k: nat)        // ... has put it there, has not moved the tail to its lap
    | InstallsLink(k: nat)         // ... has moved the tail, has not linked the blocks
    | Advances(k: nat)             // is moving the head from lap k to the next lap
    | Reclaims(k: nat, i: nat)     // reclaims the block of lap k and is done with the slots below i

  function StageOf(pc: PC): Stage {
    match pc
    case PushSetHead(_, _, _, _) => SetsHead
    case PushInstallBlock(_, lap, _, _) => InstallsBlock(lap)
    case PushInstallIndex(_, lap, _, _) => InstallsIndex(lap)
    case PushInstallNext(_, lap, _, _) => InstallsLink(lap)
    case PopWaitNext(lap, _) => Advances(lap)
    case PopPeek(lap, _, _) => Advances(lap)
    case PopSetBlock(lap, _, _, _) => Advances(lap)
    case PopSetIndex(lap, _, _) => Advances(lap)
    case Destroy(lap, _, _, _, i) => Reclaims(lap, i)
    case DestroyMark(lap, _, _, _, at) => Reclaims(lap, at)
    case _ => Plain
  }

  datatype Role = Role(spare: Option<Bid>, write: Option<Pos>, read: Option<Pos>, stage: Stage)

  const NO_ROLE := Role(None, None, None, Plain)

  function RoleOf(pc: PC): Role {
    Role(SpareIn(pc), WriteAt(pc), ReadAt(pc), StageOf(pc))
  }

  /** What thread `t` holds; a thread without an operation in progress holds nothing. */
  function RoleAt(s: State, t: Tid): Role {
    if t in s.threads then RoleOf(s.threads[t]) else NO_ROLE
  }

  /** Slot `o` of the block of lap `k`. */
  function SlotOf(s: State, k: nat, o: nat): Slot {
    if k < |s.hist.chain| && s.hist.chain[k] < |s.mem.blocks| && o < BLOCK_CAP
    then s.mem.blocks[s.hist.chain[k]].slots[o] else EMPTY_SLOT
  }

  /** The next pointer of the block of lap `k`. */
  function NextOf(s: State, k: nat): Option<Bid> {
    if k < |s.hist.chain| && s.hist.chain[k] < |s.mem.blocks| then s.mem.blocks[s.hist.chain[k]].next else None
  }

  // ----- the invariant -----

  /** Every block is the block of one lap, or private to one thread, or was dropped unused. */
  ghost predicate Blocks(s: State) {
    var h := s.hist;
    && |h.home| == |s.mem.blocks|
    && |h.reclaim| == |h.chain|
    && (forall k :: 0 <= k < |h.chain| ==> h.chain[k] < |h.home| && h.home[h.chain[k]] == OfLap(k))
    && (forall b :: 0 <= b < |h.home| && h.home[b].OfLap? ==> h.home[b].k < |h.chain| && h.chain[h.home[b].k] == b)
    && (forall b :: 0 <= b < |h.home| && h.home[b].SpareOf? ==>
          RoleAt(s, h.home[b].t).spare == Some(b) && s.mem.blocks[b] == EmptyBlock())
    && (forall b :: 0 <= b < |h.home| ==>
          (b in s.mem.freed <==> h.home[b] == Dropped || (h.home[b].OfLap? && h.reclaim[h.home[b].k] == Freed)))
    && (forall b :: b in s.mem.freed ==> b < |h.home|)
  }

  /** The head and tail words and the blocks they name. */
  ghost predicate Ends(s: State) {
    var m, h := s.mem, s.hist;
    var n := |h.chain|;
    && m.tail.pos.off <= BLOCK_CAP && m.head.pos.off <= BLOCK_CAP
    && AtOrBefore(m.head.pos, m.tail.pos)
    && (m.head.mark ==> m.head.pos.lap < m.tail.pos.lap)
    && |h.pushed| == Ord(m.tail.pos)
    && (n == 0 ==> m.tail.pos == Pos(0, 0) && m.tailBlock == None && m.headBlock == None)
    && (n > 0 ==> m.tailBlock == Some(h.chain[n - 1]))
    && (n > 0 ==> n == m.tail.pos.lap + 1 || (m.tail.pos.off == BLOCK_CAP && n == m.tail.pos.lap + 2))
    && (m.headBlock.None? ==> m.head.pos == Pos(0, 0))
    && (m.headBlock.Some? ==>
          && n > 0
          && (|| m.headBlock.value == h.chain[m.head.pos.lap]
              || (m.head.pos.off == BLOCK_CAP && m.head.pos.lap + 1 < n &&
                    m.headBlock.value == h.chain[m.head.pos.lap + 1])))
    && (m.headBlock.None? && n > 0 ==> RoleAt(s, h.installer).stage == SetsHead)
    && (m.tail.pos.off == BLOCK_CAP ==>
          var p := Pos(m.tail.pos.lap, BLOCK_CAP - 1);
          p in h.pushBy && RoleAt(s, h.pushBy[p]).stage in {InstallsBlock(p.lap), InstallsIndex(p.lap)})
    && (m.head.pos.off == BLOCK_CAP ==>
          var p := Pos(m.head.pos.lap, BLOCK_CAP - 1);
          p in h.popBy && RoleAt(s, h.popBy[p]).stage == Advances(p.lap))
  }

  /** A set next pointer names the block of the next lap, which the tail has reached; the only
      missing ones are those of the last block and of a thread about to link. */
  ghost predicate LinkOk(s: State, k: nat)
    requires k < |s.hist.chain|
  {
    var h := s.hist;
    var last := Pos(k, BLOCK_CAP - 1);
    match NextOf(s, k)
    case Some(b) => k + 1 < |h.chain| && b == h.chain[k + 1] && k < s.mem.tail.pos.lap
    case None =>
      || k + 1 == |h.chain|
      || (last in h.pushBy && RoleAt(s, h.pushBy[last]).stage in {InstallsIndex(k), InstallsLink(k)})
  }

  ghost predicate Links(s: State) {
    forall k :: 0 <= k < |s.hist.chain| ==> LinkOk(s, k)
  }

  /** A position behind the tail was won by one push, which has written it or still will. */
  ghost predicate WriteOk(s: State, k: nat, o: nat) {
    var h := s.hist;
    var p, slot := Pos(k, o), SlotOf(s, k, o);
    if Before(p, s.mem.tail.pos) then
      && p in h.pushBy
      && (slot.write ==> Ord(p) < |h.pushed| && slot.value == Some(h.pushed[Ord(p)]))
      && (!slot.write ==> RoleAt(s, h.pushBy[p]).write == Some(p))
    else
      !slot.write && !slot.read && !slot.destroy && slot.value == None
  }

  ghost predicate Writes(s: State) {
    && (forall k, o :: 0 <= k < |s.hist.chain| && 0 <= o < BLOCK_CAP ==> WriteOk(s, k, o))
    && (forall p :: p in s.hist.pushBy ==> p.off < BLOCK_CAP && Before(p, s.mem.tail.pos))
  }

  /** A position behind the head was won by one pop, which has returned its value or still will. */
  ghost predicate ReadOk(s: State, k: nat, o: nat) {
    var h := s.hist;
    var p, slot := Pos(k, o), SlotOf(s, k, o);
    && (slot.read ==> slot.write)
    && (if Before(p, s.mem.head.pos) then
          && p in h.popBy
          && (p !in h.returned ==> RoleAt(s, h.popBy[p]).read == Some(p))
        else
          !slot.read && p !in h.returned)
    && (p in h.returned ==>
          && Ord(p) < |h.pushed| && h.returned[p] == h.pushed[Ord(p)]
          && (if o + 1 == BLOCK_CAP then k < |h.reclaim| && h.reclaim[k] != NotStarted else slot.read))
  }

  ghost predicate Reads(s: State) {
    && (forall k, o :: 0 <= k < |s.hist.chain| && 0 <= o < BLOCK_CAP ==> ReadOk(s, k, o))
    && (forall p :: p in s.hist.popBy ==> p.off < BLOCK_CAP && Before(p, s.mem.head.pos))
    && (forall p :: p in s.hist.returned ==> p in s.hist.popBy)
  }

  /** Slots below the reclaimer are read; no slot from it on carries DESTROY, except the parked one. */
  ghost predicate ReclaimOk(s: State, k: nat)
    requires k < |s.hist.reclaim|
  {
    var r := s.hist.reclaim[k];
    && (r != NotStarted ==> k < s.mem.head.pos.lap && SlotOf(s, k, BLOCK_CAP - 1).write)
    && match r
       case NotStarted =>
         forall o :: 0 <= o < BLOCK_CAP ==> !SlotOf(s, k, o).destroy
       case Running(t, i) =>
         && i <= BLOCK_CAP - 1
         && RoleAt(s, t).stage == Reclaims(k, i)
         && (forall o :: 0 <= o < i ==> SlotOf(s, k, o).read)
         && (forall o :: i <= o < BLOCK_CAP ==> !SlotOf(s, k, o).destroy)
       case Parked(i) =>
         && i < BLOCK_CAP - 1
         && !SlotOf(s, k, i).read && SlotOf(s, k, i).destroy
         && (forall o :: 0 <= o < i ==> SlotOf(s, k, o).read)
         && (forall o :: i < o < BLOCK_CAP ==> !SlotOf(s, k, o).destroy)
       case Freed =>
         forall o :: 0 <= o < BLOCK_CAP - 1 ==> SlotOf(s, k, o).read
  }

  ghost predicate Reclamation(s: State) {
    forall k :: 0 <= k < |s.hist.reclaim| ==> ReclaimOk(s, k)
  }

  // ----- what each program point knows -----

  ghost predicate SpareOk(s: State, t: Tid, spare: Option<Bid>) {
    spare.Some? ==> spare.value < |s.hist.home| && s.hist.home[spare.value] == SpareOf(t)
  }

  /** An earlier reading of the tail word: the tail has not gone back, and has not been reopened. */
  ghost predicate TailSeen(s: State, tail: Index) {
    && tail.pos.off <= BLOCK_CAP
    && AtOrBefore(tail.pos, s.mem.tail.pos)
    && (tail.mark ==> s.mem.tail.mark)
  }

  ghost predicate HeadSeen(s: State, head: Index) {
    && head.pos.off <= BLOCK_CAP
    && AtOrBefore(head.pos, s.mem.head.pos)
    && (head.mark ==> head.pos.lap < s.mem.tail.pos.lap)
  }

  /** If `seen` is still the current position, then `block` is the block of its lap. */
  ghost predicate BlockSeen(s: State, seen: Pos, now: Pos, block: Option<Bid>) {
    block.Some? && seen == now && seen.off < BLOCK_CAP ==>
      seen.lap < |s.hist.chain| && block.value == s.hist.chain[seen.lap]
  }

  ghost predicate IsBlock(s: State, lap: nat, blk: Bid) {
    lap < |s.hist.chain| && s.hist.chain[lap] == blk
  }

  /** Thread `t` has won position `p` for writing value `v`, and the slot is still unwritten. */
  ghost predicate OwnsWrite(s: State, t: Tid, p: Pos, blk: Bid, v: Value) {
    && p.off < BLOCK_CAP
    && IsBlock(s, p.lap, blk)
    && Before(p, s.mem.tail.pos)
    && p in s.hist.pushBy && s.hist.pushBy[p] == t
    && !SlotOf(s, p.lap, p.off).write
    && Ord(p) < |s.hist.pushed| && s.hist.pushed[Ord(p)] == v
  }

  /** Thread `t` has won position `p` for reading and has not returned. */
  ghost predicate OwnsRead(s: State, t: Tid, p: Pos, blk: Bid) {
    && p.off < BLOCK_CAP
    && IsBlock(s, p.lap, blk)
    && Before(p, s.mem.head.pos)
    && p in s.hist.popBy && s.hist.popBy[p] == t
    && p !in s.hist.returned
  }

  /** ... and the slot is not yet marked READ, or, for the last slot, reclamation has not begun. */
  ghost predicate StillReading(s: State, p: Pos) {
    if p.off + 1 == BLOCK_CAP
    then p.lap < |s.hist.reclaim| && s.hist.reclaim[p.lap] == NotStarted
    else !SlotOf(s, p.lap, p.off).read
  }

  /** `res` is the value pushed at `p`. */
  ghost predicate Result(s: State, p: Pos, res: Value) {
    Ord(p) < |s.hist.pushed| && s.hist.pushed[Ord(p)] == res
  }

  ghost predicate AtLapEnd(s: State, t: Tid, lap: nat, blk: Bid) {
    && s.mem.head.pos == Pos(lap, BLOCK_CAP)
    && OwnsRead(s, t, Pos(lap, BLOCK_CAP - 1), blk)
    && StillReading(s, Pos(lap, BLOCK_CAP - 1))
    && s.mem.headBlock.Some?
  }

  ghost predicate ThreadOk(s: State, t: Tid, pc: PC) {
    SpareOk(s, t, SpareIn(pc)) &&
    match pc
    case PushLoadIndex(v, spare) => true
    case PushLoadBlock(v, spare, tail) => TailSeen(s, tail)
    case PushTry(v, spare, tail, block) =>
      TailSeen(s, tail) && BlockSeen(s, tail.pos, s.mem.tail.pos, block) &&
      (block.None? ==> tail.pos == Pos(0, 0))
    case PushSetHead(v, spare, tail, first) =>
      TailSeen(s, tail) && tail.pos == Pos(0, 0) && IsBlock(s, 0, first) &&
      s.mem.headBlock.None? && s.hist.installer == t
    case PushInstallBlock(v, lap, blk, next) =>
      && OwnsWrite(s, t, Pos(lap, BLOCK_CAP - 1), blk, v)
      && s.mem.tail.pos == Pos(lap, BLOCK_CAP) && |s.hist.chain| == lap + 1
    case PushInstallIndex(v, lap, blk, next) =>
      && OwnsWrite(s, t, Pos(lap, BLOCK_CAP - 1), blk, v)
      && s.mem.tail.pos == Pos(lap, BLOCK_CAP) && |s.hist.chain| == lap + 2
      && IsBlock(s, lap + 1, next)
    case PushInstallNext(v, lap, blk, next) =>
      && OwnsWrite(s, t, Pos(lap, BLOCK_CAP - 1), blk, v)
      && lap < s.mem.tail.pos.lap && IsBlock(s, lap + 1, next)
    case PushWrite(v, spare, lap, off, blk) => OwnsWrite(s, t, Pos(lap, off), blk, v)
    case PushMark(v, spare, lap, off, blk) =>
      OwnsWrite(s, t, Pos(lap, off), blk, v) && SlotOf(s, lap, off).value == Some(v)
    case PopLoadIndex => true
    case PopLoadBlock(head) => HeadSeen(s, head)
    case PopTry(head, block) =>
      && HeadSeen(s, head) && BlockSeen(s, head.pos, s.mem.head.pos, block)
      && (block.Some? ==> s.mem.headBlock.Some?)
    case PopClaim(head, block, mark) =>
      && HeadSeen(s, head) && BlockSeen(s, head.pos, s.mem.head.pos, block)
      && (block.Some? ==> s.mem.headBlock.Some?)
      && Before(head.pos, s.mem.tail.pos) && head.pos.off < BLOCK_CAP
      && (mark ==> head.pos.lap < s.mem.tail.pos.lap)
    case PopWaitNext(lap, blk) => AtLapEnd(s, t, lap, blk)
    case PopPeek(lap, blk, next) =>
      AtLapEnd(s, t, lap, blk) && IsBlock(s, lap + 1, next) && lap < s.mem.tail.pos.lap
    case PopSetBlock(lap, blk, next, mark) =>
      AtLapEnd(s, t, lap, blk) && IsBlock(s, lap + 1, next) && lap < s.mem.tail.pos.lap &&
      (mark ==> lap + 1 < s.mem.tail.pos.lap)
    case PopSetIndex(lap, blk, mark) =>
      AtLapEnd(s, t, lap, blk) && lap < s.mem.tail.pos.lap && (mark ==> lap + 1 < s.mem.tail.pos.lap) &&
      lap + 1 < |s.hist.chain| && s.mem.headBlock == Some(s.hist.chain[lap + 1])
    case PopWaitWrite(lap, off, blk) =>
      OwnsRead(s, t, Pos(lap, off), blk) && StillReading(s, Pos(lap, off)) &&
      (off + 1 == BLOCK_CAP ==> lap < s.mem.head.pos.lap)
    case PopRead(lap, off, blk) =>
      OwnsRead(s, t, Pos(lap, off), blk) && StillReading(s, Pos(lap, off)) && SlotOf(s, lap, off).write &&
      (off + 1 == BLOCK_CAP ==> lap < s.mem.head.pos.lap)
    case PopMarkRead(lap, off, blk, res) =>
      OwnsRead(s, t, Pos(lap, off), blk) && StillReading(s, Pos(lap, off)) && SlotOf(s, lap, off).write &&
      off + 1 < BLOCK_CAP && Result(s, Pos(lap, off), res)
    case Destroy(lap, off, blk, res, i) =>
      OwnsRead(s, t, Pos(lap, off), blk) && Result(s, Pos(lap, off), res) &&
      lap < |s.hist.reclaim| && s.hist.reclaim[lap] == Running(t, i) &&
      (off + 1 < BLOCK_CAP ==> SlotOf(s, lap, off).read)
    case DestroyMark(lap, off, blk, res, i) =>
      OwnsRead(s, t, Pos(lap, off), blk) && Result(s, Pos(lap, off), res) && i < BLOCK_CAP - 1 &&
      lap < |s.hist.reclaim| && s.hist.reclaim[lap] == Running(t, i) &&
      (off + 1 < BLOCK_CAP ==> SlotOf(s, lap, off).read)
  }

  ghost predicate Threads(s: State) {
    forall t :: t in s.threads ==> ThreadOk(s, t, s.threads[t])
  }

  ghost predicate Inv(s: State) {
    Blocks(s) && Ends(s) && Links(s) && Writes(s) && Reads(s) && Reclamation(s) && Threads(s) && !s.fault
  }
}
