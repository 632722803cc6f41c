/**
 The lock-free segmented queue as a transition system.

 One step is one access to shared memory by one thread (purely local decisions are taken together
 with the access that follows them).  `Memory` is what the program shares; `PC` is a thread's
 program point with its local variables.  `Exec` is one step of one thread.  Dereferencing a freed
 block, freeing a block twice and reading an unwritten value are `Fault`s.
 */
module QueueModel {
  import opened Prelude
  import opened PackedIndex

  type Value(==)
  type Tid = nat
  type Bid = nat

  // ----- shared memory -----

  datatype Slot = Slot(value: Option<Value>, write: bool, read: bool, destroy: bool)

  const EMPTY_SLOT := Slot(None, false, false, false)

  type Slots = s: seq<Slot> | |s| == BLOCK_CAP witness seq(BLOCK_CAP, i => EMPTY_SLOT)

  datatype Block = Block(next: Option<Bid>, slots: Slots)

  function EmptyBlock(): Block {
    Block(None, seq(BLOCK_CAP, i => EMPTY_SLOT))
  }

  /** `blocks` holds every block ever allocated, `freed` the names of those given back. */
  datatype Memory = Memory(
    head: Index, headBlock: Option<Bid>,
    tail: Index, tailBlock: Option<Bid>,
    blocks: seq<Block>, freed: set<Bid>)

  predicate Live(m: Memory, b: Bid) {
    b < |m.blocks| && b !in m.freed
  }

  function SetSlot(m: Memory, b: Bid, off: nat, slot: Slot): Memory
    requires b < |m.blocks| && off < BLOCK_CAP
  {
    m.(blocks := m.blocks[b := m.blocks[b].(slots := m.blocks[b].slots[off := slot])])
  }

  function Alloc(m: Memory): Memory {
    m.(blocks := m.blocks + [EmptyBlock()])
  }

  function Free(m: Memory, b: Bid): Memory {
    m.(freed := m.freed + {b})
  }

  /** Dropping a speculative block that was never installed. */
  function DropSpare(m: Memory, spare: Option<Bid>): Memory {
    if spare.Some? then Free(m, spare.value) else m
  }

  predicate SpareLive(m: Memory, spare: Option<Bid>) {
    spare.Some? ==> Live(m, spare.value)
  }

  // ----- threads -----

  type Lane = o: nat | o < BLOCK_CAP

  datatype PC =
    // push
    | PushLoadIndex(v: Value, spare: Option<Bid>)
    | PushLoadBlock(v: Value, spare: Option<Bid>, tail: Index)
    | PushTry(v: Value, spare: Option<Bid>, tail: Index, block: Option<Bid>)
    | PushSetHead(v: Value, spare: Option<Bid>, tail: Index, first: Bid)
    | PushInstallBlock(v: Value, lap: nat, blk: Bid, next: Bid)
    | PushInstallIndex(v: Value, lap: nat, blk: Bid, next: Bid)
    | PushInstallNext(v: Value, lap: nat, blk: Bid, next: Bid)
    | PushWrite(v: Value, spare: Option<Bid>, lap: nat, off: Lane, blk: Bid)
    | PushMark(v: Value, spare: Option<Bid>, lap: nat, off: Lane, blk: Bid)
    // pop
    | PopLoadIndex
    | PopLoadBlock(head: Index)
    | PopTry(head: Index, block: Option<Bid>)
    | PopClaim(head: Index, block: Option<Bid>, mark: bool)
    | PopWaitNext(lap: nat, blk: Bid)
    | PopPeek(lap: nat, blk: Bid, next: Bid)
    | PopSetBlock(lap: nat, blk: Bid, next: Bid, mark: bool)
    | PopSetIndex(lap: nat, blk: Bid, mark: bool)
    | PopWaitWrite(lap: nat, off: Lane, blk: Bid)
    | PopRead(lap: nat, off: Lane, blk: Bid)
    | PopMarkRead(lap: nat, off: Lane, blk: Bid, res: Value)
    | Destroy(lap: nat, off: Lane, blk: Bid, res: Value, i: nat)
    | DestroyMark(lap: nat, off: Lane, blk: Bid, res: Value, at: Lane)

  datatype Response = PushOk | PushErr(v: Value) | PopOk(v: Value) | PopEmpty | PopClosed

  datatype Outcome =
    | Fault
    | Next(mem: Memory, pc: PC)
    | Return(mem: Memory, resp: Response)

  /** One step of a thread.  `spurious` lets a weak compare-exchange fail for no reason. */
  function Exec(m: Memory, pc: PC, spurious: bool): Outcome {
    match pc
    case PushLoadIndex(v, spare) =>
      Next(m, PushLoadBlock(v, spare, m.tail))
    case PushLoadBlock(v, spare, tail) =>
      Next(m, PushTry(v, spare, tail, m.tailBlock))
    case PushTry(v, spare, tail, block) =>
      ExecPushTry(m, v, spare, tail, block, spurious)
    case PushSetHead(v, spare, tail, first) =>
      Next(m.(headBlock := Some(first)), PushTry(v, spare, tail, Some(first)))
    case PushInstallBlock(v, lap, blk, next) =>
      Next(m.(tailBlock := Some(next)), PushInstallIndex(v, lap, blk, next))
    case PushInstallIndex(v, lap, blk, next) =>
      Next(m.(tail := m.tail.(pos := Succ(m.tail.pos))), PushInstallNext(v, lap, blk, next))
    case PushInstallNext(v, lap, blk, next) =>
      if !Live(m, blk) then Fault else
      Next(m.(blocks := m.blocks[blk := m.blocks[blk].(next := Some(next))]),
           PushWrite(v, None, lap, BLOCK_CAP - 1, blk))
    case PushWrite(v, spare, lap, off, blk) =>
      if !Live(m, blk) then Fault else
      Next(SetSlot(m, blk, off, m.blocks[blk].slots[off].(value := Some(v))),
           PushMark(v, spare, lap, off, blk))
    case PushMark(v, spare, lap, off, blk) =>
      if !Live(m, blk) || !SpareLive(m, spare) then Fault else
      Return(DropSpare(SetSlot(m, blk, off, m.blocks[blk].slots[off].(write := true)), spare), PushOk)
    case PopLoadIndex =>
      Next(m, PopLoadBlock(m.head))
    case PopLoadBlock(head) =>
      Next(m, PopTry(head, m.headBlock))
    case PopTry(head, block) =>
      if head.pos.off == BLOCK_CAP then Next(m, PopLoadIndex)
      else if head.mark then Next(m, PopClaim(head, block, true))
      else if head.pos == m.tail.pos then Return(m, if m.tail.mark then PopClosed else PopEmpty)
      else Next(m, PopClaim(head, block, head.pos.lap != m.tail.pos.lap))
    case PopClaim(head, block, mark) =>
      ExecPopClaim(m, head, block, mark, spurious)
    case PopWaitNext(lap, blk) =>
      if !Live(m, blk) then Fault
      else if m.blocks[blk].next.None? then Next(m, pc)
      else Next(m, PopPeek(lap, blk, m.blocks[blk].next.value))
    case PopPeek(lap, blk, next) =>
      if !Live(m, next) then Fault else
      Next(m, PopSetBlock(lap, blk, next, m.blocks[next].next.Some?))
    case PopSetBlock(lap, blk, next, mark) =>
      Next(m.(headBlock := Some(next)), PopSetIndex(lap, blk, mark))
    case PopSetIndex(lap, blk, mark) =>
      Next(m.(head := Index(Pos(lap + 1, 0), mark)), PopWaitWrite(lap, BLOCK_CAP - 1, blk))
    case PopWaitWrite(lap, off, blk) =>
      if !Live(m, blk) then Fault
      else Next(m, if m.blocks[blk].slots[off].write then PopRead(lap, off, blk) else pc)
    case PopRead(lap, off, blk) =>
      if !Live(m, blk) || m.blocks[blk].slots[off].value.None? then Fault else
      var res := m.blocks[blk].slots[off].value.value;
      Next(m, if off + 1 == BLOCK_CAP then Destroy(lap, off, blk, res, 0) else PopMarkRead(lap, off, blk, res))
    case PopMarkRead(lap, off, blk, res) =>
      if !Live(m, blk) then Fault else
      var m' := SetSlot(m, blk, off, m.blocks[blk].slots[off].(read := true));
      if m.blocks[blk].slots[off].destroy then Next(m', Destroy(lap, off, blk, res, off + 1))
      else Return(m', PopOk(res))
    case Destroy(lap, off, blk, res, i) =>
      if !Live(m, blk) then Fault
      else if i >= BLOCK_CAP - 1 then Return(Free(m, blk), PopOk(res))
      else if m.blocks[blk].slots[i].read then Next(m, Destroy(lap, off, blk, res, i + 1))
      else Next(m, DestroyMark(lap, off, blk, res, i))
    case DestroyMark(lap, off, blk, res, i) =>
      if !Live(m, blk) then Fault else
      var m' := SetSlot(m, blk, i, m.blocks[blk].slots[i].(destroy := true));
      if m.blocks[blk].slots[i].read then Next(m', Destroy(lap, off, blk, res, i + 1))
      else Return(m', PopOk(res))
  }

  /** The body of the push loop, from the closed check to the compare-exchange. */
  function ExecPushTry(m: Memory, v: Value, spare: Option<Bid>, tail: Index, block: Option<Bid>,
      spurious: bool): Outcome {
    if tail.mark then
      if SpareLive(m, spare) then Return(DropSpare(m, spare), PushErr(v)) else Fault
    else if tail.pos.off >= BLOCK_CAP then
      Next(m, PushLoadIndex(v, spare))
    else if tail.pos.off + 1 == BLOCK_CAP && spare.None? then
      Next(Alloc(m), PushTry(v, Some(|m.blocks|), tail, block))
    else if block.None? then
      var first := |m.blocks|;
      if m.tailBlock.None? then
        Next(Alloc(m).(tailBlock := Some(first)), PushSetHead(v, spare, tail, first))
      else if SpareLive(m, spare) then
        Next(DropSpare(Alloc(m), spare), PushLoadIndex(v, Some(first)))
      else Fault
    else if m.tail == tail && !spurious then
      var m' := m.(tail := Index(Succ(tail.pos), false));
      if tail.pos.off + 1 == BLOCK_CAP then
        Next(m', PushInstallBlock(v, tail.pos.lap, block.value, spare.value))
      else
        Next(m', PushWrite(v, spare, tail.pos.lap, tail.pos.off, block.value))
    else
      Next(m, PushLoadBlock(v, spare, m.tail))
  }

  /** The null check and the compare-exchange of the pop loop. */
  function ExecPopClaim(m: Memory, head: Index, block: Option<Bid>, mark: bool, spurious: bool): Outcome {
    if block.None? || head.pos.off >= BLOCK_CAP then
      Next(m, PopLoadIndex)
    else if m.head == head && !spurious then
      var m' := m.(head := Index(Succ(head.pos), mark));
      if head.pos.off + 1 == BLOCK_CAP then
        Next(m', PopWaitNext(head.pos.lap, block.value))
      else
        Next(m', PopWaitWrite(head.pos.lap, head.pos.off, block.value))
    else
      Next(m, PopLoadBlock(m.head))
  }

  // ----- history variables: they record what happened and never influence a step -----

  /** What became of a block: the block of a lap, still private to a pushing thread, or dropped unused. */
  datatype Home = OfLap(k: nat) | SpareOf(t: Tid) | Dropped

  /** How far the reclamation of a lap's block has come. */
  datatype Reclaim = NotStarted | Running(t: Tid, i: nat) | Parked(i: nat) | Freed

  datatype History = History(
    chain: seq<Bid>,              // chain[k] is the block of lap k
    reclaim: seq<Reclaim>,        // one entry for each lap
    home: seq<Home>,              // one entry for each block
    pushed: seq<Value>,           // values in the order of the winning compare-exchanges on tail
    pushBy: map<Pos, Tid>,        // who won each position for writing
    popBy: map<Pos, Tid>,         // who won each position for reading
    returned: map<Pos, Value>,    // what the pop that won a position returned
    installer: Tid)               // who installed the first block

  function DropHome(home: seq<Home>, spare: Option<Bid>): seq<Home> {
    if spare.Some? && spare.value < |home| then home[spare.value := Dropped] else home
  }

  function Record(h: History, t: Tid, pc: PC, out: Outcome): History {
    match pc
    case PushTry(v, spare, tail, block) =>
      if out.Return? then h.(home := DropHome(h.home, spare))
      else if !out.Next? then h
      else if out.pc.PushTry? then h.(home := h.home + [SpareOf(t)])
      else if out.pc.PushLoadIndex? && out.pc.spare != spare then
        h.(home := DropHome(h.home, spare) + [SpareOf(t)])
      else if out.pc.PushSetHead? then
        h.(chain := h.chain + [out.pc.first], reclaim := h.reclaim + [NotStarted],
           home := h.home + [OfLap(|h.chain|)], installer := t)
      else if out.pc.PushInstallBlock? || out.pc.PushWrite? then
        h.(pushed := h.pushed + [v], pushBy := h.pushBy[tail.pos := t])
      else h
    case PushInstallBlock(v, lap, blk, next) =>
      h.(chain := h.chain + [next], reclaim := h.reclaim + [NotStarted],
         home := if next < |h.home| then h.home[next := OfLap(|h.chain|)] else h.home)
    case PushMark(v, spare, lap, off, blk) =>
      h.(home := DropHome(h.home, spare))
    case PopClaim(head, block, mark) =>
      if out.Next? && (out.pc.PopWaitNext? || out.pc.PopWaitWrite?) then h.(popBy := h.popBy[head.pos := t]) else h
    case PopRead(lap, off, blk) =>
      if out.Next? && out.pc.Destroy? then SetReclaim(h, lap, Running(t, 0)) else h
    case PopMarkRead(lap, off, blk, res) =>
      if out.Next? then SetReclaim(h, lap, Running(t, off + 1))
      else h.(returned := h.returned[Pos(lap, off) := res])
    case Destroy(lap, off, blk, res, i) =>
      if out.Return? then SetReclaim(h, lap, Freed).(returned := h.returned[Pos(lap, off) := res])
      else if out.Next? && out.pc.Destroy? then SetReclaim(h, lap, Running(t, i + 1))
      else h
    case DestroyMark(lap, off, blk, res, i) =>
      if out.Return? then SetReclaim(h, lap, Parked(i)).(returned := h.returned[Pos(lap, off) := res])
      else SetReclaim(h, lap, Running(t, i + 1))
    case _ => h
  }

  function SetReclaim(h: History, lap: nat, r: Reclaim): History {
    if lap < |h.reclaim| then h.(reclaim := h.reclaim[lap := r]) else h
  }

  // ----- the whole system -----

  datatype State = State(mem: Memory, threads: map<Tid, PC>, hist: History, fault: bool)

  const ZERO := Index(Pos(0, 0), false)

  const INITIAL := State(
    Memory(ZERO, None, ZERO, None, [], {}), map[],
    History([], [], [], [], map[], map[], map[], 0), false)

  /** `Run` lets a thread take one step; the others start an operation, or close the queue. */
  datatype Event = StartPush(t: Tid, v: Value) | StartPop(t: Tid) | Close | Run(t: Tid, spurious: bool)

  function Step(s: State, e: Event): State {
    match e
    case StartPush(t, v) =>
      if t in s.threads then s else s.(threads := s.threads[t := PushLoadIndex(v, None)])
    case StartPop(t) =>
      if t in s.threads then s else s.(threads := s.threads[t := PopLoadIndex])
    case Close =>
      s.(mem := s.mem.(tail := s.mem.tail.(mark := true)))
    case Run(t, spurious) =>
      if t !in s.threads then s else RunThread(s, t, spurious)
  }

  function RunThread(s: State, t: Tid, spurious: bool): State
    requires t in s.threads
  {
    var pc := s.threads[t];
    var out := Exec(s.mem, pc, spurious);
    var h := Record(s.hist, t, pc, out);
    match out
    case Fault => s.(fault := true)
    case Next(m, pc') => State(m, s.threads[t := pc'], h, s.fault)
    case Return(m, _) => State(m, s.threads - {t}, h, s.fault)
  }

  /** The state after a sequence of events: every interleaving of every number of operations. */
  function After(events: seq<Event>): State {
    if events == [] then INITIAL else Step(After(events[..|events| - 1]), events[|events| - 1])
  }
}
