/**
 What a step leaves alone.

 `Rely` is what a step of thread `t` guarantees to every other thread; `OthersStable` shows that it
 keeps what the others know.  The `Keep` lemmas carry one part of the invariant over a step that
 does not touch what that part speaks about.
 */
module QueueFrames {
  import opened Prelude
  import opened PackedIndex
  import opened QueueModel
  import opened QueueInvariant

  // ----- interference -----

  ghost predicate Prefix<X>(a: seq<X>, b: seq<X>) {
    |a| <= |b| && forall i :: 0 <= i < |a| ==> b[i] == a[i]
  }

  ghost predicate Extends<K, V>(a: map<K, V>, b: map<K, V>) {
    forall k :: k in a ==> k in b && b[k] == a[k]
  }

  ghost predicate RelyWords(s: State, s': State, t: Tid) {
    var m, m', h, h' := s.mem, s'.mem, s.hist, s'.hist;
    && AtOrBefore(m.tail.pos, m'.tail.pos) && (m.tail.mark ==> m'.tail.mark)
    && AtOrBefore(m.head.pos, m'.head.pos)
    && (m.headBlock.Some? ==> m'.headBlock.Some?)
    && (m.headBlock.None? && |h.chain| > 0 && h.installer != t ==> m'.headBlock.None?)
    && (|h.chain| > 0 ==> h'.installer == h.installer)
    && (m.tail.pos.off == BLOCK_CAP ==>
          forall p :: p == Pos(m.tail.pos.lap, BLOCK_CAP - 1) && p in h.pushBy && h.pushBy[p] != t ==>
            m'.tail.pos == m.tail.pos && |h'.chain| == |h.chain|)
    && (m.head.pos.off == BLOCK_CAP ==>
          forall p :: p == Pos(m.head.pos.lap, BLOCK_CAP - 1) && p in h.popBy && h.popBy[p] != t ==>
            m'.head == m.head && m'.headBlock == m.headBlock)
  }

  ghost predicate RelyHistory(s: State, s': State, t: Tid) {
    var h, h' := s.hist, s'.hist;
    && |h.home| <= |h'.home|
    && (forall b :: 0 <= b < |h.home| && h.home[b].SpareOf? && h.home[b].t != t ==> h'.home[b] == h.home[b])
    && Prefix(h.chain, h'.chain) && Prefix(h.pushed, h'.pushed)
    && Extends(h.pushBy, h'.pushBy) && Extends(h.popBy, h'.popBy)
    && (forall p :: p in h.popBy && h.popBy[p] != t && p !in h.returned ==> p !in h'.returned)
    && |h.reclaim| <= |h'.reclaim|
    && (forall k :: 0 <= k < |h.reclaim| && h.reclaim[k].Running? && h.reclaim[k].t != t ==>
          h'.reclaim[k] == h.reclaim[k])
    && (forall k :: 0 <= k < |h.reclaim| && h.reclaim[k].NotStarted? && h'.reclaim[k] != NotStarted ==>
          forall p :: p == Pos(k, BLOCK_CAP - 1) && p in h.popBy ==> h.popBy[p] == t)
  }

  ghost predicate RelySlot(s: State, s': State, t: Tid, k: nat, o: nat) {
    var p, slot, slot' := Pos(k, o), SlotOf(s, k, o), SlotOf(s', k, o);
    && (slot.write ==> slot'.write) && (slot.read ==> slot'.read)
    && (p in s.hist.pushBy && s.hist.pushBy[p] != t ==> slot'.write == slot.write && slot'.value == slot.value)
    && (p in s.hist.popBy && s.hist.popBy[p] != t ==> slot'.read == slot.read)
  }

  ghost predicate Rely(s: State, s': State, t: Tid) {
    RelyWords(s, s', t) && RelyHistory(s, s', t) &&
    forall k, o :: 0 <= k < |s.hist.chain| && 0 <= o < BLOCK_CAP ==> RelySlot(s, s', t, k, o)
  }

  /** A step that touches neither the history nor a slot only has to respect the words. */
  lemma RelyOnWords(s: State, s': State, t: Tid)
    requires RelyWords(s, s', t) && s'.hist == s.hist
    requires forall k, o :: 0 <= k < |s.hist.chain| && 0 <= o < BLOCK_CAP ==> SlotOf(s', k, o) == SlotOf(s, k, o)
    ensures Rely(s, s', t)
  {
  }

  /** A step that changes one slot only has to respect that slot and the history. */
  lemma RelyOnSlot(s: State, s': State, t: Tid, k: nat, o: nat)
    requires RelyHistory(s, s', t) && RelySlot(s, s', t, k, o)
    requires s'.mem == s.mem.(blocks := s'.mem.blocks, freed := s'.mem.freed)
    requires s'.hist.chain == s.hist.chain && s'.hist.installer == s.hist.installer
    requires forall j, i :: 0 <= j < |s.hist.chain| && 0 <= i < BLOCK_CAP && (j != k || i != o) ==>
               SlotOf(s', j, i) == SlotOf(s, j, i)
    ensures Rely(s, s', t)
  {
    forall j, i | 0 <= j < |s.hist.chain| && 0 <= i < BLOCK_CAP ensures RelySlot(s, s', t, j, i) {
    }
  }

  /** What a thread knows survives the steps of the others. */
  lemma StablePush(s: State, s': State, t: Tid, u: Tid, pc: PC)
    requires Rely(s, s', t) && u != t && ThreadOk(s, u, pc) && Ends(s)
    requires ReadAt(pc).None?
    ensures ThreadOk(s', u, pc)
  {
    StableSpare(s, s', t, u, SpareIn(pc));
    if pc.PushWrite? || pc.PushMark? { StableWriter(s, s', t, u, pc); }
    else if WriteAt(pc).Some? { StableInstaller(s, s', t, u, pc); }
    else if pc.PushLoadIndex? || pc.PushLoadBlock? || pc.PushTry? || pc.PushSetHead? { StablePusher(s, s', t, u, pc); }
    else { StablePopper(s, s', t, u, pc); }
  }

  lemma StableSpare(s: State, s': State, t: Tid, u: Tid, spare: Option<Bid>)
    requires RelyHistory(s, s', t) && u != t && SpareOk(s, u, spare)
    ensures SpareOk(s', u, spare)
  {
  }

  /** A position won for writing stays won and unwritten. */
  lemma StableOwned(s: State, s': State, t: Tid, u: Tid, p: Pos, blk: Bid, v: Value)
    requires Rely(s, s', t) && u != t && OwnsWrite(s, u, p, blk, v)
    ensures OwnsWrite(s', u, p, blk, v) && SlotOf(s', p.lap, p.off).value == SlotOf(s, p.lap, p.off).value
  {
    assert RelySlot(s, s', t, p.lap, p.off);
  }

  lemma StableWriter(s: State, s': State, t: Tid, u: Tid, pc: PC)
    requires Rely(s, s', t) && u != t && ThreadOk(s, u, pc) && (pc.PushWrite? || pc.PushMark?)
    requires SpareOk(s', u, SpareIn(pc))
    ensures ThreadOk(s', u, pc)
  {
    StableOwned(s, s', t, u, Pos(pc.lap, pc.off), pc.blk, pc.v);
  }

  lemma StableInstaller(s: State, s': State, t: Tid, u: Tid, pc: PC)
    requires Rely(s, s', t) && u != t && ThreadOk(s, u, pc)
    requires pc.PushInstallBlock? || pc.PushInstallIndex? || pc.PushInstallNext?
    requires SpareOk(s', u, SpareIn(pc))
    ensures ThreadOk(s', u, pc)
  {
    StableOwned(s, s', t, u, Pos(pc.lap, BLOCK_CAP - 1), pc.blk, pc.v);
  }

  lemma StablePusher(s: State, s': State, t: Tid, u: Tid, pc: PC)
    requires Rely(s, s', t) && u != t && ThreadOk(s, u, pc) && Ends(s)
    requires pc.PushLoadIndex? || pc.PushLoadBlock? || pc.PushTry? || pc.PushSetHead?
    requires SpareOk(s', u, SpareIn(pc))
    ensures ThreadOk(s', u, pc)
  {
  }

  lemma StablePopper(s: State, s': State, t: Tid, u: Tid, pc: PC)
    requires Rely(s, s', t) && u != t && ThreadOk(s, u, pc) && Ends(s)
    requires pc.PopLoadIndex? || pc.PopLoadBlock? || pc.PopTry? || pc.PopClaim?
    ensures ThreadOk(s', u, pc)
  {
  }

  lemma StablePop(s: State, s': State, t: Tid, u: Tid, pc: PC)
    requires Rely(s, s', t) && u != t && ThreadOk(s, u, pc)
    requires ReadAt(pc).Some?
    ensures ThreadOk(s', u, pc)
  {
    var p := ReadAt(pc).value;
    assert RelySlot(s, s', t, p.lap, p.off);
  }

  /** Only thread `t` changed, and it is fine where it is now. */
  ghost predicate OnlyMoved(s: State, s': State, t: Tid) {
    && (forall u :: u in s'.threads && u != t ==> u in s.threads && s'.threads[u] == s.threads[u])
    && (forall u :: u in s.threads && u != t ==> u in s'.threads)
  }

  lemma OthersStable(s: State, s': State, t: Tid)
    requires Threads(s) && Ends(s) && Rely(s, s', t) && OnlyMoved(s, s', t)
    requires t in s'.threads ==> ThreadOk(s', t, s'.threads[t])
    ensures Threads(s')
  {
    forall u | u in s'.threads ensures ThreadOk(s', u, s'.threads[u]) {
      if u != t {
        var pc := s.threads[u];
        assert ThreadOk(s, u, pc);
        if ReadAt(pc).Some? { StablePop(s, s', t, u, pc); } else { StablePush(s, s', t, u, pc); }
      }
    }
  }

  // ----- parts of the invariant that a step does not touch -----

  ghost predicate KeepsSpares(s: State, s': State) {
    forall u :: RoleAt(s, u).spare.Some? ==> RoleAt(s', u).spare == RoleAt(s, u).spare
  }

  ghost predicate KeepsWrites(s: State, s': State) {
    forall u :: RoleAt(s, u).write.Some? ==> RoleAt(s', u).write == RoleAt(s, u).write
  }

  ghost predicate KeepsReads(s: State, s': State) {
    forall u :: RoleAt(s, u).read.Some? ==> RoleAt(s', u).read == RoleAt(s, u).read
  }

  /** The stages the parts `Ends`, `Links` and `Reclamation` speak about. */
  predicate EndStage(g: Stage) {
    g.SetsHead? || g.InstallsBlock? || g.InstallsIndex? || g.Advances?
  }

  predicate LinkStage(g: Stage) {
    g.InstallsIndex? || g.InstallsLink?
  }

  ghost predicate KeepsEndStages(s: State, s': State) {
    forall u :: EndStage(RoleAt(s, u).stage) ==> RoleAt(s', u).stage == RoleAt(s, u).stage
  }

  ghost predicate KeepsLinkStages(s: State, s': State) {
    forall u :: LinkStage(RoleAt(s, u).stage) ==> RoleAt(s', u).stage == RoleAt(s, u).stage
  }

  ghost predicate KeepsReclaimStages(s: State, s': State) {
    forall u :: RoleAt(s, u).stage.Reclaims? ==> RoleAt(s', u).stage == RoleAt(s, u).stage
  }

  ghost predicate KeepsSpareBlocks(s: State, s': State) {
    forall b :: 0 <= b < |s.mem.blocks| && b < |s.hist.home| && s.hist.home[b].SpareOf? ==>
      b < |s'.mem.blocks| && s'.mem.blocks[b] == s.mem.blocks[b]
  }

  lemma KeepBlocks(s: State, s': State)
    requires Blocks(s) && KeepsSpares(s, s')
    requires |s'.mem.blocks| == |s.mem.blocks| && s'.mem.freed == s.mem.freed && KeepsSpareBlocks(s, s')
    requires s'.hist.home == s.hist.home && s'.hist.chain == s.hist.chain
    requires |s'.hist.reclaim| == |s.hist.reclaim|
    requires forall k :: 0 <= k < |s.hist.reclaim| ==> (s'.hist.reclaim[k] == Freed <==> s.hist.reclaim[k] == Freed)
    ensures Blocks(s')
  {
  }

  lemma KeepEnds(s: State, s': State)
    requires Ends(s) && KeepsEndStages(s, s')
    requires s'.mem.head == s.mem.head && s'.mem.headBlock == s.mem.headBlock
    requires s'.mem.tail.pos == s.mem.tail.pos && s'.mem.tailBlock == s.mem.tailBlock
    requires s'.hist.chain == s.hist.chain && s'.hist.pushed == s.hist.pushed
    requires s'.hist.pushBy == s.hist.pushBy && s'.hist.popBy == s.hist.popBy
    requires s'.hist.installer == s.hist.installer
    ensures Ends(s')
  {
  }

  lemma KeepLinks(s: State, s': State)
    requires Links(s) && KeepsLinkStages(s, s')
    requires s'.hist.chain == s.hist.chain && Extends(s.hist.pushBy, s'.hist.pushBy)
    requires s.mem.tail.pos.lap <= s'.mem.tail.pos.lap
    requires forall k :: 0 <= k < |s.hist.chain| ==> NextOf(s', k) == NextOf(s, k)
    ensures Links(s')
  {
    forall k | 0 <= k < |s'.hist.chain| ensures LinkOk(s', k) {
      assert LinkOk(s, k);
    }
  }

  /** Slots keep their values; READ and DESTROY change only behind the tail. */
  ghost predicate KeepsWritten(s: State, s': State) {
    forall k, o :: 0 <= k < |s.hist.chain| && 0 <= o < BLOCK_CAP ==>
      var slot, slot' := SlotOf(s, k, o), SlotOf(s', k, o);
      && slot'.write == slot.write && slot'.value == slot.value
      && (Before(Pos(k, o), s.mem.tail.pos) || slot' == slot)
  }

  lemma KeepWrites(s: State, s': State)
    requires Writes(s) && KeepsWrites(s, s') && KeepsWritten(s, s')
    requires s'.hist.chain == s.hist.chain && s'.hist.pushBy == s.hist.pushBy && s'.hist.pushed == s.hist.pushed
    requires s'.mem.tail.pos == s.mem.tail.pos
    ensures Writes(s')
  {
    forall k, o | 0 <= k < |s'.hist.chain| && 0 <= o < BLOCK_CAP ensures WriteOk(s', k, o) {
      assert WriteOk(s, k, o);
    }
  }

  lemma KeepReads(s: State, s': State)
    requires Reads(s) && KeepsReads(s, s')
    requires s'.hist.chain == s.hist.chain && s'.hist.popBy == s.hist.popBy && s'.hist.returned == s.hist.returned
    requires Prefix(s.hist.pushed, s'.hist.pushed) && s'.mem.head.pos == s.mem.head.pos
    requires |s.hist.reclaim| == |s'.hist.reclaim|
    requires forall k :: 0 <= k < |s.hist.reclaim| && s.hist.reclaim[k] != NotStarted ==>
        s'.hist.reclaim[k] != NotStarted
    requires forall k, o :: 0 <= k < |s.hist.chain| && 0 <= o < BLOCK_CAP ==>
               SlotOf(s', k, o).read == SlotOf(s, k, o).read && (SlotOf(s, k, o).write ==> SlotOf(s', k, o).write)
    ensures Reads(s')
  {
    forall k, o | 0 <= k < |s'.hist.chain| && 0 <= o < BLOCK_CAP ensures ReadOk(s', k, o) {
      assert ReadOk(s, k, o);
    }
  }

  lemma KeepReclaim(s: State, s': State, k: nat)
    requires k < |s.hist.reclaim| && k < |s'.hist.reclaim| && ReclaimOk(s, k)
    requires s'.hist.reclaim[k] == s.hist.reclaim[k]
    requires s.hist.reclaim[k].Running? ==>
               RoleAt(s', s.hist.reclaim[k].t).stage == RoleAt(s, s.hist.reclaim[k].t).stage
    requires s.mem.head.pos.lap <= s'.mem.head.pos.lap
    requires forall o :: 0 <= o < BLOCK_CAP ==>
               && SlotOf(s', k, o).destroy == SlotOf(s, k, o).destroy
               && (SlotOf(s, k, o).read ==> SlotOf(s', k, o).read)
               && (SlotOf(s, k, o).write ==> SlotOf(s', k, o).write)
    requires s.hist.reclaim[k].Parked? && s.hist.reclaim[k].i < BLOCK_CAP ==>
               SlotOf(s', k, s.hist.reclaim[k].i).read == SlotOf(s, k, s.hist.reclaim[k].i).read
    ensures ReclaimOk(s', k)
  {
  }

  ghost predicate KeepsSlots(s: State, s': State) {
    forall k, o :: 0 <= k < |s.hist.chain| && 0 <= o < BLOCK_CAP ==> SlotOf(s', k, o) == SlotOf(s, k, o)
  }

  lemma KeepReclamation(s: State, s': State)
    requires Reclamation(s) && KeepsReclaimStages(s, s') && |s.hist.chain| == |s.hist.reclaim|
    requires s'.hist.reclaim == s.hist.reclaim && s.mem.head.pos.lap <= s'.mem.head.pos.lap
    requires forall k, o :: 0 <= k < |s.hist.chain| && 0 <= o < BLOCK_CAP ==>
               && SlotOf(s', k, o).destroy == SlotOf(s, k, o).destroy
               && SlotOf(s', k, o).read == SlotOf(s, k, o).read
               && (SlotOf(s, k, o).write ==> SlotOf(s', k, o).write)
    ensures Reclamation(s')
  {
    forall k | 0 <= k < |s'.hist.reclaim| ensures ReclaimOk(s', k) {
      assert ReclaimOk(s, k);
      KeepReclaim(s, s', k);
    }
  }

  /** A step that changes no memory and no history, and after which every thread holds what it held. */
  lemma Quiet(s: State, s': State, t: Tid)
    requires Inv(s) && OnlyMoved(s, s', t)
    requires s'.mem == s.mem && s'.hist == s.hist && !s'.fault
    requires RoleAt(s', t) == RoleAt(s, t)
    requires t in s'.threads ==> ThreadOk(s, t, s'.threads[t])
    ensures Inv(s')
  {
    SameRoles(s, s', t);
    KeepBlocks(s, s');
    KeepEnds(s, s');
    KeepLinks(s, s');
    KeepWrites(s, s');
    KeepReads(s, s');
    KeepReclamation(s, s');
    SameThreads(s, s', t);
  }

  lemma SameRoles(s: State, s': State, t: Tid)
    requires OnlyMoved(s, s', t)
    ensures forall u :: u != t ==> RoleAt(s', u) == RoleAt(s, u)
    ensures RoleAt(s', t) == RoleAt(s, t) ==> forall u :: RoleAt(s', u) == RoleAt(s, u)
  {
  }

  lemma SameThreads(s: State, s': State, t: Tid)
    requires Threads(s) && OnlyMoved(s, s', t) && s'.mem == s.mem && s'.hist == s.hist
    requires t in s'.threads ==> ThreadOk(s, t, s'.threads[t])
    ensures Threads(s')
  {
    forall u | u in s'.threads ensures ThreadOk(s', u, s'.threads[u]) {
      var pc := s'.threads[u];
      if u != t {
        assert u in s.threads && ThreadOk(s, u, s.threads[u]);
      }
      SameKnowledge(s, s', u, pc);
    }
  }

  lemma SameKnowledge(s: State, s': State, u: Tid, pc: PC)
    requires ThreadOk(s, u, pc) && s'.mem == s.mem && s'.hist == s.hist
    ensures ThreadOk(s', u, pc)
  {
    if WriteAt(pc).Some? {
      var p := WriteAt(pc).value;
      assert SlotOf(s', p.lap, p.off) == SlotOf(s, p.lap, p.off);
    }
    if ReadAt(pc).Some? {
      var p := ReadAt(pc).value;
      assert SlotOf(s', p.lap, p.off) == SlotOf(s, p.lap, p.off);
    }
  }
}
