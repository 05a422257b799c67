/**
 * The three data-cache coherence transactions of core zero, as values: the local line (core
 * zero, 8 lines, line b mod 8), the peer line (core one, 4 lines, line b mod 4) and the data
 * memory before and after. The data-cache helpers the transactions call are declared nowhere in
 * the repository; their assumed meaning is `WriteBack`, `Fetch` and `CopyFrom` below.
 */
module Coherence {
  import C = SimulationConstants
  import opened CachePositions

  /** The three things a transaction may change. */
  datatype Transaction = Transaction(local: Line, peer: Line, memory: seq<seq<int>>)

  /** Assumed `writeBlockToMemory`: memory block `line.tag` becomes a copy of the line's words. */
  function WriteBack(memory: seq<seq<int>>, line: Line): (m: seq<seq<int>>)
    requires 0 <= line.tag < |memory|
    ensures |m| == |memory| && m[line.tag] == line.words
    ensures forall k :: 0 <= k < |memory| && k != line.tag ==> m[k] == memory[k]
  {
    memory[line.tag := line.words]
  }

  /** Assumed `getBlockFromMemory`: the line gets tag b and a copy of memory block b; its state stays. */
  function Fetch(memory: seq<seq<int>>, b: int, line: Line): (l: Line)
    requires 0 <= b < |memory|
    ensures l.tag == b && l.words == memory[b] && l.state == line.state
  {
    line.(tag := b, words := memory[b])
  }

  /** Assumed `setPositionFromAnother`: tag and words are copied from the peer; the state stays. */
  function CopyFrom(local: Line, peer: Line): (l: Line)
    ensures l.tag == peer.tag && l.words == peer.words && l.state == local.state
  {
    local.(tag := peer.tag, words := peer.words)
  }

  /** A holder of another block in MODIFIED is written back before the line is reused. */
  function Evict(memory: seq<seq<int>>, local: Line, b: int): seq<seq<int>>
    requires local.state == Modified ==> 0 <= local.tag < |memory|
  {
    if local.tag != b && local.state == Modified then WriteBack(memory, local) else memory
  }

  predicate PeerHolds(peer: Line, b: int, s: CachePositionState) {
    peer.tag == b && peer.state == s
  }

  /**
   * Block b has a line in core zero's cache: the line number Java's `%` gives for it
   * (AbstractCore.java:447-452) is not negative. That holds for every block from 0 up and for
   * the negative multiples of 8, and then the line number is b mod 8 and the peer's b mod 4.
   */
  predicate HasLine(b: int) {
    0 <= b || b % C.TOTAL_CORE_ZERO_CACHE_POSITIONS == 0
  }

  ghost predicate Sane(local: Line, peer: Line, memory: seq<seq<int>>, b: int) {
    0 <= b < |memory|
    && (local.state == Modified ==> 0 <= local.tag < |memory|)
  }

  /**
   * A transaction's lines and memory as the system keeps them: block-sized lines and blocks,
   * and a MODIFIED local line holding a block that exists.
   */
  ghost predicate Shaped(t: Transaction, b: int) {
    HasLine(b) && (t.local.state == Modified ==> 0 <= t.local.tag < |t.memory|)
    && |t.local.words| == C.TOTAL_DATA_BLOCK_WORDS && |t.peer.words| == C.TOTAL_DATA_BLOCK_WORDS
    && forall k :: 0 <= k < |t.memory| ==> |t.memory[k]| == C.TOTAL_DATA_BLOCK_WORDS
  }

  /** After any eviction: a MODIFIED peer copy is written back and copied in (and demoted), else memory is read. */
  function LoadFill(local: Line, peer: Line, memory: seq<seq<int>>, b: int): (t: Transaction)
    requires 0 <= b < |memory|
    ensures t.local.tag == b && t.local.state == local.state
  {
    if PeerHolds(peer, b, Modified) then
      Transaction(CopyFrom(local, peer), peer.(state := Shared), WriteBack(memory, peer))
    else
      Transaction(Fetch(memory, b, local), peer, memory)
  }

  /** Load miss as written (CoreZero.java:430-453): the local line's state is never set. */
  function LoadMissAsWritten(local: Line, peer: Line, memory: seq<seq<int>>, b: int): (t: Transaction)
    requires Sane(local, peer, memory, b)
    ensures t.local.tag == b && t.local.state == local.state
  {
    LoadFill(local, peer, Evict(memory, local, b), b)
  }

  /** A load miss on lines and memory of block size leaves a block-sized local line. */
  lemma LoadMissKeepsShape(local: Line, peer: Line, memory: seq<seq<int>>, b: int)
    requires Shaped(Transaction(local, peer, memory), b) && 0 <= b < |memory|
    ensures |LoadMissAsWritten(local, peer, memory, b).local.words| == C.TOTAL_DATA_BLOCK_WORDS
  {
  }

  /** Load miss with the evidently intended final state: the fetched copy is SHARED. */
  function LoadMiss(local: Line, peer: Line, memory: seq<seq<int>>, b: int): (t: Transaction)
    requires Sane(local, peer, memory, b)
    ensures t.local.tag == b && t.local.state == Shared
    ensures t.peer.tag == peer.tag && t.peer.words == peer.words
    ensures t.peer.state == if PeerHolds(peer, b, Modified) then Shared else peer.state
  {
    var t := LoadMissAsWritten(local, peer, memory, b);
    t.(local := t.local.(state := Shared))
  }

  /** After any eviction: the block comes from a MODIFIED peer (written back) or from memory; the peer copy is invalidated. */
  function StoreFill(local: Line, peer: Line, memory: seq<seq<int>>, b: int): (t: Transaction)
    requires 0 <= b < |memory|
    ensures t.local.tag == b && t.local.state == Modified
  {
    if peer.tag != b || peer.state == Invalid then
      Transaction(Fetch(memory, b, local).(state := Modified), peer, memory)
    else if peer.state == Modified then
      Transaction(CopyFrom(local, peer).(state := Modified), peer.(state := Invalid), WriteBack(memory, peer))
    else
      Transaction(Fetch(memory, b, local).(state := Modified), peer.(state := Invalid), memory)
  }

  /**
   * The fill of a block that lies outside the data memory. Its first memory access faults
   * (DataBus.java:30): the write-back of a MODIFIED peer copy at CoreZero.java:446 or 559, or
   * the read of the block at 451, 552 or 569. The local line is not touched. A store miss has
   * by then invalidated a SHARED peer copy (CoreZero.java:567); otherwise the peer is unchanged.
   */
  function FillBeyondMemory(local: Line, peer: Line, memory: seq<seq<int>>, b: int, store: bool): (t: Transaction)
    requires !(0 <= b < |memory|)
    ensures t.local == local && t.memory == memory
    ensures t.peer.tag == peer.tag && t.peer.words == peer.words
    ensures t.peer.state != peer.state ==> store && peer.tag == b && t.peer.state == Invalid
  {
    if store && PeerHolds(peer, b, Shared) then Transaction(local, peer.(state := Invalid), memory)
    else Transaction(local, peer, memory)
  }

  /** The fill of a store miss on lines and memory of block size leaves a block-sized local line. */
  lemma StoreFillKeepsShape(local: Line, peer: Line, memory: seq<seq<int>>, b: int)
    requires Shaped(Transaction(local, peer, memory), b) && 0 <= b < |memory|
    ensures |StoreFill(local, peer, Evict(memory, local, b), b).local.words| == C.TOTAL_DATA_BLOCK_WORDS
  {
  }

  /** Store miss (CoreZero.java:536-577): the line ends MODIFIED holding the stored word. */
  function StoreMiss(local: Line, peer: Line, memory: seq<seq<int>>, b: int, offset: int, value: int): (t: Transaction)
    requires Sane(local, peer, memory, b)
    requires 0 <= offset < |memory[b]| && (PeerHolds(peer, b, Modified) ==> offset < |peer.words|)
    ensures t.local.tag == b && t.local.state == Modified
    ensures t.peer.tag == peer.tag && t.peer.words == peer.words
    ensures t.peer.state == if peer.tag == b then Invalid else peer.state
  {
    var t := StoreFill(local, peer, Evict(memory, local, b), b);
    t.(local := t.local.(words := t.local.words[offset := value]))
  }

  /**
   * Store hit as written (CoreZero.java:613-653): a MODIFIED line is written in place; otherwise
   * the line becomes MODIFIED and the peer is invalidated only when it holds the block in a
   * state other than SHARED.
   */
  function StoreHitAsWritten(local: Line, peer: Line, memory: seq<seq<int>>, b: int, offset: int, value: int): (t: Transaction)
    requires 0 <= offset < |local.words|
    ensures t.memory == memory && t.local.tag == local.tag && t.local.state == Modified
    ensures t.local.words == local.words[offset := value]
  {
    if local.state == Modified then
      Transaction(local.(words := local.words[offset := value]), peer, memory)
    else
      var p := if peer.tag == b && peer.state != Shared then peer.(state := Invalid) else peer;
      Transaction(local.(state := Modified, words := local.words[offset := value]), p, memory)
  }

  /**
   * The part of a store hit on a line not MODIFIED that comes before the word is stored
   * (CoreZero.java:646-650): the peer is invalidated as `StoreHitAsWritten` does it and the line
   * becomes MODIFIED, its words unchanged.
   */
  function StoreHitUpgradeAsWritten(local: Line, peer: Line, memory: seq<seq<int>>, b: int): (t: Transaction)
    ensures t.memory == memory && t.local.tag == local.tag && t.local.words == local.words
    ensures t.local.state == Modified
  {
    var p := if peer.tag == b && peer.state != Shared then peer.(state := Invalid) else peer;
    Transaction(local.(state := Modified), p, memory)
  }

  /** A store hit on a line not MODIFIED is the upgrade followed by the store of the word. */
  lemma StoreHitIsUpgradeThenStore(local: Line, peer: Line, memory: seq<seq<int>>, b: int, offset: int, value: int)
    requires local.state != Modified && 0 <= offset < |local.words|
    ensures var u := StoreHitUpgradeAsWritten(local, peer, memory, b);
      StoreHitAsWritten(local, peer, memory, b, offset, value) == u.(local := u.local.(words := u.local.words[offset := value]))
  {
  }

  /** Store hit as its comment describes it: a SHARED peer copy of the block is invalidated. */
  function StoreHit(local: Line, peer: Line, memory: seq<seq<int>>, b: int, offset: int, value: int): (t: Transaction)
    requires 0 <= offset < |local.words|
    ensures t.memory == memory && t.local.tag == local.tag && t.local.state == Modified
    ensures t.local.words == local.words[offset := value]
    ensures local.state != Modified && PeerHolds(peer, b, Shared) ==> t.peer == peer.(state := Invalid)
  {
    if local.state == Modified then
      Transaction(local.(words := local.words[offset := value]), peer, memory)
    else
      var p := if peer.tag == b && peer.state == Shared then peer.(state := Invalid) else peer;
      Transaction(local.(state := Modified, words := local.words[offset := value]), p, memory)
  }

  /**
   * The part of the corrected store hit that comes before the word is stored: a MODIFIED line
   * needs no upgrade; otherwise a SHARED peer copy is invalidated and the line becomes MODIFIED.
   */
  function StoreHitUpgrade(local: Line, peer: Line, memory: seq<seq<int>>, b: int): (t: Transaction)
    ensures t.memory == memory && t.local.tag == local.tag && t.local.words == local.words
    ensures t.local.state == Modified || t == Transaction(local, peer, memory)
    ensures local.state != Modified && PeerHolds(peer, b, Shared) ==> t.peer == peer.(state := Invalid)
  {
    if local.state == Modified then Transaction(local, peer, memory)
    else
      var p := if peer.tag == b && peer.state == Shared then peer.(state := Invalid) else peer;
      Transaction(local.(state := Modified), p, memory)
  }

  /** The corrected store hit is its upgrade followed by the store of the word. */
  lemma StoreHitIsIntendedUpgradeThenStore(local: Line, peer: Line, memory: seq<seq<int>>, b: int, offset: int,
                                           value: int)
    requires 0 <= offset < |local.words|
    ensures var u := StoreHitUpgrade(local, peer, memory, b);
      StoreHit(local, peer, memory, b, offset, value) == u.(local := u.local.(words := u.local.words[offset := value]))
  {
  }

  // ---------------------------------------------------------------- what the transactions promise

  /** Load miss: a dirty previous block is saved, and the word read is the latest value of the block. */
  lemma LoadMissReadsLatest(local: Line, peer: Line, memory: seq<seq<int>>, b: int, offset: int)
    requires Sane(local, peer, memory, b) && 0 <= offset < |memory[b]|
    requires PeerHolds(peer, b, Modified) ==> offset < |peer.words|
    ensures var t := LoadMissAsWritten(local, peer, memory, b);
      offset < |t.local.words|
      && t.local.words[offset] == (if PeerHolds(peer, b, Modified) then peer.words[offset] else memory[b][offset])
      && (local.tag != b && local.state == Modified ==> t.memory[local.tag] == local.words)
      && (PeerHolds(peer, b, Modified) ==> t.memory[b] == peer.words && t.peer.state == Shared)
      && LoadMiss(local, peer, memory, b).local.words == t.local.words
  {
  }

  /** Store miss: the stored word is in the line, the other words are the block's latest ones. */
  lemma StoreMissWritesLatest(local: Line, peer: Line, memory: seq<seq<int>>, b: int, offset: int, value: int)
    requires Sane(local, peer, memory, b) && 0 <= offset < |memory[b]|
    requires PeerHolds(peer, b, Modified) ==> |peer.words| == |memory[b]|
    ensures var t := StoreMiss(local, peer, memory, b, offset, value);
      var latest := if PeerHolds(peer, b, Modified) then peer.words else memory[b];
      t.local.words == latest[offset := value]
      && (local.tag != b && local.state == Modified ==> t.memory[local.tag] == local.words)
      && (PeerHolds(peer, b, Modified) ==> t.memory[b] == peer.words)
  {
  }

  // ---------------------------------------------------------------- the coherence invariant

  /** Two caches over the same memory, with the system's shape and direct mapping. */
  datatype Caches = Caches(zero: seq<Line>, one: seq<Line>, memory: seq<seq<int>>)

  ghost predicate Placed(lines: seq<Line>, n: nat)
    requires n > 0
  {
    forall k :: 0 <= k < |lines| ==>
      |lines[k].words| == C.TOTAL_DATA_BLOCK_WORDS
      && (lines[k].state != Invalid ==> 0 <= lines[k].tag < C.TOTAL_DATA_BLOCKS && lines[k].tag % n == k)
  }

  ghost predicate WellFormed(s: Caches) {
    |s.zero| == C.TOTAL_CORE_ZERO_CACHE_POSITIONS && |s.one| == C.TOTAL_FIRST_CORE_CACHE_POSITIONS
    && |s.memory| == C.TOTAL_DATA_BLOCKS
    && (forall k :: 0 <= k < |s.memory| ==> |s.memory[k]| == C.TOTAL_DATA_BLOCK_WORDS)
    && Placed(s.zero, C.TOTAL_CORE_ZERO_CACHE_POSITIONS) && Placed(s.one, C.TOTAL_FIRST_CORE_CACHE_POSITIONS)
  }

  /** Single writer: a MODIFIED copy of a block means the other cache's copy of it is INVALID. */
  ghost predicate Coherent(s: Caches) {
    forall i, j :: 0 <= i < |s.zero| && 0 <= j < |s.one| && s.zero[i].tag == s.one[j].tag ==>
      (s.zero[i].state == Modified ==> s.one[j].state == Invalid)
      && (s.one[j].state == Modified ==> s.zero[i].state == Invalid)
  }

  function ApplyAt(s: Caches, i: int, j: int, t: Transaction): (r: Caches)
    requires 0 <= i < |s.zero| && 0 <= j < |s.one|
    ensures r.zero == s.zero[i := t.local] && r.one == s.one[j := t.peer] && r.memory == t.memory
  {
    Caches(s.zero[i := t.local], s.one[j := t.peer], t.memory)
  }

  /** Block b's line in core zero (local) and in core one (peer). */
  function LocalIndex(b: int): int { b % C.TOTAL_CORE_ZERO_CACHE_POSITIONS }
  function PeerIndex(b: int): int { b % C.TOTAL_FIRST_CORE_CACHE_POSITIONS }

  ghost predicate InRange(s: Caches, b: int, offset: int) {
    WellFormed(s) && 0 <= b < C.TOTAL_DATA_BLOCKS && 0 <= offset < C.TOTAL_DATA_BLOCK_WORDS
  }

  ghost function SystemLoadMissAsWritten(s: Caches, b: int): Caches
    requires InRange(s, b, 0)
  {
    ApplyAt(s, LocalIndex(b), PeerIndex(b), LoadMissAsWritten(s.zero[LocalIndex(b)], s.one[PeerIndex(b)], s.memory, b))
  }

  ghost function SystemLoadMiss(s: Caches, b: int): Caches
    requires InRange(s, b, 0)
  {
    ApplyAt(s, LocalIndex(b), PeerIndex(b), LoadMiss(s.zero[LocalIndex(b)], s.one[PeerIndex(b)], s.memory, b))
  }

  ghost function SystemStoreMiss(s: Caches, b: int, offset: int, value: int): Caches
    requires InRange(s, b, offset)
  {
    ApplyAt(s, LocalIndex(b), PeerIndex(b),
      StoreMiss(s.zero[LocalIndex(b)], s.one[PeerIndex(b)], s.memory, b, offset, value))
  }

  /** A store hit locates the peer line from the local line's tag, which on a hit is b. */
  ghost predicate Hit(s: Caches, b: int) {
    0 <= b < C.TOTAL_DATA_BLOCKS && |s.zero| == C.TOTAL_CORE_ZERO_CACHE_POSITIONS
    && s.zero[LocalIndex(b)].tag == b && s.zero[LocalIndex(b)].state != Invalid
  }

  ghost function SystemStoreHitAsWritten(s: Caches, b: int, offset: int, value: int): Caches
    requires InRange(s, b, offset) && Hit(s, b)
  {
    ApplyAt(s, LocalIndex(b), PeerIndex(b),
      StoreHitAsWritten(s.zero[LocalIndex(b)], s.one[PeerIndex(b)], s.memory, b, offset, value))
  }

  ghost function SystemStoreHit(s: Caches, b: int, offset: int, value: int): Caches
    requires InRange(s, b, offset) && Hit(s, b)
  {
    ApplyAt(s, LocalIndex(b), PeerIndex(b),
      StoreHit(s.zero[LocalIndex(b)], s.one[PeerIndex(b)], s.memory, b, offset, value))
  }

  /** Only line b mod 8 of core zero and line b mod 4 of core one can hold block b. */
  lemma OnlyHomeLinesHold(s: Caches, b: int)
    requires WellFormed(s) && 0 <= b < C.TOTAL_DATA_BLOCKS
    ensures forall k :: 0 <= k < |s.zero| && k != LocalIndex(b) ==> !(s.zero[k].tag == b && s.zero[k].state != Invalid)
    ensures forall k :: 0 <= k < |s.one| && k != PeerIndex(b) ==> !(s.one[k].tag == b && s.one[k].state != Invalid)
  {
  }

  /**
   * The coherence argument shared by the three transactions: a transaction that writes block b
   * into the local home line, and leaves the peer home line unchanged, INVALID, or demoted from
   * MODIFIED to SHARED, keeps the invariant provided the new pair at the home lines
   * is itself coherent.
   */
  lemma HomeUpdatePreserves(s: Caches, b: int, t: Transaction)
    requires WellFormed(s) && Coherent(s) && 0 <= b < C.TOTAL_DATA_BLOCKS
    requires t.local.tag == b && |t.local.words| == C.TOTAL_DATA_BLOCK_WORDS
    requires t.peer.tag == s.one[PeerIndex(b)].tag && t.peer.words == s.one[PeerIndex(b)].words
    requires t.peer.state == s.one[PeerIndex(b)].state || t.peer.state == Invalid
             || (t.peer.state == Shared && s.one[PeerIndex(b)].state == Modified && t.local.state != Modified)
    requires |t.memory| == C.TOTAL_DATA_BLOCKS && forall k :: 0 <= k < |t.memory| ==> |t.memory[k]| == C.TOTAL_DATA_BLOCK_WORDS
    requires t.peer.tag == b ==>
               (t.local.state == Modified ==> t.peer.state == Invalid)
               && (t.peer.state == Modified ==> t.local.state == Invalid)
    ensures WellFormed(ApplyAt(s, LocalIndex(b), PeerIndex(b), t))
    ensures Coherent(ApplyAt(s, LocalIndex(b), PeerIndex(b), t))
  {
    var r := ApplyAt(s, LocalIndex(b), PeerIndex(b), t);
    var li, pj := LocalIndex(b), PeerIndex(b);
    OnlyHomeLinesHold(s, b);
    forall i, j | 0 <= i < |r.zero| && 0 <= j < |r.one| && r.zero[i].tag == r.one[j].tag
      ensures (r.zero[i].state == Modified ==> r.one[j].state == Invalid)
              && (r.one[j].state == Modified ==> r.zero[i].state == Invalid)
    {
      if i == li && j != pj {
        assert r.one[j] == s.one[j];
      } else if i != li && j == pj {
        assert r.zero[i] == s.zero[i];
      } else if i != li && j != pj {
        assert r.zero[i] == s.zero[i] && r.one[j] == s.one[j];
      }
    }
  }

  lemma LoadMissPreservesCoherence(s: Caches, b: int)
    requires InRange(s, b, 0) && Coherent(s)
    ensures WellFormed(SystemLoadMiss(s, b)) && Coherent(SystemLoadMiss(s, b))
  {
    var li, pj := LocalIndex(b), PeerIndex(b);
    var t := LoadMiss(s.zero[li], s.one[pj], s.memory, b);
    HomeUpdatePreserves(s, b, t);
  }

  lemma StoreMissPreservesCoherence(s: Caches, b: int, offset: int, value: int)
    requires InRange(s, b, offset) && Coherent(s)
    ensures WellFormed(SystemStoreMiss(s, b, offset, value)) && Coherent(SystemStoreMiss(s, b, offset, value))
  {
    var li, pj := LocalIndex(b), PeerIndex(b);
    var t := StoreMiss(s.zero[li], s.one[pj], s.memory, b, offset, value);
    HomeUpdatePreserves(s, b, t);
  }

  lemma StoreHitPreservesCoherence(s: Caches, b: int, offset: int, value: int)
    requires InRange(s, b, offset) && Hit(s, b) && Coherent(s)
    ensures WellFormed(SystemStoreHit(s, b, offset, value)) && Coherent(SystemStoreHit(s, b, offset, value))
  {
    var li, pj := LocalIndex(b), PeerIndex(b);
    var t := StoreHit(s.zero[li], s.one[pj], s.memory, b, offset, value);
    assert s.zero[li].state == Shared || s.zero[li].state == Modified;
    if s.one[pj].tag == b {
      assert s.one[pj].state != Modified;
    }
    HomeUpdatePreserves(s, b, t);
  }

  lemma LoadMissAsWrittenKeepsShape(s: Caches, b: int)
    requires InRange(s, b, 0)
    ensures WellFormed(SystemLoadMissAsWritten(s, b))
  {
  }

  // ---------------------------------------------------------------- the two discrepancies

  function Block(w: int): seq<int> { [w, w, w, w] }

  /** A starting state: every line INVALID with tag -1, every memory word 1. */
  function Start(): Caches {
    Caches(seq(8, _ => Line(-1, Block(0), Invalid)), seq(4, _ => Line(-1, Block(0), Invalid)),
           seq(24, _ => Block(1)))
  }

  /** Both caches hold block 1 SHARED; a store hit on core zero leaves core one's copy SHARED. */
  lemma StoreHitAsWrittenBreaksCoherence()
    ensures var s := Start().(zero := Start().zero[1 := Line(1, Block(1), Shared)],
                              one := Start().one[1 := Line(1, Block(1), Shared)]);
      InRange(s, 1, 0) && Hit(s, 1) && Coherent(s)
      && SystemStoreHitAsWritten(s, 1, 0, 7).zero[1].state == Modified
      && SystemStoreHitAsWritten(s, 1, 0, 7).one[1].state == Shared
      && !Coherent(SystemStoreHitAsWritten(s, 1, 0, 7))
  {
    var s := Start().(zero := Start().zero[1 := Line(1, Block(1), Shared)],
                      one := Start().one[1 := Line(1, Block(1), Shared)]);
    var r := SystemStoreHitAsWritten(s, 1, 0, 7);
    assert r.zero[1].tag == r.one[1].tag;
  }

  /**
   * Core zero's line 5 holds block 13 MODIFIED and core one's line 1 holds block 5 SHARED.
   * Loading block 5 writes block 13 back and refills line 5, which stays MODIFIED, now for
   * block 5, beside core one's SHARED copy.
   */
  lemma LoadMissAsWrittenBreaksCoherence()
    ensures var s := Start().(zero := Start().zero[5 := Line(13, Block(2), Modified)],
                              one := Start().one[1 := Line(5, Block(1), Shared)]);
      InRange(s, 5, 0) && Coherent(s)
      && SystemLoadMissAsWritten(s, 5).zero[5] == Line(5, Block(1), Modified)
      && SystemLoadMissAsWritten(s, 5).memory[13] == Block(2)
      && !Coherent(SystemLoadMissAsWritten(s, 5))
  {
    var s := Start().(zero := Start().zero[5 := Line(13, Block(2), Modified)],
                      one := Start().one[1 := Line(5, Block(1), Shared)]);
    var r := SystemLoadMissAsWritten(s, 5);
    assert r.zero[5].tag == r.one[1].tag;
  }

  // ---------------------------------------------------------------- runs of transactions

  /**
   * A store miss whose word offset lies outside the block faults at the store
   * (CoreZero.java:577), after the eviction and the fill.
   */
  ghost function SystemStoreFill(s: Caches, b: int): Caches
    requires InRange(s, b, 0)
  {
    ApplyAt(s, LocalIndex(b), PeerIndex(b),
      StoreFill(s.zero[LocalIndex(b)], s.one[PeerIndex(b)], Evict(s.memory, s.zero[LocalIndex(b)], b), b))
  }

  /**
   * A store hit whose word offset lies outside the block faults at the store, after the
   * (corrected) upgrade; on a MODIFIED line it faults before anything changes (CoreZero.java:615).
   */
  ghost function SystemStoreHitUpgrade(s: Caches, b: int): Caches
    requires InRange(s, b, 0) && Hit(s, b)
  {
    ApplyAt(s, LocalIndex(b), PeerIndex(b), StoreHitUpgrade(s.zero[LocalIndex(b)], s.one[PeerIndex(b)], s.memory, b))
  }

  /** A miss on a block with a line but outside the memory: the eviction, then the fault of the fill. */
  ghost function SystemBeyondMemory(s: Caches, b: int, store: bool): Caches
    requires WellFormed(s) && HasLine(b) && !(0 <= b < C.TOTAL_DATA_BLOCKS)
  {
    var local := s.zero[LocalIndex(b)];
    ApplyAt(s, LocalIndex(b), PeerIndex(b),
      FillBeyondMemory(local, s.one[PeerIndex(b)], Evict(s.memory, local, b), b, store))
  }

  /** A transaction issued by core zero, applied only when it is the one the core would issue. */
  datatype Op = LoadOp(b: int) | StoreOp(b: int, offset: int, value: int)

  /**
   * One load or store of core zero, with everything it does to the caches and the memory up
   * to its end or up to the fault that ends it. A block without a line faults at the line
   * lookup, before any change. A load hit only reads the line. A load miss is the load miss
   * transaction; a bad word offset or target register faults only after it. A store is a hit or
   * a miss by the local line; with a word offset outside the block it faults at the store,
   * after the upgrade or the fill. A miss on a block beyond the memory faults in its fill,
   * after the eviction.
   */
  ghost function Step(s: Caches, op: Op): Caches
    requires WellFormed(s)
  {
    match op
    case LoadOp(b) =>
      if !HasLine(b) || Hit(s, b) then s
      else if !(0 <= b < C.TOTAL_DATA_BLOCKS) then SystemBeyondMemory(s, b, false)
      else SystemLoadMiss(s, b)
    case StoreOp(b, offset, value) =>
      if !HasLine(b) then s
      else if !(0 <= b < C.TOTAL_DATA_BLOCKS) then SystemBeyondMemory(s, b, true)
      else if Hit(s, b) then
        if 0 <= offset < C.TOTAL_DATA_BLOCK_WORDS then SystemStoreHit(s, b, offset, value) else SystemStoreHitUpgrade(s, b)
      else if 0 <= offset < C.TOTAL_DATA_BLOCK_WORDS then SystemStoreMiss(s, b, offset, value)
      else SystemStoreFill(s, b)
  }

  ghost function Run(s: Caches, ops: seq<Op>): Caches
    requires WellFormed(s)
    decreases |ops|
  {
    if |ops| == 0 then s
    else
      StepPreserves(s, ops[0]);
      Run(Step(s, ops[0]), ops[1..])
  }

  lemma StepPreserves(s: Caches, op: Op)
    requires WellFormed(s)
    ensures WellFormed(Step(s, op))
    ensures Coherent(s) ==> Coherent(Step(s, op))
  {
    match op
    case LoadOp(b) =>
      if HasLine(b) && !Hit(s, b) {
        if !(0 <= b < C.TOTAL_DATA_BLOCKS) {
          BeyondMemoryPreserves(s, b, false);
        } else if Coherent(s) {
          LoadMissPreservesCoherence(s, b);
        } else {
          LoadMissShape(s, b);
        }
      }
    case StoreOp(b, offset, value) =>
      if HasLine(b) {
        if !(0 <= b < C.TOTAL_DATA_BLOCKS) {
          BeyondMemoryPreserves(s, b, true);
        } else if Hit(s, b) {
          if 0 <= offset < C.TOTAL_DATA_BLOCK_WORDS {
            if Coherent(s) { StoreHitPreservesCoherence(s, b, offset, value); } else { StoreHitShape(s, b, offset, value); }
          } else {
            StoreHitUpgradePreserves(s, b);
          }
        } else if 0 <= offset < C.TOTAL_DATA_BLOCK_WORDS {
          if Coherent(s) { StoreMissPreservesCoherence(s, b, offset, value); } else { StoreMissShape(s, b, offset, value); }
        } else {
          StoreFillPreserves(s, b);
        }
      }
  }

  /**
   * A miss beyond the memory changes no line of a well-formed system (no valid line holds such
   * a block, so the store's invalidation finds nothing) and at most writes back the evicted
   * block.
   */
  lemma BeyondMemoryPreserves(s: Caches, b: int, store: bool)
    requires WellFormed(s) && HasLine(b) && !(0 <= b < C.TOTAL_DATA_BLOCKS)
    ensures SystemBeyondMemory(s, b, store).zero == s.zero && SystemBeyondMemory(s, b, store).one == s.one
    ensures WellFormed(SystemBeyondMemory(s, b, store))
    ensures Coherent(s) ==> Coherent(SystemBeyondMemory(s, b, store))
  {
    var li, pj := LocalIndex(b), PeerIndex(b);
    assert s.zero[li := s.zero[li]] == s.zero;
    assert s.one[pj := s.one[pj]] == s.one;
  }

  /** A store miss cut short by its word offset keeps the shape and the invariant. */
  lemma StoreFillPreserves(s: Caches, b: int)
    requires InRange(s, b, 0)
    ensures WellFormed(SystemStoreFill(s, b))
    ensures Coherent(s) ==> Coherent(SystemStoreFill(s, b))
  {
    var li, pj := LocalIndex(b), PeerIndex(b);
    var t := StoreFill(s.zero[li], s.one[pj], Evict(s.memory, s.zero[li], b), b);
    if Coherent(s) {
      HomeUpdatePreserves(s, b, t);
    }
  }

  /** A store hit cut short by its word offset keeps the shape and the invariant. */
  lemma StoreHitUpgradePreserves(s: Caches, b: int)
    requires InRange(s, b, 0) && Hit(s, b)
    ensures WellFormed(SystemStoreHitUpgrade(s, b))
    ensures Coherent(s) ==> Coherent(SystemStoreHitUpgrade(s, b))
  {
    var li, pj := LocalIndex(b), PeerIndex(b);
    var t := StoreHitUpgrade(s.zero[li], s.one[pj], s.memory, b);
    if Coherent(s) {
      if s.one[pj].tag == b {
        assert s.one[pj].state != Modified;
      }
      HomeUpdatePreserves(s, b, t);
    }
  }

  lemma LoadMissShape(s: Caches, b: int)
    requires InRange(s, b, 0)
    ensures WellFormed(SystemLoadMiss(s, b))
  {
  }

  lemma StoreMissShape(s: Caches, b: int, offset: int, value: int)
    requires InRange(s, b, offset)
    ensures WellFormed(SystemStoreMiss(s, b, offset, value))
  {
  }

  lemma StoreHitShape(s: Caches, b: int, offset: int, value: int)
    requires InRange(s, b, offset) && Hit(s, b)
    ensures WellFormed(SystemStoreHit(s, b, offset, value))
  {
  }

  /** Any run of (corrected) transactions from a coherent state stays coherent. */
  lemma {:induction false} RunPreservesCoherence(s: Caches, ops: seq<Op>)
    requires WellFormed(s) && Coherent(s)
    ensures WellFormed(Run(s, ops)) && Coherent(Run(s, ops))
    decreases |ops|
  {
    if |ops| > 0 {
      StepPreserves(s, ops[0]);
      RunPreservesCoherence(Step(s, ops[0]), ops[1..]);
    }
  }

  /** The starting state is coherent, so every run from it is. */
  lemma StartIsCoherent()
    ensures WellFormed(Start()) && Coherent(Start())
  {
  }
}
