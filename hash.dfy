/**
 * The transposition table and the NNUE evaluation cache (src/hash.c).
 *
 * The table is an array of buckets of TT_BUCKET_SIZE items, flattened here:
 * bucket b holds items[b * TT_BUCKET_SIZE .. (b + 1) * TT_BUCKET_SIZE]. A
 * table of zero buckets stands for the unallocated (NULL) table.
 */
module Hash {
  import opened Types
  import opened Wrappers

  const TT_BUCKET_SIZE: nat := 3
  const TT_EXACT: int := 0
  const TT_BETA: int := 1
  const TT_ALPHA: int := 2
  const INFINITE_SCORE: int := 30000
  const INT_MAX: int := 0x7FFF_FFFF

  /** A move uses the low 22 bits of the 32-bit move field; the date the top 10. */
  const MOVE_SPAN: nat := 0x40_0000

  /** A uint8_t field. */
  type U8 = x: int | 0 <= x < 256

  // ---- move and date packing ---------------------------------------------------

  /** GETMOVE(v) = v & 0x003FFFFF. */
  function GetMove(v: nat): nat
  {
    v % MOVE_SPAN
  }

  /** GETDATE(v) = (v & 0xFFC00000) >> 22: bits 22 to 31. */
  function GetDate(v: nat): nat
  {
    (v / MOVE_SPAN) % 1024
  }

  /** MOVEDATE(m, d) = m | (d << 22); the two fields do not overlap. */
  function MoveDate(m: nat, d: nat): (v: nat)
    requires m < MOVE_SPAN && d < 1024
    ensures v < 0x1_0000_0000
    ensures GetMove(v) == m && GetDate(v) == d
  {
    assert (m + d * MOVE_SPAN) / MOVE_SPAN == d;
    m + d * MOVE_SPAN
  }

  /** A 32-bit move field is its move and its date put back together. */
  lemma MoveDateSplit(v: nat)
    requires v < 0x1_0000_0000
    ensures MoveDate(GetMove(v), GetDate(v)) == v
  {
    assert v / MOVE_SPAN < 1024;
  }

  // ---- largest_power_of_2 ------------------------------------------------------

  function Pow2(n: nat): (p: nat)
    ensures p >= 1
  {
    if n == 0 then 1 else 2 * Pow2(n - 1)
  }

  /**
   * largest_power_of_2: the number of items of itemSize bytes that fit in
   * size megabytes, rounded down to a power of two (zero if none fits).
   */
  method LargestPowerOf2(size: nat, itemSize: nat) returns (largest: nat, ghost log: nat)
    requires itemSize > 0
    ensures var nitems := size * 1024 * 1024 / itemSize;
      (nitems == 0 ==> largest == 0) &&
      (nitems >= 1 ==> largest == Pow2(log) && largest <= nitems < 2 * largest)
  {
    var nitems := size * 1024 * 1024 / itemSize;
    largest := 1;
    log := 0;
    while largest <= nitems
      invariant largest == Pow2(log) && largest / 2 <= nitems
      decreases nitems + 1 - largest
    {
      largest := largest * 2;
      log := log + 1;
    }
    largest := largest / 2;
    if log > 0 {
      log := log - 1;
    }
  }

  /** A power of two. */
  ghost predicate IsPow2(n: nat)
  {
    exists k: nat :: n == Pow2(k)
  }

  // ---- items and buckets -------------------------------------------------------

  /** tt_item: an item whose key is 0 is empty. */
  datatype TTItem = TTItem(key: bv64, move: nat, score: int, depth: U8, itemType: U8)

  /** The bucket of a key: key & (tt_size - 1), which is key modulo the power-of-two tt_size. */
  function BucketIndex(key: bv64, nbuckets: nat): (i: nat)
    requires nbuckets >= 1
    ensures i < nbuckets
  {
    (key as int) % nbuckets
  }

  /**
   * The replacement score of an item: deeper and more recent items score
   * higher. age is computed in a uint8_t, so it wraps modulo 256.
   */
  function ItemScore(item: TTItem, date: U8): (s: int)
    ensures 0 <= s < INT_MAX
  {
    var age := (date - GetDate(item.move)) % 256;
    (256 - age - 1) + item.depth * 256
  }

  /** The first slot from k on that holds the key or is empty. */
  function FirstStop(b: seq<TTItem>, key: bv64, k: nat): (r: Option<nat>)
    decreases |b| - k
    ensures r.Some? ==> k <= r.value < |b| && (b[r.value].key == key || b[r.value].key == 0)
  {
    if k >= |b| then None
    else if b[k].key == key || b[k].key == 0 then Some(k)
    else FirstStop(b, key, k + 1)
  }

  /** The first slot from k on that holds the key. */
  function FirstMatch(b: seq<TTItem>, key: bv64, k: nat): (r: Option<nat>)
    decreases |b| - k
    ensures r.Some? ==> k <= r.value < |b| && b[r.value].key == key
  {
    if k >= |b| then None
    else if b[k].key == key then Some(k)
    else FirstMatch(b, key, k + 1)
  }

  /** The first of the lowest-scored items among the first n. */
  function Worst(b: seq<TTItem>, date: U8, n: nat): (w: nat)
    requires 1 <= n <= |b|
    ensures w < n
  {
    if n == 1 then 0
    else
      var w := Worst(b, date, n - 1);
      if ItemScore(b[n - 1], date) < ItemScore(b[w], date) then n - 1 else w
  }

  /** Worst picks a lowest-scored item, and the first of them. */
  lemma {:induction false} WorstIsFirstMinimum(b: seq<TTItem>, date: U8, n: nat)
    requires 1 <= n <= |b|
    ensures forall j :: 0 <= j < n ==> ItemScore(b[Worst(b, date, n)], date) <= ItemScore(b[j], date)
    ensures forall j :: 0 <= j < Worst(b, date, n) ==> ItemScore(b[Worst(b, date, n)], date) < ItemScore(b[j], date)
  {
    if n > 1 {
      WorstIsFirstMinimum(b, date, n - 1);
    }
  }

  /**
   * The slot of the bucket a store writes, or None when the stored item for
   * the same key is deeper and from the current search: the first slot
   * holding the key or empty, else the lowest-scored slot.
   */
  function ChooseSlot(b: seq<TTItem>, key: bv64, depth: int, date: U8): (r: Option<nat>)
    requires |b| >= 1
    ensures r.Some? ==> r.value < |b|
  {
    match FirstStop(b, key, 0)
    case Some(k) =>
      if b[k].key != key || depth >= b[k].depth || date != GetDate(b[k].move) then Some(k) else None
    case None => Some(Worst(b, date, |b|))
  }

  /**
   * The score a store records: mate (and tablebase) scores beyond knownWin
   * are kept only as TT_EXACT entries, shifted by sply away from zero so
   * that they count from the stored position rather than from the root.
   */
  function StoredScore(score: int, itemType: int, sply: nat, knownWin: nat): (r: Option<int>)
    ensures r.None? <==> (score > knownWin || score < -(knownWin as int)) && itemType != TT_EXACT
    ensures r.Some? && score > knownWin ==> r.value - score == sply
    ensures r.Some? && score < -(knownWin as int) ==> score - r.value == sply
    ensures -(knownWin as int) <= score <= knownWin ==> r == Some(score)
  {
    if score > knownWin then (if itemType != TT_EXACT then None else Some(score + sply))
    else if score < -(knownWin as int) then (if itemType != TT_EXACT then None else Some(score - sply))
    else Some(score)
  }

  /** The index in the flattened table that a store writes, or None if it writes nothing. */
  function StoreSlot(t: seq<TTItem>, nbuckets: nat, date: U8, key: bv64, sply: nat,
                     depth: int, score: int, itemType: int, knownWin: nat): (r: Option<nat>)
    requires |t| == nbuckets * TT_BUCKET_SIZE
    ensures r.Some? ==> nbuckets >= 1 && BucketIndex(key, nbuckets) * TT_BUCKET_SIZE <= r.value < BucketIndex(key, nbuckets) * TT_BUCKET_SIZE + TT_BUCKET_SIZE
  {
    if nbuckets == 0 || StoredScore(score, itemType, sply, knownWin).None? then None
    else
      var base := BucketIndex(key, nbuckets) * TT_BUCKET_SIZE;
      match ChooseSlot(t[base..base + TT_BUCKET_SIZE], key, depth, date)
      case None => None
      case Some(k) => Some(base + k)
  }

  /** The table after hash_tt_store. */
  function StoreSpec(t: seq<TTItem>, nbuckets: nat, date: U8, key: bv64, sply: nat, move: nat,
                     depth: U8, score: int, itemType: U8, knownWin: nat): (r: seq<TTItem>)
    requires |t| == nbuckets * TT_BUCKET_SIZE && move < MOVE_SPAN
    ensures |r| == |t|
  {
    match StoreSlot(t, nbuckets, date, key, sply, depth, score, itemType, knownWin)
    case None => t
    case Some(i) => t[i := TTItem(key, MoveDate(move, date), StoredScore(score, itemType, sply, knownWin).value, depth, itemType)]
  }

  /** What hash_tt_lookup finds: the first item of the key's bucket with the key, date masked off. */
  function LookupSpec(t: seq<TTItem>, nbuckets: nat, key: bv64): Option<TTItem>
    requires |t| == nbuckets * TT_BUCKET_SIZE
  {
    if nbuckets == 0 then None
    else
      var base := BucketIndex(key, nbuckets) * TT_BUCKET_SIZE;
      var b := t[base..base + TT_BUCKET_SIZE];
      match FirstMatch(b, key, 0)
      case None => None
      case Some(k) => Some(b[k].(move := GetMove(b[k].move)))
  }

  class TranspositionTable {
    /** transposition_table, flattened; empty when no table is allocated. */
    var items: array<TTItem>
    /** tt_size: the number of buckets. */
    var nbuckets: nat
    /** tt_date: the search generation, a uint8_t. */
    var date: U8

    /** The table holds nbuckets buckets, and nbuckets is a power of two or zero, as largest_power_of_2 allocates. */
    ghost predicate Valid()
      reads this
    {
      items.Length == nbuckets * TT_BUCKET_SIZE && (nbuckets == 0 || IsPow2(nbuckets))
    }

    /**
     * hash_tt_create_table: the table destroyed (date 0), as many buckets
     * of bucketBytes bytes as largest_power_of_2 allows in size megabytes,
     * and every item cleared.
     */
    constructor (size: nat, bucketBytes: nat)
      requires bucketBytes > 0
      ensures Valid() && fresh(items) && date == 0
      ensures var nitems := size * 1024 * 1024 / bucketBytes;
        (nitems == 0 ==> nbuckets == 0) && (nitems >= 1 ==> nbuckets <= nitems < 2 * nbuckets)
      ensures forall i :: 0 <= i < items.Length ==> items[i] == TTItem(0, 0, 0, 0, 0)
    {
      var largest, log := LargestPowerOf2(size, bucketBytes);
      nbuckets := largest;
      items := new TTItem[largest * TT_BUCKET_SIZE](_ => TTItem(0, 0, 0, 0, 0));
      date := 0;
    }

    /** hash_tt_age_table: the date moves on, wrapping at 256. */
    method Age()
      requires Valid()
      modifies this
      ensures Valid() && items == old(items) && nbuckets == old(nbuckets)
      ensures date == (old(date) + 1) % 256
    {
      date := (date + 1) % 256;
    }

    /** hash_tt_store. */
    method Store(key: bv64, sply: nat, move: nat, depth: U8, score: int, itemType: U8, knownWin: nat)
      requires Valid() && move < MOVE_SPAN && -INFINITE_SCORE < score < INFINITE_SCORE
      modifies items
      ensures items[..] == StoreSpec(old(items[..]), nbuckets, date, key, sply, move, depth, score, itemType, knownWin)
    {
      if nbuckets == 0 {
        return;
      }
      var s := score;
      if score > knownWin {
        if itemType != TT_EXACT {
          return;
        }
        s := score + sply;
      } else if score < -(knownWin as int) {
        if itemType != TT_EXACT {
          return;
        }
        s := score - sply;
      }
      var base := BucketIndex(key, nbuckets) * TT_BUCKET_SIZE;
      var slot := ScanBucket(base, key, depth);
      ghost var t := items[..];
      assert t[base..base + TT_BUCKET_SIZE] == items[base..base + TT_BUCKET_SIZE];
      if slot.None? {
        assert StoreSlot(t, nbuckets, date, key, sply, depth, score, itemType, knownWin).None?;
        return;
      }
      assert StoreSlot(t, nbuckets, date, key, sply, depth, score, itemType, knownWin) == Some(base + slot.value);
      assert s == StoredScore(score, itemType, sply, knownWin).value;
      items[base + slot.value] := TTItem(key, MoveDate(move, date), s, depth, itemType);
    }

    /** The loop of hash_tt_store over the items of one bucket: the slot to replace, if any. */
    method ScanBucket(base: nat, key: bv64, depth: int) returns (slot: Option<nat>)
      requires Valid() && base + TT_BUCKET_SIZE <= items.Length
      ensures slot == ChooseSlot(items[base..base + TT_BUCKET_SIZE], key, depth, date)
    {
      ghost var b := items[base..base + TT_BUCKET_SIZE];
      var worst := -1;
      var worstScore := INT_MAX;
      var k := 0;
      while k < TT_BUCKET_SIZE
        invariant 0 <= k <= TT_BUCKET_SIZE
        invariant FirstStop(b, key, 0) == FirstStop(b, key, k)
        invariant k == 0 ==> worst == -1 && worstScore == INT_MAX
        invariant k > 0 ==> worst == Worst(b, date, k) && worstScore == ItemScore(b[worst], date)
      {
        var item := items[base + k];
        assert item == b[k];
        if key == item.key {
          if depth >= item.depth || date != GetDate(item.move) {
            return Some(k);
          }
          return None;
        } else if item.key == 0 {
          return Some(k);
        }
        var age := (date - GetDate(item.move)) % 256;
        var itemScore := (256 - age - 1) + item.depth * 256;
        if itemScore < worstScore {
          worstScore := itemScore;
          worst := k;
        }
        k := k + 1;
      }
      return Some(worst);
    }

    /** hash_tt_lookup. */
    method Lookup(key: bv64) returns (found: bool, item: TTItem)
      requires Valid()
      ensures found <==> LookupSpec(items[..], nbuckets, key).Some?
      ensures found ==> item == LookupSpec(items[..], nbuckets, key).value
    {
      item := TTItem(0, 0, 0, 0, 0);
      if nbuckets == 0 {
        return false, item;
      }
      var base := BucketIndex(key, nbuckets) * TT_BUCKET_SIZE;
      ghost var b := items[base..base + TT_BUCKET_SIZE];
      var k := 0;
      while k < TT_BUCKET_SIZE
        invariant 0 <= k <= TT_BUCKET_SIZE
        invariant FirstMatch(b, key, 0) == FirstMatch(b, key, k)
      {
        var tmp := items[base + k];
        assert tmp == b[k];
        if key == tmp.key {
          item := tmp.(move := GetMove(tmp.move));
          return true, item;
        }
        k := k + 1;
      }
      return false, item;
    }
  }

  // ---- properties of the store ---------------------------------------------------

  /** A mate score that is only a bound is not stored at all. */
  lemma MateBoundNotStored(t: seq<TTItem>, nbuckets: nat, date: U8, key: bv64, sply: nat, move: nat,
                           depth: U8, score: int, itemType: U8, knownWin: nat)
    requires |t| == nbuckets * TT_BUCKET_SIZE && move < MOVE_SPAN
    requires (score > knownWin || score < -(knownWin as int)) && itemType != TT_EXACT
    ensures StoreSpec(t, nbuckets, date, key, sply, move, depth, score, itemType, knownWin) == t
  {
  }

  /** An item for the same key that is deeper and from the current search is kept. */
  lemma DeeperCurrentItemKept(t: seq<TTItem>, nbuckets: nat, date: U8, key: bv64, sply: nat, move: nat,
                              depth: U8, score: int, itemType: U8, knownWin: nat, j: nat)
    requires |t| == nbuckets * TT_BUCKET_SIZE && move < MOVE_SPAN && nbuckets >= 1
    requires var base := BucketIndex(key, nbuckets) * TT_BUCKET_SIZE;
      j < TT_BUCKET_SIZE && t[base + j].key == key && depth < t[base + j].depth && date == GetDate(t[base + j].move) &&
      forall i :: base <= i < base + j ==> t[i].key != key && t[i].key != 0
    ensures StoreSpec(t, nbuckets, date, key, sply, move, depth, score, itemType, knownWin) == t
  {
    var base := BucketIndex(key, nbuckets) * TT_BUCKET_SIZE;
    var b := t[base..base + TT_BUCKET_SIZE];
    FirstStopSkips(b, key, 0, j);
  }

  /** FirstStop passes over slots that neither hold the key nor are empty. */
  lemma {:induction false} FirstStopSkips(b: seq<TTItem>, key: bv64, i: nat, j: nat)
    requires i <= j < |b| && (b[j].key == key || b[j].key == 0)
    requires forall m :: i <= m < j ==> b[m].key != key && b[m].key != 0
    ensures FirstStop(b, key, i) == Some(j)
    decreases j - i
  {
    if i < j {
      FirstStopSkips(b, key, i + 1, j);
    }
  }

  /** FirstMatch passes over slots that do not hold the key. */
  lemma {:induction false} FirstMatchSkips(b: seq<TTItem>, key: bv64, i: nat, j: nat)
    requires i <= j < |b| && b[j].key == key
    requires forall m :: i <= m < j ==> b[m].key != key
    ensures FirstMatch(b, key, i) == Some(j)
    decreases j - i
  {
    if i < j {
      FirstMatchSkips(b, key, i + 1, j);
    }
  }

  /** With no slot holding the key or empty, FirstStop finds none. */
  lemma {:induction false} FirstStopNone(b: seq<TTItem>, key: bv64, i: nat)
    requires FirstStop(b, key, i).None?
    ensures forall m :: i <= m < |b| ==> b[m].key != key && b[m].key != 0
    decreases |b| - i
  {
    if i < |b| {
      FirstStopNone(b, key, i + 1);
    }
  }

  /** A stop at slot k means the slots before it neither hold the key nor are empty. */
  lemma {:induction false} FirstStopBefore(b: seq<TTItem>, key: bv64, i: nat, k: nat)
    requires FirstStop(b, key, i) == Some(k)
    ensures forall m :: i <= m < k ==> b[m].key != key && b[m].key != 0
    decreases |b| - i
  {
    if i < k {
      FirstStopBefore(b, key, i + 1, k);
    }
  }

  /**
   * The slot a store writes is the first one holding the key or empty;
   * failing that, the first of the lowest-scored items.
   */
  lemma ChooseSlotMeaning(b: seq<TTItem>, key: bv64, depth: int, date: U8)
    requires |b| >= 1
    ensures match ChooseSlot(b, key, depth, date)
      case None => true
      case Some(k) =>
        (forall m :: 0 <= m < k ==> b[m].key != key && b[m].key != 0) &&
        (b[k].key == key || b[k].key == 0 ||
          ((forall m :: 0 <= m < |b| ==> b[m].key != key && b[m].key != 0) &&
           (forall m :: 0 <= m < |b| ==> ItemScore(b[k], date) <= ItemScore(b[m], date)) &&
           (forall m :: 0 <= m < k ==> ItemScore(b[k], date) < ItemScore(b[m], date))))
  {
    match FirstStop(b, key, 0)
    case Some(k) =>
      FirstStopBefore(b, key, 0, k);
    case None =>
      FirstStopNone(b, key, 0);
      WorstIsFirstMinimum(b, date, |b|);
  }

  /** A store that writes changes one item of the key's bucket and nothing else; after it, lookup finds the new item. */
  lemma StoreThenLookup(t: seq<TTItem>, nbuckets: nat, date: U8, key: bv64, sply: nat, move: nat,
                        depth: U8, score: int, itemType: U8, knownWin: nat)
    requires |t| == nbuckets * TT_BUCKET_SIZE && move < MOVE_SPAN
    requires StoreSlot(t, nbuckets, date, key, sply, depth, score, itemType, knownWin).Some?
    ensures var t' := StoreSpec(t, nbuckets, date, key, sply, move, depth, score, itemType, knownWin);
      var i := StoreSlot(t, nbuckets, date, key, sply, depth, score, itemType, knownWin).value;
      (forall m :: 0 <= m < |t| && m != i ==> t'[m] == t[m]) &&
      LookupSpec(t', nbuckets, key) == Some(TTItem(key, move, StoredScore(score, itemType, sply, knownWin).value, depth, itemType))
  {
    var base := BucketIndex(key, nbuckets) * TT_BUCKET_SIZE;
    var b := t[base..base + TT_BUCKET_SIZE];
    var k := ChooseSlot(b, key, depth, date).value;
    var t' := StoreSpec(t, nbuckets, date, key, sply, move, depth, score, itemType, knownWin);
    ChooseSlotMeaning(b, key, depth, date);
    var b' := t'[base..base + TT_BUCKET_SIZE];
    assert b' == b[k := t'[base + k]];
    FirstMatchSkips(b', key, 0, k);
  }

  // ---- the NNUE cache ------------------------------------------------------------

  /** nnue_cache_item. */
  datatype CacheItem = CacheItem(key: bv64, score: int)

  /** What hash_nnue_lookup finds: the score of the key's slot if that slot holds the key. */
  function CacheLookupSpec(t: seq<CacheItem>, key: bv64): Option<int>
  {
    if |t| == 0 then None
    else
      var idx := BucketIndex(key, |t|);
      if t[idx].key == key then Some(t[idx].score) else None
  }

  class NnueCache {
    /** nnue_cache; nnue_cache_size is its length, zero when not allocated. */
    var items: array<CacheItem>

    /** hash_nnue_store: always replaces the key's slot. */
    method Store(key: bv64, score: int)
      modifies items
      ensures items.Length == 0 ==> items[..] == old(items[..])
      ensures items.Length > 0 ==> items[..] == old(items[..])[BucketIndex(key, items.Length) := CacheItem(key, score)]
    {
      if items.Length == 0 {
        return;
      }
      var idx := BucketIndex(key, items.Length);
      items[idx] := CacheItem(key, score);
    }

    /** hash_nnue_lookup. */
    method Lookup(key: bv64) returns (found: bool, score: int)
      ensures found <==> CacheLookupSpec(items[..], key).Some?
      ensures found ==> score == CacheLookupSpec(items[..], key).value
    {
      score := 0;
      if items.Length == 0 {
        return false, score;
      }
      var idx := BucketIndex(key, items.Length);
      found := false;
      if items[idx].key == key {
        found := true;
        score := items[idx].score;
      }
    }
  }

  /** A lookup right after a store of the same key returns the stored score. */
  lemma CacheStoreThenLookup(t: seq<CacheItem>, key: bv64, score: int)
    requires |t| > 0
    ensures CacheLookupSpec(t[BucketIndex(key, |t|) := CacheItem(key, score)], key) == Some(score)
  {
  }

  /** A store of another key leaves a lookup unchanged unless both keys share a slot. */
  lemma CacheStoreOther(t: seq<CacheItem>, key: bv64, other: bv64, score: int)
    requires |t| > 0 && BucketIndex(key, |t|) != BucketIndex(other, |t|)
    ensures CacheLookupSpec(t[BucketIndex(key, |t|) := CacheItem(key, score)], other) == CacheLookupSpec(t, other)
  {
  }
}
