/**
  The bounded thumbnail cache (`MultipleAudioThumbnailCache`).

  The cache is a list of entries, each a 64-bit hash of the source file, the
  clock value at which it was last used and the serialised thumbnail. Lookup
  scans from the end of the list; a store overwrites the entry with the same
  hash, appends below capacity, and otherwise replaces the least recently
  used entry. The millisecond clock is an argument `now` of each call, and a
  thumbnail is the byte string it serialises to.
*/
module ThumbnailCache {
  import opened Wrappers

  newtype byte = x: int | 0 <= x < 256

  datatype Entry = Entry(hash: int, lastUsed: nat, data: seq<byte>)

  /** A freshly allocated entry: its clock value is zero and its data empty. */
  function NewEntry(hash: int): Entry
  {
    Entry(hash, 0, [])
  }

  ghost predicate UniqueHashes(ts: seq<Entry>)
  {
    forall i, j :: 0 <= i < j < |ts| ==> ts[i].hash != ts[j].hash
  }

  /** The size the list can reach: the capacity, but at least one (see `Stored`). */
  function Bound(capacity: int): nat
  {
    if capacity >= 1 then capacity else 1
  }

  /** The highest index below `n` whose entry has `hash`. */
  function FindBelow(ts: seq<Entry>, hash: int, n: nat): (r: Option<nat>)
    requires n <= |ts|
    ensures r.Some? ==> r.value < n && ts[r.value].hash == hash &&
                        forall j :: r.value < j < n ==> ts[j].hash != hash
    ensures r.None? <==> forall j :: 0 <= j < n ==> ts[j].hash != hash
  {
    if n == 0 then None
    else if ts[n - 1].hash == hash then Some(n - 1)
    else FindBelow(ts, hash, n - 1)
  }

  /** The index `findThumbFor` returns: the last entry with `hash`, if any. */
  function Find(ts: seq<Entry>, hash: int): (r: Option<nat>)
    ensures r.Some? ==> r.value < |ts| && ts[r.value].hash == hash &&
                        forall j :: r.value < j < |ts| ==> ts[j].hash != hash
    ensures r.None? <==> forall j :: 0 <= j < |ts| ==> ts[j].hash != hash
  {
    FindBelow(ts, hash, |ts|)
  }

  /** With distinct hashes the entry found is the only one with that hash. */
  lemma FindUnique(ts: seq<Entry>, hash: int, j: nat)
    requires UniqueHashes(ts) && j < |ts| && ts[j].hash == hash
    ensures Find(ts, hash) == Some(j)
  {
  }

  /**
    The eviction scan: indices i-1 down to 0 are visited from the state
    (`oldest`, `oldestTime`), and an entry used strictly before `oldestTime`
    becomes the new choice. The scan either keeps its starting choice,
    because nothing below i was used before `oldestTime`, or it picks the
    index below i with the least clock value, the highest one among ties.
  */
  function OldestBelow(ts: seq<Entry>, i: nat, oldest: nat, oldestTime: int): (k: nat)
    requires i <= |ts|
    ensures (k == oldest && forall j :: 0 <= j < i ==> ts[j].lastUsed >= oldestTime) ||
            (k < i && ts[k].lastUsed < oldestTime &&
             (forall j :: 0 <= j < i ==> ts[j].lastUsed >= ts[k].lastUsed) &&
             (forall j :: k < j < i ==> ts[j].lastUsed > ts[k].lastUsed))
  {
    if i == 0 then oldest
    else if ts[i - 1].lastUsed < oldestTime then OldestBelow(ts, i - 1, i - 1, ts[i - 1].lastUsed)
    else OldestBelow(ts, i - 1, oldest, oldestTime)
  }

  /** The victim the full cache chooses: the scan starts at index 0 with time `now + 1`. */
  function Oldest(ts: seq<Entry>, now: nat): (k: nat)
    ensures |ts| >= 1 ==> k < |ts|
    ensures |ts| == 0 ==> k == 0
  {
    OldestBelow(ts, |ts|, 0, now + 1)
  }

  /**
    The eviction rule: the victim's clock value is the least in the list and
    no later entry shares it; when no entry was used at or before `now`, the
    victim is index 0.
  */
  lemma OldestIsLeastRecentlyUsed(ts: seq<Entry>, now: nat)
    ensures var k := Oldest(ts, now);
            if exists j :: 0 <= j < |ts| && ts[j].lastUsed <= now then
              k < |ts| && ts[k].lastUsed <= now &&
              (forall j :: 0 <= j < |ts| ==> ts[j].lastUsed >= ts[k].lastUsed) &&
              (forall j :: k < j < |ts| ==> ts[j].lastUsed > ts[k].lastUsed)
            else
              k == 0
  {
  }

  /**
    The index a store writes to: the entry with the hash, else the end of the
    list below capacity, else the victim. Replacing at an index past the end
    appends, which happens only for an empty list at a capacity below one.
  */
  function Slot(ts: seq<Entry>, capacity: int, hash: int, now: nat): (k: nat)
    ensures k <= |ts|
  {
    match Find(ts, hash)
    case Some(i) => i
    case None =>
      if |ts| < capacity then |ts|
      else if Oldest(ts, now) < |ts| then Oldest(ts, now)
      else |ts|
  }

  /** The list after a store of `data` under `hash` at clock `now`. */
  function Stored(ts: seq<Entry>, capacity: int, hash: int, data: seq<byte>, now: nat): (r: seq<Entry>)
    ensures |ts| <= |r| <= |ts| + 1
    ensures Entry(hash, now, data) in r
  {
    var k := Slot(ts, capacity, hash, now);
    if k < |ts| then
      var r := ts[k := Entry(hash, now, data)];
      assert r[k] == Entry(hash, now, data);
      r
    else ts + [Entry(hash, now, data)]
  }

  /** A store writes one slot and leaves every other entry as it was. */
  lemma StoredWritesOneSlot(ts: seq<Entry>, capacity: int, hash: int, data: seq<byte>, now: nat)
    ensures var r := Stored(ts, capacity, hash, data, now);
            var k := Slot(ts, capacity, hash, now);
            k < |r| && r[k] == Entry(hash, now, data) &&
            (|r| == |ts| || |r| == |ts| + 1) &&
            forall j :: 0 <= j < |ts| && j != k ==> r[j] == ts[j]
  {
  }

  /** After a store the hash is found, at an entry with the stored data and clock value. */
  lemma StoredIsFound(ts: seq<Entry>, capacity: int, hash: int, data: seq<byte>, now: nat)
    requires UniqueHashes(ts)
    ensures var r := Stored(ts, capacity, hash, data, now);
            Find(r, hash).Some? && r[Find(r, hash).value] == Entry(hash, now, data)
  {
    var r := Stored(ts, capacity, hash, data, now);
    var k := Slot(ts, capacity, hash, now);
    StoredKeepsUnique(ts, capacity, hash, data, now);
    FindUnique(r, hash, k);
  }

  /** A store of a hash already present keeps the size. */
  lemma StoredHitKeepsSize(ts: seq<Entry>, capacity: int, hash: int, data: seq<byte>, now: nat)
    requires Find(ts, hash).Some?
    ensures |Stored(ts, capacity, hash, data, now)| == |ts|
  {
  }

  /** A store of a new hash into a full list replaces the least recently used entry. */
  lemma StoredMissWhenFullEvicts(ts: seq<Entry>, capacity: int, hash: int, data: seq<byte>, now: nat)
    requires Find(ts, hash).None? && |ts| >= capacity && |ts| >= 1
    ensures var r := Stored(ts, capacity, hash, data, now);
            var k := Oldest(ts, now);
            k < |ts| && |r| == |ts| && r == ts[k := Entry(hash, now, data)]
  {
    OldestIsLeastRecentlyUsed(ts, now);
  }

  /** Hashes stay distinct: a new entry is created only when lookup fails. */
  lemma StoredKeepsUnique(ts: seq<Entry>, capacity: int, hash: int, data: seq<byte>, now: nat)
    requires UniqueHashes(ts)
    ensures UniqueHashes(Stored(ts, capacity, hash, data, now))
  {
    var r := Stored(ts, capacity, hash, data, now);
    var k := Slot(ts, capacity, hash, now);
    forall i, j | 0 <= i < j < |r| ensures r[i].hash != r[j].hash {
      if i != k && j != k {
        assert r[i] == ts[i] && r[j] == ts[j];
      } else if Find(ts, hash).None? {
        if i == k { assert j < |ts| && r[j] == ts[j]; } else { assert r[i] == ts[i]; }
      } else {
        assert ts[k].hash == hash;
        if i == k { assert r[j] == ts[j]; } else { assert r[i] == ts[i]; }
      }
    }
  }

  /** The size never exceeds the capacity (or one, for a capacity below one). */
  lemma StoredKeepsBound(ts: seq<Entry>, capacity: int, hash: int, data: seq<byte>, now: nat)
    requires |ts| <= Bound(capacity)
    ensures |Stored(ts, capacity, hash, data, now)| <= Bound(capacity)
  {
    var k := Slot(ts, capacity, hash, now);
    if k == |ts| && Find(ts, hash).None? && |ts| >= capacity {
      OldestIsLeastRecentlyUsed(ts, now);
      assert |ts| == 0;
    }
  }

  /** The list after a load at clock `now`: only the found entry's clock value changes. */
  function Touched(ts: seq<Entry>, hash: int, now: nat): (r: seq<Entry>)
    ensures |r| == |ts|
    ensures forall j :: 0 <= j < |ts| ==> r[j].hash == ts[j].hash && r[j].data == ts[j].data
    ensures forall j :: 0 <= j < |ts| && Find(ts, hash) != Some(j) ==> r[j] == ts[j]
    ensures Find(ts, hash).Some? ==> r[Find(ts, hash).value].lastUsed == now
  {
    match Find(ts, hash)
    case Some(i) => ts[i := ts[i].(lastUsed := now)]
    case None => ts
  }

  /** A load keeps the hashes, so it keeps them distinct. */
  lemma TouchedKeepsUnique(ts: seq<Entry>, hash: int, now: nat)
    requires UniqueHashes(ts)
    ensures UniqueHashes(Touched(ts, hash, now))
  {
    var r := Touched(ts, hash, now);
    forall i, j | 0 <= i < j < |r| ensures r[i].hash != r[j].hash {
      assert r[i].hash == ts[i].hash && r[j].hash == ts[j].hash;
    }
  }

  class MultipleAudioThumbnailCache {
    const maxNumThumbsToStore: int
    var thumbs: seq<Entry>

    ghost predicate Valid()
      reads this
    {
      UniqueHashes(thumbs) && |thumbs| <= Bound(maxNumThumbsToStore)
    }

    constructor (maxNumThumbsToStore_: int)
      ensures Valid()
      ensures maxNumThumbsToStore == maxNumThumbsToStore_ && thumbs == []
    {
      maxNumThumbsToStore := maxNumThumbsToStore_;
      thumbs := [];
    }

    /** The downward scan for the last entry with `hash`; `None` stands for the null pointer. */
    method FindThumbFor(hash: int) returns (r: Option<nat>)
      ensures r == Find(thumbs, hash)
      ensures r.Some? ==> r.value < |thumbs| && thumbs[r.value].hash == hash
      ensures r.None? <==> forall j :: 0 <= j < |thumbs| ==> thumbs[j].hash != hash
    {
      var i := |thumbs|;
      while i > 0
        invariant 0 <= i <= |thumbs|
        invariant FindBelow(thumbs, hash, i) == Find(thumbs, hash)
      {
        i := i - 1;
        if thumbs[i].hash == hash {
          return Some(i);
        }
      }
      return None;
    }

    /**
      Both `loadThumb` overloads: on a hit the entry's clock value becomes
      `now` and its data is handed to the thumbnail.
    */
    method LoadThumb(hash: int, now: nat) returns (found: bool, data: seq<byte>)
      requires Valid()
      modifies this
      ensures Valid()
      ensures found <==> exists j :: 0 <= j < |old(thumbs)| && old(thumbs)[j].hash == hash
      ensures found ==> data == old(thumbs)[Find(old(thumbs), hash).value].data
      ensures thumbs == Touched(old(thumbs), hash, now)
    {
      var te := FindThumbFor(hash);
      if te.Some? {
        var i := te.value;
        thumbs := thumbs[i := thumbs[i].(lastUsed := now)];
        TouchedKeepsUnique(old(thumbs), hash, now);
        return true, thumbs[i].data;
      }
      return false, [];
    }

    /**
      The eviction scan of a full cache: downward over the list, keeping the
      entry used strictly before every entry seen so far.
    */
    method FindOldest(now: nat) returns (oldest: nat)
      ensures oldest == Oldest(thumbs, now)
    {
      oldest := 0;
      var oldestTime := now + 1;
      var i := |thumbs|;
      while i > 0
        invariant 0 <= i <= |thumbs|
        invariant OldestBelow(thumbs, i, oldest, oldestTime) == Oldest(thumbs, now)
      {
        i := i - 1;
        if thumbs[i].lastUsed < oldestTime {
          oldest := i;
          oldestTime := thumbs[i].lastUsed;
        }
      }
    }

    /**
      Both `storeThumb` overloads: the entry with `hash`, else a new one that
      is appended below capacity or replaces the victim, gets clock value
      `now` and the serialised thumbnail.
    */
    method StoreThumb(data: seq<byte>, hash: int, now: nat)
      requires Valid()
      modifies this
      ensures Valid()
      ensures thumbs == Stored(old(thumbs), maxNumThumbsToStore, hash, data, now)
    {
      var te := FindThumbFor(hash);
      var index: nat;
      if te.None? {
        index := AddEntry(hash, now);
      } else {
        index := te.value;
      }
      thumbs := thumbs[index := thumbs[index].(lastUsed := now, data := data)];
      StoredKeepsUnique(old(thumbs), maxNumThumbsToStore, hash, data, now);
      StoredKeepsBound(old(thumbs), maxNumThumbsToStore, hash, data, now);
    }

    /**
      The miss branch of `storeThumb`: a new entry is appended below capacity
      and otherwise replaces the victim, and its index is returned.
    */
    method AddEntry(hash: int, now: nat) returns (index: nat)
      requires Find(thumbs, hash).None?
      modifies this
      ensures index == Slot(old(thumbs), maxNumThumbsToStore, hash, now)
      ensures index < |old(thumbs)| ==> thumbs == old(thumbs)[index := NewEntry(hash)]
      ensures index == |old(thumbs)| ==> thumbs == old(thumbs) + [NewEntry(hash)]
    {
      if |thumbs| < maxNumThumbsToStore {
        thumbs := thumbs + [NewEntry(hash)];
        index := |thumbs| - 1;
      } else {
        var oldest := FindOldest(now);
        if oldest < |thumbs| {
          thumbs := thumbs[oldest := NewEntry(hash)];
          index := oldest;
        } else {
          thumbs := thumbs + [NewEntry(hash)];
          index := |thumbs| - 1;
        }
      }
    }

    method Clear()
      modifies this
      ensures Valid()
      ensures thumbs == []
    {
      thumbs := [];
    }
  }
}
