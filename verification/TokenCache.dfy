/** The token cache: least recently used entries go first, and a hit never changes the
    count. */
module TokenCaching {
  import opened Common

  /** Cache keys stand for the tokenizer and the hash of a content. */
  type Key = (string, string)

  datatype Entry = Entry(key: Key, count: nat)

  function Keys(entries: seq<Entry>): (r: seq<Key>)
    ensures |r| == |entries| && forall k :: 0 <= k < |r| ==> r[k] == entries[k].key
  {
    seq(|entries|, k requires 0 <= k < |entries| => entries[k].key)
  }

  /** The position of a key, or the length. */
  function Position(entries: seq<Entry>, key: Key): (i: nat)
    ensures i <= |entries|
    ensures i < |entries| ==> entries[i].key == key
    ensures forall j :: 0 <= j < i ==> entries[j].key != key
  {
    if entries == [] || entries[0].key == key then 0 else 1 + Position(entries[1..], key)
  }

  /** `OrderedDict.move_to_end` with a value. */
  function ToEnd(entries: seq<Entry>, e: Entry): seq<Entry> {
    var i := Position(entries, e.key);
    if i == |entries| then entries + [e] else entries[..i] + entries[i + 1..] + [e]
  }

  function LastOnes<T>(s: seq<T>, max: nat): seq<T> {
    if |s| <= max then s else s[|s| - max..]
  }

  class TokenCache {
    const maxEntries: nat
    /** The ordered dictionary, the most recently used entry last. */
    var entries: seq<Entry>

    ghost predicate Valid()
      reads this
    {
      maxEntries > 0 && |entries| <= maxEntries
    }

    constructor (maxEntries: nat)
      requires maxEntries > 0
      ensures Valid() && this.maxEntries == maxEntries && entries == []
    {
      this.maxEntries := maxEntries;
      entries := [];
    }

    method Get(key: Key) returns (count: Option<nat>)
      requires Valid()
      modifies `entries
      ensures var i := Position(old(entries), key);
              if i == |old(entries)| then count == None && entries == old(entries)
              else count == Some(old(entries)[i].count) && entries == ToEnd(old(entries), old(entries)[i])
      ensures Valid()
    {
      var i := Position(entries, key);
      if i == |entries| {
        return None;
      }
      var hit := entries[i];
      entries := entries[..i] + entries[i + 1..];
      entries := entries + [hit];
      return Some(hit.count);
    }

    method Set(key: Key, count: nat)
      requires Valid()
      modifies `entries
      ensures entries == LastOnes(ToEnd(old(entries), Entry(key, count)), maxEntries)
      ensures Valid()
    {
      entries := ToEnd(entries, Entry(key, count));
      ghost var filled := entries;
      while |entries| > maxEntries
        invariant entries == filled[|filled| - |entries|..] && |entries| <= |filled|
        invariant |entries| >= maxEntries || entries == filled
      {
        entries := entries[1..];
      }
    }
  }

  /** One counted content: the cache after it and the count returned. */
  function Access(entries: seq<Entry>, max: nat, key: Key, direct: nat): (seq<Entry>, nat) {
    var i := Position(entries, key);
    if i < |entries| then (ToEnd(entries, entries[i]), entries[i].count)
    else (LastOnes(ToEnd(entries, Entry(key, direct)), max), direct)
  }

  /** `_count_serialized_content`, with the hash and the encoder as functions. */
  method CountSerializedContent(cache: TokenCache, content: string, hash: string -> Key, encode: string -> nat) returns (count: nat)
    requires cache.Valid()
    modifies cache`entries
    ensures cache.Valid()
    ensures (cache.entries, count) == Access(old(cache.entries), cache.maxEntries, hash(content), encode(content))
  {
    var cached := cache.Get(hash(content));
    if cached.Some? {
      return cached.value;
    }
    count := encode(content);
    cache.Set(hash(content), count);
  }

  // ---- runs ------------------------------------------------------------------------------

  function RunCache(max: nat, contents: seq<string>, hash: string -> Key, encode: string -> nat): seq<Entry> {
    if contents == [] then []
    else
      var last := contents[|contents| - 1];
      Access(RunCache(max, contents[..|contents| - 1], hash, encode), max, hash(last), encode(last)).0
  }

  /** What the last access of a run returns. */
  function LastCount(max: nat, contents: seq<string>, hash: string -> Key, encode: string -> nat): nat
    requires contents != []
  {
    var last := contents[|contents| - 1];
    Access(RunCache(max, contents[..|contents| - 1], hash, encode), max, hash(last), encode(last)).1
  }

  /** Contents the cache cannot tell apart have the same count. */
  ghost predicate HashRespectsCounts(hash: string -> Key, encode: string -> nat) {
    forall c, d :: hash(c) == hash(d) ==> encode(c) == encode(d)
  }

  ghost predicate CountsRight(entries: seq<Entry>, hash: string -> Key, encode: string -> nat) {
    forall e, c :: e in entries && hash(c) == e.key ==> e.count == encode(c)
  }

  lemma {:induction false} AccessRight(entries: seq<Entry>, max: nat, content: string, hash: string -> Key, encode: string -> nat)
    requires HashRespectsCounts(hash, encode) && CountsRight(entries, hash, encode)
    ensures var r := Access(entries, max, hash(content), encode(content));
            CountsRight(r.0, hash, encode) && r.1 == encode(content)
  {
    var i := Position(entries, hash(content));
    var r := Access(entries, max, hash(content), encode(content)).0;
    if i < |entries| {
      assert entries[i] in entries;
    }
    forall e | e in r ensures e in entries || (e.key == hash(content) && e.count == encode(content)) {
    }
  }

  lemma {:induction false} RunRight(max: nat, contents: seq<string>, hash: string -> Key, encode: string -> nat)
    requires HashRespectsCounts(hash, encode)
    ensures CountsRight(RunCache(max, contents, hash, encode), hash, encode)
  {
    hide Access, CountsRight;
    if contents == [] {
      NoneWrong(hash, encode);
    } else {
      RunRight(max, contents[..|contents| - 1], hash, encode);
      AccessRight(RunCache(max, contents[..|contents| - 1], hash, encode), max, contents[|contents| - 1], hash, encode);
    }
  }

  lemma {:induction false} NoneWrong(hash: string -> Key, encode: string -> nat)
    ensures CountsRight([], hash, encode)
  {
  }

  /** Every access of every run returns the direct count exactly if contents with the same
      hash have the same count. */
  lemma {:induction false} CacheIsTransparent(max: nat, hash: string -> Key, encode: string -> nat)
    requires max > 0
    ensures HashRespectsCounts(hash, encode) <==>
            forall contents: seq<string> :: contents != [] ==>
              LastCount(max, contents, hash, encode) == encode(contents[|contents| - 1])
  {
    if HashRespectsCounts(hash, encode) {
      forall contents: seq<string> | contents != []
        ensures LastCount(max, contents, hash, encode) == encode(contents[|contents| - 1])
      {
        RunRight(max, contents[..|contents| - 1], hash, encode);
        AccessRight(RunCache(max, contents[..|contents| - 1], hash, encode), max, contents[|contents| - 1], hash, encode);
      }
    } else {
      var c, d :| hash(c) == hash(d) && encode(c) != encode(d);
      CollisionShows(max, c, d, hash, encode);
    }
  }

  lemma {:induction false} CollisionShows(max: nat, c: string, d: string, hash: string -> Key, encode: string -> nat)
    requires max > 0 && hash(c) == hash(d)
    ensures LastCount(max, [c, d], hash, encode) == encode(c)
  {
    assert [c, d][..1] == [c] && [c][..0] == [];
    assert RunCache(max, [c], hash, encode) == [Entry(hash(c), encode(c))];
  }

  // ---- which keys are kept ----------------------------------------------------------------------

  /** The distinct keys of an access sequence in the order of their last access. */
  function ByLastAccess(keys: seq<Key>): seq<Key> {
    if keys == [] then []
    else if keys[0] in keys[1..] then ByLastAccess(keys[1..])
    else [keys[0]] + ByLastAccess(keys[1..])
  }

  function Without(keys: seq<Key>, key: Key): seq<Key> {
    if keys == [] then []
    else if keys[0] == key then Without(keys[1..], key)
    else [keys[0]] + Without(keys[1..], key)
  }

  lemma {:induction false} WithoutAll(keys: seq<Key>, key: Key)
    ensures forall x :: x in Without(keys, key) <==> x in keys && x != key
    ensures key !in keys ==> Without(keys, key) == keys
  {
    if keys != [] {
      WithoutAll(keys[1..], key);
      assert keys == [keys[0]] + keys[1..];
    }
  }

  lemma {:induction false} ByLastAccessAll(keys: seq<Key>)
    ensures forall x :: x in ByLastAccess(keys) <==> x in keys
  {
    if keys != [] {
      ByLastAccessAll(keys[1..]);
      assert keys == [keys[0]] + keys[1..];
    }
  }

  /** One more access moves its key to the end. */
  lemma {:induction false} AccessMovesToEnd(keys: seq<Key>, key: Key)
    ensures ByLastAccess(keys + [key]) == Without(ByLastAccess(keys), key) + [key]
  {
    if keys == [] {
      assert (keys + [key])[1..] == [];
    } else {
      assert (keys + [key])[1..] == keys[1..] + [key];
      AccessMovesToEnd(keys[1..], key);
      WithoutAll(ByLastAccess(keys[1..]), key);
      ByLastAccessAll(keys[1..]);
      var tail := ByLastAccess(keys[1..]);
      if keys[0] !in keys[1..] {
        assert ([keys[0]] + tail)[1..] == tail;
        assert keys[0] != key ==> Without([keys[0]] + tail, key) == [keys[0]] + Without(tail, key);
        assert keys[0] in keys[1..] + [key] <==> keys[0] == key;
      }
    }
  }

  predicate Distinct(keys: seq<Key>) {
    forall i, j | 0 <= i < j < |keys| :: keys[i] != keys[j]
  }

  lemma {:induction false} ByLastAccessDistinct(keys: seq<Key>)
    ensures Distinct(ByLastAccess(keys))
  {
    if keys != [] {
      ByLastAccessDistinct(keys[1..]);
      ByLastAccessAll(keys[1..]);
    }
  }

  lemma {:induction false} WithoutAt(keys: seq<Key>, key: Key, i: nat)
    requires Distinct(keys) && i < |keys| && keys[i] == key
    ensures Without(keys, key) == keys[..i] + keys[i + 1..]
  {
    if i == 0 {
      WithoutAll(keys[1..], key);
      assert keys[..0] + keys[1..] == keys[1..];
    } else {
      WithoutAt(keys[1..], key, i - 1);
      assert keys[..i] == [keys[0]] + keys[1..][..i - 1] && keys[1..][i..] == keys[i + 1..];
    }
  }

  /** A kept key moves to the end of what is kept. */
  lemma {:induction false} KeptMoves(recent: seq<Key>, cut: nat, i: nat, key: Key)
    requires Distinct(recent) && cut <= i < |recent| && recent[i] == key
    ensures |Without(recent, key)| == |recent| - 1 && Without(recent, key)[cut..] == Without(recent[cut..], key)
  {
    var kept := recent[cut..];
    WithoutAt(recent, key, i);
    assert Distinct(kept) && kept[i - cut] == key;
    WithoutAt(kept, key, i - cut);
    assert (recent[..i] + recent[i + 1..])[cut..] == recent[cut..i] + recent[i + 1..];
    assert kept[..i - cut] == recent[cut..i] && kept[i - cut + 1..] == recent[i + 1..];
  }

  /** A key dropped earlier pushes out the oldest of what is kept. */
  lemma {:induction false} DroppedReturns(recent: seq<Key>, cut: nat, i: nat, key: Key)
    requires Distinct(recent) && i < cut < |recent| && recent[i] == key
    ensures |Without(recent, key)| == |recent| - 1 && Without(recent, key)[cut..] == recent[cut + 1..] && key !in recent[cut..]
  {
    WithoutAt(recent, key, i);
    assert (recent[..i] + recent[i + 1..])[cut..] == recent[cut + 1..];
  }

  /** Moving to the end and dropping the oldest commute. */
  lemma {:induction false} KeepRecent(recent: seq<Key>, max: nat, key: Key)
    requires max > 0 && Distinct(recent)
    ensures var kept := LastOnes(recent, max);
            LastOnes(Without(recent, key) + [key], max) ==
              if key in kept then Without(kept, key) + [key] else LastOnes(kept + [key], max)
  {
    hide Without, Distinct;
    var kept := LastOnes(recent, max);
    var cut := |recent| - |kept|;
    assert kept == recent[cut..];
    WithoutAll(recent, key);
    if key in recent {
      var i :| 0 <= i < |recent| && recent[i] == key;
      if i >= cut {
        KeptMoves(recent, cut, i, key);
        assert kept[i - cut] == key;
        KeepTail(Without(recent, key), Without(kept, key), cut, max, key);
      } else {
        DroppedReturns(recent, cut, i, key);
        KeepTail(Without(recent, key), recent[cut + 1..], cut, max, key);
        DropFirst(kept, max, key);
        assert kept[1..] == recent[cut + 1..];
      }
    } else {
      assert key !in kept;
      KeepNew(recent, kept, max, key);
    }
  }

  lemma {:induction false} KeepTail(all: seq<Key>, tail: seq<Key>, cut: nat, max: nat, key: Key)
    requires cut <= |all| && all[cut..] == tail && (|tail| + 1 == max || (cut == 0 && |tail| + 1 <= max))
    ensures LastOnes(all + [key], max) == tail + [key]
  {
    assert (all + [key])[cut..] == tail + [key];
  }

  lemma {:induction false} DropFirst(kept: seq<Key>, max: nat, key: Key)
    requires |kept| == max > 0
    ensures LastOnes(kept + [key], max) == kept[1..] + [key]
  {
  }

  lemma {:induction false} KeepNew(recent: seq<Key>, kept: seq<Key>, max: nat, key: Key)
    requires max > 0 && kept == LastOnes(recent, max)
    ensures LastOnes(recent + [key], max) == LastOnes(kept + [key], max)
  {
    if |recent| > max {
      var all := recent + [key];
      DropFirst(kept, max, key);
      assert all[|all| - max..] == kept[1..] + [key];
    }
  }

  lemma {:induction false} ToEndKeys(entries: seq<Entry>, e: Entry)
    requires Distinct(Keys(entries))
    ensures Keys(ToEnd(entries, e)) == Without(Keys(entries), e.key) + [e.key]
    ensures Position(entries, e.key) < |entries| <==> e.key in Keys(entries)
  {
    var i := Position(entries, e.key);
    var keys := Keys(entries);
    WithoutAll(keys, e.key);
    if i < |entries| {
      assert keys[i] == e.key;
      WithoutAt(keys, e.key, i);
      assert Keys(ToEnd(entries, e)) == keys[..i] + keys[i + 1..] + [e.key];
    } else {
      forall k | 0 <= k < |keys| ensures keys[k] != e.key {
      }
      assert Keys(ToEnd(entries, e)) == keys + [e.key];
    }
  }

  lemma {:induction false} LastOnesKeys(entries: seq<Entry>, max: nat)
    ensures Keys(LastOnes(entries, max)) == LastOnes(Keys(entries), max)
  {
  }

  lemma {:induction false} AccessKeys(entries: seq<Entry>, max: nat, key: Key, direct: nat)
    requires Distinct(Keys(entries))
    ensures Keys(Access(entries, max, key, direct).0) ==
            if key in Keys(entries) then Without(Keys(entries), key) + [key] else LastOnes(Keys(entries) + [key], max)
  {
    hide Distinct;
    var i := Position(entries, key);
    WithoutAll(Keys(entries), key);
    ToEndKeys(entries, Entry(key, direct));
    if i < |entries| {
      ToEndKeys(entries, entries[i]);
    } else {
      LastOnesKeys(ToEnd(entries, Entry(key, direct)), max);
    }
  }

  function HashAll(contents: seq<string>, hash: string -> Key): (r: seq<Key>)
    ensures |r| == |contents|
  {
    seq(|contents|, k requires 0 <= k < |contents| => hash(contents[k]))
  }

  /** After every access sequence the cache holds exactly the most recently used distinct
      keys, as many as fit, in the order of their last use. */
  lemma {:induction false} HoldsMostRecent(max: nat, contents: seq<string>, hash: string -> Key, encode: string -> nat)
    requires max > 0
    ensures Keys(RunCache(max, contents, hash, encode)) == LastOnes(ByLastAccess(HashAll(contents, hash)), max)
  {
    hide Access, Distinct, LastOnes, ByLastAccess, Without, Keys;
    if contents == [] {
      NothingKept(max);
    } else {
      var front, last := contents[..|contents| - 1], contents[|contents| - 1];
      HoldsMostRecent(max, front, hash, encode);
      var entries := RunCache(max, front, hash, encode);
      var recent := ByLastAccess(HashAll(front, hash));
      ByLastAccessDistinct(HashAll(front, hash));
      LastOnesDistinct(recent, max);
      AccessKeys(entries, max, hash(last), encode(last));
      KeepRecent(recent, max, hash(last));
      assert HashAll(contents, hash) == HashAll(front, hash) + [hash(last)];
      AccessMovesToEnd(HashAll(front, hash), hash(last));
    }
  }

  lemma {:induction false} NothingKept(max: nat)
    ensures LastOnes(ByLastAccess([]), max) == []
  {
  }

  lemma {:induction false} LastOnesDistinct(keys: seq<Key>, max: nat)
    requires Distinct(keys)
    ensures Distinct(LastOnes(keys, max))
  {
  }
}
