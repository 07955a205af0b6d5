/** The LRU cache of parsed syntax trees (chunkhound/tree_cache.py): an ordered dictionary with a limit on
    entries and a limit on estimated memory, whose answers must still match the file on disk. */
module TreeCache {
  import opened Wrappers

  /** A resolved path; the identity of a parsed tree. */
  type Key = string
  type Tree = nat

  /** What `stat` reports; a path missing from `Files` cannot be read. */
  datatype Stat = Stat(mtime: int, size: nat)
  type Files = map<Key, Stat>

  datatype Slot = Slot(key: Key, tree: Tree, stat: Stat)
  datatype Limits = Limits(maxEntries: int, maxMemory: int)
  /** The dictionary in recency order, least recently used first. */
  type Cache = seq<Slot>

  /** `TreeCacheEntry.is_valid`. */
  predicate IsValid(s: Slot, files: Files) {
    s.key in files && files[s.key] == s.stat
  }

  function IndexOf(c: Cache, key: Key): (i: int)
    ensures -1 <= i < |c|
    ensures i >= 0 ==> c[i].key == key
    ensures i < 0 ==> forall j :: 0 <= j < |c| ==> c[j].key != key
  {
    if c == [] then -1
    else if c[|c| - 1].key == key then |c| - 1
    else IndexOf(c[..|c| - 1], key)
  }

  /** `del self._cache[key]` when present. */
  function Without(c: Cache, key: Key): Cache {
    var i := IndexOf(c, key);
    if i < 0 then c else c[..i] + c[i + 1..]
  }

  function TotalSize(c: Cache): nat {
    if c == [] then 0 else c[0].stat.size + TotalSize(c[1..])
  }

  predicate WithinLimits(limits: Limits, c: Cache) {
    |c| <= limits.maxEntries && TotalSize(c) <= limits.maxMemory
  }

  /** Evict from the front until both limits hold or nothing is left. */
  function Enforce(limits: Limits, c: Cache): Cache {
    if c == [] || WithinLimits(limits, c) then c else Enforce(limits, c[1..])
  }

  /** `_enforce_limits` keeps the longest suffix of the recency order that is within both limits. */
  lemma {:induction false} EnforceMeaning(limits: Limits, c: Cache) returns (k: nat)
    ensures k <= |c| && Enforce(limits, c) == c[k..]
    ensures k == |c| || WithinLimits(limits, c[k..])
    ensures forall j :: 0 <= j < k ==> !WithinLimits(limits, c[j..])
  {
    if c == [] || WithinLimits(limits, c) {
      k := 0;
    } else {
      var k' := EnforceMeaning(limits, c[1..]);
      k := k' + 1;
      assert c[1..][k'..] == c[k..];
      forall j | 0 <= j < k
        ensures !WithinLimits(limits, c[j..])
      {
        if j > 0 {
          assert c[1..][j - 1..] == c[j..];
        } else {
          assert c[0..] == c;
        }
      }
    }
  }

  /** The converse: a suffix with these properties is the one that is kept. */
  lemma {:induction false} EnforceIs(limits: Limits, c: Cache, k: nat)
    requires k <= |c| && (k == |c| || WithinLimits(limits, c[k..]))
    requires forall j :: 0 <= j < k ==> !WithinLimits(limits, c[j..])
    ensures Enforce(limits, c) == c[k..]
  {
    if k > 0 {
      assert c[0..] == c;
      forall j | 0 <= j < k - 1
        ensures !WithinLimits(limits, c[1..][j..])
      {
        assert c[1..][j..] == c[j + 1..];
      }
      assert c[1..][k - 1..] == c[k..];
      EnforceIs(limits, c[1..], k - 1);
    } else {
      assert c[0..] == c;
    }
  }

  // ----- When enforcing the limits ends -----

  /** `_evict_lru`, which leaves an empty dictionary as it is. */
  function EvictOne(c: Cache): Cache {
    if c == [] then [] else c[1..]
  }

  /** The dictionary after `n` turns of an eviction loop. */
  function Evicted(c: Cache, n: nat): Cache
    decreases n
  {
    if n == 0 then c else Evicted(EvictOne(c), n - 1)
  }

  lemma {:induction false} EvictedSize(c: Cache, n: nat)
    ensures |Evicted(c, n)| == if n <= |c| then |c| - n else 0
    decreases n
  {
    if n > 0 {
      EvictedSize(EvictOne(c), n - 1);
    }
  }

  /** The loop over the entry limit, `while len(cache) > max_entries`, gets to stop. */
  ghost predicate CountLoopEnds(limits: Limits, c: Cache) {
    exists n :: |Evicted(c, n)| <= limits.maxEntries
  }

  /** The loop over the entry limit ends if and only if the limit is not negative, whatever is cached. */
  lemma CountLoopEndsExactlyWhen(limits: Limits, c: Cache)
    ensures CountLoopEnds(limits, c) <==> limits.maxEntries >= 0
  {
    if limits.maxEntries >= 0 {
      EvictedSize(c, |c|);
    }
  }

  // ----- The operations as functions of the dictionary -----

  datatype Op =
    | Get(key: Key) | Peek(key: Key) | Put(key: Key, tree: Option<Tree>) | Invalidate(key: Key) | Clear | Cleanup

  function Answer(c: Cache, key: Key, files: Files): Option<Tree> {
    var i := IndexOf(c, key);
    if i >= 0 && IsValid(c[i], files) then Some(c[i].tree) else None
  }

  function AfterGet(c: Cache, key: Key, files: Files): Cache {
    var i := IndexOf(c, key);
    if i < 0 then c
    else if IsValid(c[i], files) then Without(c, key) + [c[i]]
    else Without(c, key)
  }

  predicate Effective(key: Key, tree: Option<Tree>, files: Files) {
    tree.Some? && key in files
  }

  /** The dictionary with the new entry last, before the limits are enforced. */
  function Inserted(c: Cache, key: Key, tree: Tree, stat: Stat): Cache {
    Without(c, key) + [Slot(key, tree, stat)]
  }

  /** `put` ends: it does not get as far as the limits, or the loop over the entry limit ends. */
  ghost predicate PutEnds(limits: Limits, c: Cache, key: Key, tree: Option<Tree>, files: Files) {
    Effective(key, tree, files) ==> CountLoopEnds(limits, Inserted(c, key, tree.value, files[key]))
  }

  lemma PutEndsExactlyWhen(limits: Limits, c: Cache, key: Key, tree: Option<Tree>, files: Files)
    ensures PutEnds(limits, c, key, tree, files) <==> !Effective(key, tree, files) || limits.maxEntries >= 0
  {
    if Effective(key, tree, files) {
      CountLoopEndsExactlyWhen(limits, Inserted(c, key, tree.value, files[key]));
    }
  }

  function AfterPut(limits: Limits, c: Cache, key: Key, tree: Option<Tree>, files: Files): Cache {
    if Effective(key, tree, files) then Enforce(limits, Inserted(c, key, tree.value, files[key])) else c
  }

  function Fresh(c: Cache, files: Files): Cache {
    if c == [] then []
    else Fresh(c[..|c| - 1], files) + (if IsValid(c[|c| - 1], files) then [c[|c| - 1]] else [])
  }

  function After(limits: Limits, c: Cache, op: Op, files: Files): Cache {
    match op
    case Get(key) => AfterGet(c, key, files)
    case Peek(_) => c
    case Put(key, tree) => AfterPut(limits, c, key, tree, files)
    case Invalidate(key) => Without(c, key)
    case Clear => []
    case Cleanup => Fresh(c, files)
  }

  predicate KeysDistinct(c: Cache) {
    forall i, j :: 0 <= i < j < |c| ==> c[i].key != c[j].key
  }

  // ----- The class -----

  class SyntaxTreeCache {
    const limits: Limits
    var cache: Cache
    var hits: nat
    var misses: nat
    var evictions: nat
    var invalidations: nat

    constructor (limits: Limits)
      ensures this.limits == limits && cache == []
      ensures hits == misses == evictions == invalidations == 0
    {
      this.limits := limits;
      cache := [];
      hits, misses, evictions, invalidations := 0, 0, 0, 0;
    }

    method EvictLru() returns (evicted: Option<Slot>)
      modifies this`cache, this`evictions
      ensures cache == EvictOne(old(cache)) && evictions == old(evictions) + |old(cache)| - |cache|
      ensures evicted == if old(cache) == [] then None else Some(old(cache)[0])
    {
      if cache == [] {
        return None;
      }
      evicted := Some(cache[0]);
      cache := cache[1..];
      evictions := evictions + 1;
    }

    /** `_enforce_limits`, on the limits for which it ends (`CountLoopEndsExactlyWhen`). */
    method EnforceLimits()
      requires limits.maxEntries >= 0
      modifies this`cache, this`evictions
      ensures cache == Enforce(limits, old(cache))
      ensures evictions == old(evictions) + |old(cache)| - |cache|
    {
      ghost var k := 0;
      ghost var all := cache;
      while |cache| > limits.maxEntries
        invariant 0 <= k <= |all| && cache == all[k..] && evictions == old(evictions) + k
        invariant forall j :: 0 <= j < k ==> !WithinLimits(limits, all[j..])
        decreases |cache|
      {
        var evicted := EvictLru();
        k := k + 1;
      }
      var estimate := TotalSize(cache);
      while estimate > limits.maxMemory && cache != []
        invariant 0 <= k <= |all| && cache == all[k..] && evictions == old(evictions) + k
        invariant forall j :: 0 <= j < k ==> !WithinLimits(limits, all[j..])
        invariant estimate == TotalSize(cache) && |cache| <= limits.maxEntries
        decreases |cache|
      {
        var evicted := EvictLru();
        estimate := estimate - evicted.value.stat.size;
        k := k + 1;
      }
      EnforceIs(limits, all, k);
    }

    method GetTree(key: Key, files: Files) returns (tree: Option<Tree>)
      modifies this`cache, this`hits, this`misses, this`invalidations
      ensures tree == Answer(old(cache), key, files)
      ensures cache == After(limits, old(cache), Get(key), files)
      ensures hits + misses == old(hits + misses) + 1 && (hits == old(hits) + 1 <==> tree.Some?)
      ensures invalidations == old(invalidations) + |old(cache)| - |cache|
    {
      var i := IndexOf(cache, key);
      if i < 0 {
        misses := misses + 1;
        return None;
      }
      var entry := cache[i];
      if !IsValid(entry, files) {
        cache := cache[..i] + cache[i + 1..];
        invalidations := invalidations + 1;
        misses := misses + 1;
        return None;
      }
      cache := cache[..i] + cache[i + 1..] + [entry];
      hits := hits + 1;
      return Some(entry.tree);
    }

    /** `put`, on the limits for which it ends (`PutEndsExactlyWhen`). */
    method PutTree(key: Key, tree: Option<Tree>, files: Files)
      requires Effective(key, tree, files) ==> limits.maxEntries >= 0
      modifies this`cache, this`evictions
      ensures cache == After(limits, old(cache), Put(key, tree), files)
    {
      if tree.None? || key !in files {
        return;
      }
      var i := IndexOf(cache, key);
      if i >= 0 {
        cache := cache[..i] + cache[i + 1..];
      }
      cache := cache + [Slot(key, tree.value, files[key])];
      EnforceLimits();
    }

    method InvalidateKey(key: Key) returns (found: bool)
      modifies this`cache, this`invalidations
      ensures cache == Without(old(cache), key)
      ensures found <==> exists i :: 0 <= i < |old(cache)| && old(cache)[i].key == key
      ensures invalidations == old(invalidations) + |old(cache)| - |cache|
    {
      var i := IndexOf(cache, key);
      if i >= 0 {
        cache := cache[..i] + cache[i + 1..];
        invalidations := invalidations + 1;
        return true;
      }
      return false;
    }

    method CleanupStaleEntries(files: Files) returns (removed: nat)
      modifies this`cache, this`invalidations
      ensures cache == Fresh(old(cache), files)
      ensures removed == |old(cache)| - |cache| && invalidations == old(invalidations) + removed
    {
      var kept := [];
      removed := 0;
      for i := 0 to |cache|
        invariant kept == Fresh(cache[..i], files) && removed == i - |kept|
        invariant cache == old(cache) && invalidations == old(invalidations)
      {
        assert cache[..i + 1][..i] == cache[..i];
        if IsValid(cache[i], files) {
          kept := kept + [cache[i]];
        } else {
          removed := removed + 1;
        }
      }
      assert cache[..|cache|] == cache;
      cache := kept;
      invalidations := invalidations + removed;
    }
  }
}
