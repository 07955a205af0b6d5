/** What the cache promises over every run of operations and file changes. */
module TreeCacheLaws {
  import opened Wrappers
  import opened TreeCache

  /** One call of the cache, with the state of the file system at that moment. */
  datatype Event = Event(op: Op, files: Files)
  type History = seq<Event>

  function Init(h: History): History
    requires h != []
  {
    h[..|h| - 1]
  }

  function Last(h: History): Event
    requires h != []
  {
    h[|h| - 1]
  }

  /** The dictionary after a history of calls on an empty cache. */
  function Run(limits: Limits, h: History): Cache {
    if h == [] then [] else After(limits, Run(limits, Init(h)), Last(h).op, Last(h).files)
  }

  // ----- Keys stay distinct -----

  lemma WithoutKeeps(c: Cache, key: Key)
    requires KeysDistinct(c)
    ensures KeysDistinct(Without(c, key))
    ensures forall j :: 0 <= j < |Without(c, key)| ==> Without(c, key)[j].key != key && Without(c, key)[j] in c
    ensures forall j :: 0 <= j < |c| && c[j].key != key ==> c[j] in Without(c, key)
  {
    var i := IndexOf(c, key);
    if i >= 0 {
      var r := Without(c, key);
      forall j | 0 <= j < |r|
        ensures r[j].key != key && r[j] in c
      {
        assert r[j] == if j < i then c[j] else c[j + 1];
      }
      forall j | 0 <= j < |c| && c[j].key != key
        ensures c[j] in r
      {
        assert c[j] == if j < i then r[j] else r[j - 1];
      }
    }
  }

  lemma WithoutMembers(c: Cache, key: Key)
    requires KeysDistinct(c)
    ensures forall s :: s in Without(c, key) <==> s in c && s.key != key
  {
    WithoutKeeps(c, key);
  }

  lemma {:induction false} FreshMembers(c: Cache, files: Files)
    ensures forall s :: s in Fresh(c, files) <==> s in c && IsValid(s, files)
  {
    if c != [] {
      FreshMembers(c[..|c| - 1], files);
      assert c == c[..|c| - 1] + [c[|c| - 1]];
    }
  }

  lemma LastDiffers(c: Cache, s: Slot)
    requires KeysDistinct(c) && c != [] && s in c[..|c| - 1]
    ensures s.key != c[|c| - 1].key
  {
  }

  lemma {:induction false} FreshKeeps(c: Cache, files: Files)
    requires KeysDistinct(c)
    ensures KeysDistinct(Fresh(c, files))
    ensures forall s :: s in Fresh(c, files) <==> s in c && IsValid(s, files)
  {
    FreshMembers(c, files);
    if c != [] {
      var init := c[..|c| - 1];
      FreshKeeps(init, files);
      forall s | s in Fresh(init, files)
        ensures s.key != c[|c| - 1].key
      {
        LastDiffers(c, s);
      }
    }
  }

  lemma EnforceKeeps(limits: Limits, c: Cache)
    requires KeysDistinct(c)
    ensures KeysDistinct(Enforce(limits, c))
    ensures forall s :: s in Enforce(limits, c) ==> s in c
  {
    var k := EnforceMeaning(limits, c);
  }

  lemma AfterKeepsDistinct(limits: Limits, c: Cache, op: Op, files: Files)
    requires KeysDistinct(c)
    ensures KeysDistinct(After(limits, c, op, files))
  {
    match op
    case Get(key) => WithoutKeeps(c, key);
    case Put(key, tree) =>
      if Effective(key, tree, files) {
        WithoutKeeps(c, key);
        EnforceKeeps(limits, Inserted(c, key, tree.value, files[key]));
      }
    case Invalidate(key) => WithoutKeeps(c, key);
    case Cleanup => FreshKeeps(c, files);
    case _ =>
  }

  lemma {:induction false} RunDistinct(limits: Limits, h: History)
    ensures KeysDistinct(Run(limits, h))
  {
    if h != [] {
      RunDistinct(limits, Init(h));
      AfterKeepsDistinct(limits, Run(limits, Init(h)), Last(h).op, Last(h).files);
    }
  }

  lemma GetMembers(c: Cache, key: Key, files: Files)
    requires KeysDistinct(c)
    ensures forall s :: s in AfterGet(c, key, files) <==> s in c && (s.key != key || IsValid(s, files))
  {
    WithoutKeeps(c, key);
    var i := IndexOf(c, key);
    var r := AfterGet(c, key, files);
    forall s | s in r
      ensures s in c && (s.key != key || IsValid(s, files))
    {
      var j :| 0 <= j < |r| && r[j] == s;
      if i >= 0 && j < |Without(c, key)| {
        assert s == Without(c, key)[j];
      }
    }
    forall s | s in c && (s.key != key || IsValid(s, files))
      ensures s in r
    {
      var j :| 0 <= j < |c| && c[j] == s;
      if s.key == key {
        assert j == i && r[|r| - 1] == c[i];
      }
    }
  }

  lemma InsertedMembers(c: Cache, key: Key, tree: Tree, stat: Stat)
    requires KeysDistinct(c)
    ensures forall s :: s in Inserted(c, key, tree, stat) <==> (s in c && s.key != key) || s == Slot(key, tree, stat)
  {
    WithoutKeeps(c, key);
    var r := Inserted(c, key, tree, stat);
    forall s | s in r
      ensures (s in c && s.key != key) || s == Slot(key, tree, stat)
    {
      var j :| 0 <= j < |r| && r[j] == s;
    }
    assert r[|r| - 1] == Slot(key, tree, stat);
  }

  // ----- A plain map is the reference -----

  /** A plain dictionary with the same calls and no limits: only staleness removes entries unasked. */
  function Store(h: History): map<Key, Slot> {
    if h == [] then map[]
    else
      var m := Store(Init(h));
      var files := Last(h).files;
      match Last(h).op
      case Get(key) => if key in m && !IsValid(m[key], files) then m - {key} else m
      case Peek(_) => m
      case Put(key, tree) => if Effective(key, tree, files) then m[key := Slot(key, tree.value, files[key])] else m
      case Invalidate(key) => m - {key}
      case Clear => map[]
      case Cleanup => map key | key in m && IsValid(m[key], files) :: m[key]
  }

  predicate Holds(m: map<Key, Slot>, s: Slot) {
    s.key in m && m[s.key] == s
  }

  /** Every entry of the cache is the plain dictionary's entry for its key. */
  lemma {:induction false} CacheWithinStore(limits: Limits, h: History)
    ensures forall s :: s in Run(limits, h) ==> Holds(Store(h), s)
  {
    if h != [] {
      CacheWithinStore(limits, Init(h));
      RunDistinct(limits, Init(h));
      var c := Run(limits, Init(h));
      var files := Last(h).files;
      match Last(h).op
      case Get(key) => GetMembers(c, key, files);
      case Put(key, tree) =>
        if Effective(key, tree, files) {
          InsertedMembers(c, key, tree.value, files[key]);
          var k := EnforceMeaning(limits, Inserted(c, key, tree.value, files[key]));
        }
      case Invalidate(key) => WithoutKeeps(c, key);
      case Cleanup => FreshKeeps(c, files);
      case _ =>
    }
  }

  /** This call is a put of a tree for a file that can be read. */
  predicate Stores(e: Event) {
    e.op.Put? && e.op.tree.Some? && e.op.key in e.files
  }

  /** The dictionary right after the last call of a history put its entry, before anything was evicted. */
  function WithNew(limits: Limits, h: History): Cache
    requires h != [] && Stores(Last(h))
  {
    Inserted(Run(limits, Init(h)), Last(h).op.key, Last(h).op.tree.value, Last(h).files[Last(h).op.key])
  }

  /** No insertion of the history ever exceeded a limit. */
  ghost predicate NeverEvicts(limits: Limits, h: History) {
    h == [] || (&& NeverEvicts(limits, Init(h))
                && (Stores(Last(h)) ==> && |WithNew(limits, h)| <= limits.maxEntries
                                        && TotalSize(WithNew(limits, h)) <= limits.maxMemory))
  }

  /** The estimate of the memory in use is the sum of the file sizes. */
  lemma {:induction false} TotalSizeAdds(a: Cache, b: Cache)
    ensures TotalSize([]) == 0 && (forall s :: TotalSize([s]) == s.stat.size)
    ensures TotalSize(a + b) == TotalSize(a) + TotalSize(b)
  {
    forall s
      ensures TotalSize([s]) == s.stat.size
    {
      assert [s][1..] == [];
    }
    if a == [] {
      assert a + b == b;
    } else {
      TotalSizeAdds(a[1..], b);
      assert (a + b)[1..] == a[1..] + b;
    }
  }

  /** Without evictions the cache holds exactly what the plain dictionary holds. */
  lemma {:induction false} CacheIsStore(limits: Limits, h: History)
    requires NeverEvicts(limits, h)
    ensures forall s :: s in Run(limits, h) <==> Holds(Store(h), s)
  {
    CacheWithinStore(limits, h);
    if h != [] {
      CacheIsStore(limits, Init(h));
      RunDistinct(limits, Init(h));
      var c := Run(limits, Init(h));
      var files := Last(h).files;
      match Last(h).op
      case Get(key) => GetMembers(c, key, files);
      case Put(key, tree) =>
        if Effective(key, tree, files) {
          InsertedMembers(c, key, tree.value, files[key]);
          assert Run(limits, h) == Inserted(c, key, tree.value, files[key]);
        }
      case Invalidate(key) => WithoutMembers(c, key);
      case Cleanup => FreshKeeps(c, files);
      case _ =>
    }
  }

  function LookUp(m: map<Key, Slot>, key: Key, files: Files): Option<Tree> {
    if key in m && IsValid(m[key], files) then Some(m[key].tree) else None
  }

  /** `get` answers what the plain dictionary would, or nothing; and without evictions exactly that. */
  lemma GetAgreesWithStore(limits: Limits, h: History, key: Key, files: Files)
    ensures var answer := Answer(Run(limits, h), key, files); answer.Some? ==> answer == LookUp(Store(h), key, files)
    ensures NeverEvicts(limits, h) ==> Answer(Run(limits, h), key, files) == LookUp(Store(h), key, files)
  {
    CacheWithinStore(limits, h);
    var c := Run(limits, h);
    var i := IndexOf(c, key);
    if i >= 0 {
      assert c[i] in c && Holds(Store(h), c[i]);
    }
    if NeverEvicts(limits, h) {
      CacheIsStore(limits, h);
      StoreKeys(h);
      if key in Store(h) {
        assert Holds(Store(h), Store(h)[key]);
      }
    }
  }

  lemma {:induction false} StoreKeys(h: History)
    ensures forall key :: key in Store(h) ==> Store(h)[key].key == key
  {
    if h != [] {
      StoreKeys(Init(h));
    }
  }

  // ----- Freshness -----

  /** The tree of the latest `put` for a key that took effect and was not followed by an invalidation or a
      clear, with what `stat` reported then. */
  function Latest(h: History, key: Key): Option<(Tree, Stat)> {
    if h == [] then None
    else
      match Last(h).op
      case Put(k, tree) =>
        if k == key && tree.Some? && key in Last(h).files then Some((tree.value, Last(h).files[key]))
        else Latest(Init(h), key)
      case Invalidate(k) => if k == key then None else Latest(Init(h), key)
      case Clear => None
      case _ => Latest(Init(h), key)
  }

  lemma {:induction false} StoreIsLatest(h: History, key: Key)
    requires key in Store(h)
    ensures Latest(h, key) == Some((Store(h)[key].tree, Store(h)[key].stat))
  {
    if key in Store(Init(h)) {
      StoreIsLatest(Init(h), key);
    }
  }

  /** In every run, `get` returns a tree only if it came from the latest effective `put` for that path, with no
      later invalidation or clear, and the file still has the modification time and size it had then. */
  lemma GetIsFresh(limits: Limits, h: History, key: Key, files: Files)
    requires Answer(Run(limits, h), key, files).Some?
    ensures key in files
    ensures Latest(h, key) == Some((Answer(Run(limits, h), key, files).value, files[key]))
  {
    GetAgreesWithStore(limits, h, key, files);
    StoreKeys(h);
    StoreIsLatest(h, key);
  }

  /** The file can be read and has this modification time and size. */
  predicate Unchanged(files: Files, key: Key, stat: Stat) {
    key in files && files[key].mtime == stat.mtime && files[key].size == stat.size
  }

  /** Since the latest effective `put` for a key, every `get` of it and every clean-up met the file as it was. */
  predicate Undisturbed(h: History, key: Key, stat: Stat) {
    if h == [] || (Stores(Last(h)) && Last(h).op.key == key) then true
    else (Last(h).op == Get(key) || Last(h).op == Cleanup ==> Unchanged(Last(h).files, key, stat))
         && Undisturbed(Init(h), key, stat)
  }

  /** The plain dictionary holds exactly the latest puts that were not disturbed. */
  lemma {:induction false} StoreHoldsExactly(h: History, key: Key)
    ensures key in Store(h) <==> Latest(h, key).Some? && Undisturbed(h, key, Latest(h, key).value.1)
    ensures key in Store(h) ==> Latest(h, key) == Some((Store(h)[key].tree, Store(h)[key].stat))
  {
    if h != [] {
      StoreHoldsExactly(Init(h), key);
      StoreKeys(Init(h));
    }
  }

  /** When no insertion exceeded a limit, `get` answers with the tree of the latest effective `put` if and only if the
      file has the modification time and size it had then, and had them at every check in between. */
  lemma HitExactlyWhen(limits: Limits, h: History, key: Key, files: Files)
    requires NeverEvicts(limits, h)
    ensures var latest := Latest(h, key);
            Answer(Run(limits, h), key, files)
            == if latest.Some? && Undisturbed(h, key, latest.value.1) && Unchanged(files, key, latest.value.1)
               then Some(latest.value.0) else None
  {
    GetAgreesWithStore(limits, h, key, files);
    StoreHoldsExactly(h, key);
    StoreKeys(h);
  }

  // ----- Recency -----

  /** The number of the last call that used a key: an effective `put`, or a `get` that hit. */
  function LastUse(limits: Limits, h: History, key: Key): int {
    if h == [] then -1
    else if Uses(Run(limits, Init(h)), Last(h), key) then |h| - 1
    else LastUse(limits, Init(h), key)
  }

  predicate Uses(c: Cache, e: Event, key: Key) {
    match e.op
    case Get(k) => k == key && Answer(c, key, e.files).Some?
    case Put(k, tree) => k == key && Effective(k, tree, e.files)
    case _ => false
  }

  lemma {:induction false} LastUseBounded(limits: Limits, h: History, key: Key)
    ensures -1 <= LastUse(limits, h, key) < |h|
  {
    if h != [] {
      LastUseBounded(limits, Init(h), key);
    }
  }

  /** Keys in a list are in strictly increasing order of a given use time. */
  ghost predicate ByUse(c: Cache, use: Key -> int) {
    forall i, j :: 0 <= i < j < |c| ==> use(c[i].key) < use(c[j].key)
  }

  lemma {:induction false} FreshOrder(c: Cache, files: Files, use: Key -> int)
    requires ByUse(c, use)
    ensures ByUse(Fresh(c, files), use)
    ensures forall i :: 0 <= i < |Fresh(c, files)| ==> c != [] && use(Fresh(c, files)[i].key) <= use(c[|c| - 1].key)
  {
    if |c| == 1 {
      assert Fresh(c[..0], files) == [];
    } else if c != [] {
      var init := c[..|c| - 1];
      FreshOrder(init, files, use);
      assert use(init[|init| - 1].key) < use(c[|c| - 1].key);
    }
  }

  lemma WithoutOrder(c: Cache, key: Key, use: Key -> int)
    requires ByUse(c, use)
    ensures ByUse(Without(c, key), use)
  {
    var i := IndexOf(c, key);
    if i >= 0 {
      var r := Without(c, key);
      forall a, b | 0 <= a < b < |r|
        ensures use(r[a].key) < use(r[b].key)
      {
        assert r[a] == (if a < i then c[a] else c[a + 1]) && r[b] == (if b < i then c[b] else c[b + 1]);
      }
    }
  }

  /** Appending the key just used keeps the order by use. */
  lemma AppendUsed(limits: Limits, h: History, c: Cache, s: Slot)
    requires h != [] && Uses(Run(limits, Init(h)), Last(h), s.key)
    requires ByUse(c, key => LastUse(limits, Init(h), key))
    requires forall j :: 0 <= j < |c| ==> c[j].key != s.key
    ensures ByUse(c + [s], key => LastUse(limits, h, key))
  {
    var r := c + [s];
    forall a, b | 0 <= a < b < |r|
      ensures LastUse(limits, h, r[a].key) < LastUse(limits, h, r[b].key)
    {
      OnlyOneUsed(limits, h, s.key, r[a].key);
      LastUseBounded(limits, Init(h), r[a].key);
      if b < |c| {
        OnlyOneUsed(limits, h, s.key, r[b].key);
      }
    }
  }

  lemma OnlyOneUsed(limits: Limits, h: History, used: Key, other: Key)
    requires h != [] && Uses(Run(limits, Init(h)), Last(h), used) && other != used
    ensures LastUse(limits, h, other) == LastUse(limits, Init(h), other)
  {
  }

  /** A call that uses no key leaves every last use where it was. */
  lemma QuietByUse(limits: Limits, h: History, c: Cache)
    requires h != [] && (forall key :: !Uses(Run(limits, Init(h)), Last(h), key))
    requires ByUse(c, key => LastUse(limits, Init(h), key))
    ensures ByUse(c, key => LastUse(limits, h, key))
  {
    forall i, j | 0 <= i < j < |c|
      ensures LastUse(limits, h, c[i].key) < LastUse(limits, h, c[j].key)
    {
      assert !Uses(Run(limits, Init(h)), Last(h), c[i].key) && !Uses(Run(limits, Init(h)), Last(h), c[j].key);
    }
  }

  lemma GetByUse(limits: Limits, h: History)
    requires h != [] && Last(h).op.Get?
    requires ByUse(Run(limits, Init(h)), key => LastUse(limits, Init(h), key))
    ensures ByUse(Run(limits, h), key => LastUse(limits, h, key))
  {
    var c, key := Run(limits, Init(h)), Last(h).op.key;
    RunDistinct(limits, Init(h));
    WithoutOrder(c, key, k => LastUse(limits, Init(h), k));
    WithoutKeeps(c, key);
    if Answer(c, key, Last(h).files).Some? {
      AppendUsed(limits, h, Without(c, key), c[IndexOf(c, key)]);
    } else {
      QuietByUse(limits, h, Run(limits, h));
    }
  }

  /** The recency order right after an insertion, before the limits are enforced. */
  lemma InsertedByUse(limits: Limits, h: History)
    requires h != [] && Last(h).op.Put? && Effective(Last(h).op.key, Last(h).op.tree, Last(h).files)
    requires ByUse(Run(limits, Init(h)), key => LastUse(limits, Init(h), key))
    ensures ByUse(Inserted(Run(limits, Init(h)), Last(h).op.key, Last(h).op.tree.value, Last(h).files[Last(h).op.key]),
                  key => LastUse(limits, h, key))
  {
    var c, key := Run(limits, Init(h)), Last(h).op.key;
    RunDistinct(limits, Init(h));
    WithoutOrder(c, key, k => LastUse(limits, Init(h), k));
    WithoutKeeps(c, key);
    AppendUsed(limits, h, Without(c, key), Slot(key, Last(h).op.tree.value, Last(h).files[key]));
  }

  /** In every run the dictionary order is the order of last use. */
  lemma {:induction false} RunByUse(limits: Limits, h: History)
    ensures ByUse(Run(limits, h), key => LastUse(limits, h, key))
  {
    if h != [] {
      RunByUse(limits, Init(h));
      var c := Run(limits, Init(h));
      var op, files := Last(h).op, Last(h).files;
      if op.Get? {
        GetByUse(limits, h);
      } else if op.Put? && Effective(op.key, op.tree, files) {
        InsertedByUse(limits, h);
        var k := EnforceMeaning(limits, Inserted(c, op.key, op.tree.value, files[op.key]));
      } else {
        if op.Invalidate? {
          WithoutOrder(c, op.key, key => LastUse(limits, Init(h), key));
        } else if op.Cleanup? {
          FreshOrder(c, files, key => LastUse(limits, Init(h), key));
        }
        QuietByUse(limits, h, Run(limits, h));
      }
    }
  }

  /** After every effective `put` the cache is the longest suffix of the recency order within both limits, and every
      evicted key was last used before every surviving key. */
  lemma EvictsLeastRecent(limits: Limits, h: History) returns (k: nat)
    requires h != [] && Stores(Last(h))
    ensures var all := WithNew(limits, h);
            && k <= |all| && Run(limits, h) == all[k..]
            && (k == |all| || (|all| - k <= limits.maxEntries && TotalSize(all[k..]) <= limits.maxMemory))
            && (forall j :: 0 <= j < k ==> |all| - j > limits.maxEntries || TotalSize(all[j..]) > limits.maxMemory)
            && forall i, j :: 0 <= i < k <= j < |all| ==>
                 LastUse(limits, h, all[i].key) < LastUse(limits, h, all[j].key)
  {
    var op, files := Last(h).op, Last(h).files;
    k := EnforceMeaning(limits, Inserted(Run(limits, Init(h)), op.key, op.tree.value, files[op.key]));
    RunByUse(limits, Init(h));
    InsertedByUse(limits, h);
  }
}
