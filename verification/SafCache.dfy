/**
  The tree-state cache of `AndroidSafBackend` (apps/android-app/src/android_saf_backend.rs).
  Entries are cached under the path as the caller spelled it, while the bridge resolves a
  path after normalising it; `norm` stands for that normalisation.
  */
module SafCache {
  import opened Wrappers
  import opened SafPaths

  datatype Kind = Directory | File

  datatype Entry = Entry(kind: Kind, size: nat, modified: nat)

  /** The documents of a tree by normalised path. */
  type Tree = map<string, Entry>

  type Cache = Option<map<string, Entry>>

  type Norm = string -> string

  // ---------------------------------------------------------------------------
  // The cache operations
  // ---------------------------------------------------------------------------

  function Cached(c: Cache, path: string): Option<Entry> {
    if c.Some? && path in c.value then Some(c.value[path]) else None
  }

  function Forget(c: Cache, path: string): Cache {
    if c.None? then None else Some(map q | q in c.value && !Under(path, q) :: c.value[q])
  }

  function Remember(c: Cache, path: string, e: Entry): Cache {
    if c.None? then None else Some(c.value[path := e])
  }

  /** Some of the documents of the tree, as they are. */
  ghost predicate Lists(listing: map<string, Entry>, tree: Tree) {
    forall q :: q in listing ==> q in tree && tree[q] == listing[q]
  }

  class SafBackend {
    var cache: Cache

    constructor ()
      ensures cache == None
    {
      cache := None;
    }

    /** `forget_cached_path` */
    method ForgetCachedPath(path: string, ghost norm: Norm, ghost tree: Tree, ghost result: Tree)
      modifies this
      ensures cache == Forget(old(cache), path)
      ensures cache == Apply(norm, World(old(cache), tree, false), Change(path, result)).cache
    {
      if cache.None? {
        return;
      }
      if path == "" {
        cache := Some(map[]);
        assert cache == Forget(old(cache), path);
        return;
      }
      var prefix := path + "/";
      cache := Some(map q | q in cache.value && q != path && !(prefix <= q) :: cache.value[q]);
      assert cache.value == Forget(old(cache), path).value;
    }

    /** `remember_cached_entry_state` */
    method RememberCachedEntryState(path: string, e: Entry)
      modifies this
      ensures cache == Remember(old(cache), path, e)
      ensures cache.Some? <==> old(cache).Some?
      ensures forall q :: Cached(cache, q) == if q == path && cache.Some? then Some(e) else Cached(old(cache), q)
    {
      if cache.Some? {
        cache := Some(cache.value[path := e]);
      }
    }

    /**
      `scan_local_tree_with_progress`, given what the bridge lists or its failure. Whatever was
      cached before, the cache then agrees with every tree the listing was read from.
      */
    method ScanLocalTree(listing: Result<map<string, Entry>>, ghost norm: Norm, ghost tree: Tree)
      returns (r: Result<map<string, Entry>>)
      modifies this
      ensures r == listing
      ensures cache == if listing.Ok? then Some(listing.value) else None
      ensures listing.Ok? && Lists(listing.value, tree) ==>
                cache == Apply(norm, World(old(cache), tree, false), Scan(listing.value.Keys, true)).cache
      ensures CanonicalTree(norm, tree) && (listing.Ok? ==> Lists(listing.value, tree)) ==> Coherent(norm, cache, tree)
    {
      cache := None;
      if listing.Ok? {
        cache := Some(listing.value);
        assert Lists(listing.value, tree) ==> Listing(tree, listing.value.Keys) == listing.value;
      }
      r := listing;
    }

    /** `local_entry_state`, given what the bridge answers if it is asked. */
    method LocalEntryState(path: string, stat: Result<Option<Entry>>, ghost norm: Norm, ghost tree: Tree)
      returns (r: Result<Option<Entry>>)
      modifies this
      ensures r == if Cached(old(cache), path).Some? then Ok(Cached(old(cache), path)) else stat
      ensures cache == if Cached(old(cache), path).None? && stat.Ok? && stat.value.Some?
                       then Remember(old(cache), path, stat.value.value)
                       else old(cache)
      ensures (stat.Ok? ==> stat.value == Stat(norm, tree, path)) ==>
                var w := World(old(cache), tree, false);
                && cache == Apply(norm, w, Lookup(path, stat.Ok?)).cache
                && (r.Ok? ==> r.value == Answer(norm, w, path))
    {
      var hit := Cached(cache, path);
      if hit.Some? {
        return Ok(hit);
      }
      if stat.Ok? && stat.value.Some? {
        RememberCachedEntryState(path, stat.value.value);
      }
      r := stat;
    }
  }

  /** Forgetting drops exactly the entries whose segments begin with those of the path. */
  lemma ForgetDropsSubtree(c: map<string, Entry>, path: string, q: string)
    requires path != "" && q in c
    ensures q !in Forget(Some(c), path).value <==> Split(path) <= Split(q)
    ensures q in Forget(Some(c), path).value ==> Forget(Some(c), path).value[q] == c[q]
  {
    UnderIsSubtree(path, q);
  }

  // ---------------------------------------------------------------------------
  // Agreement with the tree
  // ---------------------------------------------------------------------------

  /** Equal, timestamps of directories aside. */
  predicate Agrees(a: Entry, b: Entry) {
    a == b || (a.kind.Directory? && b.kind.Directory? && a.size == b.size)
  }

  predicate AnswersAgree(a: Option<Entry>, b: Option<Entry>) {
    if a.Some? && b.Some? then Agrees(a.value, b.value) else a == b
  }

  function Stat(norm: Norm, tree: Tree, path: string): Option<Entry> {
    if norm(path) in tree then Some(tree[norm(path)]) else None
  }

  ghost predicate Coherent(norm: Norm, c: Cache, tree: Tree) {
    c.Some? ==> forall q :: q in c.value ==> norm(q) in tree && Agrees(c.value[q], tree[norm(q)])
  }

  /**
    What creating, writing or deleting the document at `p` may do to a tree, whether it succeeds
    or fails half way: anything at or below `p`; directories above it may get a new timestamp;
    documents elsewhere stay as they are. New ones may appear anywhere, such as directories above
    `p` or the temporary siblings of a failed download.
    */
  ghost predicate Touches(tree: Tree, tree': Tree, p: string) {
    forall q :: !Under(p, q) ==>
      q in tree ==> q in tree' && if Under(q, p) then Agrees(tree[q], tree'[q]) else tree[q] == tree'[q]
  }

  /** Every cached spelling of a document at or below `p` is one that forgetting `p` drops. */
  ghost predicate SpelledAlike(norm: Norm, c: Cache, p: string) {
    c.Some? ==> forall q :: q in c.value && Under(norm(p), norm(q)) ==> Under(p, q)
  }

  /**
    Forgetting before a change keeps the cache coherent whatever the change does, exactly
    when no document at or below the path is cached under another spelling.
    */
  lemma ForgetSufficesIff(norm: Norm, c: Cache, tree: Tree, p: string)
    requires Coherent(norm, c, tree)
    ensures (forall tree' :: Touches(tree, tree', norm(p)) ==> Coherent(norm, Forget(c, p), tree'))
            <==> SpelledAlike(norm, c, p)
  {
    if SpelledAlike(norm, c, p) {
      forall tree' | Touches(tree, tree', norm(p)) ensures Coherent(norm, Forget(c, p), tree') {
        ChangeKeepsCoherence(norm, c, tree, tree', p);
      }
    } else {
      var q :| q in c.value && Under(norm(p), norm(q)) && !Under(p, q);
      var removed := map d | d in tree && !Under(norm(p), d) :: tree[d];
      assert Touches(tree, removed, norm(p));
      assert q in Forget(c, p).value && norm(q) !in removed;
      assert !Coherent(norm, Forget(c, p), removed);
    }
  }

  lemma ChangeKeepsCoherence(norm: Norm, c: Cache, tree: Tree, tree': Tree, p: string)
    requires Coherent(norm, c, tree) && Touches(tree, tree', norm(p)) && SpelledAlike(norm, c, p)
    ensures Coherent(norm, Forget(c, p), tree')
  {
    if c.Some? {
      forall q | q in Forget(c, p).value
        ensures norm(q) in tree' && Agrees(c.value[q], tree'[norm(q)])
      {
        assert !Under(norm(p), norm(q));
      }
    }
  }

  /** With two spellings of one path, a removal leaves a stale answer behind. */
  lemma SecondSpellingGoesStale(norm: Norm)
    requires norm("a//b") == "a/b" && norm("a/b") == "a/b"
    ensures var f := Entry(File, 1, 1);
            var tree: Tree := map["a/b" := f];
            var c := Remember(Some(map[]), "a//b", f);
            && Coherent(norm, c, tree) && Touches(tree, map[], "a/b")
            && Cached(Forget(c, "a/b"), "a//b") == Some(f) && Stat(norm, map[], "a//b") == None
  {
    assert "a//b"[2] == '/' && "a/b"[2] == 'b';
    assert !("a/b" + "/" <= "a//b");
    assert Under("a/b", "a/b");
  }

  // ---------------------------------------------------------------------------
  // Every sequence of operations
  // ---------------------------------------------------------------------------

  /** `stale` is set by a change made behind the backend's back, until the next scan. */
  datatype World = World(cache: Cache, tree: Tree, stale: bool)

  datatype Op =
    | Prepare                              // also what starting a run-once monitor does
    | Scan(listed: set<string>, ok: bool)  // the bridge lists some of the documents
    | Lookup(path: string, ok: bool)       // `local_entry_state`; `ok`: the bridge answers if asked
    | Change(path: string, result: Tree)   // create a directory, download or remove; also failing
    | External(result: Tree)

  ghost predicate Possible(norm: Norm, w: World, op: Op) {
    match op
    case Scan(listed, _) => listed <= w.tree.Keys
    case Change(path, result) => Touches(w.tree, result, norm(path))
    case _ => true
  }

  function Listing(tree: Tree, listed: set<string>): map<string, Entry> {
    map q | q in tree && q in listed :: tree[q]
  }

  function Apply(norm: Norm, w: World, op: Op): World {
    match op
    case Prepare => w.(cache := None, stale := false)
    case Scan(listed, ok) => w.(cache := if ok then Some(Listing(w.tree, listed)) else None, stale := false)
    case Lookup(path, ok) =>
      var stat := Stat(norm, w.tree, path);
      if Cached(w.cache, path).None? && ok && stat.Some?
      then w.(cache := Remember(w.cache, path, stat.value))
      else w
    case Change(path, result) => w.(cache := Forget(w.cache, path), tree := result)
    case External(result) => w.(tree := result, stale := true)
  }

  /** What `local_entry_state` answers when the bridge works. */
  function Answer(norm: Norm, w: World, path: string): Option<Entry> {
    if Cached(w.cache, path).Some? then Cached(w.cache, path) else Stat(norm, w.tree, path)
  }

  /** The documents' own paths are normalised. */
  ghost predicate CanonicalTree(norm: Norm, tree: Tree) {
    forall q :: q in tree ==> norm(q) == q
  }

  ghost predicate CanonicalResult(norm: Norm, op: Op) {
    op.Change? || op.External? ==> CanonicalTree(norm, op.result)
  }

  /** A change drops every cached spelling of what it may touch. */
  ghost predicate DropsAllSpellings(norm: Norm, w: World, op: Op) {
    op.Change? ==> SpelledAlike(norm, w.cache, op.path)
  }

  ghost predicate Good(norm: Norm, w: World) {
    CanonicalTree(norm, w.tree) && (!w.stale ==> Coherent(norm, w.cache, w.tree))
  }

  lemma ApplyKeepsGood(norm: Norm, w: World, op: Op)
    requires Good(norm, w) && Possible(norm, w, op) && CanonicalResult(norm, op) && DropsAllSpellings(norm, w, op)
    ensures Good(norm, Apply(norm, w, op))
  {
    if op.Change? && !w.stale {
      ChangeKeepsCoherence(norm, w.cache, w.tree, op.result, op.path);
    }
  }

  ghost predicate IsHistory(norm: Norm, worlds: seq<World>, ops: seq<Op>) {
    && |worlds| == |ops| + 1
    && worlds[0].cache == None && CanonicalTree(norm, worlds[0].tree)
    && forall i :: 0 <= i < |ops| ==>
         Possible(norm, worlds[i], ops[i]) && CanonicalResult(norm, ops[i]) && worlds[i + 1] == Apply(norm, worlds[i], ops[i])
  }

  lemma {:induction false} HistoryGood(norm: Norm, worlds: seq<World>, ops: seq<Op>, i: nat)
    requires IsHistory(norm, worlds, ops) && i < |worlds|
    requires forall k :: 0 <= k < i ==> DropsAllSpellings(norm, worlds[k], ops[k])
    ensures Good(norm, worlds[i])
  {
    if i > 0 {
      HistoryGood(norm, worlds, ops, i - 1);
      ApplyKeepsGood(norm, worlds[i - 1], ops[i - 1]);
    }
  }

  /**
    After any sequence of scans, lookups, directory creations, downloads and removals, in any
    spelling and failed ones included, a lookup answers as an uncached stat would, if no change
    left another spelling behind and the tree was not changed from outside since the last scan.
    */
  lemma CacheIsTransparent(norm: Norm, worlds: seq<World>, ops: seq<Op>, i: nat, path: string)
    requires IsHistory(norm, worlds, ops) && i < |worlds| && !worlds[i].stale
    requires forall k :: 0 <= k < i ==> DropsAllSpellings(norm, worlds[k], ops[k])
    ensures AnswersAgree(Answer(norm, worlds[i], path), Stat(norm, worlds[i].tree, path))
  {
    HistoryGood(norm, worlds, ops, i);
  }

  /** Whatever a change of the path may do, every lookup afterwards is right. */
  ghost predicate ChangeIsSafe(norm: Norm, w: World, p: string) {
    forall tree', path | Touches(w.tree, tree', norm(p)) && CanonicalTree(norm, tree') ::
      var w' := Apply(norm, w, Change(p, tree'));
      AnswersAgree(Answer(norm, w', path), Stat(norm, tree', path))
  }

  /**
    The condition on changes is exact in every such history: a change is safe if and only if it
    drops all spellings; otherwise some result of it makes some lookup answer wrongly.
    */
  lemma ChangeSafeIff(norm: Norm, worlds: seq<World>, ops: seq<Op>, i: nat, p: string)
    requires IsHistory(norm, worlds, ops) && i < |worlds| && !worlds[i].stale
    requires forall k :: 0 <= k < i ==> DropsAllSpellings(norm, worlds[k], ops[k])
    ensures ChangeIsSafe(norm, worlds[i], p) <==> SpelledAlike(norm, worlds[i].cache, p)
  {
    HistoryGood(norm, worlds, ops, i);
    var w := worlds[i];
    if SpelledAlike(norm, w.cache, p) {
      forall tree', path | Touches(w.tree, tree', norm(p)) && CanonicalTree(norm, tree')
        ensures var w' := Apply(norm, w, Change(p, tree'));
                AnswersAgree(Answer(norm, w', path), Stat(norm, tree', path))
      {
        ChangeKeepsCoherence(norm, w.cache, w.tree, tree', p);
      }
    } else {
      SpellingLeftBehind(norm, w, p);
    }
  }

  /** Removing a document that stays cached under another spelling leaves a wrong answer. */
  lemma SpellingLeftBehind(norm: Norm, w: World, p: string)
    requires Good(norm, w) && !w.stale && !SpelledAlike(norm, w.cache, p)
    ensures !ChangeIsSafe(norm, w, p)
  {
    var q :| q in w.cache.value && Under(norm(p), norm(q)) && !Under(p, q);
    var removed := map d | d in w.tree && !Under(norm(p), d) :: w.tree[d];
    assert Touches(w.tree, removed, norm(p)) && CanonicalTree(norm, removed);
    var w' := Apply(norm, w, Change(p, removed));
    assert Answer(norm, w', q).Some? && Stat(norm, removed, q).None?;
  }

  // ---------------------------------------------------------------------------
  // Callers that pass normalised paths
  // ---------------------------------------------------------------------------

  ghost predicate NormalisedOp(norm: Norm, op: Op) {
    op.Lookup? || op.Change? ==> norm(op.path) == op.path
  }

  ghost predicate NormalisedCache(norm: Norm, c: Cache) {
    c.Some? ==> forall q :: q in c.value ==> norm(q) == q
  }

  lemma {:induction false} NormalisedHistory(norm: Norm, worlds: seq<World>, ops: seq<Op>, i: nat)
    requires IsHistory(norm, worlds, ops) && i < |worlds|
    requires forall k :: 0 <= k < i ==> NormalisedOp(norm, ops[k])
    ensures NormalisedCache(norm, worlds[i].cache) && CanonicalTree(norm, worlds[i].tree)
    ensures forall k :: 0 <= k < i ==> DropsAllSpellings(norm, worlds[k], ops[k])
  {
    if i > 0 {
      NormalisedHistory(norm, worlds, ops, i - 1);
    }
  }

  /** With normalised paths the condition always holds, so the cache is transparent outright. */
  lemma NormalisedPathsSuffice(norm: Norm, worlds: seq<World>, ops: seq<Op>, i: nat, path: string)
    requires IsHistory(norm, worlds, ops) && i < |worlds| && !worlds[i].stale
    requires forall k :: 0 <= k < i ==> NormalisedOp(norm, ops[k])
    ensures AnswersAgree(Answer(norm, worlds[i], path), Stat(norm, worlds[i].tree, path))
  {
    NormalisedHistory(norm, worlds, ops, i);
    CacheIsTransparent(norm, worlds, ops, i, path);
  }
}
