/**
 * Name-keyed list synchronisation, the pattern every metadata writer in the
 * scanner and the repositories repeats for genres, tags, studios, actors,
 * directors, writers and guids: drop the existing items whose key the
 * incoming list lacks, then append the incoming items whose key is not
 * among what is left. The repository calls behind each removal and each
 * addition are oracles whose boolean answers make up the `updated` flag.
 */
module MetadataSync {
  import opened Common

  /** The keys of a list's items. */
  function Keys<T(==,!new), K(==)>(s: seq<T>, key: T -> K): (r: set<K>)
    ensures forall x :: x in s ==> key(x) in r
    ensures forall k :: k in r ==> exists x :: x in s && key(x) == k
  {
    set x | x in s :: key(x)
  }

  /** The items whose key is in `keys`, in order. */
  function KeepIn<T(==,!new), K(==)>(s: seq<T>, keys: set<K>, key: T -> K): (r: seq<T>)
    ensures |r| <= |s|
    ensures forall x :: x in r <==> x in s && key(x) in keys
  {
    if s == [] then []
    else
      KeepIn(s[..|s| - 1], keys, key) + (if key(s[|s| - 1]) in keys then [s[|s| - 1]] else [])
  }

  /** The items whose key is not in `keys`, in order. */
  function KeepOut<T(==,!new), K(==)>(s: seq<T>, keys: set<K>, key: T -> K): (r: seq<T>)
    ensures |r| <= |s|
    ensures forall x :: x in r <==> x in s && key(x) !in keys
  {
    if s == [] then []
    else
      KeepOut(s[..|s| - 1], keys, key) + (if key(s[|s| - 1]) !in keys then [s[|s| - 1]] else [])
  }

  /**
   * Keeping distributes over concatenation: the kept items of `a + b` are
   * those of `a` followed by those of `b`. With the membership rule for a
   * single item this fixes the order: the kept items appear as they do in
   * the input.
   */
  lemma {:induction false} KeepInAppend<T(!new), K>(a: seq<T>, b: seq<T>, keys: set<K>, key: T -> K)
    ensures KeepIn(a + b, keys, key) == KeepIn(a, keys, key) + KeepIn(b, keys, key)
    decreases |b|
  {
    if b == [] {
      assert a + b == a;
    } else {
      var front := b[..|b| - 1];
      assert (a + b)[..|a + b| - 1] == a + front;
      assert (a + b)[|a + b| - 1] == b[|b| - 1];
      KeepInAppend(a, front, keys, key);
    }
  }

  /** The same for the items whose key is not in `keys`. */
  lemma {:induction false} KeepOutAppend<T(!new), K>(a: seq<T>, b: seq<T>, keys: set<K>, key: T -> K)
    ensures KeepOut(a + b, keys, key) == KeepOut(a, keys, key) + KeepOut(b, keys, key)
    decreases |b|
  {
    if b == [] {
      assert a + b == a;
    } else {
      var front := b[..|b| - 1];
      assert (a + b)[..|a + b| - 1] == a + front;
      assert (a + b)[|a + b| - 1] == b[|b| - 1];
      KeepOutAppend(a, front, keys, key);
    }
  }

  /** What survives the removal pass: the existing items whose key is incoming. */
  function Kept<T(==,!new), K(==)>(existing: seq<T>, incoming: seq<T>, key: T -> K): seq<T>
  {
    KeepIn(existing, Keys(incoming, key), key)
  }

  /** What the removal pass drops. */
  function Removed<T(==,!new), K(==)>(existing: seq<T>, incoming: seq<T>, key: T -> K): seq<T>
  {
    KeepOut(existing, Keys(incoming, key), key)
  }

  /** What the addition pass appends: incoming items whose key is not among the kept ones. */
  function Added<T(==,!new), K(==)>(existing: seq<T>, incoming: seq<T>, key: T -> K): seq<T>
  {
    KeepOut(incoming, Keys(Kept(existing, incoming, key), key), key)
  }

  /**
   * The list after both passes. Matching existing items stay as they are
   * (with whatever else they carry), and an incoming item is added exactly
   * when no existing item has its key.
   */
  function Synced<T(==,!new), K(==)>(existing: seq<T>, incoming: seq<T>, key: T -> K): (r: seq<T>)
    ensures forall x :: x in r <==>
              (x in existing && key(x) in Keys(incoming, key)) || (x in incoming && key(x) !in Keys(existing, key))
  {
    var kept := Kept(existing, incoming, key);
    var added := Added(existing, incoming, key);
    assert forall x :: x in incoming ==> (key(x) in Keys(kept, key) <==> key(x) in Keys(existing, key)) by {
      forall x | x in incoming
        ensures key(x) in Keys(kept, key) <==> key(x) in Keys(existing, key)
      {
        if key(x) in Keys(existing, key) {
          var y :| y in existing && key(y) == key(x);
          assert y in kept;
        }
      }
    }
    kept + added
  }

  /**
   * The `updated` flag of both passes: some removal or some addition
   * reported a change.
   */
  predicate Changed<T(==,!new), K(==)>(existing: seq<T>, incoming: seq<T>, key: T -> K, removeItem: T -> bool, addItem: T -> bool)
  {
    || (exists x :: x in Removed(existing, incoming, key) && removeItem(x))
    || (exists x :: x in Added(existing, incoming, key) && addItem(x))
  }

  /**
   * The removal pass: each existing item whose key is not in `keys` is
   * removed and reported to the repository; the rest stay, in order.
   */
  method RemovePass<T(==,!new), K(==)>(existing: seq<T>, keys: set<K>, key: T -> K, removeItem: T -> bool)
    returns (kept: seq<T>, removedAny: bool)
    ensures kept == KeepIn(existing, keys, key)
    ensures removedAny <==> exists x :: x in KeepOut(existing, keys, key) && removeItem(x)
  {
    kept := [];
    removedAny := false;
    for i := 0 to |existing|
      invariant kept == KeepIn(existing[..i], keys, key)
      invariant removedAny <==> exists j :: 0 <= j < i && key(existing[j]) !in keys && removeItem(existing[j])
    {
      assert existing[..i + 1][..i] == existing[..i];
      if key(existing[i]) in keys {
        kept := kept + [existing[i]];
      } else if removeItem(existing[i]) {
        removedAny := true;
      }
    }
    assert existing[..|existing|] == existing;
    if removedAny {
      var j :| 0 <= j < |existing| && key(existing[j]) !in keys && removeItem(existing[j]);
      assert existing[j] in KeepOut(existing, keys, key);
    }
  }

  /** The addition pass: each item of `toAdd` is appended and reported to the repository. */
  method AddPass<T>(kept: seq<T>, toAdd: seq<T>, addItem: T -> bool) returns (r: seq<T>, addedAny: bool)
    ensures r == kept + toAdd
    ensures addedAny <==> exists j :: 0 <= j < |toAdd| && addItem(toAdd[j])
  {
    r := kept;
    addedAny := false;
    for i := 0 to |toAdd|
      invariant r == kept + toAdd[..i]
      invariant addedAny <==> exists j :: 0 <= j < i && addItem(toAdd[j])
    {
      assert toAdd[..i + 1] == toAdd[..i] + [toAdd[i]];
      r := r + [toAdd[i]];
      if addItem(toAdd[i]) {
        addedAny := true;
      }
    }
    assert toAdd[..|toAdd|] == toAdd;
  }

  /**
   * Both passes: the list of additions is taken once, after the removals,
   * against what is left.
   */
  method SyncByKey<T(==,!new), K(==)>(existing: seq<T>, incoming: seq<T>, key: T -> K, removeItem: T -> bool, addItem: T -> bool)
    returns (r: seq<T>, updated: bool)
    ensures r == Synced(existing, incoming, key)
    ensures updated == Changed(existing, incoming, key, removeItem, addItem)
  {
    var kept, removedAny := RemovePass(existing, Keys(incoming, key), key, removeItem);
    var toAdd := KeepOut(incoming, Keys(kept, key), key);
    var addedAny;
    r, addedAny := AddPass(kept, toAdd, addItem);
    updated := removedAny || addedAny;
    if addedAny {
      var j :| 0 <= j < |toAdd| && addItem(toAdd[j]);
      assert toAdd[j] in Added(existing, incoming, key);
    }
  }

  /** Keeping the items whose keys are all in `keys` keeps everything. */
  lemma {:induction false} KeepInAll<T(!new), K>(s: seq<T>, keys: set<K>, key: T -> K)
    requires forall x :: x in s ==> key(x) in keys
    ensures KeepIn(s, keys, key) == s
  {
    if s != [] {
      KeepInAll(s[..|s| - 1], keys, key);
      assert s[..|s| - 1] + [s[|s| - 1]] == s;
    }
  }

  /** Keeping the items whose keys are outside `keys` keeps nothing when every key is inside. */
  lemma {:induction false} KeepOutNone<T(!new), K>(s: seq<T>, keys: set<K>, key: T -> K)
    requires forall x :: x in s ==> key(x) in keys
    ensures KeepOut(s, keys, key) == []
  {
    if s != [] {
      KeepOutNone(s[..|s| - 1], keys, key);
    }
  }

  /** After a sync the keys present are exactly the incoming keys. */
  lemma {:induction false} SyncedKeys<T(!new), K>(existing: seq<T>, incoming: seq<T>, key: T -> K)
    ensures Keys(Synced(existing, incoming, key), key) == Keys(incoming, key)
  {
    var r := Synced(existing, incoming, key);
    forall k | k in Keys(incoming, key)
      ensures k in Keys(r, key)
    {
      var x :| x in incoming && key(x) == k;
      if k in Keys(existing, key) {
        var y :| y in existing && key(y) == k;
        assert y in r;
      } else {
        assert x in r;
      }
    }
  }

  /** Syncing against the same incoming list a second time changes nothing and reports nothing. */
  lemma {:induction false} SyncedIdempotent<T(!new), K>(existing: seq<T>, incoming: seq<T>, key: T -> K, removeItem: T -> bool, addItem: T -> bool)
    ensures Synced(Synced(existing, incoming, key), incoming, key) == Synced(existing, incoming, key)
    ensures !Changed(Synced(existing, incoming, key), incoming, key, removeItem, addItem)
  {
    var s := Synced(existing, incoming, key);
    SyncedKeys(existing, incoming, key);
    SameKeysUnchanged(s, incoming, key, removeItem, addItem);
  }

  /** A list that already has exactly the incoming keys is left as it is, with nothing reported. */
  lemma {:induction false} SameKeysUnchanged<T(!new), K>(existing: seq<T>, incoming: seq<T>, key: T -> K, removeItem: T -> bool, addItem: T -> bool)
    requires Keys(existing, key) == Keys(incoming, key)
    ensures Synced(existing, incoming, key) == existing
    ensures !Changed(existing, incoming, key, removeItem, addItem)
  {
    KeepInAll(existing, Keys(incoming, key), key);
    KeepOutNone(existing, Keys(incoming, key), key);
    KeepOutNone(incoming, Keys(existing, key), key);
  }
}
