/** The environment that a captured command is started with. */
module Env {
  import opened Strings

  /** The text before the first `=`, or all of an entry that has none. */
  function KeyOf(entry: string): (key: string)
    ensures '=' !in key
  {
    if entry == "" || entry[0] == '=' then "" else [entry[0]] + KeyOf(entry[1..])
  }

  function Entry(key: string, value: string): string {
    key + "=" + value
  }

  lemma {:induction false} KeyOfEntry(key: string, value: string)
    requires '=' !in key
    ensures KeyOf(Entry(key, value)) == key
  {
    var entry := Entry(key, value);
    if key != "" {
      KeyOfEntry(key[1..], value);
      assert entry[1..] == Entry(key[1..], value);
    }
  }

  /** The position of the last entry with a key, or -1. */
  function LastWith(list: seq<string>, key: string): (p: int)
    ensures -1 <= p < |list|
    ensures p >= 0 ==> KeyOf(list[p]) == key
    ensures forall j :: p < j < |list| ==> KeyOf(list[j]) != key
  {
    if list == [] then -1
    else if KeyOf(list[|list| - 1]) == key then |list| - 1
    else LastWith(list[..|list| - 1], key)
  }

  /** What the started command reads: the last entry with the key. */
  function Lookup(list: seq<string>, key: string): Option<string> {
    var p := LastWith(list, key);
    if p < 0 then None else Some(list[p])
  }

  // ---------- the merge ----------

  predicate Distinct(keys: seq<string>) {
    forall i, j :: 0 <= i < j < |keys| ==> keys[i] != keys[j]
  }

  /**
    * The merge as far as the keys in `done`: the last entry of such a key is replaced, new keys follow in some
    * order.
    */
  ghost predicate MergedFor(base: seq<string>, extra: map<string, string>, done: set<string>, order: seq<string>,
                            merged: seq<string>)
    requires done <= extra.Keys
  {
    && Distinct(order)
    && (forall k :: k in order <==> k in done && LastWith(base, k) < 0)
    && |merged| == |base| + |order|
    && (forall i :: 0 <= i < |base| ==> merged[i] == (
                                          if KeyOf(base[i]) in done && LastWith(base, KeyOf(base[i])) == i
                                          then Entry(KeyOf(base[i]), extra[KeyOf(base[i])]) else base[i]))
    && (forall j :: 0 <= j < |order| ==> order[j] in extra && merged[|base| + j] == Entry(order[j], extra[order[j]]))
  }

  /** The positions that the merge has on record while it runs. */
  ghost predicate Indexed(seen: map<string, nat>, base: seq<string>, order: seq<string>) {
    && (forall k :: k in seen <==> LastWith(base, k) >= 0 || k in order)
    && (forall k :: k in seen && LastWith(base, k) >= 0 ==> seen[k] == LastWith(base, k))
  }

  lemma IndexedGrows(seen: map<string, nat>, base: seq<string>, entry: string)
    requires Indexed(seen, base, [])
    ensures Indexed(seen[KeyOf(entry) := |base|], base + [entry], [])
  {
    hide KeyOf;
    var longer := base + [entry];
    assert longer[..|base|] == base;
    forall k
      ensures LastWith(longer, k) == if KeyOf(entry) == k then |base| else LastWith(base, k)
    {
    }
  }

  /** The map is walked in an arbitrary order; `order` is the order in which it yielded the new keys. */
  method MergeEnv(base: seq<string>, extra: map<string, string>) returns (merged: seq<string>, ghost order: seq<string>)
    ensures extra == map[] ==> merged == base
    ensures MergedFor(base, extra, extra.Keys, order, merged)
  {
    hide KeyOf, LastWith, Entry, MergedFor, Indexed;
    if |extra| == 0 {
      Nothing(base, extra);
      return base, [];
    }
    merged, order := [], [];
    var seen: map<string, nat> := map[];
    IndexedNothing();
    for i := 0 to |base|
      invariant merged == base[..i] && Indexed(seen, base[..i], [])
    {
      IndexedGrows(seen, base[..i], base[i]);
      assert base[..i] + [base[i]] == base[..i + 1];
      seen := seen[KeyOf(base[i]) := |merged|];
      merged := merged + [base[i]];
    }
    assert base[..|base|] == base;
    Nothing(base, extra);
    var pending := extra.Keys;
    assert extra.Keys - pending == {};
    while pending != {}
      invariant pending <= extra.Keys
      invariant MergedFor(base, extra, extra.Keys - pending, order, merged) && Indexed(seen, base, order)
    {
      var key :| key in pending;
      ghost var done := extra.Keys - pending;
      pending := pending - {key};
      assert extra.Keys - pending == done + {key};
      var entry := Entry(key, extra[key]);
      if key in seen {
        Replaced(seen, base, extra, done, order, merged, key);
        merged := merged[seen[key] := entry];
      } else {
        Appended(seen, base, extra, done, order, merged, key);
        seen := seen[key := |merged|];
        merged := merged + [entry];
        order := order + [key];
      }
    }
    assert extra.Keys - pending == extra.Keys;
  }

  lemma IndexedNothing()
    ensures Indexed(map[], [], [])
  {
  }

  lemma Nothing(base: seq<string>, extra: map<string, string>)
    ensures MergedFor(base, extra, {}, [], base)
  {
  }

  lemma Replaced(seen: map<string, nat>, base: seq<string>, extra: map<string, string>, done: set<string>,
                 order: seq<string>, merged: seq<string>, key: string)
    requires done <= extra.Keys && key in extra && key !in done && key in seen
    requires MergedFor(base, extra, done, order, merged) && Indexed(seen, base, order)
    ensures seen[key] < |merged|
    ensures MergedFor(base, extra, done + {key}, order, merged[seen[key] := Entry(key, extra[key])])
  {
    hide KeyOf, LastWith, Entry;
    assert key !in order;
    assert seen[key] == LastWith(base, key);
    LastHas(base, key);
  }

  lemma LastHas(list: seq<string>, key: string)
    ensures -1 <= LastWith(list, key) < |list|
    ensures LastWith(list, key) >= 0 ==> KeyOf(list[LastWith(list, key)]) == key
  {
  }

  lemma Appended(seen: map<string, nat>, base: seq<string>, extra: map<string, string>, done: set<string>,
                 order: seq<string>, merged: seq<string>, key: string)
    requires done <= extra.Keys && key in extra && key !in done && key !in seen
    requires MergedFor(base, extra, done, order, merged) && Indexed(seen, base, order)
    ensures MergedFor(base, extra, done + {key}, order + [key], merged + [Entry(key, extra[key])])
    ensures Indexed(seen[key := |merged|], base, order + [key])
  {
    hide KeyOf, LastWith, Entry;
    assert LastWith(base, key) < 0 && key !in order;
  }

  // ---------- what the command sees ----------

  /** The simple map: extra's value for extra's keys, and base's for all others. */
  ghost predicate Agrees(base: seq<string>, extra: map<string, string>, merged: seq<string>) {
    forall k :: Lookup(merged, k) == if k in extra then Some(Entry(k, extra[k])) else Lookup(base, k)
  }

  lemma LastIs(list: seq<string>, key: string, p: nat)
    requires p < |list| && KeyOf(list[p]) == key && forall j :: p < j < |list| ==> KeyOf(list[j]) != key
    ensures LastWith(list, key) == p
  {
  }

  lemma LastIsNone(list: seq<string>, key: string)
    requires forall j :: 0 <= j < |list| ==> KeyOf(list[j]) != key
    ensures LastWith(list, key) == -1
  {
  }

  /** The keys of the merged list: base's in place, then the new ones. */
  lemma MergedKeys(base: seq<string>, extra: map<string, string>, order: seq<string>, merged: seq<string>)
    requires MergedFor(base, extra, extra.Keys, order, merged)
    requires forall k :: k in extra ==> '=' !in k
    ensures KeysFollow(base, order, merged)
  {
    hide KeyOf, LastWith, Entry;
    forall i | 0 <= i < |base|
      ensures KeyOf(merged[i]) == KeyOf(base[i])
    {
      if KeyOf(base[i]) in extra {
        KeyOfEntry(KeyOf(base[i]), extra[KeyOf(base[i])]);
      }
    }
    forall i | |base| <= i < |merged|
      ensures KeyOf(merged[i]) == order[i - |base|]
    {
      var j := i - |base|;
      assert merged[|base| + j] == Entry(order[j], extra[order[j]]);
      KeyOfEntry(order[j], extra[order[j]]);
    }
  }

  /** The keys of a list that goes on from the keys of base with the new ones. */
  ghost predicate KeysFollow(base: seq<string>, order: seq<string>, merged: seq<string>) {
    && |merged| == |base| + |order|
    && (forall i :: 0 <= i < |base| ==> KeyOf(merged[i]) == KeyOf(base[i]))
    && (forall i :: |base| <= i < |merged| ==> KeyOf(merged[i]) == order[i - |base|])
  }

  lemma OldKeyStays(base: seq<string>, order: seq<string>, merged: seq<string>, key: string)
    requires KeysFollow(base, order, merged) && key !in order
    ensures LastWith(merged, key) == LastWith(base, key)
  {
    var p := LastWith(base, key);
    assert p >= 0 ==> KeyOf(base[p]) == key;
    assert forall j :: p < j < |base| ==> KeyOf(base[j]) != key;
    hide KeyOf, LastWith;
    if p >= 0 { LastIs(merged, key, p); } else { LastIsNone(merged, key); }
  }

  lemma NewKeyFound(base: seq<string>, order: seq<string>, merged: seq<string>, j: nat)
    requires KeysFollow(base, order, merged) && Distinct(order) && j < |order|
    ensures LastWith(merged, order[j]) == |base| + j
  {
    OthersDiffer(order, j);
    hide KeyOf, LastWith, Distinct;
    LastIs(merged, order[j], |base| + j);
  }

  lemma OthersDiffer(order: seq<string>, j: nat)
    requires j < |order| && Distinct(order)
    ensures forall i :: j < i < |order| ==> order[i] != order[j]
  {
  }

  lemma AgreesAt(base: seq<string>, extra: map<string, string>, order: seq<string>, merged: seq<string>, key: string)
    requires MergedFor(base, extra, extra.Keys, order, merged)
    requires forall k :: k in extra ==> '=' !in k
    ensures Lookup(merged, key) == if key in extra then Some(Entry(key, extra[key])) else Lookup(base, key)
  {
    hide KeyOf, Entry, LastWith, Distinct, KeysFollow;
    MergedKeys(base, extra, order, merged);
    LastHas(base, key);
    if key in order {
      var j :| 0 <= j < |order| && order[j] == key;
      NewKeyFound(base, order, merged, j);
    } else {
      OldKeyStays(base, order, merged, key);
    }
  }

  /**
    * In whatever order the map is walked, and whatever duplicates base holds, the command sees the simple
    * map exactly when no added key contains `=`: such a key cannot be looked up at all.
    */
  lemma MergeAgreesIffKeysPlain(base: seq<string>, extra: map<string, string>, order: seq<string>, merged: seq<string>)
    requires MergedFor(base, extra, extra.Keys, order, merged)
    ensures Agrees(base, extra, merged) <==> forall k :: k in extra ==> '=' !in k
  {
    if forall k :: k in extra ==> '=' !in k {
      forall k
        ensures Lookup(merged, k) == if k in extra then Some(Entry(k, extra[k])) else Lookup(base, k)
      {
        AgreesAt(base, extra, order, merged, k);
      }
    } else {
      var k :| k in extra && '=' in k;
      LastHas(merged, k);
      assert Lookup(merged, k) == None;
    }
  }

  /** An added key with `=` in it also takes over the variable named by its first part. */
  lemma {:induction false} HiddenVariableExample()
    ensures
      var merged := ["A=1", "A=B=v"];
      && MergedFor(["A=1"], map["A=B" := "v"], {"A=B"}, ["A=B"], merged)
      && Lookup(["A=1"], "A") == Some("A=1") && Lookup(merged, "A") == Some("A=B=v")
  {
    var base, merged := ["A=1"], ["A=1", "A=B=v"];
    KeyOfEntry("A", "1");
    KeyOfEntry("A", "B=v");
    assert Entry("A", "1") == "A=1" && Entry("A", "B=v") == "A=B=v" == Entry("A=B", "v");
    LastIs(base, "A", 0);
    LastIs(merged, "A", 1);
    LastIsNone(base, "A=B");
  }
}
