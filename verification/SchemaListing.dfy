/** Reading schemas back: one version, the active version, and the sorted list. */
module SchemaListing {
  import opened Options
  import opened Collections
  import opened KeyLayout
  import opened VersionStore
  import opened TwoStepReads

  /** GetSchema, its two requests answered from two states: version 0 stands for the active one, cut to 32 bits. */
  function GetSchema(active: Kv, docs: Kv, id: string, version: nat): Option<Value>
  {
    if version == 0 then
      match ParseActive(active, id)
      case None => None
      case Some(v) => Lookup(docs, Version(id, v % WIDTH_32))
    else Lookup(docs, Version(id, version))
  }

  /** out holds the elements of xs, each once, in some order: what an unstable sort promises. */
  ghost predicate Rearranged<T(!new)>(xs: seq<T>, out: seq<T>, perm: seq<nat>)
  {
    && |perm| == |out| == |xs|
    && (forall i :: 0 <= i < |perm| ==> perm[i] < |xs| && out[i] == xs[perm[i]])
    && (forall i, j :: 0 <= i < j < |perm| ==> perm[i] != perm[j])
    && (forall j: nat :: j < |xs| ==> j in perm)
  }

  /** A range read of a schema's versions directory, in the order of the keys or any other. */
  ghost predicate RangeRead(kv: Kv, id: string, keys: seq<Key>)
  {
    && (forall i, j :: 0 <= i < j < |keys| ==> keys[i] != keys[j])
    && (forall i :: 0 <= i < |keys| ==> GoodName(keys[i].name) && keys[i] in kv)
    && (forall k :: k in kv ==> (k in keys <==> NamePrefix(SCHEMAS, id) + "/versions/" <= Render(SCHEMAS, k)))
  }

  lemma ReadsVersionKeys(kv: Kv, id: string, keys: seq<Key>, k: Key)
    requires GoodName(id) && KeysGood(kv) && RangeRead(kv, id, keys) && k in kv
    ensures k in keys <==> k.Version? && k.name == id
  {
    VersionsPrefixCovers(SCHEMAS, id, k);
  }

  predicate ByVersion(docs: seq<Doc>)
  {
    forall i, j :: 0 <= i < j < |docs| ==> docs[i].version <= docs[j].version
  }

  /** Distinct increasing numbers that are exactly 1..n are 1, 2, ..., n. */
  lemma {:induction false} CountingUp(vs: seq<nat>, n: nat, i: nat)
    requires forall a, b :: 0 <= a < b < |vs| ==> vs[a] < vs[b]
    requires forall a :: 0 <= a < |vs| ==> 1 <= vs[a] <= n
    requires forall v :: 1 <= v <= n ==> v in vs
    requires i < |vs|
    ensures vs[i] == i + 1
    decreases i
  {
    if i > 0 {
      CountingUp(vs, n, i - 1);
    }
    assert vs[i] >= i + 1;
    assert i + 1 in vs;
  }

  lemma CountingAll(vs: seq<nat>, n: nat)
    requires forall a, b :: 0 <= a < b < |vs| ==> vs[a] < vs[b]
    requires forall a :: 0 <= a < |vs| ==> 1 <= vs[a] <= n
    requires forall v :: 1 <= v <= n ==> v in vs
    ensures |vs| == n
  {
    if vs != [] {
      CountingUp(vs, n, |vs| - 1);
    }
    if n > 0 {
      assert n in vs;
      var p :| 0 <= p < |vs| && vs[p] == n;
      CountingUp(vs, n, p);
    }
  }

  function Listed(kv: Kv, keys: seq<Key>): seq<Doc>
  {
    seq(|keys|, i requires 0 <= i < |keys| =>
          if keys[i] in kv && kv[keys[i]].Document? then kv[keys[i]].doc else Doc("", 0, ""))
  }

  function Versions(docs: seq<Doc>): seq<nat>
  {
    seq(|docs|, i requires 0 <= i < |docs| => docs[i].version)
  }

  /** Each listed document is the one stored under its own version. */
  lemma ListedIsStored(kv: Kv, id: string, keys: seq<Key>, out: seq<Doc>, perm: seq<nat>, i: nat)
    requires GoodName(id) && KeysGood(kv) && DocsMatch(kv) && RangeRead(kv, id, keys)
    requires Rearranged(Listed(kv, keys), out, perm) && i < |out|
    ensures keys[perm[i]] == Version(id, out[i].version)
    ensures Lookup(kv, Version(id, out[i].version)) == Some(Document(out[i]))
  {
    ReadsVersionKeys(kv, id, keys, keys[perm[i]]);
  }

  lemma ListedVersions(kv: Kv, id: string, keys: seq<Key>, out: seq<Doc>, perm: seq<nat>)
    requires GoodName(id) && KeysGood(kv) && DocsMatch(kv) && Exact(kv, id) && RangeRead(kv, id, keys)
    requires Rearranged(Listed(kv, keys), out, perm) && ByVersion(out)
    ensures var vs := Versions(out);
            && (forall a, b :: 0 <= a < b < |vs| ==> vs[a] < vs[b])
            && (forall a :: 0 <= a < |vs| ==> 1 <= vs[a] <= Top(kv, id))
            && (forall v :: 1 <= v <= Top(kv, id) ==> v in vs)
  {
    var vs := Versions(out);
    forall a, b | 0 <= a < b < |vs|
      ensures vs[a] < vs[b]
    {
      ListedIsStored(kv, id, keys, out, perm, a);
      ListedIsStored(kv, id, keys, out, perm, b);
      assert keys[perm[a]] != keys[perm[b]];
    }
    forall a | 0 <= a < |vs|
      ensures 1 <= vs[a] <= Top(kv, id)
    {
      ListedIsStored(kv, id, keys, out, perm, a);
    }
    forall v | 1 <= v <= Top(kv, id)
      ensures v in vs
    {
      ReadsVersionKeys(kv, id, keys, Version(id, v));
      var j :| 0 <= j < |keys| && keys[j] == Version(id, v);
      assert j in perm;
      var i :| 0 <= i < |perm| && perm[i] == j;
      assert vs[i] == v;
    }
  }

  /**
   However the keys came and however the sort broke ties, the sorted list is definitions
   1, 2, ..., n in numeric order, with n the active version.
   */
  lemma ListIsNumeric(kv: Kv, id: string, keys: seq<Key>, out: seq<Doc>, perm: seq<nat>)
    requires GoodName(id) && KeysGood(kv) && DocsMatch(kv) && Exact(kv, id) && RangeRead(kv, id, keys)
    requires Rearranged(Listed(kv, keys), out, perm) && ByVersion(out)
    ensures |out| == Top(kv, id)
    ensures forall i :: 0 <= i < |out| ==> Lookup(kv, Version(id, i + 1)) == Some(Document(out[i]))
  {
    ListedVersions(kv, id, keys, out, perm);
    CountingAll(Versions(out), Top(kv, id));
    forall i | 0 <= i < |out|
      ensures Lookup(kv, Version(id, i + 1)) == Some(Document(out[i]))
    {
      CountingUp(Versions(out), Top(kv, id), i);
      ListedIsStored(kv, id, keys, out, perm, i);
    }
  }

  /**
   Version 0, its two requests at two moments of a run: it finds nothing if and only if the schema
   was not there at the first, or a delete came in between and the schema was since written fewer
   times than its version.  If no delete came, it finds what was active at the first request.
   */
  lemma VersionZeroExactly(r: StoreRun, a: nat, b: nat, id: string)
    requires IsStoreRun(SCHEMAS, r) && RollbackFree(r) && RoomyRun(SCHEMAS, r) && a <= b <= |r.requests| && GoodName(id)
    ensures var top := Top(r.states[a].kv, id);
            var got := GetSchema(r.states[a].kv, r.states[b].kv, id, 0);
            && (got == None <==> top == 0 || DeletedBelow(r, id, a, b, top))
            && (top > 0 && Undeleted(r, id, a, b) ==> got == Lookup(r.states[a].kv, Version(id, top)))
  {
    RunIsSequential(SCHEMAS, r, a);
    assert Exact(r.states[a].kv, id);
    var top := Top(r.states[a].kv, id);
    if top > 0 {
      assert Roomy(SCHEMAS, r.states[a].kv);
      assert ParseActive(r.states[a].kv, id) == Some(top);
      SmallMod(top, WIDTH_32);
      GoneExactly(SCHEMAS, r, id, a, b, top);
    }
  }

  /**
   What a list at one moment and reads of single versions at later ones say of each other in every
   run of creates and deletes with fewer than 2^32 versions: while the schema is not deleted, every
   listed definition is still found under its number, and version 0 is the last of the list that
   was there when its first request was answered.
   */
  lemma SchemaRunReads(r: StoreRun, a: nat, b: nat, id: string, keys: seq<Key>, out: seq<Doc>, perm: seq<nat>)
    requires IsStoreRun(SCHEMAS, r) && RollbackFree(r) && RoomyRun(SCHEMAS, r) && a <= b <= |r.requests|
    requires GoodName(id) && RangeRead(r.states[a].kv, id, keys) && Undeleted(r, id, a, b)
    requires Rearranged(Listed(r.states[a].kv, keys), out, perm) && ByVersion(out)
    ensures |out| == Top(r.states[a].kv, id)
    ensures forall kv: Kv, v: nat :: 1 <= v <= |out| ==> GetSchema(kv, r.states[b].kv, id, v) == Some(Document(out[v - 1]))
    ensures out != [] ==> GetSchema(r.states[a].kv, r.states[b].kv, id, 0) == Some(Document(out[|out| - 1]))
  {
    RunIsSequential(SCHEMAS, r, a);
    assert Exact(r.states[a].kv, id);
    ListIsNumeric(r.states[a].kv, id, keys, out, perm);
    VersionZeroExactly(r, a, b, id);
    forall kv: Kv, v: nat | 1 <= v <= |out|
      ensures GetSchema(kv, r.states[b].kv, id, v) == Some(Document(out[v - 1]))
    {
      GoneExactly(SCHEMAS, r, id, a, b, v);
    }
  }
}
