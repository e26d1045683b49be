/** Flow versions when clients also roll back, in runs without deletes. */
module VersionRollback {
  import opened Options
  import opened Collections
  import opened KeyLayout
  import opened VersionStore

  /** The stored versions of a name are 1..m, and active names one of them. */
  ghost predicate Contiguous(l: Layout, kv: Kv, n: string, m: nat)
  {
    && m < l.width
    && (forall v: nat :: Version(n, v) in kv <==> 1 <= v <= m)
    && (Active(n) in kv <==> m >= 1)
    && (m >= 1 ==> 1 <= Top(kv, n) <= m && kv[Active(n)] == Text(Decimal(Top(kv, n))))
  }

  ghost predicate StoredUpToSome(l: Layout, kv: Kv, n: string)
  {
    exists m: nat :: Contiguous(l, kv, n, m)
  }

  /** A rolling-back or reading client has seen the version it is about to use. */
  ghost predicate SeenStored(kv: Kv, p: Pending)
  {
    !p.Creating? ==> Version(p.name, p.version) in kv
  }

  /** A served read found the document of the version it asked for. */
  predicate ServedWell(e: Event)
  {
    e.Served? ==> e.found.Some? && e.found.value.Document?
                  && e.found.value.doc.name == e.name && e.found.value.doc.version == e.version
  }

  ghost predicate RolledSound(l: Layout, s: Store)
  {
    && DocsMatch(s.kv)
    && ClientsSound(l, s)
    && (forall c :: c in s.clients ==> SeenStored(s.kv, s.clients[c]))
    && (forall n :: GoodName(n) ==> StoredUpToSome(l, s.kv, n))
    && (forall i :: 0 <= i < |s.log| ==> ServedWell(s.log[i]))
  }

  lemma SameKeysContiguous(l: Layout, kv: Kv, kv2: Kv, n: string)
    requires StoredUpToSome(l, kv, n)
    requires forall k: Key :: k.name == n && !k.Status? ==> Lookup(kv2, k) == Lookup(kv, k)
    ensures StoredUpToSome(l, kv2, n)
  {
    var m: nat :| Contiguous(l, kv, n, m);
    assert Lookup(kv2, Active(n)) == Lookup(kv, Active(n));
    forall v: nat
      ensures Version(n, v) in kv2 <==> Version(n, v) in kv
    {
      assert Lookup(kv2, Version(n, v)) == Lookup(kv, Version(n, v));
    }
    assert Contiguous(l, kv2, n, m);
  }

  lemma CommitContiguous(l: Layout, kv: Kv, p: Pending, m: nat)
    requires ValidLayout(l) && p.Creating? && PendingSound(l, p) && Unchanged(kv, p) && Contiguous(l, kv, p.name, m)
    ensures Contiguous(l, Written(l, kv, p), p.name, if p.next > m then p.next else m)
    ensures p.next <= m + 1
  {
    CommitTop(l, kv, p);
    CommitWrites(l, kv, p);
  }

  lemma CommitStored(l: Layout, kv: Kv, p: Pending)
    requires ValidLayout(l) && p.Creating? && PendingSound(l, p) && Unchanged(kv, p)
    requires forall n :: GoodName(n) ==> StoredUpToSome(l, kv, n)
    ensures forall n :: GoodName(n) ==> StoredUpToSome(l, Written(l, kv, p), n)
  {
    forall n | GoodName(n)
      ensures StoredUpToSome(l, Written(l, kv, p), n)
    {
      if n == p.name {
        var m: nat :| Contiguous(l, kv, n, m);
        CommitContiguous(l, kv, p, m);
      } else {
        SameKeysContiguous(l, kv, Written(l, kv, p), n);
      }
    }
  }

  lemma CommitDocs(l: Layout, kv: Kv, p: Pending)
    requires ValidLayout(l) && p.Creating? && PendingSound(l, p) && DocsMatch(kv)
    ensures DocsMatch(Written(l, kv, p))
    ensures forall q: Pending :: SeenStored(kv, q) ==> SeenStored(Written(l, kv, p), q)
  {
    CommitWrites(l, kv, p);
  }

  lemma ClientsLeft(l: Layout, s: Store, t: Store, c: nat)
    requires ClientsSound(l, s) && t.clients == s.clients - {c}
    ensures ClientsSound(l, t)
  {
  }

  lemma CommitRolled(l: Layout, s: Store, c: nat)
    requires ValidLayout(l) && RolledSound(l, s) && Allowed(s, Commit(c))
    ensures RolledSound(l, Serve(l, s, Commit(c)))
  {
    var p := s.clients[c];
    assert PendingSound(l, p);
    ClientsLeft(l, s, Serve(l, s, Commit(c)), c);
    if Unchanged(s.kv, p) {
      CommitDocs(l, s.kv, p);
      CommitStored(l, s.kv, p);
    }
  }

  lemma PutActiveContiguous(l: Layout, kv: Kv, p: Pending, m: nat)
    requires ValidLayout(l) && !p.Creating? && SeenStored(kv, p) && Contiguous(l, kv, p.name, m)
    ensures Contiguous(l, kv[Active(p.name) := Text(Decimal(p.version))], p.name, m)
  {
    Widths(l);
    ParseDecimal(p.version);
  }

  lemma PutActiveRolled(l: Layout, s: Store, c: nat)
    requires ValidLayout(l) && RolledSound(l, s) && Allowed(s, PutActive(c))
    ensures RolledSound(l, Serve(l, s, PutActive(c)))
  {
    var p := s.clients[c];
    var kv2 := s.kv[Active(p.name) := Text(Decimal(p.version))];
    ClientsLeft(l, s, Serve(l, s, PutActive(c)), c);
    forall n | GoodName(n)
      ensures StoredUpToSome(l, kv2, n)
    {
      if n == p.name {
        var m: nat :| Contiguous(l, s.kv, n, m);
        PutActiveContiguous(l, s.kv, p, m);
      } else {
        SameKeysContiguous(l, s.kv, kv2, n);
      }
    }
  }

  lemma BeginRolled(l: Layout, s: Store, n: string, body: string)
    requires ValidLayout(l) && RolledSound(l, s) && Roomy(l, s.kv) && GoodName(n)
    ensures BeginCreate(s.kv, n, body).Some? && PendingSound(l, BeginCreate(s.kv, n, body).value)
  {
    var m: nat :| Contiguous(l, s.kv, n, m);
    Widths(l);
    if Active(n) in s.kv {
      var v := Top(s.kv, n);
      assert ParseActive(s.kv, n) == Some(v);
      SmallMod(v + 1, WIDTH_64);
    }
  }

  lemma StatusRolled(l: Layout, s: Store, n: string, text: string)
    requires RolledSound(l, s)
    ensures RolledSound(l, s.(kv := s.kv[Status(n) := Text(text)]))
  {
    forall m | GoodName(m)
      ensures StoredUpToSome(l, s.kv[Status(n) := Text(text)], m)
    {
      SameKeysContiguous(l, s.kv, s.kv[Status(n) := Text(text)], m);
    }
  }

  lemma GetActiveRolled(l: Layout, s: Store, n: string)
    requires RolledSound(l, s) && GoodName(n) && ParseActive(s.kv, n).Some?
    ensures Version(n, Top(s.kv, n)) in s.kv
  {
    var m: nat :| Contiguous(l, s.kv, n, m);
  }

  lemma RolledStep(l: Layout, s: Store, r: Request)
    requires ValidLayout(l) && RolledSound(l, s) && Roomy(l, s.kv) && Allowed(s, r) && !r.Delete?
    ensures RolledSound(l, Serve(l, s, r))
  {
    match r
    case ReadActive(_, n, body) => BeginRolled(l, s, n, body);
    case Commit(c) => CommitRolled(l, s, c);
    case ReadVersion(_, _, _) =>
    case PutActive(c) => PutActiveRolled(l, s, c);
    case GetActive(_, n) => if ParseActive(s.kv, n).Some? { GetActiveRolled(l, s, n); }
    case GetSpec(c) =>
      var p := s.clients[c];
      assert SeenStored(s.kv, p);
    case PutStatus(n, text) => StatusRolled(l, s, n, text);
  }

  /**
   Delete-free runs with rollbacks: the stored versions of every name are always some 1..m,
   active always names a stored one, every stored document carries its key's name and version,
   and a read in two steps always finds the document of the version it first read.
   */
  lemma {:induction false} RunIsContiguous(l: Layout, r: StoreRun, n: nat)
    requires IsStoreRun(l, r) && DeleteFree(r) && RoomyRun(l, r) && n < |r.states|
    ensures RolledSound(l, r.states[n])
    decreases n
  {
    if n == 0 {
      Widths(l);
      forall m | GoodName(m)
        ensures StoredUpToSome(l, EMPTY.kv, m)
      {
        assert Contiguous(l, EMPTY.kv, m, 0);
      }
    } else {
      RunIsContiguous(l, r, n - 1);
      StoreStep(l, r, n - 1);
      RolledStep(l, r.states[n - 1], r.requests[n - 1]);
    }
  }

  /**
   A create that goes through overwrites a stored version if and only if active has been
   rolled back below the highest stored version.
   */
  lemma OverwritesExactly(l: Layout, r: StoreRun, n: nat, c: nat, m: nat)
    requires IsStoreRun(l, r) && DeleteFree(r) && RoomyRun(l, r) && n < |r.states|
    requires Allowed(r.states[n], Commit(c))
    requires var p := r.states[n].clients[c]; Unchanged(r.states[n].kv, p) && Contiguous(l, r.states[n].kv, p.name, m)
    ensures var s := r.states[n];
            var p := s.clients[c];
            && (Version(p.name, NewDoc(l, p).version) in s.kv <==> Top(s.kv, p.name) < m)
            && (forall k :: k in s.kv && k.Version? && k != Version(p.name, NewDoc(l, p).version) ==>
                  k in Serve(l, s, Commit(c)).kv && Serve(l, s, Commit(c)).kv[k] == s.kv[k])
  {
    RunIsContiguous(l, r, n);
    var p := r.states[n].clients[c];
    CommitTop(l, r.states[n].kv, p);
    CommitWrites(l, r.states[n].kv, p);
  }

  // ---------------------------------------------------------------- a version overwritten

  lemma Extend(r: StoreRun, q: Request) returns (r': StoreRun)
    requires IsStoreRun(FLOWS, r) && Allowed(r.Last(), q)
    ensures IsStoreRun(FLOWS, r') && r'.requests == r.requests + [q]
    ensures r'.states == r.states + [Serve(FLOWS, r.Last(), q)]
  {
    r' := StoreRun(r.states + [Serve(FLOWS, r.Last(), q)], r.requests + [q]);
    forall i | 0 <= i < |r'.requests|
      ensures ServedAt(FLOWS, r', i)
    {
      if i < |r.requests| {
        assert ServedAt(FLOWS, r, i);
        assert r'.states[i] == r.states[i] && r'.states[i + 1] == r.states[i + 1];
      }
    }
  }

  /** A client creates or updates the flow named "f" undisturbed. */
  lemma CreateAlone(r: StoreRun, body: string) returns (r': StoreRun)
    requires IsStoreRun(FLOWS, r) && 0 !in r.Last().clients
    requires Active("f") in r.Last().kv ==>
               ParseActive(r.Last().kv, "f").Some? && ParseActive(r.Last().kv, "f").value < 1000
    ensures IsStoreRun(FLOWS, r') && r'.Last().clients == r.Last().clients
    ensures r.states <= r'.states && r'.requests == r.requests + [ReadActive(0, "f", body), Commit(0)]
    ensures var v := Top(r.Last().kv, "f") + 1;
            && Top(r'.Last().kv, "f") == v && ParseActive(r'.Last().kv, "f") == Some(v)
            && r'.Last().kv == r.Last().kv[Version("f", v) := Document(Doc("f", v, body))][Active("f") := Text(Decimal(v))]
  {
    var s := r.Last();
    var v := Top(s.kv, "f") + 1;
    SmallMod(v, WIDTH_64);
    ParseDecimal(v);
    assert GoodName("f");
    var p := BeginCreate(s.kv, "f", body).value;
    assert p.next == v && Unchanged(s.kv, p);
    r' := Extend(r, ReadActive(0, "f", body));
    assert r'.Last().kv == s.kv && r'.Last().clients == s.clients[0 := p];
    r' := Extend(r', Commit(0));
    assert s.clients[0 := p] - {0} == s.clients;
  }

  lemma RollbackAlone(r: StoreRun, v: nat) returns (r': StoreRun)
    requires IsStoreRun(FLOWS, r) && r.Last().clients == map[] && DeleteFree(r)
    requires Version("f", v) in r.Last().kv && v < 1000
    ensures IsStoreRun(FLOWS, r') && r'.Last().clients == map[] && DeleteFree(r') && r.requests <= r'.requests
    ensures r'.Last().kv == r.Last().kv[Active("f") := Text(Decimal(v))]
    ensures ParseActive(r'.Last().kv, "f") == Some(v)
  {
    var s := r.Last();
    ParseDecimal(v);
    assert GoodName("f");
    r' := Extend(r, ReadVersion(0, "f", v));
    assert r'.Last().kv == s.kv && r'.Last().clients == map[0 := RollingBack("f", v)];
    r' := Extend(r', PutActive(0));
  }

  /**
   Old versions are not immutable: after a rollback to version 1, the next update writes
   version 2 again, with another document.
   */
  lemma OldVersionsCanBeOverwritten() returns (before: StoreRun, after: StoreRun)
    ensures IsStoreRun(FLOWS, before) && IsStoreRun(FLOWS, after) && DeleteFree(after)
    ensures before.requests <= after.requests
    ensures Lookup(before.Last().kv, Version("f", 2)) == Some(Document(Doc("f", 2, "second")))
    ensures Lookup(after.Last().kv, Version("f", 2)) == Some(Document(Doc("f", 2, "third")))
  {
    var r := StoreRun([EMPTY], []);
    r := CreateAlone(r, "first");
    before := CreateAlone(r, "second");
    var rolled := RollbackAlone(before, 1);
    after := CreateAlone(rolled, "third");
  }
}
