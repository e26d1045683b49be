/**
 The versioned document stores over etcd, for any number of clients.  etcd is an atomic map;
 every operation is split into the requests it makes, and requests of different clients
 interleave freely.  The same code shape serves flows and schemas: Layout says which.
 */
module VersionStore {
  import opened Options
  import opened Collections
  import opened KeyLayout

  /** A stored spec or schema definition: the identity fields, and the rest. */
  datatype Doc = Doc(name: string, version: nat, body: string)

  datatype Value = Text(text: string) | Document(doc: Doc)

  type Kv = map<Key, Value>

  /** What a client holds between the requests of one operation. */
  datatype Pending =
    | Creating(name: string, body: string, seen: Option<string>, next: nat)   // create or update, active read
    | RollingBack(name: string, version: nat)                                 // version found to exist
    | Getting(name: string, version: nat)                                     // active parsed

  datatype Event =
    | Wrote(name: string, version: nat, doc: Doc)
    | Removed(prefix: string)
    | Served(name: string, version: nat, found: Option<Value>)

  datatype Store = Store(kv: Kv, clients: map<nat, Pending>, log: seq<Event>)

  const EMPTY := Store(map[], map[], [])

  datatype Request =
    | ReadActive(client: nat, name: string, body: string)
    | Commit(client: nat)
    | Delete(name: string)
    | ReadVersion(client: nat, name: string, version: nat)
    | PutActive(client: nat)
    | GetActive(client: nat, name: string)
    | GetSpec(client: nat)
    | PutStatus(name: string, text: string)

  // ---------------------------------------------------------------- requests

  /** The version an active key names, when it is there and parses. */
  function ParseActive(kv: Kv, name: string): Option<nat>
  {
    if Active(name) in kv && kv[Active(name)].Text? then ParseUint(kv[Active(name)].text) else None
  }

  /** The first request of createNewVersion and createSchemaVersion. */
  function BeginCreate(kv: Kv, name: string, body: string): Option<Pending>
  {
    if Active(name) !in kv then Some(Creating(name, body, None, 1))
    else
      match ParseActive(kv, name)
      case None => None
      case Some(v) => Some(Creating(name, body, Some(kv[Active(name)].text), (v + 1) % WIDTH_64))
  }

  /** The comparison of the transaction: the active key is as it was read. */
  predicate Unchanged(kv: Kv, p: Pending)
    requires p.Creating?
  {
    match p.seen
    case None => Active(p.name) !in kv
    case Some(t) => Active(p.name) in kv && kv[Active(p.name)] == Text(t)
  }

  /** The document the transaction writes: its version is the next one, cut to the width of the family. */
  function NewDoc(l: Layout, p: Pending): Doc
    requires p.Creating? && l.width > 0
  {
    Doc(p.name, p.next % l.width, p.body)
  }

  function Written(l: Layout, kv: Kv, p: Pending): Kv
    requires p.Creating? && l.width > 0
  {
    kv[Version(p.name, NewDoc(l, p).version) := Document(NewDoc(l, p))][Active(p.name) := Text(Decimal(p.next))]
  }

  /** Delete with prefix: every key whose string starts with the name's prefix. */
  function AfterDelete(l: Layout, kv: Kv, name: string): Kv
  {
    map k | k in kv && !(NamePrefix(l, name) <= Render(l, k)) :: kv[k]
  }

  predicate Allowed(s: Store, r: Request)
  {
    match r
    case ReadActive(c, n, _) => c !in s.clients && GoodName(n)
    case Commit(c) => c in s.clients && s.clients[c].Creating?
    case Delete(n) => GoodName(n)
    case ReadVersion(c, n, _) => c !in s.clients && GoodName(n)
    case PutActive(c) => c in s.clients && s.clients[c].RollingBack?
    case GetActive(c, n) => c !in s.clients && GoodName(n)
    case GetSpec(c) => c in s.clients && s.clients[c].Getting?
    case PutStatus(n, _) => GoodName(n)
  }

  function Serve(l: Layout, s: Store, r: Request): Store
    requires ValidLayout(l) && Allowed(s, r)
  {
    match r
    case ReadActive(c, n, body) =>
      (match BeginCreate(s.kv, n, body) { case None => s case Some(p) => s.(clients := s.clients[c := p]) })
    case Commit(c) =>
      var p := s.clients[c];
      var rest := s.clients - {c};
      if Unchanged(s.kv, p) then
        Store(Written(l, s.kv, p), rest, s.log + [Wrote(p.name, NewDoc(l, p).version, NewDoc(l, p))])
      else s.(clients := rest)
    case Delete(n) => s.(kv := AfterDelete(l, s.kv, n), log := s.log + [Removed(n)])
    case ReadVersion(c, n, v) =>
      if Version(n, v) in s.kv then s.(clients := s.clients[c := RollingBack(n, v)]) else s
    case PutActive(c) =>
      var p := s.clients[c];
      s.(kv := s.kv[Active(p.name) := Text(Decimal(p.version))], clients := s.clients - {c})
    case GetActive(c, n) =>
      (match ParseActive(s.kv, n) { case None => s case Some(v) => s.(clients := s.clients[c := Getting(n, v)]) })
    case GetSpec(c) =>
      var p := s.clients[c];
      s.(clients := s.clients - {c},
         log := s.log + [Served(p.name, p.version, Lookup(s.kv, Version(p.name, p.version)))])
    case PutStatus(n, text) => s.(kv := s.kv[Status(n) := Text(text)])
  }

  datatype StoreRun = StoreRun(states: seq<Store>, requests: seq<Request>) {
    function Last(): Store
      requires states != []
    {
      states[|states| - 1]
    }
  }

  ghost predicate ServedAt(l: Layout, r: StoreRun, i: nat)
    requires ValidLayout(l) && i < |r.requests| && |r.states| == |r.requests| + 1
  {
    Allowed(r.states[i], r.requests[i]) && r.states[i + 1] == Serve(l, r.states[i], r.requests[i])
  }

  ghost predicate IsStoreRun(l: Layout, r: StoreRun)
  {
    && ValidLayout(l)
    && |r.states| == |r.requests| + 1
    && r.states[0] == EMPTY
    && (forall i :: 0 <= i < |r.requests| ==> ServedAt(l, r, i))
  }

  predicate RollbackFree(r: StoreRun)
  {
    forall i :: 0 <= i < |r.requests| ==> !r.requests[i].ReadVersion?
  }

  predicate DeleteFree(r: StoreRun)
  {
    forall i :: 0 <= i < |r.requests| ==> !r.requests[i].Delete?
  }

  /** Fewer versions than the family's numbers can hold. */
  ghost predicate Roomy(l: Layout, kv: Kv)
  {
    forall n :: GoodName(n) && ParseActive(kv, n).Some? ==> ParseActive(kv, n).value + 1 < l.width
  }

  ghost predicate RoomyRun(l: Layout, r: StoreRun)
  {
    forall i :: 0 <= i < |r.states| ==> Roomy(l, r.states[i].kv)
  }

  // ---------------------------------------------------------------- what the requests do to one name

  predicate KeysGood(kv: Kv)
  {
    forall k :: k in kv ==> GoodName(k.name)
  }

  /** A delete removes all keys of the names it covers and none of any other. */
  lemma DeleteCovers(l: Layout, kv: Kv, name: string, k: Key)
    requires KeysGood(kv) && GoodName(name) && GoodName(k.name)
    ensures Lookup(AfterDelete(l, kv, name), k) == if name <= k.name then None else Lookup(kv, k)
  {
    NamePrefixCovers(l, name, k);
  }

  /**
   A delete of one name touches another's keys if and only if that other name is stored and
   starts with it: deleting "a" deletes "ab" too.
   */
  lemma DeleteTouchesOthersExactly(l: Layout, kv: Kv, name: string)
    requires KeysGood(kv) && GoodName(name)
    ensures (exists k :: k in kv && k.name != name && k !in AfterDelete(l, kv, name))
            <==> (exists k :: k in kv && k.name != name && name <= k.name)
  {
    forall k | k in kv
      ensures k !in AfterDelete(l, kv, name) <==> name <= k.name
    {
      DeleteCovers(l, kv, name, k);
    }
  }

  /** The highest version, 0 when the name is not stored. */
  function Top(kv: Kv, n: string): nat
  {
    match ParseActive(kv, n) { case None => 0 case Some(v) => v }
  }

  /** Nothing is stored for the name, or active is m and the stored versions are exactly 1..m. */
  ghost predicate Exact(kv: Kv, n: string)
  {
    && (Active(n) in kv ==> Top(kv, n) >= 1 && kv[Active(n)] == Text(Decimal(Top(kv, n))))
    && (forall v: nat :: Version(n, v) in kv <==> 1 <= v <= Top(kv, n))
  }

  /** What a creating client holds fits what it read. */
  predicate PendingSound(l: Layout, p: Pending)
  {
    && GoodName(p.name)
    && (p.Creating? ==>
          && 1 <= p.next < l.width
          && (p.seen.None? ==> p.next == 1)
          && (p.seen.Some? ==> p.next >= 2 && p.seen.value == Decimal(p.next - 1)))
  }

  predicate ClientsSound(l: Layout, s: Store)
  {
    forall c :: c in s.clients ==> PendingSound(l, s.clients[c])
  }

  lemma SmallMod(x: nat, w: nat)
    requires x < w
    ensures x % w == x
  {
  }

  lemma Widths(l: Layout)
    requires ValidLayout(l)
    ensures 0 < l.width <= WIDTH_64
  {
  }

  lemma BeginCreateSound(l: Layout, kv: Kv, n: string, body: string)
    requires ValidLayout(l) && GoodName(n) && Exact(kv, n) && Roomy(l, kv)
    ensures BeginCreate(kv, n, body).Some? && PendingSound(l, BeginCreate(kv, n, body).value)
  {
    Widths(l);
    if Active(n) in kv {
      var v := Top(kv, n);
      assert ParseActive(kv, n) == Some(v);
      SmallMod(v + 1, WIDTH_64);
    }
  }

  /** A transaction that goes through found the version before the one it writes. */
  lemma CommitTop(l: Layout, kv: Kv, p: Pending)
    requires ValidLayout(l) && p.Creating? && PendingSound(l, p) && Unchanged(kv, p)
    ensures Top(kv, p.name) == p.next - 1
  {
    Widths(l);
    if p.seen.Some? {
      ParseDecimal(p.next - 1);
    }
  }

  lemma CommitWrites(l: Layout, kv: Kv, p: Pending)
    requires ValidLayout(l) && p.Creating? && PendingSound(l, p)
    ensures NewDoc(l, p) == Doc(p.name, p.next, p.body)
    ensures Top(Written(l, kv, p), p.name) == p.next
  {
    Widths(l);
    SmallMod(p.next, l.width);
    ParseDecimal(p.next);
  }

  // ---------------------------------------------------------------- rollback-free runs

  /** Every version written and not deleted since is stored as it was written. */
  ghost predicate Deleted(log: seq<Event>, i: nat, n: string)
  {
    exists j :: i < j < |log| && log[j].Removed? && log[j].prefix <= n
  }

  ghost predicate Remembered(s: Store)
  {
    forall i :: 0 <= i < |s.log| && s.log[i].Wrote? && !Deleted(s.log, i, s.log[i].name) ==>
      Lookup(s.kv, Version(s.log[i].name, s.log[i].version)) == Some(Document(s.log[i].doc))
  }

  /** No version key is written twice without a delete of the name in between. */
  ghost predicate WrittenOnce(log: seq<Event>)
  {
    forall i, j :: 0 <= i < j < |log| && log[i].Wrote? && log[j].Wrote?
                   && log[i].name == log[j].name && log[i].version == log[j].version ==>
      exists k :: i < k < j && log[k].Removed? && log[k].prefix <= log[i].name
  }

  ghost predicate NamesGood(log: seq<Event>)
  {
    forall i :: 0 <= i < |log| && log[i].Wrote? ==> GoodName(log[i].name)
  }

  /** Stored documents carry the name and version of their key. */
  predicate DocsMatch(kv: Kv)
  {
    forall k :: k in kv && k.Version? ==> kv[k].Document? && kv[k].doc.name == k.name && kv[k].doc.version == k.number
  }

  ghost predicate Sequential(l: Layout, s: Store)
  {
    && KeysGood(s.kv)
    && DocsMatch(s.kv)
    && ClientsSound(l, s)
    && (forall c :: c in s.clients ==> !s.clients[c].RollingBack?)
    && (forall n :: GoodName(n) ==> Exact(s.kv, n))
    && NamesGood(s.log)
    && Remembered(s)
    && WrittenOnce(s.log)
  }

  /** Putting keys of one name leaves what is known of every other name. */
  lemma ExactElsewhere(kv: Kv, kv2: Kv, n: string)
    requires Exact(kv, n)
    requires forall k: Key :: k.name == n && !k.Status? ==> Lookup(kv2, k) == Lookup(kv, k)
    ensures Exact(kv2, n)
  {
    assert Lookup(kv2, Active(n)) == Lookup(kv, Active(n));
    forall v: nat
      ensures Version(n, v) in kv2 <==> Version(n, v) in kv
    {
      assert Lookup(kv2, Version(n, v)) == Lookup(kv, Version(n, v));
    }
  }

  lemma CommitExact(l: Layout, kv: Kv, p: Pending)
    requires ValidLayout(l) && p.Creating? && PendingSound(l, p) && Unchanged(kv, p)
    requires forall n :: GoodName(n) ==> Exact(kv, n)
    ensures Version(p.name, p.next) !in kv
    ensures forall n :: GoodName(n) ==> Exact(Written(l, kv, p), n)
  {
    CommitTop(l, kv, p);
    CommitWrites(l, kv, p);
    assert Exact(kv, p.name);
    forall n | GoodName(n)
      ensures Exact(Written(l, kv, p), n)
    {
      if n != p.name {
        ExactElsewhere(kv, Written(l, kv, p), n);
      }
    }
  }

  lemma DeleteExact(l: Layout, kv: Kv, name: string)
    requires KeysGood(kv) && GoodName(name) && forall n :: GoodName(n) ==> Exact(kv, n)
    ensures forall n :: GoodName(n) ==> Exact(AfterDelete(l, kv, name), n)
  {
    forall n | GoodName(n)
      ensures Exact(AfterDelete(l, kv, name), n)
    {
      forall k: Key | k.name == n
        ensures Lookup(AfterDelete(l, kv, name), k) == if name <= n then None else Lookup(kv, k)
      {
        DeleteCovers(l, kv, name, k);
      }
      if name <= n {
        assert Lookup(AfterDelete(l, kv, name), Active(n)) == None;
        forall v: nat
          ensures Version(n, v) !in AfterDelete(l, kv, name)
        {
          assert Lookup(AfterDelete(l, kv, name), Version(n, v)) == None;
        }
      } else {
        ExactElsewhere(kv, AfterDelete(l, kv, name), n);
      }
    }
  }

  /** Appending an event that is no Removed keeps what was deleted and what was not. */
  lemma DeletedAppend(log: seq<Event>, e: Event, i: nat, n: string)
    requires i < |log|
    ensures Deleted(log + [e], i, n) <==> Deleted(log, i, n) || (e.Removed? && e.prefix <= n)
  {
    var log2 := log + [e];
    if Deleted(log, i, n) {
      var j :| i < j < |log| && log[j].Removed? && log[j].prefix <= n;
      assert log2[j] == log[j];
    }
    if e.Removed? && e.prefix <= n {
      assert log2[|log|] == e;
    }
  }

  lemma WrittenOnceAppend(log: seq<Event>, e: Event)
    requires WrittenOnce(log)
    requires e.Wrote? ==>
               forall i :: 0 <= i < |log| && log[i].Wrote? && log[i].name == e.name && log[i].version == e.version ==>
                 Deleted(log, i, e.name)
    ensures WrittenOnce(log + [e])
  {
    var log2 := log + [e];
    forall i, j | 0 <= i < j < |log2| && log2[i].Wrote? && log2[j].Wrote?
                  && log2[i].name == log2[j].name && log2[i].version == log2[j].version
      ensures exists k :: i < k < j && log2[k].Removed? && log2[k].prefix <= log2[i].name
    {
      if j < |log| {
        var k :| i < k < j && log[k].Removed? && log[k].prefix <= log[i].name;
        assert log2[k] == log[k];
      } else {
        var k :| i < k < |log| && log[k].Removed? && log[k].prefix <= e.name;
        assert log2[k] == log[k];
      }
    }
  }

  lemma CommitRemembers(l: Layout, s: Store, p: Pending)
    requires ValidLayout(l) && Sequential(l, s) && p.Creating? && PendingSound(l, p) && Unchanged(s.kv, p)
    ensures var d := NewDoc(l, p);
            var s' := Store(Written(l, s.kv, p), s.clients, s.log + [Wrote(p.name, d.version, d)]);
            Remembered(s') && WrittenOnce(s'.log)
  {
    var d := NewDoc(l, p);
    var e := Wrote(p.name, d.version, d);
    var s' := Store(Written(l, s.kv, p), s.clients, s.log + [e]);
    CommitWrites(l, s.kv, p);
    CommitExact(l, s.kv, p);
    forall i | 0 <= i < |s.log| && s.log[i].Wrote? && s.log[i].name == e.name && s.log[i].version == e.version
      ensures Deleted(s.log, i, e.name)
    {
      assert Version(p.name, p.next) !in s.kv;
    }
    WrittenOnceAppend(s.log, e);
    forall i | 0 <= i < |s'.log| && s'.log[i].Wrote? && !Deleted(s'.log, i, s'.log[i].name)
      ensures Lookup(s'.kv, Version(s'.log[i].name, s'.log[i].version)) == Some(Document(s'.log[i].doc))
    {
      if i < |s.log| {
        DeletedAppend(s.log, e, i, s.log[i].name);
        assert s'.log[i] == s.log[i];
      }
    }
  }

  lemma DeleteRemembers(l: Layout, s: Store, name: string)
    requires Sequential(l, s) && GoodName(name)
    ensures var s' := s.(kv := AfterDelete(l, s.kv, name), log := s.log + [Removed(name)]);
            Remembered(s') && WrittenOnce(s'.log)
  {
    var s' := s.(kv := AfterDelete(l, s.kv, name), log := s.log + [Removed(name)]);
    WrittenOnceAppend(s.log, Removed(name));
    forall i | 0 <= i < |s'.log| && s'.log[i].Wrote? && !Deleted(s'.log, i, s'.log[i].name)
      ensures Lookup(s'.kv, Version(s'.log[i].name, s'.log[i].version)) == Some(Document(s'.log[i].doc))
    {
      assert s'.log[i] == s.log[i];
      DeletedAppend(s.log, Removed(name), i, s.log[i].name);
      DeleteCovers(l, s.kv, name, Version(s.log[i].name, s.log[i].version));
    }
  }

  lemma ServedRemembers(l: Layout, s: Store, e: Event)
    requires Sequential(l, s) && e.Served?
    ensures Remembered(s.(log := s.log + [e])) && WrittenOnce(s.log + [e])
  {
    WrittenOnceAppend(s.log, e);
    forall i | 0 <= i < |s.log| && s.log[i].Wrote?
      ensures Deleted(s.log + [e], i, s.log[i].name) <==> Deleted(s.log, i, s.log[i].name)
    {
      DeletedAppend(s.log, e, i, s.log[i].name);
    }
  }

  lemma SequentialCommit(l: Layout, s: Store, c: nat)
    requires ValidLayout(l) && Sequential(l, s) && Allowed(s, Commit(c))
    ensures Sequential(l, Serve(l, s, Commit(c)))
  {
    var p := s.clients[c];
    if Unchanged(s.kv, p) {
      CommitWrites(l, s.kv, p);
      CommitExact(l, s.kv, p);
      CommitRemembers(l, s, p);
    }
  }

  lemma SequentialDelete(l: Layout, s: Store, n: string)
    requires ValidLayout(l) && Sequential(l, s) && Allowed(s, Delete(n))
    ensures Sequential(l, Serve(l, s, Delete(n)))
  {
    DeleteExact(l, s.kv, n);
    DeleteRemembers(l, s, n);
  }

  lemma SequentialStatus(l: Layout, s: Store, n: string, text: string)
    requires ValidLayout(l) && Sequential(l, s) && Allowed(s, PutStatus(n, text))
    ensures Sequential(l, Serve(l, s, PutStatus(n, text)))
  {
    forall m | GoodName(m)
      ensures Exact(s.kv[Status(n) := Text(text)], m)
    {
      ExactElsewhere(s.kv, s.kv[Status(n) := Text(text)], m);
    }
  }

  lemma SequentialStep(l: Layout, s: Store, r: Request)
    requires ValidLayout(l) && Sequential(l, s) && Roomy(l, s.kv) && Allowed(s, r) && !r.ReadVersion?
    ensures Sequential(l, Serve(l, s, r))
  {
    match r
    case ReadActive(c, n, body) => BeginCreateSound(l, s.kv, n, body);
    case Commit(c) => SequentialCommit(l, s, c);
    case Delete(n) => SequentialDelete(l, s, n);
    case PutActive(c) =>
    case GetActive(c, n) =>
    case GetSpec(c) =>
      var p := s.clients[c];
      ServedRemembers(l, s, Served(p.name, p.version, Lookup(s.kv, Version(p.name, p.version))));
    case PutStatus(n, text) => SequentialStatus(l, s, n, text);
  }

  lemma StoreStep(l: Layout, r: StoreRun, i: nat)
    requires IsStoreRun(l, r) && i < |r.requests|
    ensures Allowed(r.states[i], r.requests[i]) && r.states[i + 1] == Serve(l, r.states[i], r.requests[i])
  {
    assert ServedAt(l, r, i);
  }

  /**
   Rollback-free runs, with any number of interleaved creates, updates and deletes: every name
   either has nothing stored, or its active version is some m and its stored versions are
   exactly 1..m; every version written and not deleted since is still stored as written; and
   no version key is written twice without a delete in between, so that concurrent writers
   that succeed get different versions.
   */
  lemma {:induction false} RunIsSequential(l: Layout, r: StoreRun, n: nat)
    requires IsStoreRun(l, r) && RollbackFree(r) && RoomyRun(l, r) && n < |r.states|
    ensures Sequential(l, r.states[n])
    decreases n
  {
    if n > 0 {
      RunIsSequential(l, r, n - 1);
      StoreStep(l, r, n - 1);
      SequentialStep(l, r.states[n - 1], r.requests[n - 1]);
    }
  }

  lemma ExactAfterWrite(kv: Kv, n: string, next: nat, v: nat, d: Value)
    requires Exact(kv, n) && (next == Top(kv, n) + 1 < WIDTH_64 || next == 0)
    ensures Exact(kv[Version(n, v) := d][Active(n) := Text(Decimal(next))], n) <==> v == next == Top(kv, n) + 1
  {
    var after := kv[Version(n, v) := d][Active(n) := Text(Decimal(next))];
    ParseDecimal(next);
    assert Top(after, n) == next;
    assert forall u: nat :: Version(n, u) in after <==> Version(n, u) in kv || u == v;
    assert Version(n, next) in after <==> 1 <= next <= Top(kv, n) || next == v;
  }

  lemma ModSame(x: nat, w: nat)
    requires w > 0
    ensures x % w == x <==> x < w
  {
  }

  /**
   The room is needed: one undisturbed create or update keeps versions and pointer in step if
   and only if the next number fits the family; otherwise the stored number wraps around.
   */
  lemma CreateKeepsStepExactly(l: Layout, kv: Kv, n: string, body: string)
    requires ValidLayout(l) && GoodName(n) && Exact(kv, n)
    ensures BeginCreate(kv, n, body).Some?
    ensures var p := BeginCreate(kv, n, body).value;
            && Unchanged(kv, p)
            && (Exact(Written(l, kv, p), n) <==> Top(kv, n) + 1 < l.width)
  {
    Widths(l);
    var p := BeginCreate(kv, n, body).value;
    var top := Top(kv, n);
    assert top < WIDTH_64 && p.next == (top + 1) % WIDTH_64;
    if top + 1 < WIDTH_64 {
      SmallMod(top + 1, WIDTH_64);
    } else {
      assert p.next == 0;
    }
    ModSame(p.next, l.width);
    ExactAfterWrite(kv, n, p.next, NewDoc(l, p).version, Document(NewDoc(l, p)));
  }
}
