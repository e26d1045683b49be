/**
 Reads made of two requests: the active version first, then the document of that version.
 Other clients create, update and delete in between.
 */
module TwoStepReads {
  import opened Options
  import opened Collections
  import opened KeyLayout
  import opened VersionStore
  import opened VersionRollback

  // ---------------------------------------------------------------- what one request does to one name

  /** A create or update of the name that goes through. */
  predicate Commits(s: Store, q: Request, n: string)
  {
    Allowed(s, q) && q.Commit? && s.clients[q.client].name == n && Unchanged(s.kv, s.clients[q.client])
  }

  predicate Covers(q: Request, n: string)
  {
    q.Delete? && q.name <= n
  }

  lemma CommitStep(l: Layout, s: Store, q: Request, n: string, v: nat)
    requires ValidLayout(l) && Sequential(l, s) && Allowed(s, q) && q.Commit? && GoodName(n)
    ensures Top(Serve(l, s, q).kv, n) == Top(s.kv, n) + if Commits(s, q, n) then 1 else 0
    ensures Version(n, v) in s.kv ==> Lookup(Serve(l, s, q).kv, Version(n, v)) == Lookup(s.kv, Version(n, v))
  {
    var p := s.clients[q.client];
    if Unchanged(s.kv, p) {
      CommitTop(l, s.kv, p);
      CommitWrites(l, s.kv, p);
      CommitExact(l, s.kv, p);
    }
  }

  /** A covering delete resets the name, a commit adds a version, and nothing else changes what is stored. */
  lemma TopStep(l: Layout, s: Store, q: Request, n: string, v: nat)
    requires ValidLayout(l) && Sequential(l, s) && Allowed(s, q) && !q.ReadVersion? && GoodName(n)
    ensures Top(Serve(l, s, q).kv, n)
            == if Covers(q, n) then 0 else Top(s.kv, n) + if Commits(s, q, n) then 1 else 0
    ensures Version(n, v) in s.kv && !Covers(q, n) ==>
              Lookup(Serve(l, s, q).kv, Version(n, v)) == Lookup(s.kv, Version(n, v))
  {
    if q.Commit? {
      CommitStep(l, s, q, n, v);
    } else if q.Delete? {
      DeleteCovers(l, s.kv, q.name, Active(n));
      DeleteCovers(l, s.kv, q.name, Version(n, v));
    }
  }

  // ---------------------------------------------------------------- over a stretch of a run

  /** How many creates and updates of the name go through at requests a to b - 1. */
  function Writes(r: StoreRun, n: string, a: nat, b: nat): nat
    requires a <= b <= |r.requests| < |r.states|
  {
    if a == b then 0 else Writes(r, n, a, b - 1) + if Commits(r.states[b - 1], r.requests[b - 1], n) then 1 else 0
  }

  /** No delete of the name among requests a to b - 1. */
  predicate Undeleted(r: StoreRun, n: string, a: nat, b: nat)
    requires b <= |r.requests|
  {
    forall d :: a <= d < b ==> !Covers(r.requests[d], n)
  }

  /** A delete of the name among requests a to b - 1, after which it was written fewer than v times. */
  predicate DeletedBelow(r: StoreRun, n: string, a: nat, b: nat, v: nat)
    requires b <= |r.requests| < |r.states|
  {
    exists d :: a <= d < b && Covers(r.requests[d], n) && Writes(r, n, d + 1, b) < v
  }

  lemma {:induction false} WritesAtOnce(r: StoreRun, n: string, a: nat, m: nat, b: nat)
    requires a <= m <= b <= |r.requests| < |r.states|
    ensures Writes(r, n, a, b) == Writes(r, n, a, m) + Writes(r, n, m, b)
    decreases b
  {
    if m < b {
      WritesAtOnce(r, n, a, m, b - 1);
    }
  }

  /** The same for one request of a run. */
  lemma RunTopStep(l: Layout, r: StoreRun, i: nat, n: string, v: nat)
    requires IsStoreRun(l, r) && RollbackFree(r) && RoomyRun(l, r) && GoodName(n) && i < |r.requests|
    ensures Allowed(r.states[i], r.requests[i])
    ensures Top(r.states[i + 1].kv, n)
            == if Covers(r.requests[i], n) then 0
               else Top(r.states[i].kv, n) + if Commits(r.states[i], r.requests[i], n) then 1 else 0
    ensures Version(n, v) in r.states[i].kv && !Covers(r.requests[i], n) ==>
              Lookup(r.states[i + 1].kv, Version(n, v)) == Lookup(r.states[i].kv, Version(n, v))
  {
    RunIsSequential(l, r, i);
    StoreStep(l, r, i);
    TopStep(l, r.states[i], r.requests[i], n, v);
  }

  /** From a to b the name is not deleted: versions go on from where they were, and what is stored stays. */
  predicate GoesOn(r: StoreRun, n: string, a: nat, b: nat, v: nat)
    requires a <= b <= |r.requests| < |r.states|
  {
    && Top(r.states[b].kv, n) == Top(r.states[a].kv, n) + Writes(r, n, a, b)
    && (Version(n, v) in r.states[a].kv ==>
          Lookup(r.states[b].kv, Version(n, v)) == Lookup(r.states[a].kv, Version(n, v)))
  }

  lemma {:induction false} TopGrows(l: Layout, r: StoreRun, n: string, a: nat, b: nat, v: nat)
    requires IsStoreRun(l, r) && RollbackFree(r) && RoomyRun(l, r) && GoodName(n) && a <= b <= |r.requests|
    requires Undeleted(r, n, a, b)
    ensures GoesOn(r, n, a, b, v)
    decreases b
  {
    if a < b {
      TopGrows(l, r, n, a, b - 1, v);
      RunTopStep(l, r, b - 1, n, v);
      assert !Covers(r.requests[b - 1], n);
    }
  }

  /** After a delete the versions count from one again. */
  lemma TopAfterDelete(l: Layout, r: StoreRun, n: string, d: nat, b: nat)
    requires IsStoreRun(l, r) && RollbackFree(r) && RoomyRun(l, r) && GoodName(n) && d < b <= |r.requests|
    requires Covers(r.requests[d], n) && Undeleted(r, n, d + 1, b)
    ensures Top(r.states[b].kv, n) == Writes(r, n, d + 1, b)
  {
    RunTopStep(l, r, d, n, 0);
    TopGrows(l, r, n, d + 1, b, 0);
  }

  lemma {:induction false} LastDelete(r: StoreRun, n: string, a: nat, b: nat) returns (d: nat)
    requires a <= b <= |r.requests| && !Undeleted(r, n, a, b)
    ensures a <= d < b && Covers(r.requests[d], n) && Undeleted(r, n, d + 1, b)
    decreases b
  {
    if Covers(r.requests[b - 1], n) {
      d := b - 1;
    } else {
      d := LastDelete(r, n, a, b - 1);
    }
  }

  lemma DeletedBelowExactly(l: Layout, r: StoreRun, n: string, a: nat, b: nat, v: nat)
    requires IsStoreRun(l, r) && RollbackFree(r) && RoomyRun(l, r) && GoodName(n) && a <= b <= |r.requests|
    requires !Undeleted(r, n, a, b)
    ensures DeletedBelow(r, n, a, b, v) <==> Top(r.states[b].kv, n) < v
  {
    var last := LastDelete(r, n, a, b);
    TopAfterDelete(l, r, n, last, b);
    forall d | a <= d < b && Covers(r.requests[d], n)
      ensures Writes(r, n, d + 1, b) >= Writes(r, n, last + 1, b)
    {
      WritesAtOnce(r, n, d + 1, last + 1, b);
    }
  }

  /**
   In rollback-free runs, a version that was stored at one moment is missing at a later one if and
   only if a delete of the name came in between and the name was not written up to that version again.
   */
  lemma GoneExactly(l: Layout, r: StoreRun, n: string, a: nat, b: nat, v: nat)
    requires IsStoreRun(l, r) && RollbackFree(r) && RoomyRun(l, r) && GoodName(n) && a <= b <= |r.requests|
    requires 1 <= v <= Top(r.states[a].kv, n)
    ensures Version(n, v) !in r.states[b].kv <==> DeletedBelow(r, n, a, b, v)
    ensures Undeleted(r, n, a, b) ==>
              Lookup(r.states[b].kv, Version(n, v)) == Lookup(r.states[a].kv, Version(n, v)) != None
  {
    RunIsSequential(l, r, a);
    RunIsSequential(l, r, b);
    assert Exact(r.states[a].kv, n) && Exact(r.states[b].kv, n);
    if Undeleted(r, n, a, b) {
      TopGrows(l, r, n, a, b, v);
    } else {
      DeletedBelowExactly(l, r, n, a, b, v);
    }
  }

  // ---------------------------------------------------------------- the last write of a name

  /** The last document written under the name, None when there is none or a delete covered it since. */
  function LastWrote(log: seq<Event>, n: string): Option<Doc>
  {
    if log == [] then None
    else
      match log[|log| - 1]
      case Wrote(m, _, d) => if m == n then Some(d) else LastWrote(log[..|log| - 1], n)
      case Removed(p) => if p <= n then None else LastWrote(log[..|log| - 1], n)
      case Served(_, _, _) => LastWrote(log[..|log| - 1], n)
  }

  lemma LastWroteSnoc(log: seq<Event>, e: Event, n: string)
    ensures LastWrote(log + [e], n)
            == match e
               case Wrote(m, _, d) => (if m == n then Some(d) else LastWrote(log, n))
               case Removed(p) => (if p <= n then None else LastWrote(log, n))
               case Served(_, _, _) => LastWrote(log, n)
  {
    assert (log + [e])[..|log|] == log;
  }

  /** Active and the document under it are those of the last write. */
  predicate Latest(s: Store, n: string)
  {
    match LastWrote(s.log, n)
    case None => Lookup(s.kv, Active(n)) == None
    case Some(d) =>
      && d.name == n
      && Lookup(s.kv, Active(n)) == Some(Text(Decimal(d.version)))
      && Lookup(s.kv, Version(n, d.version)) == Some(Document(d))
  }

  lemma LatestCommit(l: Layout, s: Store, c: nat, n: string)
    requires ValidLayout(l) && Sequential(l, s) && Allowed(s, Commit(c)) && GoodName(n) && Latest(s, n)
    ensures Latest(Serve(l, s, Commit(c)), n)
  {
    var p := s.clients[c];
    if Unchanged(s.kv, p) {
      CommitWrites(l, s.kv, p);
      CommitExact(l, s.kv, p);
      var d := NewDoc(l, p);
      LastWroteSnoc(s.log, Wrote(p.name, d.version, d), n);
    }
  }

  lemma LatestDelete(l: Layout, s: Store, name: string, n: string)
    requires ValidLayout(l) && Sequential(l, s) && GoodName(name) && GoodName(n) && Latest(s, n)
    ensures Latest(Serve(l, s, Delete(name)), n)
  {
    LastWroteSnoc(s.log, Removed(name), n);
    DeleteCovers(l, s.kv, name, Active(n));
    if LastWrote(s.log, n).Some? {
      DeleteCovers(l, s.kv, name, Version(n, LastWrote(s.log, n).value.version));
    }
  }

  lemma LatestStep(l: Layout, s: Store, q: Request, n: string)
    requires ValidLayout(l) && Sequential(l, s) && Allowed(s, q) && !q.ReadVersion? && GoodName(n) && Latest(s, n)
    ensures Latest(Serve(l, s, q), n)
  {
    match q
    case Commit(c) => LatestCommit(l, s, c, n);
    case Delete(name) => LatestDelete(l, s, name, n);
    case GetSpec(c) =>
      var p := s.clients[c];
      LastWroteSnoc(s.log, Served(p.name, p.version, Lookup(s.kv, Version(p.name, p.version))), n);
    case _ =>
  }

  lemma {:induction false} RunIsLatest(l: Layout, r: StoreRun, k: nat, n: string)
    requires IsStoreRun(l, r) && RollbackFree(r) && RoomyRun(l, r) && k < |r.states| && GoodName(n)
    ensures Latest(r.states[k], n)
    decreases k, 1
  {
    if k > 0 {
      LatestAfter(l, r, k - 1, n);
    }
  }

  lemma {:induction false} LatestAfter(l: Layout, r: StoreRun, i: nat, n: string)
    requires IsStoreRun(l, r) && RollbackFree(r) && RoomyRun(l, r) && i < |r.requests| && GoodName(n)
    ensures Latest(r.states[i + 1], n)
    decreases i + 1, 0
  {
    RunIsLatest(l, r, i, n);
    RunIsSequential(l, r, i);
    StoreStep(l, r, i);
    LatestStep(l, r.states[i], r.requests[i], n);
  }

  /** The version active names is that of the last write; when nothing was written, or it was deleted, there is none. */
  lemma ActiveIsLast(l: Layout, r: StoreRun, k: nat, n: string)
    requires IsStoreRun(l, r) && RollbackFree(r) && RoomyRun(l, r) && k < |r.states| && GoodName(n)
    ensures match LastWrote(r.states[k].log, n)
            case None => ParseActive(r.states[k].kv, n) == None && Active(n) !in r.states[k].kv
            case Some(d) =>
              && d.name == n && ParseActive(r.states[k].kv, n) == Some(d.version)
              && Lookup(r.states[k].kv, Version(n, d.version)) == Some(Document(d))
  {
    RunIsLatest(l, r, k, n);
    RunIsSequential(l, r, k);
    assert Exact(r.states[k].kv, n);
    if LastWrote(r.states[k].log, n).Some? {
      DecimalInjective(Top(r.states[k].kv, n), LastWrote(r.states[k].log, n).value.version);
    }
  }

  // ---------------------------------------------------------------- one client's two requests

  /** Client c asks for the active version of n at request i, hears v, and asks for its document at request j. */
  ghost predicate TwoSteps(l: Layout, r: StoreRun, c: nat, n: string, v: nat, i: nat, j: nat)
    requires IsStoreRun(l, r)
  {
    && i < j < |r.requests|
    && r.requests[i] == GetActive(c, n) && ParseActive(r.states[i].kv, n) == Some(v)
    && r.requests[j] == GetSpec(c)
    && (forall k :: i < k < j ==> r.requests[k] != GetSpec(c))
  }

  lemma {:induction false} StillGetting(l: Layout, r: StoreRun, c: nat, n: string, v: nat, i: nat, j: nat, k: nat)
    requires IsStoreRun(l, r) && TwoSteps(l, r, c, n, v, i, j) && i < k <= j
    ensures c in r.states[k].clients && r.states[k].clients[c] == Getting(n, v)
    decreases k
  {
    StoreStep(l, r, k - 1);
    if i + 1 < k {
      StillGetting(l, r, c, n, v, i, j, k - 1);
    }
  }

  /**
   The answer of a two-step read, whatever other clients do: it finds nothing if and only if a
   delete of the name came between its requests and the name was since written fewer times than
   the version asked for; if no such delete came, it finds the document that was active at its
   first request.
   */
  lemma TwoStepReadExactly(l: Layout, r: StoreRun, c: nat, n: string, v: nat, i: nat, j: nat)
    requires IsStoreRun(l, r) && RollbackFree(r) && RoomyRun(l, r) && TwoSteps(l, r, c, n, v, i, j)
    ensures exists found ::
              && r.states[j + 1].log == r.states[j].log + [Served(n, v, found)]
              && (found == None <==> DeletedBelow(r, n, i, j, v))
              && (Undeleted(r, n, i, j) ==> found == Lookup(r.states[i].kv, Version(n, v)) != None)
  {
    StoreStep(l, r, i);
    RunIsSequential(l, r, i);
    StillGetting(l, r, c, n, v, i, j, j);
    StoreStep(l, r, j);
    assert Exact(r.states[i].kv, n);
    GoneExactly(l, r, n, i, j, v);
    var found := Lookup(r.states[j].kv, Version(n, v));
    assert r.states[j + 1].log == r.states[j].log + [Served(n, v, found)];
  }

  /** Flow "f" is created, client 1 asks for its active version, and the flow is deleted. */
  lemma AskedThenDeleted() returns (r: StoreRun)
    ensures IsStoreRun(FLOWS, r)
    ensures r.requests == [ReadActive(0, "f", "first"), Commit(0), GetActive(1, "f"), Delete("f")]
    ensures r.Last().clients == map[1 := Getting("f", 1)] && Active("f") !in r.Last().kv
    ensures ParseActive(r.states[2].kv, "f") == Some(1)
    ensures Lookup(r.states[2].kv, Version("f", 1)) == Some(Document(Doc("f", 1, "first")))
  {
    assert GoodName("f");
    var created := CreateAlone(StoreRun([EMPTY], []), "first");
    var asked := Extend(created, GetActive(1, "f"));
    assert asked.Last() == created.Last().(clients := map[1 := Getting("f", 1)]);
    DeleteCovers(FLOWS, asked.Last().kv, "f", Active("f"));
    r := Extend(asked, Delete("f"));
    assert r.states[2] == created.Last();
  }

  /**
   A delete between the two requests need not show: when the name is created again up to the
   version asked for, the read finds a document that was not there at its first request.
   */
  lemma DeletedAndRecreated() returns (r: StoreRun)
    ensures IsStoreRun(FLOWS, r) && RollbackFree(r) && TwoSteps(FLOWS, r, 1, "f", 1, 2, 6) && !Undeleted(r, "f", 2, 6)
    ensures Lookup(r.states[2].kv, Version("f", 1)) == Some(Document(Doc("f", 1, "first")))
    ensures r.states[7].log == r.states[6].log + [Served("f", 1, Some(Document(Doc("f", 1, "second"))))]
  {
    var deleted := AskedThenDeleted();
    assert Covers(deleted.requests[3], "f");
    var again := CreateAlone(deleted, "second");
    r := Extend(again, GetSpec(1));
    assert r.requests == deleted.requests + [ReadActive(0, "f", "second"), Commit(0), GetSpec(1)];
    assert r.states[2] == deleted.states[2] && r.states[6] == again.Last();
    assert Covers(r.requests[3], "f");
  }
}
