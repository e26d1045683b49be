/** The controller's watch: which changes it sees, and that those are enough. */
module FlowWatch {
  import opened Options
  import opened Collections
  import opened KeyLayout
  import opened VersionStore
  import opened TwoStepReads
  import opened VersionRollback

  /** What GetActiveFlow returns: no flow, a pointer without a spec, or the active spec. */
  datatype ActiveFlow = NoFlow | NoSpec(version: nat) | Flow(version: nat, spec: Value) | Malformed

  /** GetActiveFlow, its two requests answered from two states of the store. */
  function ReadActiveFlow(active: Kv, specs: Kv, name: string): ActiveFlow
  {
    if Active(name) !in active then NoFlow
    else
      match ParseActive(active, name)
      case None => Malformed
      case Some(v) => if Version(name, v) in specs then Flow(v, specs[Version(name, v)]) else NoSpec(v)
  }

  /** The desired state of a flow. */
  function GetActiveFlow(kv: Kv, name: string): ActiveFlow
  {
    ReadActiveFlow(kv, kv, name)
  }

  /** The keys that a request puts or deletes: one watch event for each. */
  function Touched(l: Layout, s: Store, r: Request): set<Key>
    requires ValidLayout(l) && Allowed(s, r)
  {
    match r
    case Commit(c) =>
      var p := s.clients[c];
      if Unchanged(s.kv, p) then {Version(p.name, NewDoc(l, p).version), Active(p.name)} else {}
    case Delete(n) => set k | k in s.kv && k !in AfterDelete(l, s.kv, n)
    case PutActive(c) => {Active(s.clients[c].name)}
    case PutStatus(n, _) => {Status(n)}
    case _ => {}
  }

  /** Nothing changes without an event. */
  lemma UntouchedUnchanged(l: Layout, s: Store, r: Request, k: Key)
    requires ValidLayout(l) && Allowed(s, r) && k !in Touched(l, s, r)
    ensures Lookup(Serve(l, s, r).kv, k) == Lookup(s.kv, k)
  {
  }

  // ---------------------------------------------------------------- the filter

  datatype EventType = Put | Deleted

  datatype WatchType = Added | Updated | Gone

  datatype WatchEvent = WatchEvent(kind: WatchType, name: string, flow: Option<ActiveFlow>)

  /** buildWatchEvent: fetched is what GetActiveFlow returned, None for an error. */
  function BuildWatchEvent(key: string, event: EventType, created: bool, fetched: Option<ActiveFlow>): Option<WatchEvent>
  {
    if !HasSuffix(key, "/active") then None
    else
      var name := Base(Dir(key));
      match event
      case Deleted => Some(WatchEvent(Gone, name, None))
      case Put =>
        if fetched.None? then None
        else Some(WatchEvent(if created then Added else Updated, name, fetched))
  }

  /** The controller hears of exactly the active keys, under the right flow name. */
  lemma FilterExact(k: Key, event: EventType, created: bool, fetched: Option<ActiveFlow>)
    requires GoodName(k.name)
    ensures var e := BuildWatchEvent(Render(FLOWS, k), event, created, fetched);
            && (e.Some? <==> k.Active? && (event.Deleted? || fetched.Some?))
            && (e.Some? ==>
                  && e.value.name == k.name
                  && e.value.kind == (if event.Deleted? then Gone else if created then Added else Updated)
                  && (event.Put? ==> e.value.flow == fetched))
  {
    ActiveSuffixExact(k);
    if k.Active? {
      NameByBase(k.name);
    }
  }

  /** A request that changes a flow's desired state puts or deletes its active key. */
  lemma ChangeTouchesActive(l: Layout, s: Store, r: Request, n: string)
    requires ValidLayout(l) && Allowed(s, r) && GoodName(n) && KeysGood(s.kv)
    requires GetActiveFlow(Serve(l, s, r).kv, n) != GetActiveFlow(s.kv, n)
    ensures Active(n) in Touched(l, s, r)
  {
    if r.Delete? {
      forall k | k in s.kv && k.name == n
        ensures k !in AfterDelete(l, s.kv, r.name) <==> r.name <= n
      {
        DeleteCovers(l, s.kv, r.name, k);
      }
    }
  }

  /**
   Ignoring every key but the active ones loses no change of desired state: whatever request
   changes what GetActiveFlow(n) returns, the filter passes an event for flow n on, when the
   fetch succeeds.
   */
  lemma NoChangeMissed(s: Store, r: Request, n: string, event: EventType, created: bool, fetched: ActiveFlow)
    requires Allowed(s, r) && GoodName(n) && KeysGood(s.kv)
    requires GetActiveFlow(Serve(FLOWS, s, r).kv, n) != GetActiveFlow(s.kv, n)
    ensures exists k :: k in Touched(FLOWS, s, r)
              && BuildWatchEvent(Render(FLOWS, k), event, created, Some(fetched)).Some?
              && BuildWatchEvent(Render(FLOWS, k), event, created, Some(fetched)).value.name == n
  {
    ChangeTouchesActive(FLOWS, s, r, n);
    FilterExact(Active(n), event, created, Some(fetched));
  }

  /** A status update, the controller's own write, is stored under the flow's status key alone; it changes no desired state and is not reported back to it. */
  lemma StatusUnheard(s: Store, n: string, text: string, k: Key, event: EventType, created: bool, m: string)
    requires GoodName(n) && k in Touched(FLOWS, s, PutStatus(n, text))
    ensures BuildWatchEvent(Render(FLOWS, k), event, created, Some(GetActiveFlow(s.kv, m))) == None
    ensures GetActiveFlow(Serve(FLOWS, s, PutStatus(n, text)).kv, m) == GetActiveFlow(s.kv, m)
    ensures forall j :: Lookup(Serve(FLOWS, s, PutStatus(n, text)).kv, j)
                        == if j == Status(n) then Some(Text(text)) else Lookup(s.kv, j)
  {
    FilterExact(k, event, created, Some(GetActiveFlow(s.kv, m)));
  }

  // ---------------------------------------------------------------- what the controller ends up with

  /** Keys name good flows, active keys parse, and numbers fit. */
  predicate KeyFits(kv: Kv, k: Key)
  {
    && GoodName(k.name)
    && (k.Version? ==> k.number < WIDTH_64)
    && (k.Active? ==> ParseActive(kv, k.name).Some?)
  }

  predicate PendingFits(p: Pending)
  {
    GoodName(p.name) && (if p.Creating? then p.next else p.version) < WIDTH_64
  }

  predicate Readable(s: Store)
  {
    && (forall k :: k in s.kv ==> KeyFits(s.kv, k))
    && (forall c :: c in s.clients ==> PendingFits(s.clients[c]))
  }

  lemma CommitReadable(l: Layout, s: Store, c: nat)
    requires ValidLayout(l) && Readable(s) && Allowed(s, Commit(c))
    ensures Readable(Serve(l, s, Commit(c)))
  {
    Widths(l);
    var p := s.clients[c];
    assert PendingFits(p);
    ParseDecimal(p.next);
    forall k | k in Written(l, s.kv, p)
      ensures KeyFits(Written(l, s.kv, p), k)
    {
      assert k in s.kv ==> KeyFits(s.kv, k);
      assert k == Version(p.name, NewDoc(l, p).version) ==> k.number < l.width;
    }
  }

  lemma PutActiveReadable(l: Layout, s: Store, c: nat)
    requires ValidLayout(l) && Readable(s) && Allowed(s, PutActive(c))
    ensures Readable(Serve(l, s, PutActive(c)))
  {
    var p := s.clients[c];
    assert PendingFits(p);
    ParseDecimal(p.version);
    forall k | k in Serve(l, s, PutActive(c)).kv
      ensures KeyFits(Serve(l, s, PutActive(c)).kv, k)
    {
      assert k in s.kv ==> KeyFits(s.kv, k);
    }
  }

  lemma DeleteReadable(l: Layout, s: Store, n: string)
    requires ValidLayout(l) && Readable(s) && GoodName(n)
    ensures Readable(Serve(l, s, Delete(n)))
  {
    forall k | k in AfterDelete(l, s.kv, n)
      ensures KeyFits(AfterDelete(l, s.kv, n), k)
    {
      assert KeyFits(s.kv, k);
    }
  }

  lemma StaysReadable(l: Layout, s: Store, q: Request)
    requires ValidLayout(l) && Readable(s) && Allowed(s, q)
    ensures Readable(Serve(l, s, q))
  {
    match q
    case Commit(c) => CommitReadable(l, s, c);
    case PutActive(c) => PutActiveReadable(l, s, c);
    case Delete(n) => DeleteReadable(l, s, n);
    case PutStatus(n, text) =>
      forall k | k in Serve(l, s, q).kv
        ensures KeyFits(Serve(l, s, q).kv, k)
      {
        assert k in s.kv ==> KeyFits(s.kv, k);
      }
    case ReadVersion(_, n, v) => assert Version(n, v) in s.kv ==> KeyFits(s.kv, Version(n, v));
    case _ =>
  }

  /** In every run, active keys parse. */
  lemma {:induction false} RunIsReadable(l: Layout, r: StoreRun, k: nat)
    requires IsStoreRun(l, r) && k < |r.states|
    ensures Readable(r.states[k])
    decreases k
  {
    if k > 0 {
      RunIsReadable(l, r, k - 1);
      StoreStep(l, r, k - 1);
      StaysReadable(l, r.states[k - 1], r.requests[k - 1]);
    }
  }

  /** The desired state of n is the same from a to m. */
  ghost predicate Settled(r: StoreRun, n: string, a: nat, m: nat)
    requires m < |r.states|
  {
    forall k :: a <= k <= m ==> GetActiveFlow(r.states[k].kv, n) == GetActiveFlow(r.states[m].kv, n)
  }

  /** The last request before m that changed the desired state of n, when one did. */
  lemma LastChange(r: StoreRun, n: string, m: nat) returns (i: int)
    requires m < |r.states|
    ensures -1 <= i < m && Settled(r, n, i + 1, m)
    ensures i >= 0 ==> GetActiveFlow(r.states[i].kv, n) != GetActiveFlow(r.states[m].kv, n)
  {
    i := m - 1;
    while i >= 0 && GetActiveFlow(r.states[i].kv, n) == GetActiveFlow(r.states[m].kv, n)
      invariant -1 <= i < m && Settled(r, n, i + 1, m)
    {
      i := i - 1;
    }
  }

  /** What a fetch returns, None for an error, when states a and b answer its requests. */
  function Fetched(a: Kv, b: Kv, n: string): Option<ActiveFlow>
  {
    if ReadActiveFlow(a, b, n).Malformed? then None else Some(ReadActiveFlow(a, b, n))
  }

  /**
   What becomes of the watch event for the active key of n at request j, fetched at states a and b:
   a key that is put is created when it was not there.
   */
  function Heard(r: StoreRun, n: string, j: nat, a: nat, b: nat): Option<WatchEvent>
    requires j + 1 < |r.states| && a < |r.states| && b < |r.states|
  {
    BuildWatchEvent(Render(FLOWS, Active(n)), if Active(n) in r.states[j + 1].kv then Put else Deleted,
                    Active(n) !in r.states[j].kv, Fetched(r.states[a].kv, r.states[b].kv, n))
  }

  /** d is what the keys say of n: its active version and the document under that very version, if there is one. */
  predicate Says(kv: Kv, n: string, d: ActiveFlow)
  {
    match d
    case NoFlow => Active(n) !in kv
    case Malformed => Active(n) in kv && ParseActive(kv, n) == None
    case NoSpec(v) => ParseActive(kv, n) == Some(v) && Version(n, v) !in kv
    case Flow(v, spec) => ParseActive(kv, n) == Some(v) && Lookup(kv, Version(n, v)) == Some(spec)
  }

  lemma DesiredIsSaid(kv: Kv, n: string)
    ensures Says(kv, n, GetActiveFlow(kv, n))
  {
  }

  /**
   The event of request j, if it touched the active key, tells what the keys of kv say of n: gone
   when there is no active key, and otherwise the flow, added when its key was new.
   */
  predicate Tells(e: Option<WatchEvent>, n: string, kv: Kv, isNew: bool)
  {
    && e.Some? && e.value.name == n
    && (if Active(n) !in kv then e.value.kind == Gone
        else
          && e.value.kind == (if isNew then Added else Updated)
          && e.value.flow.Some? && Says(kv, n, e.value.flow.value))
  }

  /** Every event for the active key of n from request i on tells the desired state of moment m. */
  ghost predicate TellsFrom(r: StoreRun, n: string, i: nat, m: nat)
    requires m < |r.states|
  {
    forall j, a, b :: i <= j < a <= b <= m ==>
      Tells(Heard(r, n, j, a, b), n, r.states[m].kv, Active(n) !in r.states[j].kv)
  }

  /**
   The controller's view converges, in every run, rollbacks and deletes included: either nothing
   was ever desired of n, or the last change put or deleted its active key, and the event for it
   and every later one for that key tell the final desired state, whenever the two requests of
   their fetches are answered.
   */
  lemma WatchConverges(r: StoreRun, n: string, m: nat) returns (i: int)
    requires IsStoreRun(FLOWS, r) && GoodName(n) && m < |r.states|
    ensures -1 <= i < m
    ensures i == -1 ==> forall k :: 0 <= k <= m ==> Active(n) !in r.states[k].kv
    ensures i >= 0 ==>
              && Allowed(r.states[i], r.requests[i])
              && Active(n) in Touched(FLOWS, r.states[i], r.requests[i])
              && TellsFrom(r, n, i, m)
  {
    i := LastChange(r, n, m);
    if i == -1 {
      assert GetActiveFlow(r.states[0].kv, n) == NoFlow;
      assert forall k :: 0 <= k <= m ==> GetActiveFlow(r.states[k].kv, n) == NoFlow;
    } else {
      StoreStep(FLOWS, r, i);
      RunIsReadable(FLOWS, r, i);
      assert GetActiveFlow(r.states[i + 1].kv, n) == GetActiveFlow(r.states[m].kv, n);
      ChangeTouchesActive(FLOWS, r.states[i], r.requests[i], n);
      forall j, a, b | i <= j < a <= b <= m
        ensures Tells(Heard(r, n, j, a, b), n, r.states[m].kv, Active(n) !in r.states[j].kv)
      {
        RunIsReadable(FLOWS, r, m);
        EventTells(r, n, i + 1, m, j, a, b);
      }
    }
  }

  /** Two reads in a settled stretch give the settled state. */
  lemma SettledRead(r: StoreRun, n: string, from: nat, m: nat, a: nat, b: nat)
    requires m < |r.states| && Settled(r, n, from, m) && from <= a <= b <= m
    ensures ReadActiveFlow(r.states[a].kv, r.states[b].kv, n) == GetActiveFlow(r.states[m].kv, n)
  {
    assert GetActiveFlow(r.states[a].kv, n) == GetActiveFlow(r.states[b].kv, n) == GetActiveFlow(r.states[m].kv, n);
  }

  lemma EventTells(r: StoreRun, n: string, from: nat, m: nat, j: nat, a: nat, b: nat)
    requires GoodName(n) && m < |r.states| && Settled(r, n, from, m) && from <= j + 1 <= a <= b <= m
    requires Readable(r.states[m])
    ensures Tells(Heard(r, n, j, a, b), n, r.states[m].kv, Active(n) !in r.states[j].kv)
  {
    SettledRead(r, n, from, m, a, b);
    SettledRead(r, n, from, m, j + 1, j + 1);
    assert Active(n) in r.states[m].kv ==> KeyFits(r.states[m].kv, Active(n));
    DesiredIsSaid(r.states[m].kv, n);
    FilterExact(Active(n), if Active(n) in r.states[j + 1].kv then Put else Deleted, Active(n) !in r.states[j].kv,
                Fetched(r.states[a].kv, r.states[b].kv, n));
  }

  // ---------------------------------------------------------------- listing

  /** The states that answer the two requests of one read. */
  datatype Views = Views(active: Kv, specs: Kv)

  /** GetFlow of the API server. */
  function GetFlow(views: Views, name: string): Option<(nat, Value)>
  {
    match ReadActiveFlow(views.active, views.specs, name)
    case Flow(v, spec) => Some((v, spec))
    case _ => None
  }

  predicate AllDifferent(keys: seq<Key>)
  {
    forall i, j :: 0 <= i < j < |keys| ==> keys[i] != keys[j]
  }

  /** A range read under the root: every key once. */
  ghost predicate AllKeys(kv: Kv, keys: seq<Key>)
  {
    AllDifferent(keys) && forall k :: k in keys <==> k in kv
  }

  /** What one key adds to the list. */
  function Entry(k: Key, views: Views): seq<(string, nat, Value)>
  {
    if k.Active? && GetFlow(views, k.name).Some?
    then [(k.name, GetFlow(views, k.name).value.0, GetFlow(views, k.name).value.1)] else []
  }

  /** The flows named by the active keys, in that order, whose spec could be read when its turn came. */
  function FlowsOf(keys: seq<Key>, views: seq<Views>): seq<(string, nat, Value)>
    requires |views| == |keys|
  {
    if keys == [] then []
    else
      var last := |keys| - 1;
      FlowsOf(keys[..last], views[..last]) + Entry(keys[last], views[last])
  }

  ghost predicate ReadAt(keys: seq<Key>, views: seq<Views>, f: (string, nat, Value), i: nat)
    requires |views| == |keys|
  {
    && i < |keys| && keys[i] == Active(f.0)
    && ParseActive(views[i].active, f.0) == Some(f.1) && Lookup(views[i].specs, Version(f.0, f.1)) == Some(f.2)
  }

  /** Listed are exactly the flows among the keys whose read found them, as it found them. */
  lemma {:induction false} FlowsOfExact(keys: seq<Key>, views: seq<Views>, f: (string, nat, Value))
    requires |views| == |keys|
    ensures f in FlowsOf(keys, views) <==> exists i :: ReadAt(keys, views, f, i)
  {
    if keys != [] {
      var last := |keys| - 1;
      FlowsOfExact(keys[..last], views[..last], f);
      EntryExact(keys, views, f, last);
      forall i: nat | i < last
        ensures ReadAt(keys, views, f, i) <==> ReadAt(keys[..last], views[..last], f, i)
      {
      }
    }
  }

  lemma EntryExact(keys: seq<Key>, views: seq<Views>, f: (string, nat, Value), i: nat)
    requires i < |keys| == |views|
    ensures f in Entry(keys[i], views[i]) <==> ReadAt(keys, views, f, i)
  {
  }

  /** No name is listed twice. */
  lemma {:induction false} ListedOnce(keys: seq<Key>, views: seq<Views>, a: nat, b: nat)
    requires |views| == |keys| && AllDifferent(keys) && a < b < |FlowsOf(keys, views)|
    ensures FlowsOf(keys, views)[a].0 != FlowsOf(keys, views)[b].0
    decreases |keys|
  {
    var last := |keys| - 1;
    var front := FlowsOf(keys[..last], views[..last]);
    if b < |front| {
      ListedOnce(keys[..last], views[..last], a, b);
    } else {
      FlowsOfExact(keys[..last], views[..last], front[a]);
      assert front[a] in front;
    }
  }

  /** The name in a key, when it is an active key. */
  function ActiveName(key: string): Option<string>
  {
    if HasSuffix(key, "/active") then Some(TrimSuffix(TrimPrefix(key, FLOWS.root + "/"), "/active")) else None
  }

  lemma ActiveNameExact(k: Key)
    ensures ActiveName(Render(FLOWS, k)) == if k.Active? then Some(k.name) else None
  {
    ActiveSuffixExact(k);
    if k.Active? {
      NameByTrim(k.name);
    }
  }

  lemma FlowsOfSnoc(keys: seq<Key>, views: seq<Views>, i: nat)
    requires i < |keys| == |views|
    ensures FlowsOf(keys[..i + 1], views[..i + 1]) == FlowsOf(keys[..i], views[..i]) + Entry(keys[i], views[i])
  {
    assert keys[..i + 1][..i] == keys[..i] && views[..i + 1][..i] == views[..i];
  }

  lemma Unseen(keys: seq<Key>, i: nat)
    requires i < |keys| && AllDifferent(keys)
    ensures keys[i] !in keys[..i] && forall k :: k in keys[..i + 1] <==> k in keys[..i] || k == keys[i]
  {
    assert keys[..i + 1] == keys[..i] + [keys[i]];
  }

  /** ListFlows of the API server: views are the states that answer the reads of each key's flow. */
  method ListFlows(keys: seq<Key>, views: seq<Views>) returns (out: seq<(string, nat, Value)>)
    requires AllDifferent(keys) && |views| == |keys|
    ensures out == FlowsOf(keys, views)
    ensures forall f :: f in out <==> exists i :: ReadAt(keys, views, f, i)
  {
    forall f
      ensures f in FlowsOf(keys, views) <==> exists i :: ReadAt(keys, views, f, i)
    {
      FlowsOfExact(keys, views, f);
    }
    out := [];
    var seen: set<string> := {};
    for i := 0 to |keys|
      invariant forall n :: n in seen ==> Active(n) in keys[..i]
      invariant out == FlowsOf(keys[..i], views[..i])
    {
      var active := ActiveName(Render(FLOWS, keys[i]));
      ActiveNameExact(keys[i]);
      FlowsOfSnoc(keys, views, i);
      Unseen(keys, i);
      if active.Some? {
        var name := active.value;
        if name !in seen {
          seen := seen + {name};
          var f := GetFlow(views[i], name);
          if f.Some? {
            out := out + [(name, f.value.0, f.value.1)];
          }
        }
      }
    }
    assert keys[..|keys|] == keys && views[..|keys|] == views;
  }

  /** The name the controller reads from a key, when it is an active key. */
  function BaseName(key: string): Option<string>
  {
    if HasSuffix(key, "/active") then Some(Base(Dir(key))) else None
  }

  lemma BaseNameExact(k: Key)
    requires GoodName(k.name)
    ensures BaseName(Render(FLOWS, k)) == if k.Active? then Some(k.name) else None
  {
    ActiveSuffixExact(k);
    if k.Active? {
      NameByBase(k.name);
    }
  }

  /** The list holds for key k the document of the version that is active in kv, when specs has it, and nothing otherwise. */
  predicate HoldsRead(flows: map<string, Value>, kv: Kv, specs: Kv, k: Key)
  {
    k.Active? ==>
      Lookup(flows, k.name) == match ParseActive(kv, k.name) { case None => None case Some(v) => Lookup(specs, Version(k.name, v)) }
  }

  /** The list after the read of key k, which was not listed before. */
  lemma HoldsNext(flows: map<string, Value>, next: map<string, Value>, kv: Kv, keys: seq<Key>, specs: seq<Kv>, i: nat)
    requires AllDifferent(keys) && i < |keys| == |specs|
    requires forall j :: 0 <= j < i ==> HoldsRead(flows, kv, specs[j], keys[j])
    requires forall n :: n in flows ==> Active(n) in keys[..i]
    requires next == if keys[i].Active? && ReadActiveFlow(kv, specs[i], keys[i].name).Flow?
                     then flows[keys[i].name := ReadActiveFlow(kv, specs[i], keys[i].name).spec] else flows
    ensures forall j :: 0 <= j < i + 1 ==> HoldsRead(next, kv, specs[j], keys[j])
    ensures forall n :: n in next ==> Active(n) in keys[..i + 1]
  {
    Unseen(keys, i);
    forall j | 0 <= j < i
      ensures HoldsRead(next, kv, specs[j], keys[j])
    {
      assert keys[j] != keys[i];
    }
  }

  /**
   ListFlows of the controller, its initial sync.  The range read gives the active versions too;
   specs are the states that answer the reads of the specs.
   */
  method ListActiveFlows(kv: Kv, keys: seq<Key>, specs: seq<Kv>) returns (flows: map<string, Value>)
    requires KeysGood(kv) && AllKeys(kv, keys) && |specs| == |keys|
    ensures forall i :: 0 <= i < |keys| ==> HoldsRead(flows, kv, specs[i], keys[i])
    ensures forall n :: n in flows ==> Active(n) in kv
  {
    flows := map[];
    for i := 0 to |keys|
      invariant forall j :: 0 <= j < i ==> HoldsRead(flows, kv, specs[j], keys[j])
      invariant forall n :: n in flows ==> Active(n) in keys[..i]
    {
      ghost var before := flows;
      assert keys[i] in keys;
      BaseNameExact(keys[i]);
      var name := BaseName(Render(FLOWS, keys[i]));
      if name.Some? {
        var read := ReadActiveFlow(kv, specs[i], name.value);
        if read.Flow? {
          flows := flows[name.value := read.spec];
        }
      }
      HoldsNext(before, flows, kv, keys, specs, i);
    }
    assert keys[..|keys|] == keys;
  }

  // ---------------------------------------------------------------- lists taken while others write

  /**
   A read with its two requests at two moments of a rollback-free run finds the flow if and only
   if it was there at the first and has not been deleted without being written up to that version
   again.  What it finds is the version active at the first request and the document stored under
   that version at the second; without a delete in between that is the last document written under
   the name before the first request.
   */
  lemma ReadAcrossExactly(r: StoreRun, a: nat, b: nat, n: string)
    requires IsStoreRun(FLOWS, r) && RollbackFree(r) && RoomyRun(FLOWS, r) && a <= b <= |r.requests| && GoodName(n)
    ensures var top := Top(r.states[a].kv, n);
            var read := ReadActiveFlow(r.states[a].kv, r.states[b].kv, n);
            && (read.Flow? <==> top > 0 && !DeletedBelow(r, n, a, b, top))
            && (read.Flow? ==> read.version == top && Lookup(r.states[b].kv, Version(n, top)) == Some(read.spec))
            && (Undeleted(r, n, a, b) ==> IsLast(read, r.states[a].log, n))
  {
    RunIsSequential(FLOWS, r, a);
    assert Exact(r.states[a].kv, n);
    ActiveIsLast(FLOWS, r, a, n);
    if Top(r.states[a].kv, n) > 0 {
      GoneExactly(FLOWS, r, n, a, b, Top(r.states[a].kv, n));
    }
  }

  /** What was read is the last document written under the name, and no flow when there is none. */
  predicate IsLast(read: ActiveFlow, log: seq<Event>, n: string)
  {
    match LastWrote(log, n)
    case None => read == NoFlow
    case Some(d) => d.name == n && read == Flow(d.version, Document(d))
  }

  /**
   In delete-free runs, rollbacks included, every read finds the flow when it was there at its
   first request: the version active then, and the document stored under that version at the second.
   */
  lemma ReadWithRollbacks(r: StoreRun, a: nat, b: nat, n: string)
    requires IsStoreRun(FLOWS, r) && DeleteFree(r) && RoomyRun(FLOWS, r) && a <= b <= |r.requests| && GoodName(n)
    ensures var top := Top(r.states[a].kv, n);
            var read := ReadActiveFlow(r.states[a].kv, r.states[b].kv, n);
            if top == 0 then read == NoFlow
            else read.Flow? && read.version == top && Lookup(r.states[b].kv, Version(n, top)) == Some(read.spec)
                 && read.spec.Document? && read.spec.doc.name == n && read.spec.doc.version == top
  {
    RunIsContiguous(FLOWS, r, a);
    RunIsContiguous(FLOWS, r, b);
    assert StoredUpToSome(FLOWS, r.states[a].kv, n);
    StaysStored(r, a, b, n, Top(r.states[a].kv, n));
  }

  lemma {:induction false} StaysStored(r: StoreRun, a: nat, b: nat, n: string, v: nat)
    requires IsStoreRun(FLOWS, r) && DeleteFree(r) && a <= b <= |r.requests|
    ensures Version(n, v) in r.states[a].kv ==> Version(n, v) in r.states[b].kv
    decreases b
  {
    if a < b {
      StaysStored(r, a, b - 1, n, v);
      StoreStep(FLOWS, r, b - 1);
      assert !r.requests[b - 1].Delete?;
    }
  }

  /** The read of each key takes place at two moments between the range read at t and the end of the list at u. */
  ghost predicate ReadsDuring(r: StoreRun, keys: seq<Key>, views: seq<Views>, at: seq<(nat, nat)>, t: nat, u: nat)
  {
    && |at| == |keys| == |views| && t <= u < |r.states|
    && (forall i :: 0 <= i < |at| ==> t <= at[i].0 <= at[i].1 <= u)
    && (forall i :: 0 <= i < |at| ==> views[i] == Views(r.states[at[i].0].kv, r.states[at[i].1].kv))
  }

  lemma UndeletedWithin(r: StoreRun, n: string, t: nat, u: nat, a: nat, b: nat)
    requires t <= a <= b <= u <= |r.requests| && Undeleted(r, n, t, u)
    ensures Undeleted(r, n, t, a) && Undeleted(r, n, a, b)
  {
  }

  /**
   A list of the API server while other clients write: it holds every flow that was there when it
   began and was not deleted before it ended, with the document that was the last one written
   under its name when the flow's turn came; and it holds no flow that was not there when it began.
   */
  lemma ListsAllFlows(r: StoreRun, keys: seq<Key>, views: seq<Views>, at: seq<(nat, nat)>, t: nat, u: nat, n: string)
    requires IsStoreRun(FLOWS, r) && RollbackFree(r) && RoomyRun(FLOWS, r) && GoodName(n)
    requires ReadsDuring(r, keys, views, at, t, u) && AllKeys(r.states[t].kv, keys)
    ensures Active(n) in r.states[t].kv && Undeleted(r, n, t, u) ==>
              exists i :: 0 <= i < |keys| && keys[i] == Active(n) && ListsLast(FlowsOf(keys, views), r.states[at[i].0].log, n)
    ensures forall v, d :: (n, v, d) in FlowsOf(keys, views) ==> Active(n) in r.states[t].kv
  {
    forall v, d | (n, v, d) in FlowsOf(keys, views)
      ensures Active(n) in r.states[t].kv
    {
      FlowsOfExact(keys, views, (n, v, d));
    }
    if Active(n) in r.states[t].kv && Undeleted(r, n, t, u) {
      var i :| 0 <= i < |keys| && keys[i] == Active(n);
      ListsFlowAt(r, keys, views, at, t, u, i);
    }
  }

  /** The list has the last document written under the name, under its version. */
  predicate ListsLast(out: seq<(string, nat, Value)>, log: seq<Event>, n: string)
  {
    var last := LastWrote(log, n);
    last.Some? && last.value.name == n && (n, last.value.version, Document(last.value)) in out
  }

  lemma {:induction false} ListsFlowAt(r: StoreRun, keys: seq<Key>, views: seq<Views>, at: seq<(nat, nat)>, t: nat, u: nat, i: nat)
    requires IsStoreRun(FLOWS, r) && RollbackFree(r) && RoomyRun(FLOWS, r)
    requires ReadsDuring(r, keys, views, at, t, u) && i < |keys| && keys[i].Active? && keys[i] in r.states[t].kv
    requires GoodName(keys[i].name) && Undeleted(r, keys[i].name, t, u)
    ensures ListsLast(FlowsOf(keys, views), r.states[at[i].0].log, keys[i].name)
  {
    var n := keys[i].name;
    var a, b := at[i].0, at[i].1;
    RunIsSequential(FLOWS, r, t);
    assert Exact(r.states[t].kv, n);
    UndeletedWithin(r, n, t, u, a, b);
    TopGrows(FLOWS, r, n, t, a, 0);
    ReadAcrossExactly(r, a, b, n);
    var d := LastWrote(r.states[a].log, n).value;
    assert ReadAt(keys, views, (n, d.version, Document(d)), i);
    FlowsOfExact(keys, views, (n, d.version, Document(d)));
  }
}
