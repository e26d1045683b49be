/** What the controller does to the cluster for one flow, when any call to the API may fail. */
module Reconciler {
  import opened Options
  import opened Collections

  datatype Kind = ConfigMap | Deployment | DaemonSet | Job | CronJob

  datatype Key = Key(kind: Kind, name: string)

  /** An object as the controller writes it: its flow label and contents; rest is kept by updates. */
  datatype Object = Object(flow: string, content: Content, rest: string)

  datatype Content = FlowYaml(yaml: string) | Pods(template: string, checksum: string, schedule: string)

  datatype Mode = Unspecified | Streaming | JobMode

  /** The parts of a flow spec that decide what is applied; pods stands for the rendered template. */
  datatype Spec = Spec(name: string, image: string, mode: Mode, schedule: string, daemonSet: bool,
                       yaml: string, checksum: string, pods: string)

  type Objects = map<Key, Object>

  /** What becomes of an API call: it works, it is refused, or it works and its answer is lost. */
  datatype Fate = Works | Refused | AnswerLost

  datatype ApiError = NotFound | OtherError

  class Cluster {
    var objects: Objects
    var calls: nat
    const fate: nat -> Fate

    constructor (objects: Objects, fate: nat -> Fate)
      ensures this.objects == objects && this.fate == fate && calls == 0
    {
      this.objects, this.fate, calls := objects, fate, 0;
    }

    /** No call fails for reasons of its own. */
    ghost predicate Reliable() {
      forall i :: fate(i).Works?
    }

    method Get(k: Key) returns (r: Result<Object, ApiError>)
      modifies this`calls
      ensures r.Ok? ==> k in objects && r.value == objects[k]
      ensures r == Err(NotFound) ==> k !in objects
      ensures Reliable() ==> r.Ok? || r == Err(NotFound)
    {
      var f := fate(calls);
      calls := calls + 1;
      if !f.Works? {
        return Err(OtherError);
      }
      return if k in objects then Ok(objects[k]) else Err(NotFound);
    }

    method Create(k: Key, o: Object) returns (r: Result<(), ApiError>)
      modifies this
      ensures objects == old(objects) || (k !in old(objects) && objects == old(objects)[k := o])
      ensures r.Ok? ==> k !in old(objects) && objects == old(objects)[k := o]
      ensures Reliable() && k !in old(objects) ==> r.Ok?
    {
      var f := fate(calls);
      calls := calls + 1;
      if f.Refused? || k in objects {
        return Err(OtherError);
      }
      objects := objects[k := o];
      return if f.Works? then Ok(()) else Err(OtherError);
    }

    method Update(k: Key, o: Object) returns (r: Result<(), ApiError>)
      modifies this
      ensures objects == old(objects) || (k in old(objects) && objects == old(objects)[k := o])
      ensures r.Ok? ==> k in old(objects) && objects == old(objects)[k := o]
      ensures Reliable() && k in old(objects) ==> r.Ok?
    {
      var f := fate(calls);
      calls := calls + 1;
      if f.Refused? {
        return Err(OtherError);
      }
      if k !in objects {
        return Err(NotFound);
      }
      objects := objects[k := o];
      return if f.Works? then Ok(()) else Err(OtherError);
    }

    method Delete(k: Key) returns (r: Result<(), ApiError>)
      modifies this
      ensures objects == old(objects) || objects == old(objects) - {k}
      ensures r.Ok? || r == Err(NotFound) ==> objects == old(objects) - {k}
      ensures Reliable() ==> r.Ok? || r == Err(NotFound)
    {
      var f := fate(calls);
      calls := calls + 1;
      if f.Refused? {
        return Err(OtherError);
      }
      if k !in objects {
        assert objects - {k} == objects;
        return if f.Works? then Err(NotFound) else Err(OtherError);
      }
      objects := objects - {k};
      return if f.Works? then Ok(()) else Err(OtherError);
    }
  }

  // ---------------------------------------------------------------- the footprint of a flow

  function ConfigKey(n: string): Key { Key(ConfigMap, n + "-config") }

  function RuntimeKey(k: Kind, n: string): Key { Key(k, n + "-runtime") }

  function Owned(n: string): set<Key> {
    {ConfigKey(n), RuntimeKey(Deployment, n), RuntimeKey(DaemonSet, n), Key(Job, n), Key(CronJob, n)}
  }

  lemma AppendCancels(a: string, b: string, suffix: string)
    requires a + suffix == b + suffix
    ensures a == b
  {
    assert |a| == |b|;
    assert a == (a + suffix)[..|a|] && b == (b + suffix)[..|b|];
  }

  /** No object belongs to two flows. */
  lemma OwnedApart(n: string, m: string, k: Key)
    requires k in Owned(n) && k in Owned(m)
    ensures n == m
  {
    match k.kind
    case ConfigMap => AppendCancels(n, m, "-config");
    case Deployment => AppendCancels(n, m, "-runtime");
    case DaemonSet => AppendCancels(n, m, "-runtime");
    case _ =>
  }

  /** The workload a spec asks for. */
  function WorkloadKey(s: Spec): Key {
    match s.mode
    case JobMode => if s.schedule != "" then Key(CronJob, s.name) else Key(Job, s.name)
    case Streaming => RuntimeKey(if s.daemonSet then DaemonSet else Deployment, s.name)
    case Unspecified => RuntimeKey(Deployment, s.name)
  }

  function WorkloadContent(s: Spec): Content {
    Pods(s.pods, s.checksum, if s.mode.JobMode? then s.schedule else "")
  }

  // ---------------------------------------------------------------- applying

  /** Create-or-update: an existing object keeps what the controller does not write. */
  function Upserted(os: Objects, k: Key, flow: string, content: Content): Objects {
    os[k := Object(flow, content, if k in os then os[k].rest else "")]
  }

  function WithConfig(os: Objects, s: Spec): Objects {
    Upserted(os, ConfigKey(s.name), s.name, FlowYaml(s.yaml))
  }

  /** A Job that exists is left as it is. */
  function WithWorkload(os: Objects, s: Spec): Objects {
    var k := WorkloadKey(s);
    if k.kind.Job? && k in os then os else Upserted(os, k, s.name, WorkloadContent(s))
  }

  function Applied(os: Objects, s: Spec): Objects {
    WithWorkload(WithConfig(os, s), s)
  }

  // ---------------------------------------------------------------- what a spec asks for, spelled out

  /** Key k now holds what the controller writes there, and what else the object held before. */
  ghost predicate Holds(os: Objects, os': Objects, k: Key, flow: string, content: Content) {
    k in os' && os'[k] == Object(flow, content, if k in os then os[k].rest else "")
  }

  ghost predicate OthersKept(os: Objects, os': Objects, ks: set<Key>) {
    forall k :: k !in ks ==> Lookup(os', k) == Lookup(os, k)
  }

  /** A job with a schedule is a CronJob that carries it, and a job without one a Job, which is made once. */
  ghost predicate RunsAsJob(os: Objects, os': Objects, s: Spec) {
    if s.schedule != "" then
      && Holds(os, os', Key(CronJob, s.name), s.name, Pods(s.pods, s.checksum, s.schedule))
      && OthersKept(os, os', {Key(ConfigMap, s.name + "-config"), Key(CronJob, s.name)})
    else
      && (if Key(Job, s.name) in os then Lookup(os', Key(Job, s.name)) == Lookup(os, Key(Job, s.name))
          else Holds(os, os', Key(Job, s.name), s.name, Pods(s.pods, s.checksum, "")))
      && OthersKept(os, os', {Key(ConfigMap, s.name + "-config"), Key(Job, s.name)})
  }

  /** A flow that is no job is a Deployment, unless it is streaming and asks for a DaemonSet. */
  ghost predicate RunsAsService(os: Objects, os': Objects, s: Spec) {
    var kind := if s.mode.Streaming? && s.daemonSet then DaemonSet else Deployment;
    && Holds(os, os', Key(kind, s.name + "-runtime"), s.name, Pods(s.pods, s.checksum, ""))
    && OthersKept(os, os', {Key(ConfigMap, s.name + "-config"), Key(kind, s.name + "-runtime")})
  }

  /** The config is written, the workload is of the kind the spec asks for, and no other object is touched. */
  ghost predicate RunsAsAsked(os: Objects, os': Objects, s: Spec) {
    && Holds(os, os', Key(ConfigMap, s.name + "-config"), s.name, FlowYaml(s.yaml))
    && (if s.mode.JobMode? then RunsAsJob(os, os', s) else RunsAsService(os, os', s))
  }

  lemma AppliedAsAsked(os: Objects, s: Spec)
    ensures RunsAsAsked(os, Applied(os, s), s)
  {
  }

  method Upsert(c: Cluster, k: Key, flow: string, content: Content) returns (ok: bool)
    modifies c
    ensures c.objects == old(c.objects) || c.objects == Upserted(old(c.objects), k, flow, content)
    ensures ok ==> c.objects == Upserted(old(c.objects), k, flow, content)
    ensures c.Reliable() ==> ok
  {
    var current := c.Get(k);
    match current {
      case Err(NotFound) =>
        var r := c.Create(k, Object(flow, content, ""));
        ok := r.Ok?;
      case Err(OtherError) =>
        ok := false;
      case Ok(o) =>
        var r := c.Update(k, o.(flow := flow, content := content));
        ok := r.Ok?;
    }
  }

  /** applyJob: an existing Job is never updated. */
  method CreateIfMissing(c: Cluster, k: Key, flow: string, content: Content) returns (ok: bool)
    modifies c
    ensures c.objects == old(c.objects) || (k !in old(c.objects) && c.objects == Upserted(old(c.objects), k, flow, content))
    ensures ok && k in old(c.objects) ==> c.objects == old(c.objects)
    ensures ok && k !in old(c.objects) ==> c.objects == Upserted(old(c.objects), k, flow, content)
    ensures c.Reliable() ==> ok
  {
    var current := c.Get(k);
    match current {
      case Err(NotFound) =>
        var r := c.Create(k, Object(flow, content, ""));
        ok := r.Ok?;
      case Err(OtherError) =>
        ok := false;
      case Ok(_) =>
        ok := true;
    }
  }

  /** How far a call got. */
  datatype Reach = Nothing | ConfigOnly | Everything

  function Reached(os: Objects, s: Spec, r: Reach): Objects {
    match r
    case Nothing => os
    case ConfigOnly => WithConfig(os, s)
    case Everything => Applied(os, s)
  }

  /** ensureRuntime: the config first, then the workload; an error leaves one of three states. */
  method EnsureRuntime(c: Cluster, spec: Option<Spec>) returns (ok: bool, ghost reach: Reach)
    modifies c
    ensures spec.None? ==> !ok && c.objects == old(c.objects)
    ensures spec.Some? && (spec.value.name == "" || spec.value.image == "") ==> !ok && c.objects == old(c.objects)
    ensures spec.Some? ==> c.objects == Reached(old(c.objects), spec.value, reach)
    ensures ok ==> reach.Everything?
    ensures ok ==> spec.Some? && RunsAsAsked(old(c.objects), c.objects, spec.value)
    ensures c.Reliable() && spec.Some? && spec.value.name != "" && spec.value.image != "" ==> ok
  {
    ok, reach := false, Nothing;
    if spec.None? || spec.value.name == "" || spec.value.image == "" {
      return;
    }
    var s := spec.value;
    ok := Upsert(c, ConfigKey(s.name), s.name, FlowYaml(s.yaml));
    if !ok {
      reach := if c.objects == old(c.objects) then Nothing else ConfigOnly;
      return;
    }
    ghost var configured := c.objects;
    var k := WorkloadKey(s);
    if k.kind.Job? {
      ok := CreateIfMissing(c, k, s.name, WorkloadContent(s));
    } else {
      ok := Upsert(c, k, s.name, WorkloadContent(s));
    }
    reach := if ok || c.objects != configured then Everything else ConfigOnly;
    AppliedAsAsked(old(c.objects), s);
  }

  /** One deletion; that the object is not there is no failure. */
  method Drop(c: Cluster, k: Key) returns (ok: bool, ghost gone: set<Key>)
    modifies c
    ensures gone <= {k} && c.objects == old(c.objects) - gone
    ensures ok ==> gone == {k}
    ensures c.Reliable() ==> ok
  {
    var r := c.Delete(k);
    ok := r.Ok? || r.error.NotFound?;
    if c.objects == old(c.objects) - {k} {
      gone := {k};
    } else {
      gone := {};
      assert old(c.objects) - gone == old(c.objects);
    }
  }

  lemma DropBoth(os: Objects, a: set<Key>, b: set<Key>)
    ensures os - a - b == os - (a + b)
  {
  }

  /** deleteRuntimeResources: every deletion is tried; it succeeds when none of them failed. */
  method DeleteRuntimeResources(c: Cluster, n: string) returns (ok: bool, ghost gone: set<Key>)
    modifies c
    ensures n == "" ==> !ok && gone == {}
    ensures gone <= Owned(n) && c.objects == old(c.objects) - gone
    ensures ok ==> gone == Owned(n)
    ensures ok ==> OthersKept(old(c.objects), c.objects, gone)
    ensures ok ==> forall k :: k in c.objects ==>
                     k !in {Key(ConfigMap, n + "-config"), Key(Deployment, n + "-runtime"), Key(DaemonSet, n + "-runtime"),
                            Key(Job, n), Key(CronJob, n)}
    ensures c.Reliable() && n != "" ==> ok
  {
    ghost var os := c.objects;
    gone := {};
    assert os - gone == os;
    if n == "" {
      return false, gone;
    }
    ghost var g1, g2, g3, g4, g5;
    var ok1, ok2, ok3, ok4, ok5;
    ok1, g1 := Drop(c, RuntimeKey(Deployment, n));
    ok2, g2 := Drop(c, RuntimeKey(DaemonSet, n));
    DropBoth(os, g1, g2);
    ok3, g3 := Drop(c, Key(Job, n));
    DropBoth(os, g1 + g2, g3);
    ok4, g4 := Drop(c, Key(CronJob, n));
    DropBoth(os, g1 + g2 + g3, g4);
    ok5, g5 := Drop(c, ConfigKey(n));
    DropBoth(os, g1 + g2 + g3 + g4, g5);
    ok := ok1 && ok2 && ok3 && ok4 && ok5;
    gone := g1 + g2 + g3 + g4 + g5;
  }

  /** What the controller reports of a flow: the version it applied and the name of its workload. */
  datatype Status = Status(version: nat, workload: string)

  /** A job's workload is called like the flow, any other after it. */
  function Reported(s: Spec, version: nat): Status {
    Status(version, if s.mode.JobMode? then s.name else s.name + "-runtime")
  }

  /** The status keys of the store, whose writes may fail too. */
  class StatusStore {
    var statuses: map<string, Status>
    var calls: nat
    const fate: nat -> Fate

    constructor (fate: nat -> Fate)
      ensures this.fate == fate && statuses == map[] && calls == 0
    {
      this.fate, statuses, calls := fate, map[], 0;
    }

    ghost predicate Reliable() {
      forall i :: fate(i).Works?
    }

    method UpdateStatus(name: string, status: Status) returns (ok: bool)
      modifies this
      ensures statuses == old(statuses) || statuses == old(statuses)[name := status]
      ensures ok ==> statuses == old(statuses)[name := status]
      ensures Reliable() ==> ok
    {
      var f := fate(calls);
      calls := calls + 1;
      if !f.Refused? {
        statuses := statuses[name := status];
      }
      ok := f.Works?;
    }
  }

  /** What GetActiveFlow tells: an error, no spec, or the active spec and its version. */
  type Fetched = Result<Option<(Spec, nat)>, ()>

  predicate Appliable(name: string, fetched: Fetched) {
    fetched.Ok? && name != "" && (fetched.value.Some? ==> fetched.value.value.0.image != "")
  }

  /** What a successful call makes of the flow's objects. */
  function Reconciled(os: Objects, name: string, active: Option<(Spec, nat)>): Objects {
    if active.Some? then Applied(os, active.value.0) else os - Owned(name)
  }

  /** Objects of other flows are as they were. */
  ghost predicate OnlyOwned(os: Objects, os': Objects, name: string) {
    forall k :: k !in Owned(name) ==> (k in os' <==> k in os) && (k in os' ==> os'[k] == os[k])
  }

  /**
   reconcile: the active spec is applied and then reported; without one the flow's objects are
   deleted and its status is left.  A status is written only when everything it tells of is there.
   */
  method Reconcile(c: Cluster, store: StatusStore, name: string, fetched: Fetched) returns (ok: bool)
    requires fetched.Ok? && fetched.value.Some? ==> fetched.value.value.0.name == name
    modifies c, store
    ensures fetched.Err? ==> !ok && c.objects == old(c.objects)
    ensures ok ==> c.objects == Reconciled(old(c.objects), name, fetched.value)
    ensures ok && fetched.value.Some? ==> RunsAsAsked(old(c.objects), c.objects, fetched.value.value.0)
    ensures OnlyOwned(old(c.objects), c.objects, name)
    ensures ok && fetched.value.Some? ==>
              var (spec, version) := fetched.value.value;
              store.statuses == old(store.statuses)[name := Reported(spec, version)]
    ensures store.statuses != old(store.statuses) ==>
              && fetched.Ok? && fetched.value.Some?
              && c.objects == Reconciled(old(c.objects), name, fetched.value)
              && RunsAsAsked(old(c.objects), c.objects, fetched.value.value.0)
              && var (spec, version) := fetched.value.value;
                 store.statuses == old(store.statuses)[name := Reported(spec, version)]
    ensures c.Reliable() && store.Reliable() && Appliable(name, fetched) ==> ok
  {
    if fetched.Err? {
      return false;
    }
    match fetched.value {
      case None =>
        ghost var gone;
        ok, gone := DeleteRuntimeResources(c, name);
      case Some((spec, version)) =>
        ghost var reach;
        ok, reach := EnsureRuntime(c, Some(spec));
        if ok {
          ok := store.UpdateStatus(name, Status(version, WorkloadKey(spec).name));
        }
    }
  }

  // ---------------------------------------------------------------- what the calls add up to

  /** A call and how far it got. */
  datatype Call = Ensure(spec: Spec, reach: Reach) | Remove(flow: string, gone: set<Key>)

  predicate WellFormed(a: Call) {
    a.Remove? ==> a.gone <= Owned(a.flow)
  }

  function FlowOf(a: Call): string {
    match a
    case Ensure(s, _) => s.name
    case Remove(n, _) => n
  }

  function After(os: Objects, a: Call): Objects {
    match a
    case Ensure(s, r) => Reached(os, s, r)
    case Remove(_, gone) => os - gone
  }

  function Play(os: Objects, calls: seq<Call>): Objects {
    if calls == [] then os else After(Play(os, calls[..|calls| - 1]), calls[|calls| - 1])
  }

  /** A call's effect on a key depends on that flow's keys alone, and it leaves other flows' keys. */
  lemma CallIsLocal(os: Objects, os': Objects, a: Call, k: Key)
    requires WellFormed(a)
    ensures k !in Owned(FlowOf(a)) ==> Lookup(After(os, a), k) == Lookup(os, k)
    ensures (forall j :: j in Owned(FlowOf(a)) ==> Lookup(os, j) == Lookup(os', j)) && k in Owned(FlowOf(a)) ==>
              Lookup(After(os, a), k) == Lookup(After(os', a), k)
  {
    if a.Ensure? && forall j :: j in Owned(FlowOf(a)) ==> Lookup(os, j) == Lookup(os', j) {
      assert Lookup(os, WorkloadKey(a.spec)) == Lookup(os', WorkloadKey(a.spec));
      assert Lookup(os, ConfigKey(a.spec.name)) == Lookup(os', ConfigKey(a.spec.name));
      assert Lookup(os, k) == Lookup(os', k) || k !in Owned(FlowOf(a));
    } else if a.Remove? {
      assert k in Owned(FlowOf(a)) && (forall j :: j in Owned(FlowOf(a)) ==> Lookup(os, j) == Lookup(os', j)) ==>
          Lookup(os, k) == Lookup(os', k);
    }
  }

  function CallsFor(calls: seq<Call>, n: string): seq<Call> {
    if calls == [] then []
    else CallsFor(calls[..|calls| - 1], n) + if FlowOf(calls[|calls| - 1]) == n then [calls[|calls| - 1]] else []
  }

  /** Whatever happens to other flows, and however calls fail, a flow's objects follow from its own calls. */
  lemma {:induction false} FlowsAreIndependent(os: Objects, calls: seq<Call>, n: string, k: Key)
    requires forall i :: 0 <= i < |calls| ==> WellFormed(calls[i])
    requires k in Owned(n)
    ensures Lookup(Play(os, calls), k) == Lookup(Play(os, CallsFor(calls, n)), k)
    decreases |calls|
  {
    if calls != [] {
      var before, a := calls[..|calls| - 1], calls[|calls| - 1];
      forall j | j in Owned(n)
        ensures Lookup(Play(os, before), j) == Lookup(Play(os, CallsFor(before, n)), j)
      {
        FlowsAreIndependent(os, before, n, j);
      }
      if FlowOf(a) == n {
        assert (CallsFor(before, n) + [a])[..|CallsFor(before, n)|] == CallsFor(before, n);
        CallIsLocal(Play(os, before), Play(os, CallsFor(before, n)), a, k);
      } else {
        if k in Owned(FlowOf(a)) {
          OwnedApart(n, FlowOf(a), k);
        }
        assert CallsFor(calls, n) == CallsFor(before, n);
        CallIsLocal(Play(os, before), Play(os, before), a, k);
      }
    }
  }

  /** After a removal of n that succeeded, and until n is applied again, nothing of n exists. */
  lemma {:induction false} RemovedIsGone(os: Objects, calls: seq<Call>, i: nat, n: string, k: Key)
    requires forall j :: 0 <= j < |calls| ==> WellFormed(calls[j])
    requires i < |calls| && calls[i] == Remove(n, Owned(n)) && k in Owned(n)
    requires forall j :: i < j < |calls| ==> !(calls[j].Ensure? && FlowOf(calls[j]) == n)
    ensures k !in Play(os, calls)
    decreases |calls|
  {
    if i < |calls| - 1 {
      var before, a := calls[..|calls| - 1], calls[|calls| - 1];
      RemovedIsGone(os, before, i, n, k);
      if k in Owned(FlowOf(a)) {
        OwnedApart(n, FlowOf(a), k);
      }
      CallIsLocal(Play(os, before), Play(os, before), a, k);
    }
  }

  /** In a cluster the controller filled, every object is labelled with the flow that owns it. */
  lemma {:induction false} ObjectsAreLabelled(calls: seq<Call>, k: Key)
    requires forall i :: 0 <= i < |calls| ==> WellFormed(calls[i])
    ensures k in Play(map[], calls) ==>
              && k in Owned(Play(map[], calls)[k].flow)
              && exists i :: 0 <= i < |calls| && calls[i].Ensure? && FlowOf(calls[i]) == Play(map[], calls)[k].flow
  {
    if calls != [] && k in Play(map[], calls) {
      var before, a := calls[..|calls| - 1], calls[|calls| - 1];
      ObjectsAreLabelled(before, k);
      var o := Play(map[], calls)[k];
      if Lookup(Play(map[], before), k) == Some(o) {
        var i :| 0 <= i < |before| && before[i].Ensure? && FlowOf(before[i]) == o.flow;
        assert calls[i] == before[i];
      } else {
        assert calls[|calls| - 1].Ensure?;
      }
    }
  }

  /** Applying a spec again changes nothing. */
  lemma ApplyTwice(os: Objects, s: Spec)
    ensures Applied(Applied(os, s), s) == Applied(os, s)
  {
  }

  function Tries(s: Spec, reaches: seq<Reach>): seq<Call> {
    seq(|reaches|, i requires 0 <= i < |reaches| => Ensure(s, reaches[i]))
  }

  /** However often applying a spec failed, and wherever, the call that succeeds ends as if it had been the only one. */
  lemma {:induction false} RetryCompletes(os: Objects, s: Spec, reaches: seq<Reach>)
    ensures Applied(Play(os, Tries(s, reaches)), s) == Applied(os, s)
    decreases |reaches|
  {
    if reaches != [] {
      var n := |reaches| - 1;
      RetryCompletes(os, s, reaches[..n]);
      assert Tries(s, reaches)[..n] == Tries(s, reaches[..n]);
      AppliedOver(Play(os, Tries(s, reaches[..n])), s, reaches[n]);
    }
  }

  lemma AppliedOver(os: Objects, s: Spec, r: Reach)
    ensures Applied(Reached(os, s, r), s) == Applied(os, s)
  {
    if r.Everything? {
      ApplyTwice(os, s);
    }
  }

  /** After a successful call the workload is as the spec says, unless it is a Job that was there and differs. */
  lemma WorkloadUpToDate(os: Objects, s: Spec)
    ensures var k := WorkloadKey(s);
            var r := Applied(os, s);
            && Lookup(r, ConfigKey(s.name)).Some? && r[ConfigKey(s.name)].content == FlowYaml(s.yaml)
            && k in r
            && (r[k].content == WorkloadContent(s) <==>
                  !(k.kind.Job? && k in os && os[k].content != WorkloadContent(s)))
  {
  }

  /** A spec that asks for another kind of workload leaves the old one running. */
  lemma SwitchLeavesOld(os: Objects, s: Spec, s': Spec)
    requires s.name == s'.name && WorkloadKey(s) != WorkloadKey(s')
    ensures var r := Applied(Applied(os, s), s');
            WorkloadKey(s) in r && r[WorkloadKey(s)] == Applied(os, s)[WorkloadKey(s)] && WorkloadKey(s') in r
  {
  }
}
