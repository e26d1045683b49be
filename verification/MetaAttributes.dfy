/** Payload attributes: maps shared between copies, detached on write. */
module MetaAttributes {
  import opened Options
  import opened Collections

  datatype MetaValue = Int64(i: int) | Double(d: real) | Bool(b: bool) | Text(s: string)

  type Attributes = map<string, MetaValue>

  /** A map object on the heap; any number of copies may point at it. */
  class MetadataMap {
    var entries: Attributes

    constructor (m: Attributes)
      ensures entries == m
    {
      entries := m;
    }

    method Put(key: string, value: MetaValue)
      modifies this
      ensures entries == old(entries)[key := value]
    {
      entries := entries[key := value];
    }

    method Erase(key: string)
      modifies this
      ensures entries == old(entries) - {key}
    {
      entries := entries - {key};
    }
  }

  class PayloadMeta {
    var attrs: MetadataMap?

    /** There is a map object exactly when there is an attribute. */
    ghost predicate Valid()
      reads this, attrs
    {
      attrs != null ==> attrs.entries != map[]
    }

    ghost function Contents(): Attributes
      reads this, attrs
    {
      if attrs == null then map[] else attrs.entries
    }

    constructor ()
      ensures Valid() && Contents() == map[]
    {
      attrs := null;
    }

    /** Copy assignment: both sides point at one map object. */
    method Assign(from: PayloadMeta)
      modifies this`attrs
      ensures attrs == old(from.attrs)
    {
      attrs := from.attrs;
    }

    method HasAttrs() returns (r: bool)
      ensures r <==> Contents() != map[]
    {
      r := attrs != null && attrs.entries != map[];
    }

    method GetAttr(key: string) returns (r: Option<MetaValue>)
      ensures r == Lookup(Contents(), key)
    {
      if attrs == null {
        return None;
      }
      r := if key in attrs.entries then Some(attrs.entries[key]) else None;
    }

    method SetAttr(key: string, value: MetaValue)
      modifies this`attrs
      ensures Valid() && Contents() == old(Contents())[key := value]
      ensures fresh(attrs)
    {
      var copy := new MetadataMap(if attrs == null then map[] else attrs.entries);
      copy.Put(key, value);
      assert key in copy.entries;
      attrs := copy;
    }

    method EraseAttr(key: string) returns (erased: bool)
      requires Valid()
      modifies this`attrs
      ensures Valid() && Contents() == old(Contents()) - {key}
      ensures erased <==> key in old(Contents())
      ensures if erased then attrs == null || fresh(attrs) else attrs == old(attrs)
    {
      if attrs == null {
        assert Contents() - {key} == Contents();
        return false;
      }
      if key !in attrs.entries {
        assert attrs.entries - {key} == attrs.entries;
        return false;
      }
      var copy := new MetadataMap(attrs.entries);
      copy.Erase(key);
      attrs := if copy.entries == map[] then null else copy;
      return true;
    }

    method ClearAttrs()
      modifies this`attrs
      ensures Valid() && Contents() == map[]
    {
      attrs := null;
    }
  }

  // ---------------------------------------------------------------- many copies at once

  datatype Op =
    | Set(key: string, value: MetaValue)
    | Erase(key: string)
    | Clear
    | CopyFrom(source: nat)

  /** One operation on copy number `at`. */
  datatype Call = Call(at: nat, op: Op)

  predicate WellPlaced(c: Call, n: nat) {
    c.at < n && (c.op.CopyFrom? ==> c.op.source < n)
  }

  predicate AllPlaced(cs: seq<Call>, n: nat) {
    forall k :: 0 <= k < |cs| ==> WellPlaced(cs[k], n)
  }

  /** The same operation on maps that share nothing. */
  function Applied(ms: seq<Attributes>, c: Call): (r: seq<Attributes>)
    requires WellPlaced(c, |ms|)
    ensures |r| == |ms| && forall i :: 0 <= i < |ms| && i != c.at ==> r[i] == ms[i]
  {
    ms[c.at :=
      match c.op
      case Set(k, v) => ms[c.at][k := v]
      case Erase(k) => ms[c.at] - {k}
      case Clear => map[]
      case CopyFrom(j) => ms[j]]
  }

  function Simulated(ms: seq<Attributes>, cs: seq<Call>): (r: seq<Attributes>)
    requires AllPlaced(cs, |ms|)
    ensures |r| == |ms|
  {
    if cs == [] then ms else Applied(Simulated(ms, cs[..|cs| - 1]), cs[|cs| - 1])
  }

  /** What reading a key finds, from the calls alone: the last one that decided it. */
  function LastWrite(ms: seq<Attributes>, cs: seq<Call>, at: nat, key: string): Option<MetaValue>
    requires AllPlaced(cs, |ms|)
    requires at < |ms|
    decreases |cs|
  {
    if cs == [] then Lookup(ms[at], key)
    else
      var c, before := cs[|cs| - 1], cs[..|cs| - 1];
      if c.at != at then LastWrite(ms, before, at, key)
      else
        match c.op
        case Set(k, v) => if k == key then Some(v) else LastWrite(ms, before, at, key)
        case Erase(k) => if k == key then None else LastWrite(ms, before, at, key)
        case Clear => None
        case CopyFrom(j) => LastWrite(ms, before, j, key)
  }

  lemma {:induction false} LastWriteWins(ms: seq<Attributes>, cs: seq<Call>, at: nat, key: string)
    requires AllPlaced(cs, |ms|)
    requires at < |ms|
    ensures Lookup(Simulated(ms, cs)[at], key) == LastWrite(ms, cs, at, key)
    decreases |cs|
  {
    if cs != [] {
      var c, before := cs[|cs| - 1], cs[..|cs| - 1];
      LastWriteWins(ms, before, at, key);
      if c.op.CopyFrom? {
        LastWriteWins(ms, before, c.op.source, key);
      }
    }
  }

  function CallsAt(cs: seq<Call>, at: nat): seq<Call> {
    if cs == [] then []
    else CallsAt(cs[..|cs| - 1], at) + if cs[|cs| - 1].at == at then [cs[|cs| - 1]] else []
  }

  /** A copy nobody assigns over ends as if only its own calls had been made. */
  lemma {:induction false} CopiesAreIndependent(ms: seq<Attributes>, cs: seq<Call>, at: nat)
    requires AllPlaced(cs, |ms|)
    requires at < |ms| && forall k :: 0 <= k < |cs| && cs[k].at == at ==> !cs[k].op.CopyFrom?
    ensures AllPlaced(CallsAt(cs, at), |ms|)
    ensures Simulated(ms, cs)[at] == Simulated(ms, CallsAt(cs, at))[at]
  {
    if cs != [] {
      var c, before := cs[|cs| - 1], cs[..|cs| - 1];
      CopiesAreIndependent(ms, before, at);
      if c.at == at {
        assert CallsAt(cs, at)[..|CallsAt(cs, at)| - 1] == CallsAt(before, at);
      } else {
        assert CallsAt(cs, at) == CallsAt(before, at);
      }
    }
  }

  // ---------------------------------------------------------------- the heap does the same

  ghost predicate AllValid(copies: seq<PayloadMeta>)
    reads copies, set p | p in copies :: p.attrs
  {
    && (forall i, j :: 0 <= i < j < |copies| ==> copies[i] != copies[j])
    && (forall i :: 0 <= i < |copies| ==> copies[i].Valid())
  }

  ghost function Views(copies: seq<PayloadMeta>): (r: seq<Attributes>)
    reads copies, set p | p in copies :: p.attrs
    ensures |r| == |copies| && forall i :: 0 <= i < |copies| ==> r[i] == copies[i].Contents()
  {
    seq(|copies|, i requires 0 <= i < |copies| reads copies, set p | p in copies :: p.attrs => copies[i].Contents())
  }

  method Perform(copies: seq<PayloadMeta>, c: Call)
    requires AllValid(copies) && WellPlaced(c, |copies|)
    modifies copies
    ensures AllValid(copies) && Views(copies) == Applied(old(Views(copies)), c)
  {
    var m := copies[c.at];
    match c.op {
      case Set(k, v) => m.SetAttr(k, v);
      case Erase(k) => var _ := m.EraseAttr(k);
      case Clear => m.ClearAttrs();
      case CopyFrom(j) => m.Assign(copies[j]);
    }
  }

  /** The map objects the copies point at. */
  ghost function Pointers(copies: seq<PayloadMeta>): (r: seq<MetadataMap?>)
    reads copies
    ensures |r| == |copies| && forall i :: 0 <= i < |copies| ==> r[i] == copies[i].attrs
  {
    seq(|copies|, i requires 0 <= i < |copies| reads copies => copies[i].attrs)
  }

  /** These map objects hold exactly these attributes, with null for none. */
  ghost predicate Hold(ps: seq<MetadataMap?>, ms: seq<Attributes>)
    reads ps
  {
    && |ps| == |ms|
    && forall i :: 0 <= i < |ps| ==> if ps[i] == null then ms[i] == map[] else ps[i].entries == ms[i] != map[]
  }

  /** Each row of map objects holds the attributes beside it. */
  ghost predicate HoldAll(held: seq<seq<MetadataMap?>>, states: seq<seq<Attributes>>)
    reads set n, i | 0 <= n < |held| && 0 <= i < |held[n]| :: held[n][i]
  {
    |held| == |states| && forall n :: 0 <= n < |held| ==> Hold(held[n], states[n])
  }

  /** The copies' own map objects hold what the copies show. */
  lemma PointersHold(copies: seq<PayloadMeta>)
    requires AllValid(copies)
    ensures Hold(Pointers(copies), Views(copies))
  {
    forall i | 0 <= i < |copies|
      ensures if Pointers(copies)[i] == null then Views(copies)[i] == map[] else Pointers(copies)[i].entries == Views(copies)[i] != map[]
    {
      assert copies[i].Valid();
    }
  }

  lemma HoldAllSnoc(held: seq<seq<MetadataMap?>>, states: seq<seq<Attributes>>, ps: seq<MetadataMap?>, ms: seq<Attributes>)
    requires HoldAll(held, states) && Hold(ps, ms)
    ensures HoldAll(held + [ps], states + [ms])
  {
    forall n | 0 <= n < |held| + 1
      ensures Hold((held + [ps])[n], (states + [ms])[n])
    {
    }
  }

  /** The attributes of all copies before the first call and after each one. */
  function History(ms: seq<Attributes>, cs: seq<Call>): (r: seq<seq<Attributes>>)
    requires AllPlaced(cs, |ms|)
    ensures |r| == |cs| + 1 && forall n :: 0 <= n <= |cs| ==> r[n] == Simulated(ms, cs[..n])
  {
    seq(|cs| + 1, n requires 0 <= n <= |cs| => Simulated(ms, cs[..n]))
  }

  lemma SimulatedSnoc(ms: seq<Attributes>, cs: seq<Call>, n: nat)
    requires AllPlaced(cs, |ms|) && n < |cs|
    ensures Simulated(ms, cs[..n + 1]) == Applied(Simulated(ms, cs[..n]), cs[n])
  {
    assert cs[..n + 1][..n] == cs[..n];
  }

  /**
   Any calls on any copies, however their maps are shared: the copies end as maps that share
   nothing would. held[n] are the map objects after n calls; each still holds at the end what
   its copy held then, so no map object was changed once a copy had shown it.
   */
  method PerformAll(copies: seq<PayloadMeta>, cs: seq<Call>)
    returns (ghost held: seq<seq<MetadataMap?>>)
    requires AllValid(copies) && AllPlaced(cs, |copies|)
    modifies copies
    ensures AllValid(copies) && Views(copies) == Simulated(old(Views(copies)), cs)
    ensures |held| == |cs| + 1 && held[0] == old(Pointers(copies)) && held[|cs|] == Pointers(copies)
    ensures HoldAll(held, History(old(Views(copies)), cs))
  {
    held := [Pointers(copies)];
    PointersHold(copies);
    ghost var start := Views(copies);
    ghost var history := History(start, cs);
    for n := 0 to |cs|
      invariant AllValid(copies) && Views(copies) == Simulated(start, cs[..n])
      invariant |held| == n + 1 && held[0] == old(Pointers(copies)) && held[n] == Pointers(copies)
      invariant HoldAll(held, history[..n + 1])
    {
      SimulatedSnoc(start, cs, n);
      Perform(copies, cs[n]);
      PointersHold(copies);
      assert history[..n + 2] == history[..n + 1] + [Views(copies)];
      HoldAllSnoc(held, history[..n + 1], Pointers(copies), Views(copies));
      held := held + [Pointers(copies)];
    }
    assert cs[..|cs|] == cs && history[..|cs| + 1] == history;
  }
}
