/** The keys the stores write, as the strings etcd sees them. */
module KeyLayout {
  import opened Options

  /**
   One family of versioned documents: flows, whose version keys end in /spec and whose versions
   are 64 bits wide, or schemas, whose version keys end in the number and are 32 bits wide.
   */
  datatype Layout = Layout(root: string, leaf: string, width: nat)

  const WIDTH_32: nat := 0x1_0000_0000
  const WIDTH_64: nat := 0x1_0000_0000_0000_0000
  const FLOWS := Layout("/flowpipe/flows", "/spec", WIDTH_64)
  const SCHEMAS := Layout("/flowpipe/schemas", "", WIDTH_32)

  predicate ValidLayout(l: Layout)
  {
    l == FLOWS || l == SCHEMAS
  }

  datatype Key =
    | Active(name: string)
    | Version(name: string, number: nat)
    | Status(name: string)

  /** Names that path.Join puts into a key unchanged. */
  predicate GoodName(n: string)
  {
    n != "" && '/' !in n && n != "." && n != ".."
  }

  // ---------------------------------------------------------------- decimal numbers

  function Digit(n: nat): char
    requires n < 10
  {
    "0123456789"[n]
  }

  /** strconv.FormatUint in base 10. */
  function Decimal(n: nat): (s: string)
    ensures s != ""
    ensures forall i :: 0 <= i < |s| ==> '0' <= s[i] <= '9'
  {
    if n < 10 then [Digit(n)] else Decimal(n / 10) + [Digit(n % 10)]
  }

  function Number(s: string): Option<nat>
  {
    if s == "" then Some(0)
    else if !('0' <= s[|s| - 1] <= '9') then None
    else
      match Number(s[..|s| - 1])
      case None => None
      case Some(n) => Some(10 * n + (s[|s| - 1] as nat - '0' as nat))
  }

  /** strconv.ParseUint in base 10, 64 bits. */
  function ParseUint(s: string): (r: Option<nat>)
    ensures r.Some? ==> r.value < WIDTH_64
  {
    if s == "" then None
    else
      match Number(s)
      case None => None
      case Some(n) => if n < WIDTH_64 then Some(n) else None
  }

  lemma {:induction false} NumberOfDecimal(n: nat)
    ensures Number(Decimal(n)) == Some(n)
  {
    if n >= 10 {
      NumberOfDecimal(n / 10);
      var s := Decimal(n);
      assert s[..|s| - 1] == Decimal(n / 10);
    } else {
      assert Decimal(n)[..0] == "";
    }
  }

  lemma ParseDecimal(n: nat)
    requires n < WIDTH_64
    ensures ParseUint(Decimal(n)) == Some(n)
  {
    NumberOfDecimal(n);
  }

  lemma {:induction false} NumberExactly(s: string)
    ensures Number(s).Some? <==> forall i :: 0 <= i < |s| ==> '0' <= s[i] <= '9'
  {
    if s != "" {
      NumberExactly(s[..|s| - 1]);
      assert s == s[..|s| - 1] + [s[|s| - 1]];
    }
  }

  /** Exactly the non-empty strings of digits whose value fits 64 bits parse, to that value. */
  lemma ParseUintExactly(s: string)
    ensures ParseUint(s).Some? <==>
              s != "" && (forall i :: 0 <= i < |s| ==> '0' <= s[i] <= '9') && Number(s).Some? && Number(s).value < 0x1_0000_0000_0000_0000
    ensures ParseUint(s).Some? ==> ParseUint(s) == Number(s)
  {
    NumberExactly(s);
  }

  lemma DecimalInjective(a: nat, b: nat)
    ensures Decimal(a) == Decimal(b) ==> a == b
  {
    NumberOfDecimal(a);
    NumberOfDecimal(b);
  }

  // ---------------------------------------------------------------- rendering

  function NamePrefix(l: Layout, name: string): string
  {
    l.root + "/" + name
  }

  /** What follows the name in a key. */
  function Tail(l: Layout, k: Key): (t: string)
    ensures t != "" && t[0] == '/'
  {
    match k
    case Active(_) => "/active"
    case Version(_, v) => "/versions/" + Decimal(v) + l.leaf
    case Status(_) => "/status"
  }

  function Render(l: Layout, k: Key): string
  {
    NamePrefix(l, k.name) + Tail(l, k)
  }

  /** The keys as the API server and the controller write them. */
  lemma KeysSpelledOut(n: string, v: nat)
    ensures Render(FLOWS, Active(n)) == "/flowpipe/flows/" + n + "/active"
    ensures Render(FLOWS, Version(n, v)) == "/flowpipe/flows/" + n + "/versions/" + Decimal(v) + "/spec"
    ensures Render(FLOWS, Status(n)) == "/flowpipe/flows/" + n + "/status"
    ensures Render(SCHEMAS, Active(n)) == "/flowpipe/schemas/" + n + "/active"
    ensures Render(SCHEMAS, Version(n, v)) == "/flowpipe/schemas/" + n + "/versions/" + Decimal(v)
  {
    var flows, schemas := "/flowpipe/flows/" + n, "/flowpipe/schemas/" + n;
    assert NamePrefix(FLOWS, n) == flows && NamePrefix(SCHEMAS, n) == schemas;
    assert flows + ("/versions/" + Decimal(v) + "/spec") == flows + "/versions/" + Decimal(v) + "/spec";
    assert schemas + ("/versions/" + Decimal(v) + "") == schemas + "/versions/" + Decimal(v);
  }

  /** A slash-free string followed by a slash determines where the slash is. */
  lemma FirstSlash(a: string, x: string, b: string, y: string)
    requires '/' !in a && '/' !in b && x != "" && y != "" && x[0] == '/' && y[0] == '/'
    requires a + x == b + y
    ensures a == b && x == y
  {
    var s := a + x;
    assert s == b + y;
    assert s[|a|] == '/' && s[|b|] == '/';
    assert forall i :: 0 <= i < |a| ==> s[i] == a[i] && s[i] != '/';
    assert forall i :: 0 <= i < |b| ==> s[i] == b[i] && s[i] != '/';
    assert |a| == |b|;
    assert a == s[..|a|] && b == s[..|b|];
    assert x == s[|a|..] && y == s[|b|..];
  }

  lemma TailInjective(l: Layout, j: Key, k: Key)
    requires ValidLayout(l) && Tail(l, j) == Tail(l, k) && j.name == k.name
    ensures j == k
  {
    var s := Tail(l, j);
    assert s[1] == (match j case Active(_) => 'a' case Version(_, _) => 'v' case Status(_) => 's');
    assert s[1] == (match k case Active(_) => 'a' case Version(_, _) => 'v' case Status(_) => 's');
    if j.Version? && k.Version? {
      var d, e := Decimal(j.number), Decimal(k.number);
      assert |d| == |e|;
      assert d == s[10..10 + |d|] && e == s[10..10 + |e|];
      DecimalInjective(j.number, k.number);
    }
  }

  /** Different keys are different strings. */
  lemma AfterRoot(l: Layout, k: Key)
    ensures |Render(l, k)| > |l.root| && Render(l, k)[|l.root| + 1..] == k.name + Tail(l, k)
  {
  }

  lemma RenderInjective(l: Layout, j: Key, k: Key)
    requires ValidLayout(l) && GoodName(j.name) && GoodName(k.name) && Render(l, j) == Render(l, k)
    ensures j == k
  {
    AfterRoot(l, j);
    AfterRoot(l, k);
    FirstSlash(j.name, Tail(l, j), k.name, Tail(l, k));
    TailInjective(l, j, k);
  }

  /**
   What a delete by prefix of one name's keys hits: exactly the keys of the names that have
   that name as a string prefix, its own and those of longer names.
   */
  lemma NamePrefixCovers(l: Layout, name: string, k: Key)
    requires GoodName(name) && GoodName(k.name)
    ensures NamePrefix(l, name) <= Render(l, k) <==> name <= k.name
  {
    var p, s := NamePrefix(l, name), Render(l, k);
    var r := |l.root| + 1;
    assert s[r..] == k.name + Tail(l, k) && p[r..] == name;
    assert p[..r] == s[..r] == l.root + "/";
    if p <= s {
      assert name <= s[r..];
      assert s[r..][|k.name|] == '/';
      assert forall i :: 0 <= i < |name| ==> s[r..][i] == name[i] && s[r..][i] != '/';
      assert name == s[r..][..|name|] == k.name[..|name|];
    }
    if name <= k.name {
      assert p == s[..|p|];
    }
  }

  lemma RenderSplit(l: Layout, k: Key)
    ensures Render(l, k) == l.root + ("/" + (k.name + Tail(l, k)))
  {
  }

  lemma CancelPrefix(a: string, x: string, y: string)
    ensures a + x <= a + y <==> x <= y
  {
    if a + x <= a + y {
      assert forall i :: 0 <= i < |x| ==> x[i] == (a + x)[|a| + i] == (a + y)[|a| + i] == y[i];
    }
  }

  /** What a range read under a name's versions directory returns: that name's version keys only. */
  lemma VersionsPrefixCovers(l: Layout, name: string, k: Key)
    requires GoodName(name) && GoodName(k.name)
    ensures NamePrefix(l, name) + "/versions/" <= Render(l, k) <==> k.Version? && k.name == name
  {
    var d := "/versions/";
    RenderSplit(l, k);
    assert NamePrefix(l, name) + d == l.root + ("/" + (name + d));
    CancelPrefix(l.root, "/" + (name + d), "/" + (k.name + Tail(l, k)));
    CancelPrefix("/", name + d, k.name + Tail(l, k));
    VersionsTail(l, name, k);
  }

  /** What starts with a name's versions directory is a version of that name. */
  lemma InVersions(l: Layout, name: string, k: Key)
    requires GoodName(name) && GoodName(k.name) && name + "/versions/" <= k.name + Tail(l, k)
    ensures k.Version? && k.name == name
  {
    var d, t := "/versions/", k.name + Tail(l, k);
    var rest := t[|name + d|..];
    assert t == (name + d) + rest == name + (d + rest);
    FirstSlash(k.name, Tail(l, k), name, d + rest);
    assert (d + rest)[1] == 'v';
  }

  lemma VersionsTail(l: Layout, name: string, k: Key)
    requires GoodName(name) && GoodName(k.name)
    ensures name + "/versions/" <= k.name + Tail(l, k) <==> k.Version? && k.name == name
  {
    var d, t := "/versions/", k.name + Tail(l, k);
    if name + d <= t {
      InVersions(l, name, k);
    }
    if k.Version? && k.name == name {
      assert t == (name + d) + (Decimal(k.number) + l.leaf);
    }
  }

  // ---------------------------------------------------------------- reading names back

  predicate HasSuffix(s: string, suffix: string)
  {
    |suffix| <= |s| && s[|s| - |suffix|..] == suffix
  }

  function TrimSuffix(s: string, suffix: string): string
  {
    if HasSuffix(s, suffix) then s[..|s| - |suffix|] else s
  }

  function TrimPrefix(s: string, prefix: string): string
  {
    if prefix <= s then s[|prefix|..] else s
  }

  /** One past the last slash, or 0. */
  function AfterLastSlash(s: string): (i: nat)
    ensures i <= |s|
  {
    if s == "" then 0 else if s[|s| - 1] == '/' then |s| else AfterLastSlash(s[..|s| - 1])
  }

  /** path.Dir and path.Base of a cleaned absolute path of two elements or more. */
  function Dir(s: string): string
  {
    var i := AfterLastSlash(s);
    if i <= 1 then s[..i] else s[..i - 1]
  }

  function Base(s: string): string
  {
    s[AfterLastSlash(s)..]
  }

  lemma {:induction false} LastSlash(a: string, b: string)
    requires '/' !in b
    ensures AfterLastSlash(a + "/" + b) == |a| + 1
    decreases |b|
  {
    var s := a + "/" + b;
    if b == "" {
      assert s[|s| - 1] == '/';
    } else {
      assert s[|s| - 1] == b[|b| - 1];
      LastSlash(a, b[..|b| - 1]);
      assert s[..|s| - 1] == a + "/" + b[..|b| - 1];
    }
  }

  /** The controller filters on the suffix: it holds exactly for active keys. */
  lemma ActiveSuffixExact(k: Key)
    ensures HasSuffix(Render(FLOWS, k), "/active") <==> k.Active?
  {
    var s := Render(FLOWS, k);
    match k
    case Active(_) => assert s[|s| - 7..] == "/active";
    case Version(_, _) => assert s[|s| - 1] == 'c' && "/active"[6] == 'e';
    case Status(_) => assert s[|s| - 1] == 's' && "/active"[6] == 'e';
  }

  /** The controller reads the name as the base of the directory of the key. */
  lemma NameByBase(n: string)
    requires GoodName(n)
    ensures Base(Dir(Render(FLOWS, Active(n)))) == n
  {
    var dir := FLOWS.root + "/" + n;
    var key := dir + "/" + "active";
    LastSlash(dir, "active");
    assert key[..|dir|] == dir;
    LastSlash(FLOWS.root, n);
    assert dir[|FLOWS.root| + 1..] == n;
    assert Render(FLOWS, Active(n)) == key;
  }

  /** The API reads it by trimming the root and the suffix. */
  lemma NameByTrim(n: string)
    ensures TrimSuffix(TrimPrefix(Render(FLOWS, Active(n)), FLOWS.root + "/"), "/active") == n
  {
    var key := Render(FLOWS, Active(n));
    var t := n + "/active";
    assert key == (FLOWS.root + "/") + t;
    assert TrimPrefix(key, FLOWS.root + "/") == t;
    assert t[|t| - 7..] == "/active" && t[..|t| - 7] == n;
  }
}
