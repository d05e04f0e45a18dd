/** Values shared by every part of the model: optional values, the error
    taxonomy of the node agent, decimal formatting, 32-bit integers, the
    provider configuration record and the local directory oracle. */
module Common {

  datatype Option<+T> = None | Some(value: T)

  /** The kinds of failure the reconciliation engine distinguishes. */
  datatype Error =
    | NotFound          // pod or record absent from the cache
    | InvalidInput      // empty identifier passed to a runtime call
    | RuntimeFailure    // any error answered by the container runtime
    | LocalIoFailure    // a directory could not be created
    | NilDereference    // the Go code dereferences a nil pointer and panics

  type Int32 = x: int | -0x8000_0000 <= x < 0x8000_0000
  type Uint32 = x: int | 0 <= x < 0x1_0000_0000

  /** Go's conversion `int32(x)` of a 64-bit int: keep the low 32 bits,
      read as two's complement. */
  function ToInt32(x: int): (r: Int32)
    ensures (r - x) % 0x1_0000_0000 == 0
    ensures -0x8000_0000 <= x < 0x8000_0000 ==> r == x
  {
    var low := x % 0x1_0000_0000;
    if low < 0x8000_0000 then low else low - 0x1_0000_0000
  }

  // ---------------------------------------------------------------------
  // Decimal formatting, as done by strconv.Itoa and fmt's %d on values
  // that are never negative here.

  function DigitChar(d: nat): (c: char)
    requires d < 10
    ensures '0' <= c <= '9' && (c as int) - ('0' as int) == d
  {
    (('0' as int) + d) as char
  }

  predicate IsDigits(s: string) {
    forall i :: 0 <= i < |s| ==> '0' <= s[i] <= '9'
  }

  function NatToString(n: nat): (s: string)
    ensures |s| >= 1 && IsDigits(s)
    ensures s[0] == '0' ==> n == 0
    decreases n
  {
    if n < 10 then [DigitChar(n)] else NatToString(n / 10) + [DigitChar(n % 10)]
  }

  /** Reads a string of decimal digits back as a number. */
  function ParseDecimal(s: string): nat
    requires IsDigits(s)
  {
    if s == [] then 0
    else ParseDecimal(s[..|s| - 1]) * 10 + ((s[|s| - 1] as int) - ('0' as int))
  }

  lemma {:induction false} ParseNatToString(n: nat)
    ensures ParseDecimal(NatToString(n)) == n
    decreases n
  {
    if n >= 10 {
      var s := NatToString(n);
      assert s[..|s| - 1] == NatToString(n / 10);
      ParseNatToString(n / 10);
    }
  }

  /** Decimal formatting is injective: distinct numbers print differently. */
  lemma NatToStringInjective(m: nat, n: nat)
    requires NatToString(m) == NatToString(n)
    ensures m == n
  {
    ParseNatToString(m);
    ParseNatToString(n);
  }

  lemma AppendAssociates<T>(a: seq<T>, b: seq<T>, c: seq<T>)
    ensures a + b + c == a + (b + c)
  {
  }

  // ---------------------------------------------------------------------
  // Sequences that enumerate a set once each: the model of Go's
  // unspecified iteration order over a map.

  ghost predicate Distinct<K>(s: seq<K>) {
    forall i, j :: 0 <= i < j < |s| ==> s[i] != s[j]
  }

  ghost predicate Enumerates<K>(order: seq<K>, keys: set<K>) {
    && Distinct(order)
    && (forall i :: 0 <= i < |order| ==> order[i] in keys)
    && (forall k :: k in keys ==> k in order)
  }

  lemma {:induction false} EnumerationLength<K>(order: seq<K>, keys: set<K>)
    requires Enumerates(order, keys)
    ensures |order| == |keys|
    decreases |order|
  {
    if order != [] {
      var last := order[|order| - 1];
      var front := order[..|order| - 1];
      assert last !in front;
      forall k | k in keys - {last} ensures k in front {
        var j :| 0 <= j < |order| && order[j] == k;
        assert j < |order| - 1;
      }
      EnumerationLength(front, keys - {last});
    }
  }

  /** Go's map iteration: an order in which every key is visited exactly
      once, chosen by the runtime. */
  method MapOrder<K, V>(m: map<K, V>) returns (order: seq<K>)
    ensures Enumerates(order, m.Keys)
  {
    var rest := m.Keys;
    order := [];
    while rest != {}
      invariant rest <= m.Keys
      invariant Distinct(order)
      invariant forall i :: 0 <= i < |order| ==> order[i] in m.Keys && order[i] !in rest
      invariant forall k :: k in m.Keys ==> k in rest || k in order
      decreases rest
    {
      var k :| k in rest;
      order := order + [k];
      rest := rest - {k};
    }
  }

  // ---------------------------------------------------------------------
  // The provider configuration (pkg/common/const.go).

  datatype ProviderConfig = ProviderConfig(
    nodeName: string,
    operatingSystem: string,
    daemonEndpointPort: Int32,
    internalIp: string,
    resourceCpu: string,
    resourceMemory: string,
    maxPod: string)

  // ---------------------------------------------------------------------
  // Local directories: os.MkdirAll and os.RemoveAll as an oracle that
  // fails on a fixed set of operations and logs every operation.

  datatype DiskOp = MkdirAll(path: string) | RemoveAll(path: string)

  /** The root with its trailing separators dropped, keeping a lone "/":
      the part of filepath.Clean that a root directory needs. */
  function TrimSlashes(s: string): (t: string)
    ensures |t| <= |s| && t == s[..|t|]
    ensures (t == "") == (s == "")
    ensures forall i :: |t| <= i < |s| ==> s[i] == '/'
    ensures |t| > 1 ==> t[|t| - 1] != '/'
    decreases |s|
  {
    if |s| > 1 && s[|s| - 1] == '/' then TrimSlashes(s[..|s| - 1]) else s
  }

  /** filepath.Join(root, name) for a root directory and a pod UID. An
      empty element is dropped, so an empty root gives the name and an
      empty name the cleaned root; otherwise the root loses its trailing
      separators and exactly one '/' precedes the name. */
  function JoinPath(root: string, name: string): (p: string)
    ensures |p| >= |name| && p[|p| - |name|..] == name
    ensures root == "" ==> p == name
    ensures name == "" ==> p == TrimSlashes(root)
  {
    if root == "" then name
    else if name == "" then TrimSlashes(root)
    else
      var dir := TrimSlashes(root);
      if dir == "/" then "/" + name else dir + "/" + name
  }

  /** With both elements present, the path is the root without its trailing
      separators, exactly one '/', and the name. */
  lemma JoinPathShape(root: string, name: string)
    requires root != "" && name != ""
    ensures var p := JoinPath(root, name);
      && |p| > |name| && p[|p| - |name|..] == name
      && p[|p| - |name| - 1] == '/'
      && var dir := p[..|p| - |name| - 1];
      && |dir| <= |root| && dir == root[..|dir|]
      && (forall i :: |dir| <= i < |root| ==> root[i] == '/')
      && (dir == "" || dir[|dir| - 1] != '/')
  {
    var dir := TrimSlashes(root);
    var p := JoinPath(root, name);
    if dir == "/" {
      assert p[..|p| - |name| - 1] == "";
    } else {
      assert p[..|p| - |name| - 1] == dir;
    }
  }

  /** Under one root, different UIDs name different directories. */
  lemma JoinPathInjective(root: string, a: string, b: string)
    requires JoinPath(root, a) == JoinPath(root, b)
    ensures a == b
  {
    var pa, pb := JoinPath(root, a), JoinPath(root, b);
    if root != "" {
      var dir := TrimSlashes(root);
      var prefix := if dir == "/" then "/" else dir + "/";
      if a != "" && b != "" {
        assert pa == prefix + a && pb == prefix + b;
        assert a == pa[|prefix|..] && b == pb[|prefix|..];
      }
    }
  }

  class Disk {
    const failing: set<DiskOp>
    ghost var log: seq<DiskOp>

    constructor (failing: set<DiskOp>)
      ensures this.failing == failing && log == []
    {
      this.failing := failing;
      log := [];
    }

    method MkdirAllDir(path: string) returns (err: Option<Error>)
      modifies this`log
      ensures log == old(log) + [MkdirAll(path)]
      ensures err == if MkdirAll(path) in failing then Some(LocalIoFailure) else None
    {
      log := log + [MkdirAll(path)];
      err := if MkdirAll(path) in failing then Some(LocalIoFailure) else None;
    }

    method RemoveAllDir(path: string) returns (err: Option<Error>)
      modifies this`log
      ensures log == old(log) + [RemoveAll(path)]
      ensures err == if RemoveAll(path) in failing then Some(LocalIoFailure) else None
    {
      log := log + [RemoveAll(path)];
      err := if RemoveAll(path) in failing then Some(LocalIoFailure) else None;
    }
  }
}
