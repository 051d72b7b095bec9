/**
 * The saved analysis state, seen as a read-only tree of named groups and
 * datasets, and the access layer the validators use to read it. Every
 * accessor is total: a missing child, a child of the wrong kind, type or
 * shape, or a payload that does not match its shape is a failure.
 */
module Containers {
  import opened Wrappers
  import opened Sequences

  datatype DType = IntegerType | FloatType | StringType

  /**
   * A group lists its children in enumeration order. A dataset has a type
   * tag, a shape (the empty shape is a scalar) and its values flattened in
   * row-major order; float values are never read, so only integer and
   * string payloads are kept.
   */
  datatype Node =
    | Group(children: seq<(string, Node)>)
    | Dataset(dtype: DType, shape: seq<nat>, ints: seq<int>, strings: seq<string>)

  /**
   * A validation failure: the innermost message, and the context frames
   * that the enclosing phases prepended, outermost first.
   */
  datatype Error = Error(message: string, context: seq<string>)

  type Checked<T> = Result<T, Error>

  function Fail<T>(message: string): (r: Checked<T>)
    ensures r.Failure? && r.error.context == []
  {
    Failure(Error(message, []))
  }

  /** The same failure, seen from one level further out. */
  function AddFrame(e: Error, frame: string): (w: Error)
    ensures w.message == e.message && w.context == [frame] + e.context
  {
    Error(e.message, [frame] + e.context)
  }

  /** Adds one context frame in front of a failure; a success passes through. */
  function Wrap<T>(r: Checked<T>, frame: string): (w: Checked<T>)
    ensures w.Success? <==> r.Success?
    ensures r.Success? ==> w.value == r.value
    ensures r.Failure? ==> w.error == AddFrame(r.error, frame)
  {
    if r.Success? then r else Failure(AddFrame(r.error, frame))
  }

  /** The first entry named `name`, in enumeration order. */
  function FindIn(entries: seq<(string, Node)>, name: string): Option<Node> {
    if |entries| == 0 then None
    else if entries[0].0 == name then Some(entries[0].1)
    else FindIn(entries[1..], name)
  }

  /** A lookup by name finds the first entry of that name, and fails only when there is none. */
  lemma {:induction false} FindInFirst(entries: seq<(string, Node)>, name: string)
    ensures FindIn(entries, name).None? <==> forall i :: 0 <= i < |entries| ==> entries[i].0 != name
    ensures FindIn(entries, name).Some? ==>
      exists i :: 0 <= i < |entries| && entries[i] == (name, FindIn(entries, name).value)
                  && forall j :: 0 <= j < i ==> entries[j].0 != name
  {
    if |entries| > 0 && entries[0].0 != name {
      FindInFirst(entries[1..], name);
      assert forall i :: 1 <= i < |entries| ==> entries[i] == entries[1..][i - 1];
      if FindIn(entries, name).Some? {
        var i :| 0 <= i < |entries[1..]| && entries[1..][i] == (name, FindIn(entries, name).value)
                 && forall j :: 0 <= j < i ==> entries[1..][j].0 != name;
        assert entries[i + 1] == (name, FindIn(entries, name).value);
      }
    }
  }

  function Child(n: Node, name: string): Option<Node> {
    if n.Group? then FindIn(n.children, name) else None
  }

  predicate Exists(n: Node, name: string) {
    Child(n, name).Some?
  }

  /** A child found by name is one of the group's entries. */
  lemma ChildIsListed(n: Node, name: string)
    requires Exists(n, name)
    ensures name in Elements(ChildNames(n))
  {
    FindInFirst(n.children, name);
    var i :| 0 <= i < |n.children| && n.children[i] == (name, FindIn(n.children, name).value)
             && forall j :: 0 <= j < i ==> n.children[j].0 != name;
    assert ChildNames(n)[i] == name;
  }

  /**
   * A group with exactly as many children as there are distinct expected
   * names, each of which it holds, has no other children and no repeated
   * child name.
   */
  lemma {:induction false} ChildrenAreExactly(n: Node, names: seq<string>)
    requires Distinct(names) && NumChildren(n) == |names|
    requires forall k :: 0 <= k < |names| ==> Exists(n, names[k])
    ensures Elements(ChildNames(n)) == Elements(names)
    ensures Distinct(ChildNames(n))
  {
    forall v | v in Elements(names)
      ensures v in Elements(ChildNames(n))
    {
      var k :| 0 <= k < |names| && names[k] == v;
      ChildIsListed(n, names[k]);
    }
    DistinctElementsCount(names);
    ElementsCountBound(ChildNames(n));
    SubsetCount(Elements(names), Elements(ChildNames(n)));
    SubsetOfSameSize(Elements(names), Elements(ChildNames(n)));
    ElementsCountDistinct(ChildNames(n));
  }

  function NumChildren(n: Node): nat {
    if n.Group? then |n.children| else 0
  }

  /** The names of a group's children, in enumeration order. */
  function ChildNames(n: Node): (names: seq<string>)
    ensures |names| == NumChildren(n)
    ensures n.Group? ==> forall i :: 0 <= i < |names| ==> names[i] == n.children[i].0
  {
    if n.Group? then seq(|n.children|, i requires 0 <= i < |n.children| => n.children[i].0) else []
  }

  function OpenGroup(n: Node, name: string): (r: Checked<Node>)
    ensures r.Success? <==> Child(n, name).Some? && Child(n, name).value.Group?
    ensures r.Success? ==> r.value == Child(n, name).value
  {
    match Child(n, name)
    case Some(g) => if g.Group? then Success(g) else Fail("'" + name + "' is not a group")
    case None => Fail("missing group '" + name + "'")
  }

  function OpenDataset(n: Node, name: string, dtype: DType): (r: Checked<Node>)
    ensures r.Success? <==> Child(n, name).Some? && Child(n, name).value.Dataset?
                            && Child(n, name).value.dtype == dtype
    ensures r.Success? ==> r.value == Child(n, name).value
  {
    match Child(n, name)
    case Some(d) =>
      if !d.Dataset? then Fail("'" + name + "' is not a dataset")
      else if d.dtype != dtype then Fail("'" + name + "' has the wrong type")
      else Success(d)
    case None => Fail("missing dataset '" + name + "'")
  }

  /** Opens a dataset and insists on its exact shape (`[]` for a scalar). */
  function OpenShaped(n: Node, name: string, dtype: DType, dims: seq<int>): (r: Checked<Node>)
    ensures r.Success? <==> OpenDataset(n, name, dtype).Success? && Child(n, name).value.shape == dims
    ensures r.Success? ==> r.value == Child(n, name).value
  {
    var d :- OpenDataset(n, name, dtype);
    if d.shape == dims then Success(d) else Fail("'" + name + "' has the wrong dimensions")
  }

  /** A scalar string dataset's value. */
  function StringScalar(d: Node): (r: Checked<string>)
    ensures r.Success? <==> d.Dataset? && d.dtype == StringType && d.shape == [] && |d.strings| == 1
    ensures r.Success? ==> r.value == d.strings[0]
  {
    if d.Dataset? && d.dtype == StringType && d.shape == [] && |d.strings| == 1
    then Success(d.strings[0]) else Fail("expected a scalar string")
  }

  /** A one-dimensional string dataset's values. */
  function StringVector(d: Node): (r: Checked<seq<string>>)
    ensures r.Success? <==> d.Dataset? && d.dtype == StringType && |d.shape| == 1 && |d.strings| == d.shape[0]
    ensures r.Success? ==> r.value == d.strings
  {
    if d.Dataset? && d.dtype == StringType && |d.shape| == 1 && |d.strings| == d.shape[0]
    then Success(d.strings) else Fail("expected a one-dimensional string dataset")
  }

  function IntScalar(d: Node): (r: Checked<int>)
    ensures r.Success? <==> d.Dataset? && d.dtype == IntegerType && d.shape == [] && |d.ints| == 1
    ensures r.Success? ==> r.value == d.ints[0]
  {
    if d.Dataset? && d.dtype == IntegerType && d.shape == [] && |d.ints| == 1
    then Success(d.ints[0]) else Fail("expected a scalar integer")
  }

  function IntVector(d: Node): (r: Checked<seq<int>>)
    ensures r.Success? <==> d.Dataset? && d.dtype == IntegerType && |d.shape| == 1 && |d.ints| == d.shape[0]
    ensures r.Success? ==> r.value == d.ints
  {
    if d.Dataset? && d.dtype == IntegerType && |d.shape| == 1 && |d.ints| == d.shape[0]
    then Success(d.ints) else Fail("expected a one-dimensional integer dataset")
  }

  function LoadString(n: Node, name: string): (r: Checked<string>)
    ensures r.Success? ==> Child(n, name).Some? && r == StringScalar(Child(n, name).value)
  {
    var d :- OpenDataset(n, name, StringType);
    StringScalar(d)
  }

  function LoadStringVector(n: Node, name: string): (r: Checked<seq<string>>)
    ensures r.Success? ==> Child(n, name).Some? && r == StringVector(Child(n, name).value)
  {
    var d :- OpenDataset(n, name, StringType);
    StringVector(d)
  }

  function LoadIntScalar(n: Node, name: string): (r: Checked<int>)
    ensures r.Success? ==> Child(n, name).Some? && r == IntScalar(Child(n, name).value)
  {
    var d :- OpenDataset(n, name, IntegerType);
    IntScalar(d)
  }

  function LoadIntVector(n: Node, name: string): (r: Checked<seq<int>>)
    ensures r.Success? ==> Child(n, name).Some? && r == IntVector(Child(n, name).value)
  {
    var d :- OpenDataset(n, name, IntegerType);
    IntVector(d)
  }

  /** An unsigned scalar (a byte offset or size): a negative value cannot be read. */
  function LoadCount(n: Node, name: string): (r: Checked<nat>)
    ensures r.Success? <==> LoadIntScalar(n, name).Success? && LoadIntScalar(n, name).value >= 0
    ensures r.Success? ==> r.value == LoadIntScalar(n, name).value
  {
    var v :- LoadIntScalar(n, name);
    if v >= 0 then Success(v) else Fail("'" + name + "' should be non-negative")
  }

  predicate IsDigits(s: string) {
    forall i :: 0 <= i < |s| ==> '0' <= s[i] <= '9'
  }

  /** The decimal successor of a string of digits. */
  function Increment(s: string): (t: string)
    requires IsDigits(s)
    ensures IsDigits(t) && |t| >= 1
  {
    if s == [] then "1"
    else if s[|s| - 1] == '9' then Increment(s[..|s| - 1]) + "0"
    else s[..|s| - 1] + [(s[|s| - 1] as int + 1) as char]
  }

  /**
   * Decimal rendering of a record index, as the records of a group are named;
   * built by counting up from "0" so that no division is involved.
   */
  function NatToString(n: nat): (s: string)
    ensures IsDigits(s) && |s| >= 1
  {
    if n == 0 then "0" else Increment(NatToString(n - 1))
  }

  /** The number a string of decimal digits denotes. */
  function DecimalValue(s: string): nat
    requires IsDigits(s)
  {
    if s == [] then 0 else 10 * DecimalValue(s[..|s| - 1]) + (s[|s| - 1] as int - '0' as int)
  }

  lemma {:induction false} IncrementValue(s: string)
    requires IsDigits(s)
    ensures DecimalValue(Increment(s)) == DecimalValue(s) + 1
  {
    if s != [] {
      var p := s[..|s| - 1];
      var t := Increment(s);
      assert t[..|t| - 1] == (if s[|s| - 1] == '9' then Increment(p) else p);
      if s[|s| - 1] == '9' {
        IncrementValue(p);
      }
    }
  }

  /** The rendering denotes the number it renders ... */
  lemma {:induction false} NatToStringStep(n: nat)
    requires n > 0
    ensures DecimalValue(NatToString(n)) == DecimalValue(NatToString(n - 1)) + 1
  {
    var prev := NatToString(n - 1);
    IncrementValue(prev);
  }

  lemma {:induction false} NatToStringValue(n: nat)
    ensures DecimalValue(NatToString(n)) == n
  {
    var k := 0;
    while k < n
      invariant k <= n && DecimalValue(NatToString(k)) == k
    {
      NatToStringStep(k + 1);
      k := k + 1;
    }
  }

  /** A rendering that is not `0` does not start with a zero digit. */
  predicate NoLeadingZero(s: string) {
    |s| >= 1 && (s[0] == '0' ==> s == "0")
  }

  lemma {:induction false} IncrementNoLeadingZero(s: string)
    requires IsDigits(s) && (s == [] || s[0] != '0')
    ensures Increment(s)[0] != '0'
  {
    if s != [] {
      var p := s[..|s| - 1];
      if s[|s| - 1] == '9' {
        IncrementNoLeadingZero(p);
      }
    }
  }

  /** Renderings are in canonical form, as a standard decimal conversion produces. */
  lemma {:induction false} NatToStringCanonical(n: nat)
    ensures NoLeadingZero(NatToString(n))
  {
    if n > 1 {
      NatToStringCanonical(n - 1);
      IncrementNoLeadingZero(NatToString(n - 1));
    }
  }

  /** ... so distinct record indices name distinct records. */
  lemma NatToStringInjective(a: nat, b: nat)
    ensures NatToString(a) == NatToString(b) <==> a == b
  {
    NatToStringValue(a);
    NatToStringValue(b);
  }
}
