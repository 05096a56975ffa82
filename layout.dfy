/**
 * Where the extractor places things: child indices under a call or a type
 * operator, the parameter-signature string of a callable, the key of a
 * fabricated object-instance field, and the contents of an `<obinit>` body.
 */
module Layout {
  import opened Wrappers
  import opened Ir
  import opened Facts

  // ---------------------------------------------------------------------
  // Child indices
  // ---------------------------------------------------------------------

  /** Index of type argument `k` when type arguments start at `start`, counting down when `reverse`. */
  function TypeArgumentIndex(k: nat, start: int, reverse: bool): (r: int)
    ensures reverse ==> r == start - k
    ensures !reverse ==> r == start + k
  {
    k * (if reverse then -1 else 1) + start
  }

  /** Index of value argument `i` of a method access: shifted by one when an extension receiver takes index 0. */
  function ValueArgumentIndex(i: nat, hasExtensionReceiver: bool): (r: int)
    ensures r >= 0 && (hasExtensionReceiver ==> r >= 1)
  {
    i + (if hasExtensionReceiver then 1 else 0)
  }

  /** The children of a method access. */
  datatype CallChild =
    | TypeArgument(k: nat)
    | DispatchReceiver
    | ExtensionReceiver
    | ValueArgument(i: nat)

  const DispatchReceiverIndex: int := -1
  const ExtensionReceiverIndex: int := 0
  const MethodTypeArgumentStart: int := -2

  function MethodAccessIndex(ch: CallChild, hasExtensionReceiver: bool): int
  {
    match ch
    case TypeArgument(k) => TypeArgumentIndex(k, MethodTypeArgumentStart, true)
    case DispatchReceiver => DispatchReceiverIndex
    case ExtensionReceiver => ExtensionReceiverIndex
    case ValueArgument(i) => ValueArgumentIndex(i, hasExtensionReceiver)
  }

  /** A child a method access can have: the extension receiver only when there is one. */
  predicate ValidChild(ch: CallChild, hasExtensionReceiver: bool)
  {
    ch.ExtensionReceiver? ==> hasExtensionReceiver
  }

  /** No two children of a method access share an index. */
  lemma MethodAccessIndicesDistinct(a: CallChild, b: CallChild, hasExt: bool)
    requires ValidChild(a, hasExt) && ValidChild(b, hasExt) && a != b
    ensures MethodAccessIndex(a, hasExt) != MethodAccessIndex(b, hasExt)
  {
  }

  /** The children of a constructor call (`new` expression). */
  datatype NewChild =
    | NewArgument(i: nat)
    | NewDispatchReceiver
    | NewTypeAccess

  const NewDispatchReceiverIndex: int := -2
  const NewTypeAccessIndex: int := -3

  function NewExprIndex(ch: NewChild): int
  {
    match ch
    case NewArgument(i) => i
    case NewDispatchReceiver => NewDispatchReceiverIndex
    case NewTypeAccess => NewTypeAccessIndex
  }

  lemma NewExprIndicesDistinct(a: NewChild, b: NewChild)
    requires a != b
    ensures NewExprIndex(a) != NewExprIndex(b)
  {
  }

  /** Where a type operator call puts its type access and its operand, and as what kind of expression. */
  datatype OperatorLayout = OperatorLayout(kind: ExprKind, typeAccessIndex: int, operandIndex: int)

  /**
   * Casts of every flavour put the type first; `is` and `!is` put the
   * operand first.  Other operators are not extracted.
   */
  function TypeOperatorLayout(op: TypeOperator): (r: Option<OperatorLayout>)
    ensures r.Some? <==> op in {Cast, ImplicitCast, ImplicitNotNull, ImplicitCoercionToUnit, SafeCast, InstanceOf, NotInstanceOf}
    ensures r.Some? ==> {r.value.typeAccessIndex, r.value.operandIndex} == {0, 1}
    ensures r.Some? ==> (r.value.kind == CastExpr <==> r.value.typeAccessIndex == 0)
  {
    match op
    case Cast => Some(OperatorLayout(CastExpr, 0, 1))
    case ImplicitCast => Some(OperatorLayout(CastExpr, 0, 1))
    case ImplicitNotNull => Some(OperatorLayout(CastExpr, 0, 1))
    case ImplicitCoercionToUnit => Some(OperatorLayout(CastExpr, 0, 1))
    case SafeCast => Some(OperatorLayout(CastExpr, 0, 1))
    case InstanceOf => Some(OperatorLayout(InstanceOfExpr, 1, 0))
    case NotInstanceOf => Some(OperatorLayout(NotInstanceOfExpr, 1, 0))
    case _ => None
  }

  // ---------------------------------------------------------------------
  // Parameter signatures
  // ---------------------------------------------------------------------

  /** `joinToString(separator = ",")`. */
  function Join(xs: seq<string>): string
    decreases |xs|
  {
    if |xs| == 0 then "" else if |xs| == 1 then xs[0] else xs[0] + "," + Join(xs[1..])
  }

  /** The parameter signature of a callable: its parameters' Java signatures, comma-separated, in parentheses. */
  function ParamsSignature(sigs: seq<string>): (r: string)
    ensures |r| >= 2 && r[0] == '(' && r[|r| - 1] == ')'
    ensures r[1..|r| - 1] == Join(sigs)
  {
    "(" + Join(sigs) + ")"
  }

  predicate NoComma(s: string)
  {
    forall k | 0 <= k < |s| :: s[k] != ','
  }

  /** Splitting at commas: the inverse of `Join` on items without commas. */
  function Split(s: string): (r: seq<string>)
    ensures |r| >= 1
    decreases |s|
  {
    SplitFrom(s, "")
  }

  /** Splitting `s` when `acc` has already been read into the current item. */
  function SplitFrom(s: string, acc: string): (r: seq<string>)
    ensures |r| >= 1
    decreases |s|
  {
    if |s| == 0 then [acc]
    else if s[0] == ',' then [acc] + SplitFrom(s[1..], "")
    else SplitFrom(s[1..], acc + [s[0]])
  }

  lemma {:induction false} SplitFromItem(x: string, rest: string, acc: string)
    requires NoComma(x)
    ensures SplitFrom(x + rest, acc) == SplitFrom(rest, acc + x)
    decreases |x|
  {
    if |x| > 0 {
      assert (x + rest)[0] == x[0];
      assert (x + rest)[1..] == x[1..] + rest;
      SplitFromItem(x[1..], rest, acc + [x[0]]);
      assert acc + [x[0]] + x[1..] == acc + x;
    } else {
      assert x + rest == rest;
      assert acc + x == acc;
    }
  }

  /** Reading the parameter list back out of a signature gives the parameters' signatures. */
  lemma {:induction false} SplitJoin(xs: seq<string>)
    requires |xs| >= 1
    requires forall k | 0 <= k < |xs| :: NoComma(xs[k])
    ensures Split(Join(xs)) == xs
    decreases |xs|
  {
    if |xs| == 1 {
      SplitFromItem(xs[0], "", "");
      assert xs[0] + "" == xs[0] && "" + xs[0] == xs[0];
      assert SplitFrom("", xs[0]) == [xs[0]];
      assert [xs[0]] == xs;
    } else {
      var rest := Join(xs[1..]);
      SplitFromItem(xs[0], "," + rest, "");
      assert ("," + rest)[0] == ',' && ("," + rest)[1..] == rest;
      assert xs[0] + "," + rest == xs[0] + ("," + rest);
      assert "" + xs[0] == xs[0];
      assert SplitFrom("," + rest, xs[0]) == [xs[0]] + SplitFrom(rest, "");
      SplitJoin(xs[1..]);
      assert [xs[0]] + xs[1..] == xs;
    }
  }

  // ---------------------------------------------------------------------
  // Object-instance fields
  // ---------------------------------------------------------------------

  const InstanceName: string := "INSTANCE"

  /** The key of the static field holding an object instance: the owning class label and the field name. */
  function InstanceFieldKey(owner: Label, name: string): (k: string)
    ensures |k| > |name| && k[|k| - |name| - 1..|k| - 1] == name
  {
    var prefix := "@\"field;{" + LabelText(owner) + "};";
    assert (prefix + name + "\"")[|prefix|..|prefix| + |name|] == name;
    prefix + name + "\""
  }

  /** Within one owner, distinct field names give distinct instance keys. */
  lemma InstanceFieldKeyInjective(owner: Label, n1: string, n2: string)
    requires InstanceFieldKey(owner, n1) == InstanceFieldKey(owner, n2)
    ensures n1 == n2
  {
    var p := "@\"field;{" + LabelText(owner) + "};";
    assert InstanceFieldKey(owner, n1) == p + n1 + "\"";
    assert InstanceFieldKey(owner, n2) == p + n2 + "\"";
    assert |n1| == |n2|;
  }

  // ---------------------------------------------------------------------
  // The <obinit> body
  // ---------------------------------------------------------------------

  /** One entry of a class's object initializer body. */
  datatype ObinitItem =
    /** An assignment of a property's initializer to its backing field. */
    | FieldInitializer(prop: PropertyDecl, field: FieldDecl, init: Expr)
    /** A statement of an instance `init` block. */
    | InitStatement(s: Statement)

  /** The statements of an instance `init` block as `<obinit>` entries, in order. */
  function InitItems(ss: seq<Statement>): (r: seq<ObinitItem>)
    ensures |r| == |ss| && forall k | 0 <= k < |ss| :: r[k] == InitStatement(ss[k])
  {
    seq(|ss|, k requires 0 <= k < |ss| => InitStatement(ss[k]))
  }

  /** The entries one declaration contributes: non-static initialized backing fields and non-static init blocks. */
  function DeclObinitItems(d: Decl): (r: seq<ObinitItem>)
    ensures d.PropertyDeclaration? ==> |r| <= 1
    ensures d.PropertyDeclaration? ==>
      var bf := d.p.backingField;
      (|r| == 1 <==> bf.Some? && !bf.value.sym.isStatic && bf.value.initializer.Some?) &&
      (|r| == 1 ==> r[0] == FieldInitializer(d.p, bf.value, bf.value.initializer.value))
    ensures !(d.PropertyDeclaration? || d.AnonymousInitializer?) ==> r == []
    ensures d.AnonymousInitializer? ==> (if d.isStatic then r == [] else |r| == |d.body| && r == InitItems(d.body))
  {
    match d
    case PropertyDeclaration(p) =>
      if p.backingField.Some? && !p.backingField.value.sym.isStatic && p.backingField.value.initializer.Some?
      then [FieldInitializer(p, p.backingField.value, p.backingField.value.initializer.value)]
      else []
    case AnonymousInitializer(isStatic, ss, _) =>
      if isStatic then [] else InitItems(ss)
    case _ => []
  }

  /** The entries of the `<obinit>` body of a class with declarations `ds`, in declaration order. */
  function ObinitItems(ds: seq<Decl>): seq<ObinitItem>
    decreases |ds|
  {
    if |ds| == 0 then [] else ObinitItems(ds[..|ds| - 1]) + DeclObinitItems(ds[|ds| - 1])
  }
}
