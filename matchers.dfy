/**
 * The pure recognisers the call extractor uses to decide how an IrCall is
 * lowered: which class or package a call target belongs to, whether it is a
 * compiler builtin, and, in the order the extractor tests them, which
 * lowering rule applies.
 */
module Matchers {
  import opened Wrappers
  import opened Ir
  import opened Facts
  import opened Uses

  const InternalPackage: string := "kotlin.internal.ir"
  const KotlinPackage: string := "kotlin"

  /**
   * The class `isFunction` matches a target against: the declaring class of
   * a member, or the class of the extension receiver's simple type when that
   * type's nullability is `hasQuestionMark`.
   */
  function TargetClass(target: FunctionSym, hasQuestionMark: bool): (r: Option<ClassSym>)
    ensures target.extensionReceiverType.None? ==> (r.Some? <==> target.parent.ParentClass?)
    ensures target.extensionReceiverType.None? && target.parent.ParentClass? ==> r == Some(target.parent.cls)
    ensures target.extensionReceiverType.Some? && r.Some? ==>
      var t := target.extensionReceiverType.value;
      t.SimpleType? && t.hasQuestionMark == hasQuestionMark && t.classifier == ClassClassifier(r.value)
    ensures target.extensionReceiverType.Some? ==>
      var t := target.extensionReceiverType.value;
      t.SimpleType? && t.hasQuestionMark == hasQuestionMark && t.classifier.ClassClassifier? ==> r == Some(t.classifier.cls)
  {
    match target.extensionReceiverType
    case None => if target.parent.ParentClass? then Some(target.parent.cls) else None
    case Some(t) =>
      if t.SimpleType? && t.hasQuestionMark == hasQuestionMark && t.classifier.ClassClassifier?
      then Some(t.classifier.cls) else None
  }

  /** `isFunction(pkgName, className, fName, hasQuestionMark)` of `extractCall`. */
  predicate IsFunction(target: FunctionSym, pkgName: string, className: string, fName: string, hasQuestionMark: bool)
  {
    target.name == fName &&
    match TargetClass(target, hasQuestionMark)
    case None => false
    case Some(k) => k.name == className && k.parent == PackageFragment(pkgName)
  }

  /** `isNumericFunction`: the function `fName` of one of Kotlin's six numeric classes. */
  predicate IsNumericFunction(target: FunctionSym, fName: string)
  {
    IsFunction(target, KotlinPackage, "Int", fName, false) ||
    IsFunction(target, KotlinPackage, "Byte", fName, false) ||
    IsFunction(target, KotlinPackage, "Short", fName, false) ||
    IsFunction(target, KotlinPackage, "Long", fName, false) ||
    IsFunction(target, KotlinPackage, "Float", fName, false) ||
    IsFunction(target, KotlinPackage, "Double", fName, false)
  }

  /**
   * `isBuiltinCall(c, fName, pName)`: the target has that name and sits
   * directly in package `pName`.  With an extension receiver the package is
   * looked up as the receiver's classifier, which is never a package.
   */
  function IsBuiltinCall(target: FunctionSym, fName: string, pName: string): (r: bool)
    ensures r <==> target.name == fName && target.extensionReceiverType.None? && target.parent == PackageFragment(pName)
  {
    if target.name != fName then false
    else match target.extensionReceiverType
      case None => target.parent.PackageFragment? && target.parent.fqName == pName
      case Some(_) => false
  }

  /** Whether an optional dispatch receiver is a call to internal builtin `fName`, as the `!=` resugaring requires. */
  predicate IsInternalCallTo(dr: Option<Expr>, fName: string)
  {
    dr.Some? && dr.value.node.Call? && IsBuiltinCall(dr.value.node.target, fName, InternalPackage)
  }

  /** `IrType.isAnonymous`: the type's classifier is an anonymous object class. */
  function IsAnonymous(t: IrType): (r: bool)
    ensures r <==> ClassOfType(t).Some? && ClassOfType(t).value.isAnonymousObject
  {
    match t
    case SimpleType(ClassClassifier(c), _, _) => c.isAnonymousObject
    case _ => false
  }

  /** A member function lies in a class, so no member is ever a builtin of some package. */
  lemma MemberIsNotBuiltin(target: FunctionSym, f: string, p: string, pkg: string, cls: string, g: string, q: bool)
    requires IsFunction(target, pkg, cls, g, q) && target.extensionReceiverType.None?
    ensures !IsBuiltinCall(target, f, p)
  {
  }

  /**
   * For a member function the nullability flag of `isFunction` is ignored;
   * for an extension function it must match the receiver, so at most one of
   * the two flags matches.
   */
  lemma IsFunctionNullability(target: FunctionSym, pkg: string, cls: string, f: string)
    ensures target.extensionReceiverType.None? ==>
      (IsFunction(target, pkg, cls, f, true) <==> IsFunction(target, pkg, cls, f, false))
    ensures target.extensionReceiverType.Some? ==>
      !(IsFunction(target, pkg, cls, f, true) && IsFunction(target, pkg, cls, f, false))
  {
  }

  // ---------------------------------------------------------------------
  // The lowering rule of a call
  // ---------------------------------------------------------------------

  /** The branch of `extractCall` a call takes. */
  datatype CallRule =
    /** `binopDisp`: dispatch receiver at 0, first argument at 1. */
    | DispatchBinary(kind: ExprKind)
    /** `String?.plus`: a method access to the `plus` of the String class. */
    | NullableStringPlus
    /** `!(a == b)` and friends, resugared to `!=` over the operands of the inner builtin call. */
    | NegatedEquality
    /** Internal comparison builtins: `binOp` over the two arguments. */
    | BuiltinBinary(kind: ExprKind, expected: Origin, name: string)
    /** `CHECK_NOT_NULL`: `unaryOp` over the single argument. */
    | BuiltinUnary(kind: ExprKind, expected: Origin, name: string)
    | UnhandledBuiltin
    /** `Any?.toString`: a method access to the `toString` of the Any class. */
    | NullableAnyToString
    | SpecialEnumFunction(fnName: string)
    | ArrayOfNulls
    | ArrayBuilder(isArrayOf: bool)
    | PlainCall

  const UnhandledBuiltins: seq<string> :=
    ["THROW_CCE", "THROW_ISE", "noWhenBranchMatchedException", "illegalArgumentException", "ANDAND", "OROR"]

  const ArrayBuilders: seq<string> :=
    ["arrayOf", "doubleArrayOf", "floatArrayOf", "longArrayOf", "intArrayOf",
     "charArrayOf", "shortArrayOf", "byteArrayOf", "booleanArrayOf"]

  /** Whether `!x` over inner builtin `innerName` is resugared, for negation origin `o`. */
  predicate NegatesBuiltin(target: FunctionSym, origin: Origin, o: Origin, dr: Option<Expr>, argCount: nat, innerName: string)
  {
    origin == o && IsFunction(target, KotlinPackage, "Boolean", "not", false) && argCount == 0 && IsInternalCallTo(dr, innerName)
  }

  /** The internal builtin comparisons, in the order `extractCall` tests them. */
  function InternalComparison(target: FunctionSym): Option<CallRule>
  {
    if IsBuiltinCall(target, "less", InternalPackage) then Some(BuiltinBinary(LtExpr, Lt, "LT"))
    else if IsBuiltinCall(target, "lessOrEqual", InternalPackage) then Some(BuiltinBinary(LeExpr, LtEq, "LTEQ"))
    else if IsBuiltinCall(target, "greater", InternalPackage) then Some(BuiltinBinary(GtExpr, Gt, "GT"))
    else if IsBuiltinCall(target, "greaterOrEqual", InternalPackage) then Some(BuiltinBinary(GeExpr, GtEq, "GTEQ"))
    else if IsBuiltinCall(target, "EQEQ", InternalPackage) then Some(BuiltinBinary(EqExpr, EqEq, "EQEQ"))
    else if IsBuiltinCall(target, "EQEQEQ", InternalPackage) then Some(BuiltinBinary(EqExpr, EqEqEq, "EQEQEQ"))
    else if IsBuiltinCall(target, "ieee754equals", InternalPackage) then Some(BuiltinBinary(EqExpr, EqEq, "ieee754equals"))
    else if IsBuiltinCall(target, "CHECK_NOT_NULL", InternalPackage) then Some(BuiltinUnary(NotNullExpr, ExclExcl, "CHECK_NOT_NULL"))
    else None
  }

  /**
   * The `when` of `extractCall`: the first branch whose condition holds.
   * `dr` is the call's dispatch receiver and `argCount` its number of value
   * argument slots.
   */
  function ClassifyCall(target: FunctionSym, origin: Origin, dr: Option<Expr>, argCount: nat): (r: CallRule)
    ensures r.DispatchBinary? ==> origin in {Plus, Minus, Div, Perc}
    ensures r.NegatedEquality? ==> argCount == 0 && dr.Some? && dr.value.node.Call? && origin in {ExclEq, ExclEqEq}
    ensures (r.BuiltinBinary? || r.BuiltinUnary? || r.UnhandledBuiltin?) ==>
      target.extensionReceiverType.None? && target.parent == PackageFragment(InternalPackage)
    ensures (r.SpecialEnumFunction? || r.ArrayOfNulls? || r.ArrayBuilder?) ==>
      target.extensionReceiverType.None? && target.parent == PackageFragment(KotlinPackage)
    ensures r.ArrayBuilder? ==> (r.isArrayOf <==> target.name == "arrayOf")
  {
    if origin == Plus && (IsNumericFunction(target, "plus") || IsFunction(target, KotlinPackage, "String", "plus", false)) then
      DispatchBinary(AddExpr)
    else if IsFunction(target, KotlinPackage, "String", "plus", true) then NullableStringPlus
    else if origin == Minus && IsNumericFunction(target, "minus") then DispatchBinary(SubExpr)
    else if origin == Div && IsNumericFunction(target, "div") then DispatchBinary(DivExpr)
    else if origin == Perc && IsNumericFunction(target, "rem") then DispatchBinary(RemExpr)
    else if NegatesBuiltin(target, origin, ExclEq, dr, argCount, "EQEQ") then NegatedEquality
    else if NegatesBuiltin(target, origin, ExclEqEq, dr, argCount, "EQEQEQ") then NegatedEquality
    else if NegatesBuiltin(target, origin, ExclEq, dr, argCount, "ieee754equals") then NegatedEquality
    else if InternalComparison(target).Some? then InternalComparison(target).value
    else if exists k | 0 <= k < |UnhandledBuiltins| :: IsBuiltinCall(target, UnhandledBuiltins[k], InternalPackage) then UnhandledBuiltin
    else if IsFunction(target, KotlinPackage, "Any", "toString", true) then NullableAnyToString
    else if IsBuiltinCall(target, "enumValues", KotlinPackage) then SpecialEnumFunction("values")
    else if IsBuiltinCall(target, "enumValueOf", KotlinPackage) then SpecialEnumFunction("valueOf")
    else if IsBuiltinCall(target, "arrayOfNulls", KotlinPackage) then ArrayOfNulls
    else if exists k | 0 <= k < |ArrayBuilders| :: IsBuiltinCall(target, ArrayBuilders[k], KotlinPackage) then
      ArrayBuilder(IsBuiltinCall(target, "arrayOf", KotlinPackage))
    else PlainCall
  }

  /**
   * A builtin comparison is lowered by its name alone: a mismatching origin
   * changes only the diagnostic, never the expression kind.
   */
  lemma BuiltinRuleIgnoresOrigin(target: FunctionSym, o1: Origin, o2: Origin, dr1: Option<Expr>, dr2: Option<Expr>, n1: nat, n2: nat)
    requires target.extensionReceiverType.None? && target.parent == PackageFragment(InternalPackage)
    ensures ClassifyCall(target, o1, dr1, n1) == ClassifyCall(target, o2, dr2, n2)
  {
    assert TargetClass(target, true).None? && TargetClass(target, false).None?;
    assert !IsNumericFunction(target, "plus") && !IsNumericFunction(target, "minus");
    assert !IsNumericFunction(target, "div") && !IsNumericFunction(target, "rem");
  }

  /** Each internal comparison builtin yields its expression kind, whatever its origin. */
  lemma ComparisonKinds(target: FunctionSym, origin: Origin, dr: Option<Expr>, n: nat)
    requires target.extensionReceiverType.None? && target.parent == PackageFragment(InternalPackage)
    ensures target.name == "less" ==> ClassifyCall(target, origin, dr, n) == BuiltinBinary(LtExpr, Lt, "LT")
    ensures target.name == "lessOrEqual" ==> ClassifyCall(target, origin, dr, n) == BuiltinBinary(LeExpr, LtEq, "LTEQ")
    ensures target.name == "greater" ==> ClassifyCall(target, origin, dr, n) == BuiltinBinary(GtExpr, Gt, "GT")
    ensures target.name == "greaterOrEqual" ==> ClassifyCall(target, origin, dr, n) == BuiltinBinary(GeExpr, GtEq, "GTEQ")
    ensures target.name == "EQEQ" ==> ClassifyCall(target, origin, dr, n) == BuiltinBinary(EqExpr, EqEq, "EQEQ")
    ensures target.name == "EQEQEQ" ==> ClassifyCall(target, origin, dr, n) == BuiltinBinary(EqExpr, EqEqEq, "EQEQEQ")
    ensures target.name == "ieee754equals" ==> ClassifyCall(target, origin, dr, n) == BuiltinBinary(EqExpr, EqEq, "ieee754equals")
    ensures target.name == "CHECK_NOT_NULL" ==> ClassifyCall(target, origin, dr, n) == BuiltinUnary(NotNullExpr, ExclExcl, "CHECK_NOT_NULL")
  {
    BuiltinRuleIgnoresOrigin(target, origin, NoOrigin, dr, None, n, 0);
  }

  /** A call that matches no recogniser is extracted as a plain method access. */
  lemma UnrecognisedCallIsPlain(target: FunctionSym, origin: Origin, dr: Option<Expr>, n: nat)
    requires target.parent.OtherParent? || target.parent.ParentFunction?
    requires target.extensionReceiverType.None?
    ensures ClassifyCall(target, origin, dr, n) == PlainCall
  {
    assert TargetClass(target, true).None? && TargetClass(target, false).None?;
    assert !IsNumericFunction(target, "plus") && !IsNumericFunction(target, "minus");
    assert !IsNumericFunction(target, "div") && !IsNumericFunction(target, "rem");
  }

  // ---------------------------------------------------------------------
  // getLabel
  // ---------------------------------------------------------------------

  /**
   * The key `getLabel` gives an element: the key its declaration label is
   * interned under, or none for bodies, expressions and unhandled elements.
   */
  function ElementKey(el: Element): (r: Option<string>)
    ensures r.None? <==> el.BodyElement? || el.ExpressionElement? || el.OtherElement?
    ensures el.FileElement? ==>
      r.Some? && |r.value| == |el.path| + 14 &&
      r.value[..2] == "@\"" && r.value[2..|el.path| + 2] == el.path && r.value[|el.path| + 2..] == ";sourcefile\""
    ensures el.ClassElement? ==> r == Some(UseClassSource(el.cls).key)
    ensures el.TypeParameterElement? ==> r == Some(TypeParameterKey(el.tp))
    ensures el.FunctionElement? ==> r == Some(UseFunction(el.fn).key)
    ensures el.ValueParameterElement? ==> r == Some(UseValueParameter(el.vp).key)
    ensures el.FieldElement? ==> r == Some(UseField(el.field).key)
    ensures el.PropertyElement? ==> r == Some(UseProperty(el.prop).key)
    ensures el.EnumEntryElement? ==> r == Some(UseEnumEntry(el.entry).key)
  {
    match el
    case FileElement(path) => Some("@\"" + path + ";sourcefile\"")
    case ClassElement(c) => Some(ClassKey(c))
    case TypeParameterElement(tp) => Some(TypeParameterKey(tp))
    case FunctionElement(f) => Some(FunctionKey(f))
    case ValueParameterElement(vp) => Some(ValueDeclarationKey(ParameterSymOf(vp)))
    case PropertyElement(p) => Some(PropertyKey(p))
    case FieldElement(f) => Some(FieldKey(f))
    case EnumEntryElement(e) => Some(EnumEntryKey(e))
    case BodyElement(_) => None
    case ExpressionElement(_) => None
    case OtherElement(_, _) => None
  }

  /** What `getLabel` logs: only an element of a kind it does not handle. */
  function ElementKeyLog(el: Element): (r: seq<Diagnostic>)
    ensures r != [] <==> ElementKey(el).None? && el.OtherElement?
  {
    if el.OtherElement? then [Diagnostic(ErrorSevere, "Unhandled element type: " + el.className, Some(el.loc))] else []
  }
}
