/**
 * The tuples the extractor writes for one construct, as functions of the
 * construct and the labels it is given, with what is proved about them.
 */
module Emission {
  import opened Wrappers
  import opened Ir
  import opened Facts
  import opened Uses
  import opened Layout
  import opened Matchers
  import opened Steps

  /** The four tuples every expression entity opens with. */
  function ExprHead(kind: ExprKind, id: Label, t: TypeResults, parent: Label, idx: int, loc: Label, callable: Label, encl: Label): seq<Fact>
  {
    [Fact.Expr(kind, id, t.javaId, t.kotlinId, parent, idx), HasLocation(id, loc), CallableEnclosingExpr(id, callable), StatementEnclosingExpr(id, encl)]
  }

  /** The four tuples opening an expression hang at its own slot. */
  lemma ExprHeadAttached(kind: ExprKind, id: Label, t: TypeResults, parent: Label, idx: int, loc: Label, callable: Label, encl: Label, bound: nat)
    ensures AllAttach(ExprHead(kind, id, t, parent, idx, loc, callable, encl), bound, parent, idx, idx + 1)
  {
  }

  /** Tuples that extend `pre` with an expression's head open that expression's slot. */
  lemma ExprHeadOpens(pre: seq<Fact>, s: seq<Fact>, kind: ExprKind, id: Label, t: TypeResults, parent: Label, idx: int, loc: Label, callable: Label, encl: Label)
    requires pre + ExprHead(kind, id, t, parent, idx, loc, callable, encl) <= s
    ensures Opens(s, |pre|, parent, idx)
  {
    assert s[|pre|] == ExprHead(kind, id, t, parent, idx, loc, callable, encl)[0];
    OpensAt(s, |pre|, |pre|, parent, idx);
  }

  /** A constructor call's own tuples hang at its slot. */
  lemma NewExprFactsAttached(e: Ir.Expr, id: Label, parent: Label, idx: int, callable: Label, encl: Label, bound: nat)
    requires e.node.ConstructorCall? || e.node.EnumConstructorCall?
    ensures AllAttach(NewExprFacts(e, id, parent, idx, callable, encl), bound, parent, idx, idx + 1)
  {
    var t := NewExprType(e);
    var head := ExprHead(NewExpr, id, t, parent, idx, GetLocation(e.loc), callable, encl);
    var anon: seq<Fact> := if IsAnonymous(e.typ) then [IsAnonymClass(t.javaId, id)] else [];
    ExprHeadAttached(NewExpr, id, t, parent, idx, GetLocation(e.loc), callable, encl, bound);
    AllAttachConcat(anon, head, bound, parent, idx, idx + 1);
    AllAttachConcat(anon + head, [CallableBinding(id, UseFunction(e.node.target))], bound, parent, idx, idx + 1);
  }

  /** Tuples that extend `pre` with a constructor call's own tuples open the call's slot. */
  lemma NewExprOpens(pre: seq<Fact>, s: seq<Fact>, e: Ir.Expr, id: Label, parent: Label, idx: int, callable: Label, encl: Label)
    requires e.node.ConstructorCall? || e.node.EnumConstructorCall?
    requires pre + NewExprFacts(e, id, parent, idx, callable, encl) <= s
    ensures Opens(s, |pre|, parent, idx)
  {
    var k := if IsAnonymous(e.typ) then 1 else 0;
    assert s[|pre| + k] == NewExprFacts(e, id, parent, idx, callable, encl)[k];
    OpensAt(s, |pre|, |pre| + k, parent, idx);
  }

  /** The tuples `extractBreakContinue` writes for jump `e` given the loop map `m`. */
  function BreakContinueFacts(e: Ir.Expr, id: Label, m: map<LoopRef, Label>): seq<Fact>
    requires e.node.Break? || e.node.Continue?
  {
    [HasLocation(id, GetLocation(e.loc))] +
    (match e.node.loopLabel case Some(name) => [Namestrings(name, "", id)] case None => []) +
    (if e.node.loop in m then [KtBreakContinueTargets(id, m[e.node.loop])] else [])
  }

  /** The diagnostic a jump out of a loop that is not being extracted gets. */
  function BreakContinueLog(e: Ir.Expr, m: map<LoopRef, Label>): seq<Diagnostic>
    requires e.node.Break? || e.node.Continue?
  {
    if e.node.loop in m then [] else [Diagnostic(ErrorSevere, "Missing break/continue target", Some(e.loc))]
  }

  /** A read of the receiver parameter (index -1) is a `this` access. */
  predicate IsThisReceiver(d: ValueDecl)
  {
    d.ValueParameterSym? && d.index == -1
  }

  /** The kind of literal a constant becomes. */
  function LiteralKind(c: ConstValue): (k: ExprKind)
    requires !c.OtherValue?
    ensures k == IntegerLiteral <==> c.IntValue? || c.ShortValue? || c.ByteValue?
    ensures k == NullLiteral <==> c.NullValue?
  {
    match c
    case IntValue(_) => IntegerLiteral
    case ShortValue(_) => IntegerLiteral
    case ByteValue(_) => IntegerLiteral
    case LongValue(_) => LongLiteral
    case FloatValue(_) => FloatingPointLiteral
    case DoubleValue(_) => DoubleLiteral
    case BooleanValue(_) => BooleanLiteral
    case CharValue(_) => CharacterLiteral
    case StringValue(_) => StringLiteral
    case NullValue => NullLiteral
  }

  /** `v.toString()` of a non-null constant, the text stored with its literal. */
  function LiteralText(c: ConstValue): string
    requires !c.OtherValue? && !c.NullValue?
  {
    match c
    case IntValue(i) => IntText(i)
    case ShortValue(i) => IntText(i)
    case ByteValue(i) => IntText(i)
    case LongValue(i) => IntText(i)
    case FloatValue(t) => t
    case DoubleValue(t) => t
    case BooleanValue(b) => if b then "true" else "false"
    case CharValue(ch) => [ch]
    case StringValue(s) => s
  }

  /** The integer a literal's text denotes, read back as `toString` wrote it. */
  function ReadIntText(s: string): int
  {
    if |s| > 0 && s[0] == '-' then 0 - (DigitsValue(s[1..]) as int) else DigitsValue(s)
  }

  /** Integer literals keep their value: the stored text reads back to the constant. */
  lemma IntegerLiteralRoundTrip(c: ConstValue)
    requires c.IntValue? || c.ShortValue? || c.ByteValue? || c.LongValue?
    ensures ReadIntText(LiteralText(c)) == c.i
  {
    IntTextRoundTrip(c.i);
  }

  /** Boolean, character and string literals store exactly the constant. */
  lemma LiteralTextExact(c: ConstValue)
    requires c.BooleanValue? || c.CharValue? || c.StringValue?
    ensures c.BooleanValue? ==> (LiteralText(c) == "true" <==> c.b) && (LiteralText(c) == "false" <==> !c.b)
    ensures c.CharValue? ==> LiteralText(c) == [c.c]
    ensures c.StringValue? ==> LiteralText(c) == c.s
  {
  }

  /** The left side of an assignment: a variable access at index 0 bound to the assigned variable or field. */
  function AssignmentTarget(e: Ir.Expr, lhsId: Label, id: Label, callable: Label, encl: Label): seq<Fact>
    requires e.node.SetValue? || e.node.SetField?
  {
    var t := if e.node.SetValue? then UseType(e.node.variable.typ, OtherContext) else UseType(e.node.field.typ, OtherContext);
    var target := if e.node.SetValue? then UseValueDeclaration(e.node.variable) else UseField(e.node.field);
    [HasLocation(lhsId, GetLocation(e.loc)), CallableEnclosingExpr(lhsId, callable),
     Fact.Expr(VarAccess, lhsId, t.javaId, t.kotlinId, id, 0), StatementEnclosingExpr(id, encl),
     VariableBinding(lhsId, target)]
  }

  /** The left side of an assignment hangs at child 0 of the assignment. */
  lemma AssignmentTargetAttached(e: Ir.Expr, lhsId: Label, id: Label, callable: Label, encl: Label, bound: nat)
    requires e.node.SetValue? || e.node.SetField?
    ensures AllAttach(AssignmentTarget(e, lhsId, id, callable, encl), bound, id, 0, 1)
  {
  }

  /** The key of the instance field of a companion object: named after it, owned by its outer class. */
  function CompanionInstanceKey(c: ClassSym): string
    requires c.parent.ParentClass?
  {
    InstanceFieldKey(UseClassInstance(c.parent.cls), c.name)
  }

  /** The key of the `INSTANCE` field of an object. */
  function ObjectInstanceKey(c: ClassSym): string
  {
    InstanceFieldKey(UseClassInstance(c), InstanceName)
  }

  /** A companion with a class parent, and every non-companion, has an instance field. */
  predicate HasInstanceField(c: ClassSym)
  {
    !c.isCompanion || c.parent.ParentClass?
  }

  /** The key of the instance field an IrGetObjectValue of `c` reads. */
  function InstanceKey(c: ClassSym): string
    requires HasInstanceField(c)
  {
    if c.isCompanion then CompanionInstanceKey(c) else ObjectInstanceKey(c)
  }

  /** The complaint reading the instance of `c` logs: a companion without an outer class, or a class that is no object. */
  function InstanceLog(c: ClassSym): seq<Diagnostic>
  {
    if c.isCompanion && !c.parent.ParentClass? then [Diagnostic(ErrorSevere, "Using companion instance for non-companion class", None)]
    else if !c.isCompanion && !IsNonCompanionObject(c) then [Diagnostic(ErrorSevere, "Using instance for non-object class", None)]
    else []
  }

  /** The local variable and its declaration expression. */
  function VariableDeclFacts(v: Variable, varId: Label, exprId: Label, parent: Label, idx: int, callable: Label, encl: Label): seq<Fact>
  {
    var t := UseType(v.typ, OtherContext);
    var loc := GetLocation(v.loc);
    [Localvars(varId, v.name, t.javaId, t.kotlinId, exprId), HasLocation(varId, loc)] +
    ExprHead(LocalVariableDeclExpr, exprId, t, parent, idx, loc, callable, encl)
  }

  /** A variable declaration's tuples hang at the declaration expression's slot. */
  lemma VariableDeclAttached(v: Variable, varId: Label, exprId: Label, parent: Label, idx: int, callable: Label, encl: Label, bound: nat)
    ensures AllAttach(VariableDeclFacts(v, varId, exprId, parent, idx, callable, encl), bound, parent, idx, idx + 1)
  {
    var t := UseType(v.typ, OtherContext);
    var loc := GetLocation(v.loc);
    ExprHeadAttached(LocalVariableDeclExpr, exprId, t, parent, idx, loc, callable, encl, bound);
    AllAttachConcat([Localvars(varId, v.name, t.javaId, t.kotlinId, exprId), HasLocation(varId, loc)],
                    ExprHead(LocalVariableDeclExpr, exprId, t, parent, idx, loc, callable, encl), bound, parent, idx, idx + 1);
  }

  /**
   * The children of type operator call `id`, written from index `from` of
   * `fs` with labels from `n` on while the counter went to `next`: a type
   * access at 0 comes first and the operand follows at 1; a type access
   * at 1 comes last, after the operand at 0.
   */
  ghost predicate TypeOperands(e: Ir.Expr, typeIndex: int, from: nat, n: nat, fs: seq<Fact>, next: nat, id: Label, callable: Label, encl: Label)
    requires e.node.TypeOperatorCall?
  {
    from + 4 <= |fs| && n + 1 <= next &&
    (typeIndex == 0 ==>
      fs[from..from + 4] == OperandTypeAccess(e, Fresh(n), id, 0, callable, encl) && AttachedFrom(fs, from + 4, n + 1, id, 1, 2)) &&
    (typeIndex == 1 ==>
      fs[|fs| - 4..] == OperandTypeAccess(e, Fresh(next - 1), id, 1, callable, encl) && AttachedBetween(fs, from, |fs| - 4, n, id, 0, 1))
  }

  /** The access to the type operand of `e`, located at `e`. */
  function OperandTypeAccess(e: Ir.Expr, taId: Label, id: Label, typeIndex: int, callable: Label, encl: Label): seq<Fact>
    requires e.node.TypeOperatorCall?
  {
    ExprHead(UnannotatedTypeAccess, taId, UseType(e.node.typeOperand, OtherContext), id, typeIndex, GetLocation(e.loc), callable, encl)
  }

  /** The expression kinds the extractor writes as statements. */
  predicate IsStatementLike(n: ExprNode)
  {
    n.DelegatingConstructorCall? || n.Throw? || n.Break? || n.Continue? || n.Return? ||
    n.Try? || n.Container? || n.WhileLoop? || n.DoWhileLoop?
  }

  /** An IrGetValue of a class's own receiver gets a type access to the class as qualifier. */
  predicate HasThisQualifier(e: Ir.Expr)
    requires e.node.GetValue?
  {
    IsThisReceiver(e.node.owner) && e.node.owner.owner.OwnerClass? && e.node.owner.owner.isThisReceiver
  }

  /**
   * The tuples for an IrGetValue: a `this` access (with its qualifier when
   * `HasThisQualifier`), or a variable access bound to the declaration.
   * The qualifier's statement-enclosing tuple is written for `id`.
   */
  function GetValueFacts(e: Ir.Expr, id: Label, qualId: Label, parent: Label, idx: int, callable: Label, encl: Label): seq<Fact>
    requires e.node.GetValue?
  {
    var owner := e.node.owner;
    var loc := GetLocation(e.loc);
    var t := UseType(e.typ, OtherContext);
    if IsThisReceiver(owner) then
      ExprHead(ThisAccess, id, t, parent, idx, loc, callable, encl) +
      (if HasThisQualifier(e) then
         var q := UseSimpleTypeClass(owner.owner.cls);
         [Fact.Expr(UnannotatedTypeAccess, qualId, q.javaId, q.kotlinId, id, 0), HasLocation(qualId, loc),
          CallableEnclosingExpr(qualId, callable), StatementEnclosingExpr(id, encl)]
       else [])
    else
      ExprHead(VarAccess, id, t, parent, idx, loc, callable, encl) + [VariableBinding(id, UseValueDeclaration(owner))]
  }

  /** An IrGetValue's tuples hang at its slot or under its own new labels, the first of them at the slot. */
  lemma GetValueFactsAttached(e: Ir.Expr, n: nat, parent: Label, idx: int, callable: Label, encl: Label)
    requires e.node.GetValue?
    ensures AllAttach(GetValueFacts(e, Fresh(n), Fresh(n + 1), parent, idx, callable, encl), n, parent, idx, idx + 1)
    ensures var fs := GetValueFacts(e, Fresh(n), Fresh(n + 1), parent, idx, callable, encl);
      |fs| > 0 && SlotOf(fs[0]) == Some((parent, idx))
  {
  }

  /** The diagnostics for an IrGetValue: a receiver of an extension function's dispatch receiver, or of an unexpected owner. */
  function GetValueLog(e: Ir.Expr): seq<Diagnostic>
    requires e.node.GetValue?
  {
    var owner := e.node.owner;
    if !IsThisReceiver(owner) then []
    else match owner.owner
      case OwnerFunction(isDr, hasExt) => if isDr && hasExt then [Diagnostic(ErrorSevere, "Function-qualifier for this", Some(e.loc))] else []
      case OwnerClass(_, _) => []
      case OwnerOther(kind) => [Diagnostic(ErrorSevere, "Unexpected owner parent for this access: " + kind, Some(e.loc))]
  }


  // ---------------------------------------------------------------------
  // Type arguments
  // ---------------------------------------------------------------------

  /** The type access for type argument `k`: no location, at its index among the parent's children. */
  function TypeArgumentFacts(t: IrType, k: nat, argId: Label, parent: Label, callable: Label, encl: Label, start: int, reverse: bool): seq<Fact>
  {
    var ut := UseType(t, GenericArgumentContext);
    [Fact.Expr(UnannotatedTypeAccess, argId, ut.javaId, ut.kotlinId, parent, TypeArgumentIndex(k, start, reverse)),
     CallableEnclosingExpr(argId, callable), StatementEnclosingExpr(argId, encl)]
  }

  /** `extractTypeArguments`: the type accesses of `ts` in order, the `k`-th labelled `Fresh(n + k)`. */
  function TypeArgumentsFacts(ts: seq<IrType>, n: nat, parent: Label, callable: Label, encl: Label, start: int, reverse: bool): (r: seq<Fact>)
    ensures |r| == 3 * |ts|
    decreases |ts|
  {
    if |ts| == 0 then []
    else TypeArgumentsFacts(ts[..|ts| - 1], n, parent, callable, encl, start, reverse) +
         TypeArgumentFacts(ts[|ts| - 1], |ts| - 1, Fresh(n + |ts| - 1), parent, callable, encl, start, reverse)
  }

  /**
   * Type argument `k` becomes the access labelled `Fresh(n + k)` to its type
   * (as a generic argument) at index `start - k` when reversed and
   * `start + k` otherwise.
   */
  lemma {:induction false} TypeArgumentsLayout(ts: seq<IrType>, n: nat, parent: Label, callable: Label, encl: Label, start: int, reverse: bool, k: nat)
    requires k < |ts|
    ensures var r := TypeArgumentsFacts(ts, n, parent, callable, encl, start, reverse);
      var ut := UseType(ts[k], GenericArgumentContext);
      r[3 * k] == Fact.Expr(UnannotatedTypeAccess, Fresh(n + k), ut.javaId, ut.kotlinId, parent, if reverse then start - k else start + k)
    decreases |ts|
  {
    var init := ts[..|ts| - 1];
    var x := TypeArgumentsFacts(init, n, parent, callable, encl, start, reverse);
    var y := TypeArgumentFacts(ts[|ts| - 1], |ts| - 1, Fresh(n + |ts| - 1), parent, callable, encl, start, reverse);
    assert TypeArgumentsFacts(ts, n, parent, callable, encl, start, reverse) == x + y;
    if k < |ts| - 1 {
      TypeArgumentsLayout(init, n, parent, callable, encl, start, reverse, k);
      assert init[k] == ts[k];
      assert (x + y)[3 * k] == x[3 * k];
    } else {
      assert (x + y)[3 * k] == y[0];
    }
  }

  /** Appending one type argument appends its access to those of the arguments before it. */
  lemma TypeArgumentsFactsSnoc(ts: seq<IrType>, k: nat, n: nat, parent: Label, callable: Label, encl: Label, start: int, reverse: bool)
    requires k < |ts|
    ensures TypeArgumentsFacts(ts[..k + 1], n, parent, callable, encl, start, reverse) ==
            TypeArgumentsFacts(ts[..k], n, parent, callable, encl, start, reverse) +
            TypeArgumentFacts(ts[k], k, Fresh(n + k), parent, callable, encl, start, reverse)
  {
    assert ts[..k + 1][..k] == ts[..k];
  }

  /** The lowest and one past the highest index the type arguments of a call take. */
  function TypeArgumentsLo(count: nat, start: int, reverse: bool): int
  {
    if reverse then start - count + 1 else start
  }

  function TypeArgumentsHi(count: nat, start: int, reverse: bool): int
  {
    if reverse then start + 1 else start + count
  }

  /** The type accesses hang under `parent` within the type arguments' index range. */
  lemma {:induction false} TypeArgumentsAttached(ts: seq<IrType>, n: nat, parent: Label, callable: Label, encl: Label, start: int, reverse: bool, bound: nat)
    ensures AllAttach(TypeArgumentsFacts(ts, n, parent, callable, encl, start, reverse), bound, parent,
                      TypeArgumentsLo(|ts|, start, reverse), TypeArgumentsHi(|ts|, start, reverse))
    decreases |ts|
  {
    if |ts| > 0 {
      var init := ts[..|ts| - 1];
      var lo := TypeArgumentsLo(|ts|, start, reverse);
      var hi := TypeArgumentsHi(|ts|, start, reverse);
      TypeArgumentsAttached(init, n, parent, callable, encl, start, reverse, bound);
      var x := TypeArgumentsFacts(init, n, parent, callable, encl, start, reverse);
      var y := TypeArgumentFacts(ts[|ts| - 1], |ts| - 1, Fresh(n + |ts| - 1), parent, callable, encl, start, reverse);
      forall k | 0 <= k < |x|
        ensures AttachOkAt(x, k, bound, parent, lo, hi)
      {
        assert AttachOkAt(x, k, bound, parent, TypeArgumentsLo(|init|, start, reverse), TypeArgumentsHi(|init|, start, reverse));
      }
      assert AllAttach(y, bound, parent, lo, hi);
      AllAttachConcat(x, y, bound, parent, lo, hi);
    }
  }

  // ---------------------------------------------------------------------
  // Functions and parameters
  // ---------------------------------------------------------------------

  /** The label a function is extracted under: its local-function label, or `useFunction`. */
  function FunctionLabel(f: FunctionSym): (l: Label)
    ensures l.Ext?
  {
    if f.isLocal then GetLocalFunctionLabels(f).funId else UseFunction(f)
  }

  /** `extractValueParameter`: the parameter at `idx` of `parent`, its location and its name. */
  function ParamFacts(vp: ValueParameter, parent: Label, idx: int): seq<Fact>
  {
    var id := UseValueParameter(vp);
    var t := UseType(vp.typ, OtherContext);
    [Params(id, t.javaId, t.kotlinId, idx, parent, id), HasLocation(id, GetLocation(vp.loc)), ParamName(id, vp.name)]
  }

  /** The value parameters in order, parameter `k` at index `k + offset`. */
  function ParamsFacts(vps: seq<ValueParameter>, parent: Label, offset: nat): (r: seq<Fact>)
    ensures |r| == 3 * |vps|
    decreases |vps|
  {
    if |vps| == 0 then []
    else ParamsFacts(vps[..|vps| - 1], parent, offset) + ParamFacts(vps[|vps| - 1], parent, |vps| - 1 + offset)
  }

  /** The types `extractValueParameter` returns for `vps`, in order. */
  function ParamTypes(vps: seq<ValueParameter>): (r: seq<TypeResults>)
    ensures |r| == |vps|
    decreases |vps|
  {
    if |vps| == 0 then [] else ParamTypes(vps[..|vps| - 1]) + [UseType(vps[|vps| - 1].typ, OtherContext)]
  }

  /** One more parameter appends its type. */
  lemma ParamTypesStep(vps: seq<ValueParameter>, k: nat)
    requires k < |vps|
    ensures ParamTypes(vps[..k + 1]) == ParamTypes(vps[..k]) + [UseType(vps[k].typ, OtherContext)]
  {
    assert vps[..k + 1][..k] == vps[..k];
  }

  /** Parameter `k`'s type is its declared type, so its Java signature is the `k`-th signature. */
  lemma {:induction false} ParamTypesSigs(vps: seq<ValueParameter>)
    ensures forall k | 0 <= k < |vps| :: ParamTypes(vps)[k] == UseType(vps[k].typ, OtherContext)
    ensures forall k | 0 <= k < |vps| :: ParamTypes(vps)[k].javaSignature == Sigs(vps)[k]
    decreases |vps|
  {
    if |vps| > 0 {
      var init := vps[..|vps| - 1];
      ParamTypesSigs(init);
      forall k | 0 <= k < |vps| ensures ParamTypes(vps)[k] == UseType(vps[k].typ, OtherContext) {
        if k < |init| {
          assert ParamTypes(vps)[k] == ParamTypes(init)[k];
          assert init[k] == vps[k];
        }
      }
    }
  }

  /** Writing parameter `k` after parameters `0..k` has written parameters `0..k+1`. */
  lemma ParamsFactsStep(start: seq<Fact>, before: seq<Fact>, after: seq<Fact>, vps: seq<ValueParameter>, k: nat, parent: Label, offset: nat)
    requires k < |vps|
    requires before == start + ParamsFacts(vps[..k], parent, offset)
    requires after == before + ParamFacts(vps[k], parent, k + offset)
    ensures after == start + ParamsFacts(vps[..k + 1], parent, offset)
  {
    assert vps[..k + 1][..k] == vps[..k];
    AppendAssoc(start, ParamsFacts(vps[..k], parent, offset), ParamFacts(vps[k], parent, k + offset));
  }

  /** Parameter `k` is written at index `k + offset`: after the extension receiver when there is one. */
  lemma {:induction false} ParamsLayout(vps: seq<ValueParameter>, parent: Label, offset: nat, k: nat)
    requires k < |vps|
    ensures ParamsFacts(vps, parent, offset)[3 * k..3 * k + 3] == ParamFacts(vps[k], parent, k + offset)
    decreases |vps|
  {
    var init := vps[..|vps| - 1];
    var x := ParamsFacts(init, parent, offset);
    var y := ParamFacts(vps[|vps| - 1], parent, |vps| - 1 + offset);
    assert ParamsFacts(vps, parent, offset) == x + y;
    if k < |vps| - 1 {
      ParamsLayout(init, parent, offset, k);
      assert init[k] == vps[k];
      SliceLeft(x, y, 3 * k, 3 * k + 3);
    } else {
      SliceRight(x, y, 3 * k, 3 * k + 3);
    }
  }

  /** The Java signatures of parameters, in order. */
  function Sigs(vps: seq<ValueParameter>): (r: seq<string>)
    ensures |r| == |vps| && forall k | 0 <= k < |vps| :: r[k] == JavaSignature(vps[k].typ)
    decreases |vps|
  {
    if |vps| == 0 then [] else Sigs(vps[..|vps| - 1]) + [JavaSignature(vps[|vps| - 1].typ)]
  }

  /** The signatures in a callable's parameter signature: the extension receiver's first. */
  function ParamSigs(f: FunctionDecl): seq<string>
  {
    (match f.extensionReceiver case Some(r) => [JavaSignature(r.typ)] case None => []) + Sigs(f.valueParameters)
  }

  /** The short name of a callable: for a constructor its class's name (empty for an anonymous class). */
  function CallableName(f: FunctionDecl): string
  {
    if !f.sym.isConstructor then f.sym.name
    else if IsAnonymous(f.returnType) then ""
    else match ClassOfType(f.returnType)
      case Some(c) => c.name
      case None => f.sym.name
  }

  /** The callable's own tuple, given its parameter signature: a constructor or a method with its name and signature. */
  function CallableTuple(f: FunctionDecl, id: Label, parentId: Label, paramsSignature: string): Fact
  {
    var name := CallableName(f);
    var sig := name + paramsSignature;
    if f.sym.isConstructor then
      var rt := UseType(Erase(f.returnType), ReturnContext);
      Constrs(id, name, sig, rt.javaId, rt.kotlinId, parentId, id)
    else
      var rt := UseType(f.returnType, ReturnContext);
      Methods(id, name, sig, rt.javaId, rt.kotlinId, parentId, id)
  }

  /** The callable's own tuple, its parameter signature built from its parameters' Java signatures. */
  function CallableFact(f: FunctionDecl, id: Label, parentId: Label): Fact
  {
    CallableTuple(f, id, parentId, ParamsSignature(ParamSigs(f)))
  }

  /**
   * The signature of a callable reads back as its name followed by its
   * parameters' Java signatures, extension receiver first.
   */
  lemma CallableSignatureRoundTrip(f: FunctionDecl, id: Label, parentId: Label)
    requires |ParamSigs(f)| >= 1 && forall k | 0 <= k < |ParamSigs(f)| :: NoComma(ParamSigs(f)[k])
    ensures var fact := CallableFact(f, id, parentId);
      var name := CallableName(f);
      fact.signature[..|name|] == name &&
      Split(fact.signature[|name| + 1..|fact.signature| - 1]) == ParamSigs(f)
  {
    var name := CallableName(f);
    var ps := ParamsSignature(ParamSigs(f));
    var sig := name + ps;
    SliceRight(name, ps, |name| + 1, |sig| - 1);
    SplitJoin(ParamSigs(f));
  }

  // ---------------------------------------------------------------------
  // Classes
  // ---------------------------------------------------------------------

  /** The label a class is extracted under: its anonymous-class label, or `useClassSource`. */
  function ClassLabel(c: ClassSym): (l: Label)
    ensures l.Ext?
  {
    if c.isAnonymousObject then UseAnonymousClass(c).javaId else UseClassSource(c)
  }

  /** The class or interface tuple (an enum class also marked as such), then its location. */
  function ClassHead(c: ClassDecl, id: Label): seq<Fact>
  {
    var pkgId := ExtractPackage(match PackageOf(c.sym.parent) case Some(p) => p case None => "");
    var name := if c.sym.isAnonymousObject then "" else c.sym.name;
    (if c.sym.kind == Interface then [Interfaces(id, name, pkgId, id)]
     else [Classes(id, name, pkgId, id)] + (if c.sym.kind == EnumClass then [IsEnumType(id)] else [])) +
    [HasLocation(id, GetLocation(c.loc))]
  }

  /** The nearest class enclosing a declaration with parent `p`, looking through every declaration parent (functions and others). */
  function EnclosingClass(p: DeclParent): (r: Option<ClassSym>)
    ensures r.Some? ==> PackageOf(p) == PackageOf(r.value.parent)
  {
    match p
    case ParentClass(c) => Some(c)
    case ParentFunction(f) => EnclosingClass(f.parent)
    case OtherParent(_, outer) => if outer.Some? then EnclosingClass(outer.value) else None
    case PackageFragment(_) => None
  }

  /** The label `c` is recorded as nested in when `outer` encloses it. */
  function EnclosingLabel(c: ClassSym, outer: ClassSym): Label
  {
    if outer.isAnonymousObject then UseAnonymousClass(c).javaId else UseClassInstance(outer)
  }

  const StaticFinal: seq<string> := ["public", "static", "final"]

  /** The fabricated instance field of companion `c`, declared on the companion itself, and its link to the outer class. */
  function CompanionFieldFacts(c: ClassDecl, id: Label, instanceId: Label, outerId: Label): seq<Fact>
  {
    var t := UseSimpleTypeClass(c.sym);
    [Fields(instanceId, c.sym.name, t.javaId, t.kotlinId, id, instanceId), HasLocation(instanceId, GetLocation(c.loc)),
     Modifiers(instanceId, StaticFinal), ClassCompanionObject(outerId, instanceId, id)]
  }

  /** The fabricated `INSTANCE` field of object `c`. */
  function ObjectFieldFacts(c: ClassDecl, id: Label, instanceId: Label): seq<Fact>
  {
    var t := UseSimpleTypeClass(c.sym);
    [Fields(instanceId, InstanceName, t.javaId, t.kotlinId, id, instanceId), HasLocation(instanceId, GetLocation(c.loc)),
     Modifiers(instanceId, StaticFinal), ClassObject(id, instanceId)]
  }

  /** The key of a class's `<obinit>` method. */
  function ObinitKey(c: ClassSym): string
  {
    FunctionLabelKey(ParentClass(c), "<obinit>", [], UnitType, None)
  }

  /** The `<obinit>` method, its location, and its body block. */
  function ObinitHead(c: ClassDecl, parentId: Label, obinitId: Label, blockId: Label): seq<Fact>
  {
    var rt := UseType(UnitType, OtherContext);
    var loc := GetLocation(c.loc);
    [Methods(obinitId, "<obinit>", "<obinit>()", rt.javaId, rt.kotlinId, parentId, obinitId), HasLocation(obinitId, loc),
     Stmt(BlockStmt, blockId, obinitId, 0, obinitId), HasLocation(blockId, loc)]
  }

  /**
   * The statement assigning a property's initializer to its backing field,
   * statement `k` of the `<obinit>` block: the assignment at 0 and its left
   * side, a field access, at 0 under it.  The initializer itself follows.
   */
  function FieldInitFacts(p: PropertyDecl, field: FieldDecl, init: Ir.Expr, n: nat, blockId: Label, k: int, obinitId: Label): seq<Fact>
  {
    var stmtId := Fresh(n);
    var assignId := Fresh(n + 1);
    var lhsId := Fresh(n + 2);
    var loc := GetLocation(p.loc);
    var t := UseType(init.typ, OtherContext);
    var lt := UseType(field.sym.typ, OtherContext);
    [Stmt(ExprStmt, stmtId, blockId, k, obinitId), HasLocation(stmtId, loc),
     Fact.Expr(AssignExpr, assignId, t.javaId, t.kotlinId, stmtId, 0), HasLocation(assignId, loc),
     CallableEnclosingExpr(assignId, obinitId), StatementEnclosingExpr(assignId, stmtId),
     Fact.Expr(VarAccess, lhsId, lt.javaId, lt.kotlinId, assignId, 0), HasLocation(lhsId, loc),
     CallableEnclosingExpr(lhsId, obinitId), StatementEnclosingExpr(lhsId, stmtId),
     VariableBinding(lhsId, UseField(field.sym))]
  }

  /**
   * Entry `item` of an `<obinit>` body, statement `k` of its block, starts
   * at tuple `from` with labels numbered from `n`: a field initializer
   * opens with its assignment statement.
   */
  ghost predicate ObinitEntryAt(fs: seq<Fact>, from: nat, n: nat, item: ObinitItem, blockId: Label, k: int, obinitId: Label)
  {
    match item
    case FieldInitializer(p, field, init) =>
      from + 11 <= |fs| && fs[from..from + 11] == FieldInitFacts(p, field, init, n, blockId, k, obinitId)
    case InitStatement(_) => true
  }

  /** Entry `k` of `items` starts at tuple `starts[k]` with labels from `nexts[k]`. */
  ghost predicate ObinitLaidOut(fs: seq<Fact>, starts: seq<nat>, nexts: seq<nat>, items: seq<ObinitItem>, blockId: Label, obinitId: Label)
  {
    |starts| == |items| + 1 && |nexts| == |items| &&
    forall k | 0 <= k < |items| :: ObinitEntryAt(fs, starts[k], nexts[k], items[k], blockId, k, obinitId)
  }

  /** An entry, once written, stays as more tuples are appended. */
  lemma ObinitEntryKept(fs: seq<Fact>, gs: seq<Fact>, from: nat, n: nat, item: ObinitItem, blockId: Label, k: int, obinitId: Label)
    requires ObinitEntryAt(fs, from, n, item, blockId, k, obinitId) && fs <= gs
    ensures ObinitEntryAt(gs, from, n, item, blockId, k, obinitId)
  {
    if item.FieldInitializer? {
      assert gs[from..from + 11] == fs[from..from + 11];
    }
  }

  /** Appending one entry, written from tuple `from` with labels from `n`, extends the layout. */
  lemma ObinitLaidOutAppend(fs: seq<Fact>, gs: seq<Fact>, starts: seq<nat>, nexts: seq<nat>, items: seq<ObinitItem>,
                            item: ObinitItem, from: nat, n: nat, to: nat, blockId: Label, obinitId: Label)
    requires ObinitLaidOut(fs, starts, nexts, items, blockId, obinitId) && fs <= gs
    requires from == starts[|items|] && ObinitEntryAt(gs, from, n, item, blockId, |items|, obinitId)
    ensures ObinitLaidOut(gs, starts + [to], nexts + [n], items + [item], blockId, obinitId)
  {
    var s2, n2, i2 := starts + [to], nexts + [n], items + [item];
    forall k | 0 <= k < |i2|
      ensures ObinitEntryAt(gs, s2[k], n2[k], i2[k], blockId, k, obinitId)
    {
      if k < |items| {
        assert ObinitEntryAt(fs, starts[k], nexts[k], items[k], blockId, k, obinitId);
        ObinitEntryKept(fs, gs, starts[k], nexts[k], items[k], blockId, k, obinitId);
      }
    }
  }

  /** The layout of the entries written so far stays as more tuples are appended. */
  lemma ObinitLaidOutKept(fs: seq<Fact>, gs: seq<Fact>, starts: seq<nat>, nexts: seq<nat>, items: seq<ObinitItem>, blockId: Label, obinitId: Label)
    requires ObinitLaidOut(fs, starts, nexts, items, blockId, obinitId) && fs <= gs
    ensures ObinitLaidOut(gs, starts, nexts, items, blockId, obinitId)
  {
    forall k | 0 <= k < |items|
      ensures ObinitEntryAt(gs, starts[k], nexts[k], items[k], blockId, k, obinitId)
    {
      ObinitEntryKept(fs, gs, starts[k], nexts[k], items[k], blockId, k, obinitId);
    }
  }

  /**
   * One statement of an instance `init` block, extracted as statement
   * `idx2` of the `<obinit>` block, extends the block's segments and its
   * layout by one entry.
   */
  lemma InitStatementStep(s1: Snap, sk: Snap, s: Snap, ss: seq<Statement>, j: nat, items: seq<ObinitItem>,
                          starts: seq<nat>, nexts: seq<nat>, bound: nat, blockId: Label, obinitId: Label, idx: int, idx2: int)
    requires j < |ss| && idx == |items| && idx2 == idx + j && bound <= s1.next
    requires Step(s1, sk, StatementsLoops(ss), blockId, idx, idx2)
    requires Segmented(sk.facts, starts, bound, blockId, Indices(0, idx2))
    requires ObinitLaidOut(sk.facts, starts, nexts, items + InitItems(ss[..j]), blockId, obinitId)
    requires Step(sk, s, StatementLoops(ss[j]), blockId, idx2, idx2 + 1)
    ensures Step(s1, s, StatementsLoops(ss), blockId, idx, idx2 + 1)
    ensures Segmented(s.facts, starts + [|s.facts|], bound, blockId, Indices(0, idx2 + 1))
    ensures ObinitLaidOut(s.facts, starts + [|s.facts|], nexts + [sk.next], items + InitItems(ss[..j + 1]), blockId, obinitId)
  {
    StatementsLoopsElement(ss, j);
    SegmentAppend(sk, s, starts, bound, blockId, Indices(0, idx2), idx2, StatementLoops(ss[j]));
    assert Indices(0, idx2) + [idx2] == Indices(0, idx2 + 1);
    assert items + InitItems(ss[..j + 1]) == items + InitItems(ss[..j]) + [InitStatement(ss[j])];
    ObinitLaidOutAppend(sk.facts, s.facts, starts, nexts, items + InitItems(ss[..j]), InitStatement(ss[j]),
                        |sk.facts|, sk.next, |s.facts|, blockId, obinitId);
    StepThen(s1, sk, s, StatementsLoops(ss), blockId, idx, idx2, StatementLoops(ss[j]), blockId, idx2, idx2 + 1,
             StatementsLoops(ss), blockId, idx, idx2 + 1);
  }

  /**
   * A property whose initializer was extracted as statement `idx` of the
   * `<obinit>` block, opening with its assignment, extends the block's
   * segments and its layout by that entry.
   */
  lemma FieldInitEntryStep(s0: Snap, s: Snap, d: Decl, p: PropertyDecl, field: FieldDecl, init: Expr, items: seq<ObinitItem>,
                           starts: seq<nat>, nexts: seq<nat>, bound: nat, blockId: Label, obinitId: Label, idx: int)
    requires d == PropertyDeclaration(p) && p.backingField == Some(field) && field.initializer == Some(init) && !field.sym.isStatic
    requires idx == |items| && bound <= s0.next
    requires Segmented(s0.facts, starts, bound, blockId, Indices(0, idx))
    requires ObinitLaidOut(s0.facts, starts, nexts, items, blockId, obinitId)
    requires Step(s0, s, ExprLoops(init), blockId, idx, idx + 1)
    requires s0.facts + FieldInitFacts(p, field, init, s0.next, blockId, idx, obinitId) <= s.facts
    ensures Step(s0, s, DeclLoops(d), blockId, idx, idx + 1)
    ensures Segmented(s.facts, starts + [|s.facts|], bound, blockId, Indices(0, idx + 1))
    ensures ObinitLaidOut(s.facts, starts + [|s.facts|], nexts + [s0.next], items + DeclObinitItems(d), blockId, obinitId)
  {
    assert OptLoops(field.initializer) == ExprLoops(init);
    assert DeclLoops(d) == PropertyLoops(p);
    StepWiden(s0, s, ExprLoops(init), blockId, idx, idx + 1, DeclLoops(d), idx, idx + 1);
    SegmentAppend(s0, s, starts, bound, blockId, Indices(0, idx), idx, ExprLoops(init));
    assert Indices(0, idx) + [idx] == Indices(0, idx + 1);
    PrefixSlice(s0.facts, FieldInitFacts(p, field, init, s0.next, blockId, idx, obinitId), s.facts);
    ObinitLaidOutAppend(s0.facts, s.facts, starts, nexts, items, FieldInitializer(p, field, init), |s0.facts|, s0.next, |s.facts|, blockId, obinitId);
  }

  /** The entries of declaration `i`, written after those of the declarations before it, make those of `ds[..i + 1]`. */
  lemma ObinitDeclStep(s1: Snap, sk: Snap, s: Snap, ds: seq<Decl>, i: nat, blockId: Label, idx: int, idx2: int)
    requires i < |ds| && idx == |ObinitItems(ds[..i])| && idx2 == idx + |DeclObinitItems(ds[i])|
    requires Step(s1, sk, DeclsLoops(ds), blockId, 0, idx)
    requires Step(sk, s, DeclLoops(ds[i]), blockId, idx, idx2)
    ensures Step(s1, s, DeclsLoops(ds), blockId, 0, idx2)
    ensures ObinitItems(ds[..i]) + DeclObinitItems(ds[i]) == ObinitItems(ds[..i + 1]) && idx2 == |ObinitItems(ds[..i + 1])|
  {
    DeclsLoopsElement(ds, i);
    assert ds[..i + 1][..i] == ds[..i];
    StepThen(s1, sk, s, DeclsLoops(ds), blockId, 0, idx, DeclLoops(ds[i]), blockId, idx, idx2, DeclsLoops(ds), blockId, 0, idx2);
  }

  /**
   * The `<obinit>` method of `c` written from state `s0` on, ending in `s`:
   * its interned label, its head, and its body block `blockId` allocated
   * after `s0`, whose statements are the entries `ObinitItems` lists, entry
   * `k` at index `k` and in that order.
   */
  ghost predicate ObinitWritten(s0: Snap, s: Snap, c: ClassDecl, parentId: Label, obinitId: Label, blockId: Label,
                                starts: seq<nat>, nexts: seq<nat>)
  {
    ObinitKey(c.sym) in s.interned && obinitId == s.interned[ObinitKey(c.sym)] && blockId.Fresh? && s0.next <= blockId.n < s.next &&
    s0.facts + ObinitHead(c, parentId, obinitId, blockId) <= s.facts &&
    Segmented(s.facts, starts, blockId.n + 1, blockId, Indices(0, |ObinitItems(c.declarations)|)) &&
    starts[0] == |s0.facts| + 4 &&
    ObinitLaidOut(s.facts, starts, nexts, ObinitItems(c.declarations), blockId, obinitId)
  }

  /**
   * The `<obinit>` head, then its body written after it, make the whole
   * routine: the head is a prefix and the body's segments start after it.
   */
  lemma ObinitFunctionStep(s0: Snap, s1: Snap, s: Snap, c: ClassDecl, parentId: Label, obinitId: Label, blockId: Label,
                            starts: seq<nat>, nexts: seq<nat>)
    requires Step(s0, s1, {}, Nowhere, 0, 0) && s1.facts == s0.facts + ObinitHead(c, parentId, obinitId, blockId)
    requires ObinitKey(c.sym) in s1.interned && obinitId == s1.interned[ObinitKey(c.sym)]
    requires s0.next < s1.next && blockId == Fresh(s1.next - 1)
    requires Step(s1, s, ClassLoops(c), blockId, 0, |ObinitItems(c.declarations)|)
    requires Segmented(s.facts, starts, s1.next, blockId, Indices(0, |ObinitItems(c.declarations)|)) && starts[0] == |s1.facts|
    requires ObinitLaidOut(s.facts, starts, nexts, ObinitItems(c.declarations), blockId, obinitId)
    ensures Step(s0, s, ClassLoops(c), Nowhere, 0, 0)
    ensures ObinitWritten(s0, s, c, parentId, obinitId, blockId, starts, nexts)
  {
    StepThen(s0, s1, s, {}, Nowhere, 0, 0, ClassLoops(c), blockId, 0, |ObinitItems(c.declarations)|, ClassLoops(c), Nowhere, 0, 0);
  }

  /** Tuples `x` appended after `a` inside `d` are the slice of `d` after `a`. */
  lemma PrefixSlice(a: seq<Fact>, x: seq<Fact>, d: seq<Fact>)
    requires a + x <= d
    ensures d[|a|..|a| + |x|] == x
  {
    assert d[|a|..|a| + |x|] == (a + x)[|a|..];
  }

  /** A companion nested directly in a class has its instance field's key interned in `m`. */
  predicate CompanionInterned(c: ClassSym, m: map<string, Label>)
  {
    c.isCompanion && c.parent.ParentClass? ==> CompanionInstanceKey(c) in m
  }

  /** A non-companion object has its `INSTANCE` field's key interned in `m`. */
  predicate ObjectInterned(c: ClassSym, m: map<string, Label>)
  {
    IsNonCompanionObject(c) ==> ObjectInstanceKey(c) in m
  }

  /**
   * What `extractClassSource` writes for the nearest enclosing class: the
   * nesting tuple, and for a companion directly inside it the fabricated
   * instance field (its key interned in `m`).
   */
  function EnclosingFacts(c: ClassDecl, id: Label, m: map<string, Label>): seq<Fact>
    requires CompanionInterned(c.sym, m)
  {
    match EnclosingClass(c.sym.parent)
    case None => []
    case Some(outer) =>
      var outerId := EnclosingLabel(c.sym, outer);
      [EnclInReftype(id, outerId)] +
      (if c.sym.isCompanion && c.sym.parent.ParentClass?
       then CompanionFieldFacts(c, id, m[CompanionInstanceKey(c.sym)], outerId) else [])
  }

  /** The tuples a class opens with: its head, then what its enclosing class gives it. */
  function ClassOpening(c: ClassDecl, id: Label, m: map<string, Label>): seq<Fact>
    requires CompanionInterned(c.sym, m)
  {
    ClassHead(c, id) + EnclosingFacts(c, id, m)
  }

  /** What opening a class logs: a companion nested in a class only through a function has no instance field. */
  function ClassOpeningLog(c: ClassSym): seq<Diagnostic>
  {
    if EnclosingClass(c.parent).Some? && c.isCompanion && !c.parent.ParentClass?
    then [Diagnostic(ErrorSevere, "Using companion instance for non-companion class", None)] else []
  }

  /** The tuples a class closes with: a non-companion object's `INSTANCE` field, then modifiers and supertypes. */
  function ClassClosing(c: ClassDecl, id: Label, m: map<string, Label>): seq<Fact>
    requires ObjectInterned(c.sym, m)
  {
    (if IsNonCompanionObject(c.sym) then ObjectFieldFacts(c, id, m[ObjectInstanceKey(c.sym)]) else []) + ClassTail(c.sym, id)
  }

  /** Interned labels never change, so a class's opening reads the same in any later map. */
  lemma ClassOpeningStable(c: ClassDecl, id: Label, m1: map<string, Label>, m2: map<string, Label>)
    requires CompanionInterned(c.sym, m1) && InternExtends(m1, m2)
    ensures CompanionInterned(c.sym, m2) && ClassOpening(c, id, m1) == ClassOpening(c, id, m2)
  {
    if c.sym.isCompanion && c.sym.parent.ParentClass? {
      assert CompanionInstanceKey(c.sym) in m1;
    }
  }

  /** A slice within the left operand of a concatenation. */
  lemma SliceLeft<T>(x: seq<T>, y: seq<T>, i: nat, j: nat)
    requires i <= j <= |x|
    ensures (x + y)[i..j] == x[i..j]
  {
  }

  /** A slice within the right operand of a concatenation. */
  lemma SliceRight<T>(x: seq<T>, y: seq<T>, i: nat, j: nat)
    requires |x| <= i <= j <= |x| + |y|
    ensures (x + y)[i..j] == y[i - |x|..j - |x|]
  {
  }

  lemma AppendAssoc<T>(a: seq<T>, b: seq<T>, c: seq<T>)
    ensures a + b + c == a + (b + c)
  {
  }

  /** `x` is the tail of `s`. */
  predicate EndsWith<T(==)>(s: seq<T>, x: seq<T>)
  {
    |x| <= |s| && s[|s| - |x|..] == x
  }

  /** What is appended last is the tail. */
  lemma EndsWithAppend<T>(a: seq<T>, x: seq<T>)
    ensures EndsWith(a + x, x)
  {
    assert (a + x)[|a|..] == x;
  }

  /** The tuples of an `<obinit>` field initializer hang at index `k` of the block, or under the labels they allocate. */
  lemma FieldInitAttached(p: PropertyDecl, field: FieldDecl, init: Ir.Expr, n: nat, blockId: Label, k: int, obinitId: Label)
    ensures AllAttach(FieldInitFacts(p, field, init, n, blockId, k, obinitId), n, blockId, k, k + 1)
  {
    var fs := FieldInitFacts(p, field, init, n, blockId, k, obinitId);
    assert AttachOkAt(fs, 0, n, blockId, k, k + 1);
    assert AttachOkAt(fs, 2, n, blockId, k, k + 1);
    assert AttachOkAt(fs, 6, n, blockId, k, k + 1);
  }

  /** The tuples closing a generated class place their statements only under the labels they allocate. */
  lemma GeneratedClassTailAttached(f: FunctionSym, superTypes: seq<IrType>, id: Label, n: nat, loc: Label)
    requires SuperTypesOk(superTypes)
    ensures AllAttach(GeneratedClassTail(f, superTypes, id, Fresh(n), Fresh(n + 1), loc), n, Nowhere, 0, 0)
  {
    var fs := GeneratedClassTail(f, superTypes, id, Fresh(n), Fresh(n + 1), loc);
    assert AttachOkAt(fs, 2, n, Nowhere, 0, 0);
    assert AttachOkAt(fs, 4, n, Nowhere, 0, 0);
  }

  /** A callable's signature tuples place no statement or expression. */
  lemma SignatureFactsNoSlots(f: FunctionDecl, id: Label, parentId: Label)
    ensures NoSlots(SignatureFacts(f, id, parentId))
  {
    var x := ParamsFacts(f.valueParameters, id, ParamOffset(f));
    var y := ExtensionReceiverFacts(f, id);
    var z := [CallableFact(f, id, parentId), HasLocation(id, GetLocation(f.loc))];
    ParamsFactsNoSlots(f.valueParameters, id, ParamOffset(f));
    forall k | 0 <= k < |x + y + z| ensures SlotOf((x + y + z)[k]).None? {
      if k < |x| {
        assert (x + y + z)[k] == x[k];
      } else if k < |x| + |y| {
        assert (x + y + z)[k] == y[k - |x|];
      } else {
        assert (x + y + z)[k] == z[k - |x| - |y|];
      }
    }
  }

  /** The tuples closing a class: its modifiers and its supertypes. */
  function ClassTail(c: ClassSym, id: Label): seq<Fact>
  {
    [ClassModifiers(id), Supertypes(id, c.superTypes)]
  }

  /**
   * The constructor `extractGeneratedClass` calls: the first constructor
   * declared by the class of the first supertype.
   */
  function BaseConstructor(superTypes: seq<IrType>): (f: FunctionSym)
    requires SuperTypesOk(superTypes)
    ensures f.isConstructor && f.parent == ParentClass(ClassOfType(superTypes[0]).value)
    ensures var c := ClassOfType(superTypes[0]).value;
      exists i | 0 <= i < |c.members| :: f == MemberFunction(c, c.members[i]) && forall j | 0 <= j < i :: !c.members[j].isConstructor
  {
    var c := ClassOfType(superTypes[0]).value;
    MemberFunction(c, FindConstructor(c.members).value)
  }

  /**
   * The class generated for a local function after the function itself: its
   * constructor with an empty name and signature, the constructor's body
   * block, and in it a super constructor call (enclosed, as written, by the
   * function rather than the constructor) of the first supertype's
   * constructor.
   */
  function GeneratedClassTail(f: FunctionSym, superTypes: seq<IrType>, id: Label, blockId: Label, superId: Label, loc: Label): seq<Fact>
    requires SuperTypesOk(superTypes)
  {
    var ids := GetLocalFunctionLabels(f);
    [Constrs(ids.ctorId, "", "", ids.typ.javaId, ids.typ.kotlinId, id, ids.ctorId), HasLocation(ids.ctorId, loc),
     Stmt(BlockStmt, blockId, ids.ctorId, 0, ids.ctorId), HasLocation(blockId, loc),
     Stmt(SuperConstructorInvocationStmt, superId, blockId, 0, ids.funId), HasLocation(superId, loc),
     CallableBinding(superId, UseFunction(BaseConstructor(superTypes))),
     Modifiers(id, StaticFinal), Supertypes(id, superTypes)]
  }

  // ---------------------------------------------------------------------
  // Declarations
  // ---------------------------------------------------------------------

  /** The label of a type parameter's declaring function or class; the fake label for any other parent. */
  function TypeParameterParent(tp: TypeParameter): Label
  {
    match tp.parent
    case ParentFunction(f) => UseFunction(f)
    case ParentClass(c) => UseClassSource(c)
    case _ => FakeLabel()
  }

  /** What `extractTypeParameter` logs: a complaint when the parent is neither a function nor a class. */
  function TypeParameterLog(tp: TypeParameter): seq<Diagnostic>
  {
    if tp.parent.ParentFunction? || tp.parent.ParentClass? then []
    else [Diagnostic(ErrorSevere, "Unexpected type parameter parent", Some(tp.loc))]
  }

  /** The type variable tuple of `tp` under label `id`, and its location. */
  function TypeParameterFacts(tp: TypeParameter, id: Label): seq<Fact>
  {
    [TypeVars(id, tp.name, tp.index, 0, TypeParameterParent(tp)), HasLocation(id, GetLocation(tp.loc))]
  }

  /** Every type parameter of `tps` has its key interned in `m`. */
  predicate TypeParametersInterned(tps: seq<TypeParameter>, m: map<string, Label>)
  {
    forall k | 0 <= k < |tps| :: TypeParameterKey(tps[k]) in m
  }

  /** The tuples of the type parameters `tps` in order, each under the label `m` interns its key as. */
  function TypeParametersFacts(tps: seq<TypeParameter>, m: map<string, Label>): (r: seq<Fact>)
    requires TypeParametersInterned(tps, m)
    ensures |r| == 2 * |tps|
    decreases |tps|
  {
    if |tps| == 0 then []
    else
      var last := tps[|tps| - 1];
      TypeParametersFacts(tps[..|tps| - 1], m) + TypeParameterFacts(last, m[TypeParameterKey(last)])
  }

  /** The diagnostics of the type parameters `tps`, in order. */
  function TypeParametersLog(tps: seq<TypeParameter>): seq<Diagnostic>
    decreases |tps|
  {
    if |tps| == 0 then [] else TypeParametersLog(tps[..|tps| - 1]) + TypeParameterLog(tps[|tps| - 1])
  }

  /** Type parameter `k` is written at tuples `2k` and `2k + 1`, under its interned label. */
  lemma {:induction false} TypeParametersLayout(tps: seq<TypeParameter>, m: map<string, Label>, k: nat)
    requires TypeParametersInterned(tps, m) && k < |tps|
    ensures TypeParametersFacts(tps, m)[2 * k..2 * k + 2] == TypeParameterFacts(tps[k], m[TypeParameterKey(tps[k])])
    decreases |tps|
  {
    var init := tps[..|tps| - 1];
    var last := tps[|tps| - 1];
    var x := TypeParametersFacts(init, m);
    var y := TypeParameterFacts(last, m[TypeParameterKey(last)]);
    assert TypeParametersFacts(tps, m) == x + y;
    if k < |tps| - 1 {
      assert init[k] == tps[k];
      TypeParametersLayout(init, m, k);
      assert (x + y)[2 * k..2 * k + 2] == x[2 * k..2 * k + 2];
    } else {
      assert (x + y)[2 * k..2 * k + 2] == y;
    }
  }

  /** Interned labels never change, so the tuples of type parameters read the same in any later map. */
  lemma {:induction false} TypeParametersFactsStable(tps: seq<TypeParameter>, m1: map<string, Label>, m2: map<string, Label>)
    requires TypeParametersInterned(tps, m1) && InternExtends(m1, m2)
    ensures TypeParametersInterned(tps, m2)
    ensures TypeParametersFacts(tps, m1) == TypeParametersFacts(tps, m2)
    decreases |tps|
  {
    if |tps| > 0 {
      var init := tps[..|tps| - 1];
      assert TypeParametersInterned(init, m1) by {
        forall k | 0 <= k < |init| ensures TypeParameterKey(init[k]) in m1 {
          assert init[k] == tps[k];
        }
      }
      TypeParametersFactsStable(init, m1, m2);
    }
  }

  /** Extracting type parameter `k` after the first `k` extends the tuples and diagnostics of the first `k` to the first `k + 1`. */
  lemma TypeParametersStep(s1: Snap, sk: Snap, s: Snap, tps: seq<TypeParameter>, k: nat, id: Label)
    requires k < |tps|
    requires Step(s1, sk, {}, Nowhere, 0, 0) && Step(sk, s, {}, Nowhere, 0, 0)
    requires TypeParametersInterned(tps[..k], sk.interned) && sk.facts == s1.facts + TypeParametersFacts(tps[..k], sk.interned)
    requires sk.log == s1.log + TypeParametersLog(tps[..k])
    requires TypeParameterKey(tps[k]) in s.interned && id == s.interned[TypeParameterKey(tps[k])]
    requires s.facts == sk.facts + TypeParameterFacts(tps[k], id) && s.log == sk.log + TypeParameterLog(tps[k])
    ensures Step(s1, s, {}, Nowhere, 0, 0)
    ensures TypeParametersInterned(tps[..k + 1], s.interned) && s.facts == s1.facts + TypeParametersFacts(tps[..k + 1], s.interned)
    ensures s.log == s1.log + TypeParametersLog(tps[..k + 1])
  {
    var done := tps[..k + 1];
    assert done[..k] == tps[..k];
    TypeParametersFactsStable(tps[..k], sk.interned, s.interned);
    assert TypeParametersInterned(done, s.interned) by {
      forall j | 0 <= j < |done| ensures TypeParameterKey(done[j]) in s.interned {
        if j < k {
          assert done[j] == tps[..k][j];
        }
      }
    }
    StepThen(s1, sk, s, {}, Nowhere, 0, 0, {}, Nowhere, 0, 0, {}, Nowhere, 0, 0);
  }

  /** The tuples of a value parameter carry no statement or expression. */
  lemma {:induction false} ParamsFactsNoSlots(vps: seq<ValueParameter>, parent: Label, offset: nat)
    ensures NoSlots(ParamsFacts(vps, parent, offset))
    decreases |vps|
  {
    if |vps| > 0 {
      ParamsFactsNoSlots(vps[..|vps| - 1], parent, offset);
      var x := ParamsFacts(vps[..|vps| - 1], parent, offset);
      var y := ParamFacts(vps[|vps| - 1], parent, |vps| - 1 + offset);
      assert ParamsFacts(vps, parent, offset) == x + y;
      forall k | 0 <= k < |x + y| ensures SlotOf((x + y)[k]).None? {
        if k < |x| { assert (x + y)[k] == x[k]; } else { assert (x + y)[k] == y[k - |x|]; }
      }
    }
  }

  /** The index of a callable's first value parameter: 1 when the extension receiver takes 0. */
  function ParamOffset(f: FunctionDecl): nat
  {
    if f.extensionReceiver.Some? then 1 else 0
  }

  /** An extension function's marker tuple and its receiver as parameter 0. */
  function ExtensionReceiverFacts(f: FunctionDecl, id: Label): seq<Fact>
  {
    match f.extensionReceiver
    case Some(r) =>
      var t := UseType(r.typ, OtherContext);
      [KtExtensionFunctions(id, t.javaId, t.kotlinId)] + ParamFacts(r, id, 0)
    case None => []
  }

  /**
   * A callable's tuples after its type parameters: the value parameters,
   * the extension receiver, the callable itself and its location.
   */
  function SignatureFacts(f: FunctionDecl, id: Label, parentId: Label): seq<Fact>
  {
    ParamsFacts(f.valueParameters, id, ParamOffset(f)) + ExtensionReceiverFacts(f, id) +
    [CallableFact(f, id, parentId), HasLocation(id, GetLocation(f.loc))]
  }

  /**
   * The parameters of a declared callable: value parameter `k` at index
   * `k + 1` when there is an extension receiver and `k` otherwise.
   */
  lemma SignatureLayout(f: FunctionDecl, id: Label, parentId: Label, k: nat)
    requires k < |f.valueParameters|
    ensures SignatureFacts(f, id, parentId)[3 * k..3 * k + 3] == ParamFacts(f.valueParameters[k], id, k + ParamOffset(f))
  {
    var x := ParamsFacts(f.valueParameters, id, ParamOffset(f));
    var y := ExtensionReceiverFacts(f, id);
    var z := [CallableFact(f, id, parentId), HasLocation(id, GetLocation(f.loc))];
    AppendAssoc(x, y, z);
    ParamsLayout(f.valueParameters, id, ParamOffset(f), k);
    SliceLeft(x, y + z, 3 * k, 3 * k + 3);
  }

  /**
   * After the value parameters of a declared callable: the extension
   * receiver as parameter 0, and the callable tuple next to last.
   */
  lemma SignatureTailLayout(f: FunctionDecl, id: Label, parentId: Label)
    ensures var fs := SignatureFacts(f, id, parentId); var n := 3 * |f.valueParameters|;
      fs[|fs| - 2] == CallableFact(f, id, parentId) &&
      (f.extensionReceiver.Some? ==> fs[n + 1..n + 4] == ParamFacts(f.extensionReceiver.value, id, 0))
  {
    var x := ParamsFacts(f.valueParameters, id, ParamOffset(f));
    var y := ExtensionReceiverFacts(f, id);
    var z := [CallableFact(f, id, parentId), HasLocation(id, GetLocation(f.loc))];
    AppendAssoc(x, y, z);
    if f.extensionReceiver.Some? {
      var n := 3 * |f.valueParameters|;
      SliceRight(x, y + z, n + 1, n + 4);
      SliceLeft(y, z, 1, 4);
    }
  }

  /** A callable's body kind for `kt_synthetic_body`: 1 for `values()`, 2 for `valueOf`. */
  function SyntheticBodyCode(k: SyntheticBodyKind): int
  {
    match k
    case EnumValues => 1
    case EnumValueOf => 2
  }

  /** A backing field's tuple and location under the declaring type `parentId`. */
  function FieldFacts(fd: FieldDecl, parentId: Label): seq<Fact>
  {
    var id := UseField(fd.sym);
    var t := UseType(fd.sym.typ, OtherContext);
    [Fields(id, fd.sym.name, t.javaId, t.kotlinId, parentId, id), HasLocation(id, GetLocation(fd.loc))]
  }

  /** What `extractProperty` logs about a missing getter: unless the property is final and external. */
  function GetterLog(p: PropertyDecl): seq<Diagnostic>
  {
    if p.getter.None? && (p.modality != Final || !p.isExternal)
    then [Diagnostic(ErrorSevere, "IrProperty without a getter", Some(p.loc))] else []
  }

  /** What `extractProperty` logs about the setter: one on a `val`, or none on a non-external `var`. */
  function SetterLog(p: PropertyDecl): seq<Diagnostic>
  {
    if p.setter.Some? then
      (if !p.isVar then [Diagnostic(ErrorSevere, "!isVar property with a setter", Some(p.loc))] else [])
    else if p.isVar && !p.isExternal then [Diagnostic(ErrorSevere, "isVar property without a setter", Some(p.loc))]
    else []
  }

  /** The name the runtime class of a declaration parent prints as. */
  function DeclParentClassName(p: DeclParent): string
  {
    match p
    case PackageFragment(_) => "IrFile"
    case ParentClass(_) => "IrClass"
    case ParentFunction(_) => "IrFunction"
    case OtherParent(kind, _) => kind
  }

  /** What `extractEnumEntry` logs: an entry outside a class, or in a generic class. */
  function EnumEntryLog(ee: EnumEntryDecl): seq<Diagnostic>
  {
    match ee.sym.parent
    case ParentClass(c) =>
      if c.typeParameterCount > 0 then [Diagnostic(ErrorSevere, "Enum entry parent class has type parameters: " + c.name, Some(ee.loc))]
      else []
    case p => [Diagnostic(ErrorSevere, "Enum entry with unexpected parent: " + DeclParentClassName(p), Some(ee.loc))]
  }

  /** The enum entry as a field of its (non-generic) enum class, declared on `parentId`. */
  function EnumEntryFacts(ee: EnumEntryDecl, parentId: Label): seq<Fact>
  {
    match ee.sym.parent
    case ParentClass(c) =>
      if c.typeParameterCount > 0 then []
      else
        var id := UseEnumEntry(ee.sym);
        var t := UseSimpleTypeClass(c);
        [Fields(id, ee.sym.name, t.javaId, t.kotlinId, parentId, id), HasLocation(id, GetLocation(ee.loc))]
    case _ => []
  }

  /** `ta.render()`: the text of a type alias declaration. */
  function RenderTypeAlias(ta: TypeAliasDecl): string
  {
    "typealias " + ta.sym.name + " = " + TypeText(ta.expandedType)
  }

  /** What `extractTypeAlias` logs: its type parameters are not extracted. */
  function TypeAliasLog(ta: TypeAliasDecl): seq<Diagnostic>
  {
    if |ta.typeParameters| > 0 then [Diagnostic(ErrorSevere, "Type alias type parameters ignored for " + RenderTypeAlias(ta), None)] else []
  }

  /** The type alias tuple, with only the Kotlin type of its expansion, and its location. */
  function TypeAliasFacts(ta: TypeAliasDecl): seq<Fact>
  {
    var id := UseTypeAlias(ta.sym);
    [KtTypeAlias(id, ta.sym.name, UseType(ta.expandedType, OtherContext).kotlinId), HasLocation(id, GetLocation(ta.loc))]
  }

  /** The statement declaring anonymous or generated class `cls` at `idx` of `parent`. */
  function AnonymousClassStmtFacts(stmtId: Label, cls: Label, loc: Label, parent: Label, idx: int, callable: Label): seq<Fact>
  {
    [Stmt(AnonymousClassDeclStmt, stmtId, parent, idx, callable), KtAnonymousClassDeclarationStmts(stmtId, cls), HasLocation(stmtId, loc)]
  }

  /** The generated class of a local function, before its function: a class with no name in the root package. */
  function GeneratedClassHead(f: FunctionDecl): seq<Fact>
  {
    var id := GetLocalFunctionLabels(f.sym).typ.javaId;
    [Classes(id, "", ExtractPackage(""), id), HasLocation(id, GetLocation(f.loc))]
  }

  // ---------------------------------------------------------------------
  // Calls
  // ---------------------------------------------------------------------

  /** The branch of `extractCall` call `e` takes. */
  function CallRuleOf(e: Ir.Expr): CallRule
    requires e.node.Call?
  {
    ClassifyCall(e.node.target, e.node.origin, e.node.dispatchReceiver, |e.node.args|)
  }

  /** The kind of the expression a call opens with under each rule; an unhandled builtin writes none. */
  function CallExprKind(r: CallRule): Option<ExprKind>
  {
    match r
    case DispatchBinary(k) => Some(k)
    case NegatedEquality => Some(NeExpr)
    case BuiltinBinary(k, _, _) => Some(k)
    case BuiltinUnary(k, _, _) => Some(k)
    case UnhandledBuiltin => None
    case ArrayOfNulls => Some(ArrayCreationExpr)
    case ArrayBuilder(_) => Some(ArrayCreationExpr)
    case _ => Some(MethodAccess)
  }

  /** The diagnostic for a builtin operator whose call has another origin than its operator's. */
  function OriginLog(e: Ir.Expr, expected: Origin, name: string): seq<Diagnostic>
  {
    if e.node.Call? && e.node.origin != expected then
      [Diagnostic(ErrorSevere, "Unexpected origin for " + name + ": " + OriginName(e.node.origin), Some(e.loc))]
    else []
  }

  /** The three tuples `binOp`, `unaryOp` and `binopDisp` open with: the location of call `c` and the enclosing callable and statement. */
  function OperatorTail(id: Label, c: Ir.Expr, callable: Label, encl: Label): seq<Fact>
  {
    [HasLocation(id, GetLocation(c.loc)), CallableEnclosingExpr(id, callable), StatementEnclosingExpr(id, encl)]
  }

  /** The tuple a call lowered to an expression of kind `kind` opens with: that expression, typed as the call. */
  function CallOpening(e: Ir.Expr, kind: ExprKind, id: Label, parent: Label, idx: int): Fact
  {
    var t := UseType(e.typ, OtherContext);
    Fact.Expr(kind, id, t.javaId, t.kotlinId, parent, idx)
  }

  /** The tuples `fs` written from index `from` on open with `CallOpening(e, kind, id, parent, idx)`. */
  ghost predicate CallOpens(e: Ir.Expr, kind: ExprKind, fs: seq<Fact>, from: nat, id: Label, parent: Label, idx: int)
  {
    from < |fs| && fs[from] == CallOpening(e, kind, id, parent, idx)
  }

  /** An error about call `e`, located at it. */
  function CallError(e: Ir.Expr, msg: string): Diagnostic
  {
    Diagnostic(ErrorSevere, msg, Some(e.loc))
  }

  /**
   * Why `extractCall` gives up on call `e` without writing a tuple: an
   * unhandled builtin, or a member it looks up on a builtin type or on the
   * enum type argument and does not find.
   */
  function CallFailure(e: Ir.Expr, b: BuiltIns): Option<Diagnostic>
    requires e.node.Call?
  {
    match CallRuleOf(e)
    case UnhandledBuiltin => Some(CallError(e, "Unhandled builtin"))
    case NullableStringPlus =>
      if FindFunction(b.stringType, "plus").None? then Some(CallError(e, "Couldn't find plus function on string type")) else None
    case NullableAnyToString =>
      if FindFunction(b.anyType, "toString").None? then Some(CallError(e, "Couldn't find toString function")) else None
    case SpecialEnumFunction(fn) =>
      if |e.node.typeArgs| != 1 then Some(CallError(e, "Expected to find exactly one type argument"))
      else if FindFunction(e.node.typeArgs[0], fn).None? then Some(CallError(e, "Couldn't find function " + fn + " on enum type"))
      else None
    case _ => None
  }

  /** The diagnostic `binOp` and `unaryOp` log for a call with a dispatch receiver. */
  function DispatchLog(c: Ir.Expr): seq<Diagnostic>
  {
    if c.node.Call? && c.node.dispatchReceiver.Some? then [CallError(c, "Unexpected dispatch receiver found")] else []
  }

  /** What `binOp` logs before extracting any operand: the dispatch receiver check, then a missing first operand. */
  function BinOpOpening(c: Ir.Expr): seq<Diagnostic>
    requires c.node.Call?
  {
    DispatchLog(c) +
    if |c.node.args| < 1 then [CallError(c, "No arguments found")]
    else if c.node.args[0].None? then [CallError(c, "LHS null")]
    else []
  }

  /** What `binOp` logs last: a missing or absent second operand, or surplus arguments. */
  function BinOpClosing(c: Ir.Expr): seq<Diagnostic>
    requires c.node.Call?
  {
    if |c.node.args| < 1 then []
    else if |c.node.args| < 2 then [CallError(c, "No RHS found")]
    else (if c.node.args[1].None? then [CallError(c, "RHS null")] else []) +
         (if |c.node.args| > 2 then [CallError(c, "Extra arguments found")] else [])
  }

  /** What `unaryOp` logs before extracting its operand. */
  function UnaryOpOpening(c: Ir.Expr): seq<Diagnostic>
    requires c.node.Call?
  {
    DispatchLog(c) +
    if |c.node.args| < 1 then [CallError(c, "No arguments found")]
    else if c.node.args[0].None? then [CallError(c, "Operand null")]
    else []
  }

  /** What `unaryOp` logs last: surplus arguments. */
  function UnaryOpClosing(c: Ir.Expr): seq<Diagnostic>
    requires c.node.Call?
  {
    if |c.node.args| > 1 then [CallError(c, "Extra arguments found")] else []
  }

  /** What `binopDisp` logs before extracting anything: a missing dispatch receiver. */
  function BinopDispOpening(c: Ir.Expr): seq<Diagnostic>
    requires c.node.Call?
  {
    if c.node.dispatchReceiver.None? then [CallError(c, "Dispatch receiver not found")] else []
  }

  /** What `binopDisp` logs last: a missing or absent right operand, after any surplus arguments. */
  function BinopDispClosing(c: Ir.Expr): seq<Diagnostic>
    requires c.node.Call?
  {
    if |c.node.args| < 1 then [CallError(c, "No RHS found")]
    else if c.node.args[0].None? then
      (if |c.node.args| > 1 then [CallError(c, "Extra arguments found")] else []) + [CallError(c, "RHS null")]
    else []
  }

  /**
   * The opening tuples of an array creation: the expression, its location
   * and its callable, but no enclosing statement.
   */
  function ArrayCreationHead(e: Ir.Expr, id: Label, parent: Label, idx: int, callable: Label): seq<Fact>
  {
    [CallOpening(e, ArrayCreationExpr, id, parent, idx), HasLocation(id, GetLocation(e.loc)), CallableEnclosingExpr(id, callable)]
  }

  /**
   * An unannotated type access to `t` at `idx` of `parent` without a
   * location, as the array builders and constructor calls write it.
   */
  function BareTypeAccess(t: TypeResults, id: Label, parent: Label, idx: int, callable: Label, encl: Label): seq<Fact>
  {
    [Fact.Expr(UnannotatedTypeAccess, id, t.javaId, t.kotlinId, parent, idx), CallableEnclosingExpr(id, callable), StatementEnclosingExpr(id, encl)]
  }

  /**
   * The element type of an array creation, at -1: a primitive builder's
   * own element type, otherwise the single type argument (nothing when
   * there is not exactly one).
   */
  function ArrayElementTypeFacts(e: Ir.Expr, isBuilder: bool, id: Label, n: nat, callable: Label, encl: Label): seq<Fact>
    requires e.node.Call?
  {
    if isBuilder then BareTypeAccess(UseType(ArrayElementType(e.typ), OtherContext), Fresh(n), id, -1, callable, encl)
    else if |e.node.typeArgs| == 1 then TypeArgumentsFacts(e.node.typeArgs, n, id, callable, encl, -1, false)
    else []
  }

  /** The length literal of an array builder: an integer literal at 0 holding the number of elements. */
  function ArrayDimension(n: nat, e: Ir.Expr, dimId: Label, id: Label, callable: Label, encl: Label): seq<Fact>
  {
    var text := NatText(n);
    ExprHead(IntegerLiteral, dimId, UseType(IntType, OtherContext), id, 0, GetLocation(e.loc), callable, encl) +
    [Namestrings(text, text, dimId)]
  }

  /** The single argument of an array builder, when it is a vararg expression. */
  predicate HasVarargArgument(e: Ir.Expr)
    requires e.node.Call?
  {
    |e.node.args| == 1 && e.node.args[0].Some? && e.node.args[0].value.node.Vararg?
  }

  /**
   * The elements of array builder `id` as laid out in `fs` after `start`:
   * the initializer `initId` at -2 right after `start`, each element placed
   * under it unless a diagnostic was logged after `logFrom`, and the element
   * count as the last five tuples.
   */
  ghost predicate ArrayElementsLaidOut(fs: seq<Fact>, start: seq<Fact>, logLen: nat, logFrom: nat, next: nat,
                                       e: Ir.Expr, id: Label, initId: Label, callable: Label, encl: Label)
    requires e.node.Call? && HasVarargArgument(e)
  {
    var n := |e.node.args[0].value.node.elements|;
    start + ExprHead(ArrayInit, initId, UseType(e.typ, OtherContext), id, -2, GetLocation(e.loc), callable, encl) <= fs &&
    AllPlacedAt(fs, |start|, logLen, logFrom, initId, 0, Every(n)) &&
    1 <= next && 5 <= |fs| && fs[|fs| - 5..] == ArrayDimension(n, e, Fresh(next - 1), id, callable, encl)
  }

  /** The initializer written at `from`, its elements after it and the count at the end give the builder's layout. */
  lemma ArrayElementsLaidOutIntro(fs: seq<Fact>, start: seq<Fact>, logLen: nat, logFrom: nat, next: nat,
                                  e: Ir.Expr, id: Label, initId: Label, callable: Label, encl: Label, mid: seq<Fact>, dim: seq<Fact>)
    requires e.node.Call? && HasVarargArgument(e)
    requires start + ExprHead(ArrayInit, initId, UseType(e.typ, OtherContext), id, -2, GetLocation(e.loc), callable, encl) <= mid
    requires fs == mid + dim && 1 <= next && dim == ArrayDimension(|e.node.args[0].value.node.elements|, e, Fresh(next - 1), id, callable, encl)
    requires AllPlacedAt(fs, |start|, logLen, logFrom, initId, 0, Every(|e.node.args[0].value.node.elements|))
    ensures ArrayElementsLaidOut(fs, start, logLen, logFrom, next, e, id, initId, callable, encl)
  {
    assert |dim| == 5;
    assert fs[|fs| - 5..] == dim;
  }

  /** What an array builder logs when its arguments are not a single vararg expression. */
  function ArrayBuilderLog(e: Ir.Expr): seq<Diagnostic>
    requires e.node.Call?
  {
    if |e.node.args| != 1 then [CallError(e, "Expected to find only one (vararg) argument in " + e.node.target.name + " call")]
    else if !HasVarargArgument(e) then [CallError(e, "Expected to find vararg argument in " + e.node.target.name + " call")]
    else []
  }

  /** What `arrayOfNulls` logs about its type arguments. */
  function ArrayOfNullsTypeLog(e: Ir.Expr): seq<Diagnostic>
    requires e.node.Call?
  {
    if |e.node.typeArgs| == 1 then [] else [CallError(e, "Expected to find exactly one type argument in an arrayOfNulls call")]
  }

  /** What `arrayOfNulls` logs about its value arguments. */
  function ArrayOfNullsArgLog(e: Ir.Expr): seq<Diagnostic>
    requires e.node.Call?
  {
    if |e.node.args| != 1 then [CallError(e, "Expected to find only one argument in an arrayOfNulls call")]
    else if e.node.args[0].None? then [CallError(e, "Expected to find non-null argument in an arrayOfNulls call")]
    else []
  }

  // ---------------------------------------------------------------------
  // Constructor calls
  // ---------------------------------------------------------------------

  /** The type of a constructor call's new expression: its anonymous class's, or the call's own. */
  function NewExprType(e: Ir.Expr): TypeResults
  {
    if IsAnonymous(e.typ) then UseAnonymousClass(ClassOfType(e.typ).value) else UseType(e.typ, OtherContext)
  }

  /**
   * The type a constructor call's type access names: for an anonymous class
   * its single supertype, or `Any` when it has none or several; otherwise the
   * call's own type.
   */
  function ConstructedTypeAccessType(e: Ir.Expr, b: BuiltIns): TypeResults
  {
    if IsAnonymous(e.typ) then
      var c := ClassOfType(e.typ).value;
      if |c.superTypes| == 1 then UseType(c.superTypes[0], OtherContext) else UseType(b.anyType, OtherContext)
    else NewExprType(e)
  }

  /** The opening tuples of a constructor call `id`: the anonymous-class mark, the new expression and its binding. */
  function NewExprFacts(e: Ir.Expr, id: Label, parent: Label, idx: int, callable: Label, encl: Label): seq<Fact>
    requires e.node.ConstructorCall? || e.node.EnumConstructorCall?
  {
    var t := NewExprType(e);
    (if IsAnonymous(e.typ) then [IsAnonymClass(t.javaId, id)] else []) +
    ExprHead(NewExpr, id, t, parent, idx, GetLocation(e.loc), callable, encl) +
    [CallableBinding(id, UseFunction(e.node.target))]
  }

  /**
   * The tuples a method access `id` opens with: the access itself, the type
   * arguments of the call at -2, -3, ... when it keeps them (labelled from
   * `id`'s successor on), and its binding to the target.
   */
  function MethodAccessHead(e: Ir.Expr, target: FunctionSym, withTypeArgs: bool, id: Label, parent: Label, idx: int, callable: Label, encl: Label): seq<Fact>
    requires e.node.Call? && id.Fresh?
  {
    MethodAccessOpening(e, withTypeArgs, id, parent, idx, callable, encl) + [CallableBinding(id, FunctionLabel(target))]
  }

  /** A method access expression followed, when `withTypeArgs`, by the call's type arguments at -2, -3, ... */
  function MethodAccessOpening(e: Ir.Expr, withTypeArgs: bool, id: Label, parent: Label, idx: int, callable: Label, encl: Label): seq<Fact>
    requires e.node.Call? && id.Fresh?
  {
    ExprHead(MethodAccess, id, UseType(e.typ, OtherContext), parent, idx, GetLocation(e.loc), callable, encl) +
    (if withTypeArgs then TypeArgumentsFacts(e.node.typeArgs, id.n + 1, id, callable, encl, -2, true) else [])
  }

  /** Writing the method access head and then, when kept, the type arguments writes its opening. */
  lemma MethodAccessOpened(f0: seq<Fact>, f1: seq<Fact>, f2: seq<Fact>, e: Ir.Expr, withTypeArgs: bool, id: Label, parent: Label, idx: int, callable: Label, encl: Label)
    requires e.node.Call? && id.Fresh?
    requires f1 == f0 + ExprHead(MethodAccess, id, UseType(e.typ, OtherContext), parent, idx, GetLocation(e.loc), callable, encl)
    requires f2 == if withTypeArgs then f1 + TypeArgumentsFacts(e.node.typeArgs, id.n + 1, id, callable, encl, -2, true) else f1
    ensures f2 == f0 + MethodAccessOpening(e, withTypeArgs, id, parent, idx, callable, encl)
    ensures CallOpens(e, MethodAccess, f2, |f0|, id, parent, idx)
  {
    assert f2[|f0|] == f1[|f0|];
  }

  /**
   * The tuples that close a constructor call `id`, ending `fs` when `next`
   * is the label counter: the type access at -3 labelled after everything
   * else of the call, then the call's type arguments under it from 0 on.
   */
  ghost predicate ConstructorTypeTail(e: Ir.Expr, b: BuiltIns, id: Label, fs: seq<Fact>, next: nat, callable: Label, encl: Label)
    requires e.node.ConstructorCall? || e.node.EnumConstructorCall?
  {
    var ta := e.node.typeArgs;
    |ta| + 1 <= next && 3 + 3 * |ta| <= |fs| &&
    fs[|fs| - 3 - 3 * |ta|..] ==
      BareTypeAccess(ConstructedTypeAccessType(e, b), Fresh(next - 1 - |ta|), id, -3, callable, encl) +
      TypeArgumentsFacts(ta, next - |ta|, Fresh(next - 1 - |ta|), callable, encl, 0, false)
  }
}
