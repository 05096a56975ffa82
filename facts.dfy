/**
 * The trap database the extractor writes: labels, the tuples (facts) of
 * each relation it emits, and the diagnostics it logs.
 */
module Facts {
  import opened Wrappers
  import opened Ir

  /**
   * A trap label.  `Fresh` labels come from `getFreshIdLabel`, `Interned`
   * ones from `getLabelFor` on a key string; both draw their number from
   * the same counter.  `Ext` labels are handed out by the collaborators
   * outside this file and are identified by their key.
   */
  datatype Label =
    | Fresh(n: nat)
    | Interned(n: nat)
    | Ext(key: string)

  /** The types a type is extracted as: the Java type, its signature, and the Kotlin type. */
  datatype TypeResults = TypeResults(javaId: Label, javaSignature: string, kotlinId: Label)

  datatype StmtKind =
    | BlockStmt | ExprStmt | LocalVariableDeclStmt | AnonymousClassDeclStmt
    | SuperConstructorInvocationStmt | ConstructorInvocationStmt
    | ThrowStmt | BreakStmt | ContinueStmt | ReturnStmt
    | TryStmt | CatchClause | WhileStmt | DoStmt

  datatype ExprKind =
    | MethodAccess | NewExpr | StmtExpr | LocalVariableDeclExpr
    | AddExpr | SubExpr | DivExpr | RemExpr | NeExpr
    | LtExpr | LeExpr | GtExpr | GeExpr | EqExpr | NotNullExpr
    | ArrayCreationExpr | ArrayInit
    | IntegerLiteral | LongLiteral | FloatingPointLiteral | DoubleLiteral
    | BooleanLiteral | CharacterLiteral | StringLiteral | NullLiteral
    | StringTemplateExpr | ThisAccess | VarAccess | AssignExpr | WhenExpr
    | GetClassExpr | CastExpr | InstanceOfExpr | NotInstanceOfExpr | VarargExpr
    | UnannotatedTypeAccess

  /**
   * One tuple of the database.  `Stmt` covers every `stmts_*` relation and
   * `Expr` every `exprs_*` relation (with the Kotlin type beside the Java one).
   */
  datatype Fact =
    | Stmt(skind: StmtKind, id: Label, parent: Label, idx: int, callable: Label)
    | Expr(ekind: ExprKind, id: Label, javaType: Label, kotlinType: Label, parent: Label, idx: int)
    | HasLocation(entity: Label, location: Label)
    | CallableEnclosingExpr(expr: Label, callable: Label)
    | StatementEnclosingExpr(expr: Label, stmt: Label)
    | CallableBinding(caller: Label, callee: Label)
    | VariableBinding(access: Label, variable: Label)
    | Namestrings(name: string, value: string, parent: Label)
    | KtBreakContinueTargets(jump: Label, loop: Label)
    | WhenIf(expr: Label)
    | WhenBranch(id: Label, parent: Label, idx: int)
    | WhenBranchElse(branch: Label)
    | Classes(id: Label, name: string, pkg: Label, source: Label)
    | Interfaces(id: Label, name: string, pkg: Label, source: Label)
    | IsEnumType(cls: Label)
    | EnclInReftype(child: Label, parent: Label)
    | Fields(id: Label, name: string, javaType: Label, kotlinType: Label, parent: Label, source: Label)
    | Methods(id: Label, name: string, signature: string, javaType: Label, kotlinType: Label, parent: Label, source: Label)
    | Constrs(id: Label, name: string, signature: string, javaType: Label, kotlinType: Label, parent: Label, source: Label)
    | Params(id: Label, javaType: Label, kotlinType: Label, idx: int, parent: Label, source: Label)
    | ParamName(id: Label, name: string)
    | TypeVars(id: Label, name: string, pos: int, kind: int, parent: Label)
    | KtExtensionFunctions(id: Label, javaType: Label, kotlinType: Label)
    | KtProperties(id: Label, name: string)
    | KtPropertyGetters(id: Label, getter: Label)
    | KtPropertySetters(id: Label, setter: Label)
    | KtPropertyBackingFields(id: Label, field: Label)
    | KtTypeAlias(id: Label, name: string, kotlinType: Label)
    | KtSyntheticBody(callable: Label, kind: int)
    | Localvars(id: Label, name: string, javaType: Label, kotlinType: Label, parent: Label)
    | ClassObject(cls: Label, instance: Label)
    | ClassCompanionObject(cls: Label, instance: Label, companion: Label)
    | IsAnonymClass(cls: Label, newExpr: Label)
    | KtAnonymousClassDeclarationStmts(stmt: Label, cls: Label)
    /** What `addModifiers` records for an entity. */
    | Modifiers(id: Label, modifiers: seq<string>)
    /** What `extractClassModifiers` records for a class. */
    | ClassModifiers(id: Label)
    /** What `extractClassSupertypes` records for a class. */
    | Supertypes(id: Label, superTypes: seq<IrType>)

  datatype Severity = ErrorSevere | Warn

  /** A logged diagnostic, with the element it is about when the extractor names one. */
  datatype Diagnostic = Diagnostic(severity: Severity, message: string, element: Option<Loc>)

  /** The (parent, index) a statement, expression or when-branch tuple places its entity at. */
  function SlotOf(f: Fact): (r: Option<(Label, int)>)
    ensures r.Some? <==> f.Stmt? || f.Expr? || f.WhenBranch?
  {
    match f
    case Stmt(_, _, p, i, _) => Some((p, i))
    case Expr(_, _, _, _, p, i) => Some((p, i))
    case WhenBranch(_, p, i) => Some((p, i))
    case _ => None
  }

  // ---------------------------------------------------------------------
  // Decimal text, as `toString` renders integers (label numbers, literals)
  // ---------------------------------------------------------------------

  function DigitChar(d: nat): char
    requires d < 10
  {
    "0123456789"[d]
  }

  function DigitValue(c: char): nat
  {
    if '0' <= c <= '9' then (c as int - '0' as int) as nat else 0
  }

  predicate IsDigits(s: string)
  {
    |s| > 0 && forall k | 0 <= k < |s| :: '0' <= s[k] <= '9'
  }

  /** The decimal text of `n`, without leading zeros. */
  function NatText(n: nat): (s: string)
    ensures IsDigits(s)
    ensures n < 10 <==> |s| == 1
    ensures s[0] != '0' || n == 0
    decreases n
  {
    if n < 10 then [DigitChar(n)] else NatText(n / 10) + [DigitChar(n % 10)]
  }

  /** The value of a string of decimal digits, read most significant digit first. */
  function DigitsValue(s: string): nat
    decreases |s|
  {
    if |s| == 0 then 0 else DigitsValue(s[..|s| - 1]) * 10 + DigitValue(s[|s| - 1])
  }

  /** Reading back the decimal text of `n` gives `n`. */
  lemma {:induction false} NatTextRoundTrip(n: nat)
    ensures DigitsValue(NatText(n)) == n
    decreases n
  {
    if n >= 10 {
      var s := NatText(n / 10);
      var t := s + [DigitChar(n % 10)];
      assert t[..|t| - 1] == s;
      NatTextRoundTrip(n / 10);
      assert DigitValue(DigitChar(n % 10)) == n % 10;
    } else {
      var t := NatText(n);
      assert t[..|t| - 1] == [];
    }
  }

  /** Distinct numbers have distinct decimal texts. */
  lemma NatTextInjective(a: nat, b: nat)
    requires NatText(a) == NatText(b)
    ensures a == b
  {
    NatTextRoundTrip(a);
    NatTextRoundTrip(b);
  }

  /** `toString` of an integer: a minus sign before the decimal text of the magnitude. */
  function IntText(i: int): (s: string)
    ensures i >= 0 ==> s == NatText(i)
    ensures i < 0 ==> |s| >= 2 && s[0] == '-' && s[1..] == NatText(-i)
  {
    if i < 0 then "-" + NatText(-i) else NatText(i)
  }

  /** Integer literals keep their value: the text the extractor stores reads back to the constant. */
  lemma IntTextRoundTrip(i: int)
    ensures var s := IntText(i);
      if |s| > 0 && s[0] == '-' then 0 - (DigitsValue(s[1..]) as int) == i else DigitsValue(s) == i
  {
    if i < 0 {
      NatTextRoundTrip(-i);
    } else {
      NatTextRoundTrip(i);
      assert NatText(i)[0] != '-';
    }
  }

  /**
   * The text of a label inside a trap key: `#` and the label number, or
   * `#` and the key for a label owned by a collaborator.
   */
  function LabelText(l: Label): (s: string)
    ensures |s| >= 2 && s[0] == '#'
    ensures (l.Fresh? || l.Interned?) ==> s[1..] == NatText(l.n)
  {
    match l
    case Fresh(n) => "#" + NatText(n)
    case Interned(n) => "#" + NatText(n)
    case Ext(k) => "#" + (if |k| == 0 then "?" else k)
  }
}
