/**
 * The Kotlin IR tree that the file extractor walks.  Each node keeps only
 * what the extractor reads from it: names, flags, types, children and the
 * identity of its source element (handed to the location collaborator).
 */
module Ir {
  import opened Wrappers

  /** Identity of a source element; the location of an entity is derived from it. */
  type Loc = nat

  /** Identity of an IrLoop object: break and continue name their loop by it. */
  type LoopRef = nat

  datatype ClassKind = PlainClass | Interface | EnumClass | EnumEntryClass | AnnotationClass | ObjectClass

  datatype Modality = Final | Sealed | Open | Abstract

  /** The statement origins the extractor tests for; any other origin is `OtherOrigin`. */
  datatype Origin =
    | NoOrigin
    | Plus | Minus | Div | Perc
    | ExclEq | ExclEqEq
    | Lt | LtEq | Gt | GtEq
    | EqEq | EqEqEq
    | ExclExcl
    | If
    | OtherOrigin(name: string)

  /** How an origin renders inside a diagnostic; an absent origin renders as "null". */
  function OriginName(o: Origin): string
  {
    match o
    case NoOrigin => "null"
    case Plus => "PLUS"
    case Minus => "MINUS"
    case Div => "DIV"
    case Perc => "PERC"
    case ExclEq => "EXCLEQ"
    case ExclEqEq => "EXCLEQEQ"
    case Lt => "LT"
    case LtEq => "LTEQ"
    case Gt => "GT"
    case GtEq => "GTEQ"
    case EqEq => "EQEQ"
    case EqEqEq => "EQEQEQ"
    case ExclExcl => "EXCLEXCL"
    case If => "IF"
    case OtherOrigin(n) => n
  }

  datatype TypeOperator =
    | Cast | ImplicitCast | ImplicitNotNull | ImplicitCoercionToUnit | SafeCast
    | InstanceOf | NotInstanceOf
    | ImplicitIntegerCoercion | SamConversion | ImplicitDynamicCast | ReinterpretCast

  function OperatorName(op: TypeOperator): string
  {
    match op
    case Cast => "CAST"
    case ImplicitCast => "IMPLICIT_CAST"
    case ImplicitNotNull => "IMPLICIT_NOTNULL"
    case ImplicitCoercionToUnit => "IMPLICIT_COERCION_TO_UNIT"
    case SafeCast => "SAFE_CAST"
    case InstanceOf => "INSTANCEOF"
    case NotInstanceOf => "NOT_INSTANCEOF"
    case ImplicitIntegerCoercion => "IMPLICIT_INTEGER_COERCION"
    case SamConversion => "SAM_CONVERSION"
    case ImplicitDynamicCast => "IMPLICIT_DYNAMIC_CAST"
    case ReinterpretCast => "REINTERPRET_CAST"
  }

  // ---------------------------------------------------------------------
  // Symbols: what a reference to a declaration carries.
  // ---------------------------------------------------------------------

  /** The parent of a declaration: a package fragment (file or external package), a class, a function, or anything else.
      Another parent that is itself a declaration carries its own parent as `outer`. */
  datatype DeclParent =
    | PackageFragment(fqName: string)
    | ParentClass(cls: ClassSym)
    | ParentFunction(fn: FunctionSym)
    | OtherParent(kind: string, outer: Option<DeclParent>)

  /** A function declared in a class, as found by searching the class's declarations. */
  datatype Member = Member(name: string, isConstructor: bool)

  datatype ClassSym = ClassSym(
    name: string,
    parent: DeclParent,
    kind: ClassKind,
    isCompanion: bool,
    isAnonymousObject: bool,
    typeParameterCount: nat,
    superTypes: seq<IrType>,
    members: seq<Member>)

  datatype Classifier =
    | ClassClassifier(cls: ClassSym)
    | TypeParameterClassifier(name: string, index: nat)

  datatype IrType =
    | SimpleType(classifier: Classifier, hasQuestionMark: bool, arguments: seq<IrType>)
    | OtherType(description: string)

  datatype FunctionSym = FunctionSym(
    name: string,
    parent: DeclParent,
    extensionReceiverType: Option<IrType>,
    isConstructor: bool,
    isLocal: bool)

  datatype FieldSym = FieldSym(name: string, parent: DeclParent, typ: IrType, isStatic: bool)

  datatype PropertySym = PropertySym(name: string, parent: DeclParent)

  datatype EnumEntrySym = EnumEntrySym(name: string, parent: DeclParent)

  datatype TypeAliasSym = TypeAliasSym(name: string, parent: DeclParent)

  /**
   * The declaration a value parameter belongs to, reduced to what the
   * extractor asks of it when the parameter is read as `this`.
   */
  datatype ParamOwner =
    | OwnerFunction(isDispatchReceiver: bool, hasExtensionReceiver: bool)
    | OwnerClass(cls: ClassSym, isThisReceiver: bool)
    | OwnerOther(kind: string)

  /** A value declaration read or written by IrGetValue / IrSetValue. Index -1 marks a receiver parameter. */
  datatype ValueDecl =
    | ValueParameterSym(name: string, index: int, typ: IrType, owner: ParamOwner)
    | VariableSym(name: string, typ: IrType, id: nat)

  /** A function that is a member of class `c`, as type-checked code sees it. */
  function MemberFunction(c: ClassSym, m: Member): (f: FunctionSym)
    ensures f.parent == ParentClass(c) && f.name == m.name && f.extensionReceiverType.None?
  {
    FunctionSym(m.name, ParentClass(c), None, m.isConstructor, false)
  }

  // ---------------------------------------------------------------------
  // Expressions and statements
  // ---------------------------------------------------------------------

  datatype ConstValue =
    | IntValue(i: int) | ShortValue(i: int) | ByteValue(i: int) | LongValue(i: int)
    | FloatValue(text: string) | DoubleValue(text: string)
    | BooleanValue(b: bool) | CharValue(c: char) | StringValue(s: string)
    | NullValue
    | OtherValue(className: string)

  datatype Expr = Expr(typ: IrType, loc: Loc, node: ExprNode)

  datatype ExprNode =
    | DelegatingConstructorCall(target: FunctionSym, args: seq<Option<Expr>>, dispatchReceiver: Option<Expr>)
    | Throw(value: Expr)
    | Break(loop: LoopRef, loopLabel: Option<string>)
    | Continue(loop: LoopRef, loopLabel: Option<string>)
    | Return(value: Expr)
    | Try(tryResult: Expr, catches: seq<Catch>, finallyExpression: Option<Expr>)
    | Container(statements: seq<Statement>)
    | WhileLoop(loop: LoopRef, condition: Expr, body: Option<Expr>)
    | DoWhileLoop(loop: LoopRef, condition: Expr, body: Option<Expr>)
    | InstanceInitializerCall
    | ConstructorCall(target: FunctionSym, args: seq<Option<Expr>>, dispatchReceiver: Option<Expr>, typeArgs: seq<IrType>)
    | EnumConstructorCall(target: FunctionSym, args: seq<Option<Expr>>, dispatchReceiver: Option<Expr>, typeArgs: seq<IrType>)
    | Call(target: FunctionSym, origin: Origin, dispatchReceiver: Option<Expr>, extensionReceiver: Option<Expr>,
           args: seq<Option<Expr>>, typeArgs: seq<IrType>)
    | StringConcatenation(arguments: seq<Expr>)
    | Const(constant: ConstValue)
    | GetValue(owner: ValueDecl)
    | GetField(field: FieldSym)
    | GetEnumValue(entry: EnumEntrySym)
    | SetValue(variable: ValueDecl, value: Expr)
    | SetField(field: FieldSym, value: Expr)
    | When(origin: Origin, branches: seq<Branch>)
    | GetClass(argument: Expr)
    | TypeOperatorCall(operator: TypeOperator, argument: Expr, typeOperand: IrType)
    | Vararg(elements: seq<VarargElement>)
    | GetObjectValue(cls: ClassSym)
    | OtherExpression(className: string)

  datatype Catch = Catch(parameter: Variable, result: Expr, loc: Loc)

  datatype Branch = Branch(condition: Expr, result: Expr, isElse: bool, loc: Loc)

  datatype VarargElement =
    | VarargExpression(e: Expr)
    | SpreadElement(loc: Loc)

  datatype Variable = Variable(name: string, typ: IrType, id: nat, initializer: Option<Expr>, loc: Loc)

  /** The symbol by which reads and writes refer to a declared variable. */
  function VariableSymOf(v: Variable): (d: ValueDecl)
    ensures d.VariableSym? && d.name == v.name && d.typ == v.typ
  {
    VariableSym(v.name, v.typ, v.id)
  }

  datatype Statement =
    | ExpressionStatement(e: Expr)
    | VariableStatement(v: Variable)
    | ClassStatement(c: ClassDecl)
    | FunctionStatement(f: FunctionDecl)
    | OtherStatement(className: string, loc: Loc)

  // ---------------------------------------------------------------------
  // Declarations
  // ---------------------------------------------------------------------

  datatype TypeParameter = TypeParameter(name: string, index: nat, parent: DeclParent, loc: Loc)

  datatype ValueParameter = ValueParameter(name: string, index: int, typ: IrType, owner: ParamOwner, loc: Loc)

  /** The symbol by which reads refer to a declared value parameter. */
  function ParameterSymOf(vp: ValueParameter): (d: ValueDecl)
    ensures d.ValueParameterSym? && d.name == vp.name && d.index == vp.index
  {
    ValueParameterSym(vp.name, vp.index, vp.typ, vp.owner)
  }

  datatype SyntheticBodyKind = EnumValues | EnumValueOf

  datatype Body =
    | BlockBody(statements: seq<Statement>, loc: Loc)
    | SyntheticBody(kind: SyntheticBodyKind)
    | OtherBody(className: string, loc: Loc)

  datatype FunctionDecl = FunctionDecl(
    sym: FunctionSym,
    typeParameters: seq<TypeParameter>,
    valueParameters: seq<ValueParameter>,
    extensionReceiver: Option<ValueParameter>,
    returnType: IrType,
    body: Option<Body>,
    loc: Loc)

  datatype FieldDecl = FieldDecl(sym: FieldSym, initializer: Option<Expr>, loc: Loc)

  datatype PropertyDecl = PropertyDecl(
    sym: PropertySym,
    isVar: bool,
    modality: Modality,
    isExternal: bool,
    getter: Option<FunctionDecl>,
    setter: Option<FunctionDecl>,
    backingField: Option<FieldDecl>,
    loc: Loc)

  datatype EnumEntryDecl = EnumEntryDecl(sym: EnumEntrySym, loc: Loc)

  datatype TypeAliasDecl = TypeAliasDecl(sym: TypeAliasSym, typeParameters: seq<TypeParameter>, expandedType: IrType, loc: Loc)

  datatype ClassDecl = ClassDecl(
    sym: ClassSym,
    typeParameters: seq<TypeParameter>,
    declarations: seq<Decl>,
    isExternal: bool,
    loc: Loc)

  datatype Decl =
    | ClassDeclaration(c: ClassDecl)
    | FunctionDeclaration(f: FunctionDecl)
    | AnonymousInitializer(isStatic: bool, body: seq<Statement>, loc: Loc)
    | PropertyDeclaration(p: PropertyDecl)
    | EnumEntryDeclaration(ee: EnumEntryDecl)
    | TypeAliasDeclaration(ta: TypeAliasDecl)
    | OtherDeclaration(className: string, loc: Loc)

  /** The IR elements a label key can be asked for. */
  datatype Element =
    | FileElement(path: string)
    | ClassElement(cls: ClassSym)
    | TypeParameterElement(tp: TypeParameter)
    | FunctionElement(fn: FunctionSym)
    | ValueParameterElement(vp: ValueParameter)
    | PropertyElement(prop: PropertySym)
    | FieldElement(field: FieldSym)
    | EnumEntryElement(entry: EnumEntrySym)
    | BodyElement(body: Body)
    | ExpressionElement(e: Expr)
    | OtherElement(className: string, loc: Loc)

  // ---------------------------------------------------------------------
  // Class-derived facts
  // ---------------------------------------------------------------------

  /** `c.isNonCompanionObject`: an `object` declaration that is not a companion. */
  predicate IsNonCompanionObject(c: ClassSym)
  {
    c.kind == ObjectClass && !c.isCompanion
  }

  /** The package a declaration with parent `p` lives in: the fragment at the top of its parent chain. */
  function PackageOf(p: DeclParent): Option<string>
  {
    match p
    case PackageFragment(n) => Some(n)
    case ParentClass(c) => PackageOf(c.parent)
    case ParentFunction(f) => PackageOf(f.parent)
    case OtherParent(_, outer) => if outer.Some? then PackageOf(outer.value) else None
  }

  /** The class owning a type's classifier, if the type is a simple type over a class. */
  function ClassOfType(t: IrType): Option<ClassSym>
  {
    if t.SimpleType? && t.classifier.ClassClassifier? then Some(t.classifier.cls) else None
  }

  /** The first member function with the given name, as a search of the class's declarations finds it. */
  function FindMember(ms: seq<Member>, name: string): (r: Option<Member>)
    ensures r.Some? ==> r.value in ms && r.value.name == name
    ensures r.Some? ==> exists i | 0 <= i < |ms| :: ms[i] == r.value && forall j | 0 <= j < i :: ms[j].name != name
    ensures r.None? ==> forall m | m in ms :: m.name != name
  {
    if |ms| == 0 then None
    else if ms[0].name == name then Some(ms[0])
    else FindMember(ms[1..], name)
  }

  /** The first constructor among a class's declarations. */
  function FindConstructor(ms: seq<Member>): (r: Option<Member>)
    ensures r.Some? ==> r.value in ms && r.value.isConstructor
    ensures r.Some? ==> exists i | 0 <= i < |ms| :: ms[i] == r.value && forall j | 0 <= j < i :: !ms[j].isConstructor
    ensures r.None? ==> forall m | m in ms :: !m.isConstructor
  {
    if |ms| == 0 then None
    else if ms[0].isConstructor then Some(ms[0])
    else FindConstructor(ms[1..])
  }

  /**
   * The first function named `name` among the declarations of the class of
   * type `t`; none when `t` is not a class type or declares no such function.
   */
  function FindFunction(t: IrType, name: string): (r: Option<FunctionSym>)
    ensures r.Some? <==> ClassOfType(t).Some? && exists m | m in ClassOfType(t).value.members :: m.name == name
    ensures r.Some? ==> r.value.name == name && r.value.parent == ParentClass(ClassOfType(t).value) && !r.value.isLocal
    ensures r.Some? ==>
      var c := ClassOfType(t).value;
      exists i | 0 <= i < |c.members| :: r.value == MemberFunction(c, c.members[i]) && forall j | 0 <= j < i :: c.members[j].name != name
  {
    match ClassOfType(t)
    case None => None
    case Some(c) =>
      match FindMember(c.members, name)
      case None => None
      case Some(m) => Some(MemberFunction(c, m))
  }

  // ---------------------------------------------------------------------
  // Syntactic summaries used by the extractor's frame properties
  // ---------------------------------------------------------------------

  /** Every loop occurring anywhere inside `e`, `e` itself included. */
  ghost function ExprLoops(e: Expr): set<LoopRef>
    decreases e
  {
    match e.node
    case DelegatingConstructorCall(_, args, dr) => OptsLoops(args) + OptLoops(dr)
    case Throw(v) => ExprLoops(v)
    case Return(v) => ExprLoops(v)
    case Try(r, cs, fin) => ExprLoops(r) + OptLoops(fin) + CatchesLoops(cs)
    case Container(ss) => StatementsLoops(ss)
    case WhileLoop(l, c, b) => {l} + ExprLoops(c) + OptLoops(b)
    case DoWhileLoop(l, c, b) => {l} + ExprLoops(c) + OptLoops(b)
    case ConstructorCall(_, args, dr, _) => OptsLoops(args) + OptLoops(dr)
    case EnumConstructorCall(_, args, dr, _) => OptsLoops(args) + OptLoops(dr)
    case Call(_, _, dr, er, args, _) => OptLoops(dr) + OptLoops(er) + OptsLoops(args)
    case StringConcatenation(as_) => ExprsLoops(as_)
    case SetValue(_, v) => ExprLoops(v)
    case SetField(_, v) => ExprLoops(v)
    case When(_, bs) => BranchesLoops(bs)
    case GetClass(a) => ExprLoops(a)
    case TypeOperatorCall(_, a, _) => ExprLoops(a)
    case Vararg(els) => VarargLoops(els)
    case _ => {}
  }

  /** The loops of each child of an expression are among the expression's own. */
  lemma ExprLoopsChildren(e: Expr)
    ensures (e.node.DelegatingConstructorCall? || e.node.ConstructorCall? || e.node.EnumConstructorCall? || e.node.Call?) ==>
      OptsLoops(e.node.args) <= ExprLoops(e) && OptLoops(e.node.dispatchReceiver) <= ExprLoops(e)
    ensures e.node.Call? ==> OptLoops(e.node.extensionReceiver) <= ExprLoops(e)
    ensures (e.node.Throw? || e.node.Return?) ==> ExprLoops(e.node.value) <= ExprLoops(e)
    ensures e.node.Try? ==>
      ExprLoops(e.node.tryResult) <= ExprLoops(e) && CatchesLoops(e.node.catches) <= ExprLoops(e) &&
      OptLoops(e.node.finallyExpression) <= ExprLoops(e)
    ensures e.node.Container? ==> StatementsLoops(e.node.statements) == ExprLoops(e)
    ensures (e.node.WhileLoop? || e.node.DoWhileLoop?) ==>
      e.node.loop in ExprLoops(e) && ExprLoops(e.node.condition) <= ExprLoops(e) && OptLoops(e.node.body) <= ExprLoops(e)
    ensures e.node.StringConcatenation? ==> ExprsLoops(e.node.arguments) == ExprLoops(e)
    ensures (e.node.SetValue? || e.node.SetField?) ==> ExprLoops(e.node.value) <= ExprLoops(e)
    ensures e.node.When? ==> BranchesLoops(e.node.branches) == ExprLoops(e)
    ensures (e.node.GetClass? || e.node.TypeOperatorCall?) ==> ExprLoops(e.node.argument) <= ExprLoops(e)
    ensures e.node.Vararg? ==> VarargLoops(e.node.elements) == ExprLoops(e)
    ensures (e.node.Break? || e.node.Continue? || e.node.InstanceInitializerCall? || e.node.Const? || e.node.GetValue? ||
             e.node.GetField? || e.node.GetEnumValue? || e.node.GetObjectValue? || e.node.OtherExpression?) ==> ExprLoops(e) == {}
  {
  }

  ghost function ExprsLoops(es: seq<Expr>): set<LoopRef>
    decreases es
  {
    if |es| == 0 then {} else ExprLoops(es[0]) + ExprsLoops(es[1..])
  }

  ghost function CatchLoops(c: Catch): set<LoopRef>
    decreases c
  {
    ExprLoops(c.result) + OptLoops(c.parameter.initializer)
  }

  ghost function CatchesLoops(cs: seq<Catch>): set<LoopRef>
    decreases cs
  {
    if |cs| == 0 then {} else CatchLoops(cs[0]) + CatchesLoops(cs[1..])
  }

  ghost function BranchLoops(b: Branch): set<LoopRef>
    decreases b
  {
    ExprLoops(b.condition) + ExprLoops(b.result)
  }

  ghost function BranchesLoops(bs: seq<Branch>): set<LoopRef>
    decreases bs
  {
    if |bs| == 0 then {} else BranchLoops(bs[0]) + BranchesLoops(bs[1..])
  }

  ghost function VarargElementLoops(v: VarargElement): set<LoopRef>
    decreases v
  {
    match v
    case VarargExpression(x) => ExprLoops(x)
    case SpreadElement(_) => {}
  }

  /** The loops inside the expression elements of a vararg. */
  ghost function VarargLoops(els: seq<VarargElement>): set<LoopRef>
    decreases els
  {
    if |els| == 0 then {} else VarargElementLoops(els[0]) + VarargLoops(els[1..])
  }

  ghost function OptLoops(o: Option<Expr>): set<LoopRef>
    decreases o
  {
    match o
    case None => {}
    case Some(e) => ExprLoops(e)
  }

  ghost function OptsLoops(os: seq<Option<Expr>>): set<LoopRef>
    decreases os
  {
    if |os| == 0 then {} else OptLoops(os[0]) + OptsLoops(os[1..])
  }

  ghost function StatementLoops(s: Statement): set<LoopRef>
    decreases s
  {
    match s
    case ExpressionStatement(e) => ExprLoops(e)
    case VariableStatement(v) => OptLoops(v.initializer)
    case ClassStatement(c) => ClassLoops(c)
    case FunctionStatement(f) => FunctionLoops(f)
    case OtherStatement(_, _) => {}
  }

  ghost function StatementsLoops(ss: seq<Statement>): set<LoopRef>
    decreases ss
  {
    if |ss| == 0 then {} else StatementLoops(ss[0]) + StatementsLoops(ss[1..])
  }

  ghost function FunctionLoops(f: FunctionDecl): set<LoopRef>
    decreases f
  {
    match f.body
    case Some(b) => BodyLoops(b)
    case None => {}
  }

  ghost function BodyLoops(b: Body): set<LoopRef>
    decreases b
  {
    match b
    case BlockBody(ss, _) => StatementsLoops(ss)
    case _ => {}
  }

  ghost function ClassLoops(c: ClassDecl): set<LoopRef>
    decreases c
  {
    DeclsLoops(c.declarations)
  }

  ghost function DeclsLoops(ds: seq<Decl>): set<LoopRef>
    decreases ds
  {
    if |ds| == 0 then {} else DeclLoops(ds[0]) + DeclsLoops(ds[1..])
  }

  ghost function DeclLoops(d: Decl): set<LoopRef>
    decreases d
  {
    match d
    case ClassDeclaration(c) => ClassLoops(c)
    case FunctionDeclaration(f) => FunctionLoops(f)
    case AnonymousInitializer(_, ss, _) => StatementsLoops(ss)
    case PropertyDeclaration(p) => PropertyLoops(p)
    case _ => {}
  }

  ghost function PropertyLoops(p: PropertyDecl): set<LoopRef>
    decreases p
  {
    (match p.getter case Some(g) => FunctionLoops(g) case None => {}) +
    (match p.setter case Some(s) => FunctionLoops(s) case None => {}) +
    (match p.backingField case Some(bf) => OptLoops(bf.initializer) case None => {})
  }

  // Each element of a sequence contributes its loops to the sequence's.

  lemma {:induction false} OptsLoopsElement(os: seq<Option<Expr>>, k: nat)
    requires k < |os|
    ensures OptLoops(os[k]) <= OptsLoops(os)
    decreases k
  {
    if k > 0 {
      OptsLoopsElement(os[1..], k - 1);
    }
  }

  lemma {:induction false} ExprsLoopsElement(es: seq<Expr>, k: nat)
    requires k < |es|
    ensures ExprLoops(es[k]) <= ExprsLoops(es)
    decreases k
  {
    if k > 0 {
      ExprsLoopsElement(es[1..], k - 1);
    }
  }

  lemma {:induction false} CatchesLoopsElement(cs: seq<Catch>, k: nat)
    requires k < |cs|
    ensures CatchLoops(cs[k]) <= CatchesLoops(cs)
    decreases k
  {
    if k > 0 {
      CatchesLoopsElement(cs[1..], k - 1);
    }
  }

  lemma {:induction false} BranchesLoopsElement(bs: seq<Branch>, k: nat)
    requires k < |bs|
    ensures BranchLoops(bs[k]) <= BranchesLoops(bs)
    decreases k
  {
    if k > 0 {
      BranchesLoopsElement(bs[1..], k - 1);
    }
  }

  lemma {:induction false} VarargLoopsElement(els: seq<VarargElement>, k: nat)
    requires k < |els|
    ensures VarargElementLoops(els[k]) <= VarargLoops(els)
    decreases k
  {
    if k > 0 {
      VarargLoopsElement(els[1..], k - 1);
    }
  }

  lemma {:induction false} StatementsLoopsElement(ss: seq<Statement>, k: nat)
    requires k < |ss|
    ensures StatementLoops(ss[k]) <= StatementsLoops(ss)
    decreases k
  {
    if k > 0 {
      StatementsLoopsElement(ss[1..], k - 1);
    }
  }

  lemma {:induction false} DeclsLoopsElement(ds: seq<Decl>, k: nat)
    requires k < |ds|
    ensures DeclLoops(ds[k]) <= DeclsLoops(ds)
    decreases k
  {
    if k > 0 {
      DeclsLoopsElement(ds[1..], k - 1);
    }
  }
}
