/**
 * The collaborators the file extractor calls but that live outside it
 * (type and declaration "use" functions, label keys, locations).  Each is a
 * function of what it is asked about; the label it returns is identified by
 * the trap key it would be interned under.
 */
module Uses {
  import opened Wrappers
  import opened Ir
  import opened Facts

  /** The context a type is used in, which the type collaborator may take into account. */
  datatype TypeContext = OtherContext | ReturnContext | GenericArgumentContext

  /** The labels a local function is extracted under: its generated class, constructor and function. */
  datatype LocalFunctionLabels = LocalFunctionLabels(typ: TypeResults, ctorId: Label, funId: Label)

  // ---------------------------------------------------------------------
  // Renderings of symbols and types inside keys
  // ---------------------------------------------------------------------

  function ParentText(p: DeclParent): string
    decreases p
  {
    match p
    case PackageFragment(n) => n
    case ParentClass(c) => ClassText(c)
    case ParentFunction(f) => ParentText(f.parent) + "." + f.name
    case OtherParent(k, _) => k
  }

  function ClassText(c: ClassSym): string
    decreases c
  {
    ParentText(c.parent) + "." + c.name
  }

  function TypeText(t: IrType): string
    decreases t
  {
    match t
    case SimpleType(ClassClassifier(c), q, args) => ClassText(c) + TypesText(args) + (if q then "?" else "")
    case SimpleType(TypeParameterClassifier(n, _), q, _) => n + (if q then "?" else "")
    case OtherType(d) => d
  }

  function TypesText(ts: seq<IrType>): string
    decreases ts
  {
    if |ts| == 0 then "" else "<" + TypeText(ts[0]) + ">" + TypesText(ts[1..])
  }

  function ContextText(ctx: TypeContext): string
  {
    match ctx
    case OtherContext => ""
    case ReturnContext => "return;"
    case GenericArgumentContext => "generic;"
  }

  function Key(kind: string, body: string): string
  {
    "@\"" + kind + ";" + body + "\""
  }

  // ---------------------------------------------------------------------
  // Type collaborators
  // ---------------------------------------------------------------------

  /** `useType`: the Java and Kotlin types `t` is extracted as in context `ctx`. */
  function UseType(t: IrType, ctx: TypeContext): TypeResults
  {
    TypeResults(Ext(Key("type;java", ContextText(ctx) + TypeText(t))),
                JavaSignature(t),
                Ext(Key("type;kotlin", ContextText(ctx) + TypeText(t))))
  }

  /** The Java signature of a type, as the parameter-signature string uses it. */
  function JavaSignature(t: IrType): string
  {
    match t
    case SimpleType(ClassClassifier(c), _, _) => ClassText(c)
    case SimpleType(TypeParameterClassifier(n, _), _, _) => n
    case OtherType(d) => d
  }

  /** `erase`: a class type without its type arguments; other types unchanged. */
  function Erase(t: IrType): (r: IrType)
    ensures r.SimpleType? ==> t.SimpleType? && r.classifier == t.classifier
  {
    match t
    case SimpleType(ClassClassifier(c), q, _) => SimpleType(ClassClassifier(c), q, [])
    case _ => t
  }

  /** The element type of an array type, for the array-builder calls. */
  function ArrayElementType(t: IrType): IrType
  {
    if t.SimpleType? && |t.arguments| == 1 then t.arguments[0] else OtherType("element of " + TypeText(t))
  }

  /** `pluginContext.irBuiltIns.unitType`. */
  const UnitType: IrType := SimpleType(ClassClassifier(ClassSym("Unit", PackageFragment("kotlin"), ObjectClass, false, false, 0, [], [])), false, [])

  /** `pluginContext.irBuiltIns.intType`. */
  const IntType: IrType := SimpleType(ClassClassifier(ClassSym("Int", PackageFragment("kotlin"), PlainClass, false, false, 0, [], [])), false, [])

  /**
   * The two builtin types the call lowering looks members up on:
   * `pluginContext.irBuiltIns.anyType` and `pluginContext.irBuiltIns.stringType`.
   * They come from the compiler, so the model takes them as a parameter.
   */
  datatype BuiltIns = BuiltIns(anyType: IrType, stringType: IrType)

  /**
   * What the extractor relies on without checking: `Any` is a class with a
   * constructor (the generated class of a local function calls it).
   */
  predicate BuiltInsOk(b: BuiltIns)
  {
    SuperTypesOk([b.anyType])
  }

  /**
   * `superTypes.first().classOrNull!!` followed by the search for its first
   * constructor, which `extractGeneratedClass` casts without a check: the
   * first supertype must be a class that declares a constructor.
   */
  predicate SuperTypesOk(superTypes: seq<IrType>)
  {
    |superTypes| > 0 && ClassOfType(superTypes[0]).Some? &&
    FindConstructor(ClassOfType(superTypes[0]).value.members).Some?
  }

  // ---------------------------------------------------------------------
  // Declaration collaborators and label keys
  // ---------------------------------------------------------------------

  /** `getClassLabel(c, []).classLabel`. */
  function ClassKey(c: ClassSym): string { Key("class", ClassText(c)) }

  /** `getTypeParameterLabel`. */
  function TypeParameterKey(tp: TypeParameter): string { Key("typevar", ParentText(tp.parent) + "." + tp.name) }

  /** `getFunctionLabel(f)`. */
  function FunctionKey(f: FunctionSym): string
  {
    Key("callable", ParentText(f.parent) + "." + f.name +
        (match f.extensionReceiverType case Some(t) => "^" + TypeText(t) case None => ""))
  }

  /** `getFunctionLabel(parent, name, parameterTypes, returnType, extensionReceiver)`. */
  function FunctionLabelKey(parent: DeclParent, name: string, params: seq<IrType>, ret: IrType, ext: Option<IrType>): string
  {
    Key("callable", ParentText(parent) + "." + name + "(" + TypesText(params) + ")" + TypeText(ret) +
        (match ext case Some(t) => "^" + TypeText(t) case None => ""))
  }

  /** `getValueParameterLabel`. */
  function ValueDeclarationKey(d: ValueDecl): string
  {
    match d
    case ValueParameterSym(n, i, _, _) => Key("param", n + ";" + IntText(i))
    case VariableSym(n, _, id) => Key("localvar", n + ";" + NatText(id))
  }

  /** `getPropertyLabel`. */
  function PropertyKey(p: PropertySym): string { Key("property", ParentText(p.parent) + "." + p.name) }

  /** `getFieldLabel`. */
  function FieldKey(f: FieldSym): string { Key("field", ParentText(f.parent) + "." + f.name) }

  /** `getEnumEntryLabel`. */
  function EnumEntryKey(e: EnumEntrySym): string { Key("enumentry", ParentText(e.parent) + "." + e.name) }

  function UseClassSource(c: ClassSym): Label { Ext(ClassKey(c)) }

  /** `useClassInstance(c, []).typeResult.id`. */
  function UseClassInstance(c: ClassSym): Label { Ext(Key("classinstance", ClassText(c))) }

  function UseAnonymousClass(c: ClassSym): TypeResults
  {
    TypeResults(Ext(Key("anonymous;java", ClassText(c))), "", Ext(Key("anonymous;kotlin", ClassText(c))))
  }

  /** `useSimpleTypeClass(c, [], false)`. */
  function UseSimpleTypeClass(c: ClassSym): TypeResults
  {
    UseType(SimpleType(ClassClassifier(c), false, []), OtherContext)
  }

  function UseFunction(f: FunctionSym): Label { Ext(FunctionKey(f)) }

  function GetLocalFunctionLabels(f: FunctionSym): LocalFunctionLabels
  {
    var k := ParentText(f.parent) + "." + f.name;
    LocalFunctionLabels(
      TypeResults(Ext(Key("localclass;java", k)), "", Ext(Key("localclass;kotlin", k))),
      Ext(Key("localconstructor", k)),
      Ext(Key("localfunction", k)))
  }

  function UseValueDeclaration(d: ValueDecl): Label { Ext(ValueDeclarationKey(d)) }

  function UseValueParameter(vp: ValueParameter): Label { UseValueDeclaration(ParameterSymOf(vp)) }

  function UseVariable(v: Variable): Label { UseValueDeclaration(VariableSymOf(v)) }

  function UseField(f: FieldSym): Label { Ext(FieldKey(f)) }

  function UseProperty(p: PropertySym): Label { Ext(PropertyKey(p)) }

  function UseEnumEntry(e: EnumEntrySym): Label { Ext(EnumEntryKey(e)) }

  function UseTypeAlias(ta: TypeAliasSym): Label { Ext(Key("type_alias", ParentText(ta.parent) + "." + ta.name)) }

  /** `extractPackage`: the label of a package. */
  function ExtractPackage(name: string): Label { Ext(Key("package", name)) }

  /** `tw.getLocation(element)`. */
  function GetLocation(loc: Loc): Label { Ext(Key("loc", NatText(loc))) }

  /** `fakeLabel()`: the placeholder used when a parent has no label. */
  function FakeLabel(): Label { Ext(Key("fake", "")) }
}
