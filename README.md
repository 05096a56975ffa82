# Kotlin file extractor, modelled in Dafny

This project models the Kotlin extractor's file extractor,
`KotlinFileExtractor`. It walks the already type-checked Kotlin IR of one file:
declarations, statements and expressions. For each node it appends typed trap
tuples, and every tuple places an entity under a parent label, at a child index,
inside an enclosing callable and an enclosing statement. Where the extractor
cannot handle a node, it logs a diagnostic instead and skips the node.

The extractor is a sequential state machine, and the model keeps its state as
the fields of the class `Extractor.FileExtractor`:

- `facts`: the trap tuples written so far, in order;
- `next`: the trap writer's label counter (`getFreshIdLabel`);
- `interned`: the trap writer's key-to-label map (`getLabelFor`);
- `loopIdMap`: the statement label of each loop being extracted;
- `currentFunction`: the function being extracted;
- `log`: the diagnostics logged so far;
- `irBuiltIns`: the compiler's builtin types.

Each `extract*` function of the source is a method of that class. Its
postcondition states which tuples it appends, at which indices and under which
labels, what it logs, and how it changes the two maps.

Every extraction method also ensures `Progress`. That is the twostate form of
`Steps.Step`, the law all extraction steps keep:

- tuples, labels and diagnostics only grow;
- interned labels never change;
- a loop leaves `loopIdMap` only if the step itself entered it;
- the current function is either kept or cleared;
- every new tuple that places something under a label that existed before the
  call uses the slot the caller passed in.

Every method that extracts a child also states that the child was extracted,
with three twostate predicates over what the call appended:

- `Extracted(anchor, idx)`: some new tuple places an entity at index `idx` of
  `anchor`, or the call wrote no tuple and logged a diagnostic (the
  extractor's "log and skip");
- `Placed(anchor, idx)`: some new tuple places an entity at index `idx` of
  `anchor`, unless the call logged a diagnostic;
- `AllPlaced(anchor, lo, present)`: `Placed(anchor, lo + k)` for every present
  child `k`.

The predicates say "some new tuple", not the first one, because an anonymous
object's `new` opens with its `isAnonymClass` tuple.

The modules follow the structure of the program:

- `Ir`: the IR node kinds the extractor matches, as closed datatypes, and the
  symbols they refer to.
- `Facts`: labels, trap tuples and diagnostics, plus the decimal rendering of
  integers and labels.
- `Uses`: the collaborators that live outside this file, as functions of what
  they are asked about. These are `useType`, `useFunction`, `useClassSource`,
  `useClassInstance`, `getFunctionLabel`, `extractPackage`, `getLocation` and
  the label keys.
- `Matchers`: `isFunction`, `isNumericFunction` and `isBuiltinCall`, and the
  order in which `extractCall` tries its rules, as the pure function
  `ClassifyCall`.
- `Layout`: child indices, the parameter-signature string, the key of a
  fabricated instance field, and the entries of an `<obinit>` body.
- `Steps`: the step law above, and how steps compose.
- `Emission`: the tuple sequences each rule writes, as functions, with lemmas
  about their layout.
- `Extractor`: the class.

## Model

| member | source | states |
|---|---|---|
| Extractor.FileExtractor.constructor | java/kotlin-extractor/src/main/kotlin/KotlinFileExtractor.kt:15-22 | A new extractor has written nothing, has allocated no label, is extracting no loop and no function, and has logged nothing. |
| Extractor.FileExtractor.LabelFor | java/kotlin-extractor/src/main/kotlin/KotlinFileExtractor.kt:64 | `getLabelFor` returns the label a key already has, changing nothing. A new key gets the next label number, which no other key has. Every other key keeps its label. |
| Extractor.FileExtractor.SlotStmt | java/kotlin-extractor/src/main/kotlin/KotlinFileExtractor.kt:1137-1163 | `stmt()` on a statement slot returns that slot and appends nothing. On an expression slot it appends one `stmtexpr` at that slot, with its callable and enclosing-statement tuples, and returns statement slot 0 of the new expression. |
| Extractor.FileExtractor.SlotExpr | java/kotlin-extractor/src/main/kotlin/KotlinFileExtractor.kt:1137-1163 | `expr()` on an expression slot returns that slot and appends nothing. On a statement slot it appends exactly one `exprstmt` at that slot and returns `ExprParent(newId, 0, newId)`. |
| Extractor.FileExtractor.ExtractExpressionStmt | java/kotlin-extractor/src/main/kotlin/KotlinFileExtractor.kt:1165-1167 | An expression extracted as statement `idx` of `parent` places an entity at that slot, or writes nothing and logs a diagnostic. It writes only inside that slot or under new labels, and removes only loops it contains from `loopIdMap`. |
| Extractor.FileExtractor.ExtractExpressionExpr | java/kotlin-extractor/src/main/kotlin/KotlinFileExtractor.kt:1169-1171 | An expression extracted as child `idx` of `parent` places an entity at that slot, or writes nothing and logs a diagnostic. It writes only inside that slot or under new labels, and removes only loops it contains from `loopIdMap`. |
| Extractor.FileExtractor.ExtractExpression | java/kotlin-extractor/src/main/kotlin/KotlinFileExtractor.kt:1173-1619 | Every expression places an entity at its slot, or writes nothing and logs a diagnostic. An unrecognised expression is only logged, with its class name. A statement-like expression in an expression slot first gets a `stmtexpr` wrapper. Any other recognised expression in a statement slot first gets an `exprstmt` wrapper. |
| Extractor.FileExtractor.ExtractStatementLike | java/kotlin-extractor/src/main/kotlin/KotlinFileExtractor.kt:1175-1301 | The statement-like kinds are delegating constructor calls, throw, break, continue, return, try, containers and loops. Each places a statement at its slot, or writes nothing and logs a diagnostic, and stays within the slot. |
| Extractor.FileExtractor.ExtractExpressionLike | java/kotlin-extractor/src/main/kotlin/KotlinFileExtractor.kt:1302-1614 | Every other recognised kind places an expression at its slot, or writes nothing and logs a diagnostic, and stays within the slot. |
| Extractor.FileExtractor.ExtractDelegatingConstructorCall | java/kotlin-extractor/src/main/kotlin/KotlinFileExtractor.kt:1175-1214 | With no current function, it logs "Current function is not set" and writes nothing. Otherwise it writes a constructor invocation statement, or a super-constructor invocation statement when the target's class differs from the current function's, bound to the target. Unless a diagnostic is logged, every present argument is placed at its index and the dispatch receiver at -1; nothing goes outside -1 to the argument count. |
| Extractor.FileExtractor.ExtractArguments | java/kotlin-extractor/src/main/kotlin/KotlinFileExtractor.kt:1202-1207 | Unless a diagnostic is logged, every present argument `i` is placed at index `i + offset` of the call. Nothing is written outside `offset` .. `offset + count`. |
| Extractor.FileExtractor.ExtractValueArgument | java/kotlin-extractor/src/main/kotlin/KotlinFileExtractor.kt:1202-1205 | A present argument places an entity at index `i + offset`, or writes nothing and logs a diagnostic. An absent argument is skipped and writes and logs nothing. |
| Extractor.FileExtractor.ExtractValueStmt | java/kotlin-extractor/src/main/kotlin/KotlinFileExtractor.kt:1215-1242 | A throw or return is a statement of that kind, followed by its location. Its value is placed at index 0, or nothing more is written and a diagnostic is logged; nothing goes at any other index. |
| Extractor.FileExtractor.ExtractJump | java/kotlin-extractor/src/main/kotlin/KotlinFileExtractor.kt:1223-1234 | A break or continue writes a statement of that kind, followed by exactly what `extractBreakContinue` writes and logs. |
| Extractor.FileExtractor.ExtractBreakContinue | java/kotlin-extractor/src/main/kotlin/KotlinFileExtractor.kt:1734-1752 | It writes the jump's location, then a name tuple only when the jump has a label, then a target tuple only when the loop is in `loopIdMap`. When the loop is not in `loopIdMap` it logs "Missing break/continue target" instead. |
| Extractor.FileExtractor.ExtractTry | java/kotlin-extractor/src/main/kotlin/KotlinFileExtractor.kt:1243-1263 | A try statement with its location. Catch clause `k` is placed at index `k`. Unless a diagnostic is logged, the body is placed at -1 and a finally block at -2. Nothing goes at any other index. |
| Extractor.FileExtractor.ExtractTryBlocks | java/kotlin-extractor/src/main/kotlin/KotlinFileExtractor.kt:1249-1253 | Unless a diagnostic is logged, the body is placed at -1 and a finally block at -2. |
| Extractor.FileExtractor.ExtractCatches | java/kotlin-extractor/src/main/kotlin/KotlinFileExtractor.kt:1254-1262 | Catch clause `k` is placed at index `k` of the try, for every clause. |
| Extractor.FileExtractor.ExtractCatch | java/kotlin-extractor/src/main/kotlin/KotlinFileExtractor.kt:1254-1262 | Catch clause `k` is statement `k` of the try. It is followed by the parameter's type access at -1, then the parameter's declaration at 0. Unless a diagnostic is logged, the handler is placed at 1. Nothing goes at any other index. |
| Extractor.FileExtractor.ExtractCatchParts | java/kotlin-extractor/src/main/kotlin/KotlinFileExtractor.kt:1259-1261 | The type access at -1, then the parameter's declaration at 0. Unless a diagnostic is logged, the handler is placed at 1. |
| Extractor.FileExtractor.ExtractContainer | java/kotlin-extractor/src/main/kotlin/KotlinFileExtractor.kt:1264-1273 | A container is a block statement. Unless a diagnostic is logged, statement `k` is placed at index `k`, and only indices 0 to n - 1 are used. |
| Extractor.FileExtractor.ExtractStatements | java/kotlin-extractor/src/main/kotlin/KotlinFileExtractor.kt:1269-1271 | Unless a diagnostic is logged, statement `k` is placed at index `k` of the block. The tuples of the statements form consecutive segments, one per statement and in order. |
| Extractor.FileExtractor.ExtractLoop | java/kotlin-extractor/src/main/kotlin/KotlinFileExtractor.kt:1274-1301 | A while or do-while statement. Unless a diagnostic is logged, its condition is placed at 0 and its body, when it has one, at 1. Afterwards the loop is not in `loopIdMap`. When no loop of the expression was in `loopIdMap` before, `loopIdMap` ends exactly as it started. |
| Extractor.FileExtractor.ExtractLoopParts | java/kotlin-extractor/src/main/kotlin/KotlinFileExtractor.kt:1281-1285 | Unless a diagnostic is logged, the condition is placed at 0 and a body at 1. |
| Extractor.FileExtractor.ExtractInstanceInitializerCall | java/kotlin-extractor/src/main/kotlin/KotlinFileExtractor.kt:1302-1325 | With no current function it logs and writes nothing. Otherwise it writes exactly a method access bound to the interned `<obinit>` label of the current function's class. |
| Extractor.FileExtractor.ExtractStringConcatenation | java/kotlin-extractor/src/main/kotlin/KotlinFileExtractor.kt:1338-1350 | A string template. Unless a diagnostic is logged, argument `k` is placed at its child `k`; nothing else goes under it. |
| Extractor.FileExtractor.ExtractConst | java/kotlin-extractor/src/main/kotlin/KotlinFileExtractor.kt:1351-1431 | A literal whose kind is fixed by the constant's type, carrying the constant's text; `null` carries no text. An unrecognised constant is only logged. |
| Extractor.FileExtractor.ExtractGetValue | java/kotlin-extractor/src/main/kotlin/KotlinFileExtractor.kt:1432-1478 | A read of a receiver parameter is a `this` access, with a class qualifier at 0 when it reads a class's own receiver. The qualifier's enclosing-statement tuple is written for the access, as in the source. Any other read is a variable access bound to its declaration. It logs the function-qualifier case and an unexpected owner. |
| Extractor.FileExtractor.ExtractGetField | java/kotlin-extractor/src/main/kotlin/KotlinFileExtractor.kt:1479-1492 | Exactly a variable access bound to the field; the enclosing statement is written twice, as in the source. |
| Extractor.FileExtractor.ExtractGetEnumValue | java/kotlin-extractor/src/main/kotlin/KotlinFileExtractor.kt:1493-1505 | Exactly a variable access bound to the enum entry. |
| Extractor.FileExtractor.ExtractSet | java/kotlin-extractor/src/main/kotlin/KotlinFileExtractor.kt:1506-1544 | An assignment whose left side at 0 is a variable access bound to the target, with no enclosing-statement tuple, as in the source. The value is placed at 1, or nothing more is written and a diagnostic is logged; nothing goes at any other index. |
| Extractor.FileExtractor.ExtractSetParts | java/kotlin-extractor/src/main/kotlin/KotlinFileExtractor.kt:1522-1538 | The left side at 0. The value is placed at 1, or nothing more is written and a diagnostic is logged. |
| Extractor.FileExtractor.ExtractWhen | java/kotlin-extractor/src/main/kotlin/KotlinFileExtractor.kt:1545-1568 | A when expression, marked as an `if` exactly when it came from one. Branch `k` is placed at its child `k`, and nothing else goes under it. |
| Extractor.FileExtractor.ExtractBranches | java/kotlin-extractor/src/main/kotlin/KotlinFileExtractor.kt:1557-1567 | Branch `k` is placed at index `k` of the when, for every branch. |
| Extractor.FileExtractor.ExtractBranch | java/kotlin-extractor/src/main/kotlin/KotlinFileExtractor.kt:1557-1566 | Branch `k` of the when, with its location. Unless a diagnostic is logged, its condition is placed at 0 and its result at 1. An else branch ends with the else mark. |
| Extractor.FileExtractor.ExtractGetClass | java/kotlin-extractor/src/main/kotlin/KotlinFileExtractor.kt:1569-1579 | A class literal. Its argument is placed at 0, or nothing more is written and a diagnostic is logged. |
| Extractor.FileExtractor.ExtractTypeAccess | java/kotlin-extractor/src/main/kotlin/KotlinFileExtractor.kt:1632-1643 | Exactly one type access to the type, under the next label, at the given slot and location. |
| Extractor.FileExtractor.ExtractTypeOperatorCall | java/kotlin-extractor/src/main/kotlin/KotlinFileExtractor.kt:1645-1732 | An unsupported operator is only logged, with its name. A cast-like operator writes a cast with the type access at 0 and the operand at 1; `is`/`!is` write an instanceof expression with the operand at 0 and the type access at 1. Unless a diagnostic is logged, the operand is placed at its index. |
| Extractor.FileExtractor.ExtractTypeOperation | java/kotlin-extractor/src/main/kotlin/KotlinFileExtractor.kt:1645-1732 | A supported operator's expression at the slot, with the type access and operand at the indices the operator fixes. Unless a diagnostic is logged, the operand is placed at its index. |
| Extractor.FileExtractor.ExtractTypeOperands | java/kotlin-extractor/src/main/kotlin/KotlinFileExtractor.kt:1645-1732 | The type access comes first when it is at 0 and last when it is at 1. Unless a diagnostic is logged, the operand is placed at the other index, and it goes nowhere else. |
| Extractor.FileExtractor.ExtractVararg | java/kotlin-extractor/src/main/kotlin/KotlinFileExtractor.kt:1584-1594 | A vararg expression. Unless a diagnostic is logged, element `k` is placed at its child `k`. |
| Extractor.FileExtractor.ExtractVarargElements | java/kotlin-extractor/src/main/kotlin/KotlinFileExtractor.kt:1590-1593 | Unless a diagnostic is logged, element `k` is placed at index `k`. Only indices 0 to n - 1 are used. |
| Extractor.FileExtractor.ExtractVarargElement | java/kotlin-extractor/src/main/kotlin/KotlinFileExtractor.kt:1621-1630 | An expression element is placed at its index, or nothing is written and a diagnostic is logged. A spread element is only logged. |
| Extractor.FileExtractor.ExtractGetObjectValue | java/kotlin-extractor/src/main/kotlin/KotlinFileExtractor.kt:1595-1614 | For an object that has an instance field, exactly a variable access bound to the interned instance-field label. For one that has no such field, nothing is written. Either way any complaint of the instance lookup (`InstanceLog`) is logged. |
| Extractor.FileExtractor.UseInstance | java/kotlin-extractor/src/main/kotlin/KotlinFileExtractor.kt:228-251 | A companion's instance field is looked up in its outer class, and any other object's is its `INSTANCE` field. There is a field exactly when the object is not a companion or the companion has an outer class. |
| Extractor.FileExtractor.UseCompanionObjectClassInstance | java/kotlin-extractor/src/main/kotlin/KotlinFileExtractor.kt:228-244 | It answers `null` with a log entry exactly when the class is not a companion or its parent is not a class. Otherwise it answers the field named after the companion, under the label interned for `@"field;{parentId};name"`, and logs nothing. |
| Extractor.FileExtractor.UseObjectClassInstance | java/kotlin-extractor/src/main/kotlin/KotlinFileExtractor.kt:246-255 | It always answers the field `INSTANCE` under the label interned for `@"field;{classId};INSTANCE"`. It logs exactly when the class is not a non-companion object. |
| Extractor.FileExtractor.ExtractStatement | java/kotlin-extractor/src/main/kotlin/KotlinFileExtractor.kt:517-544 | A non-anonymous class, a non-local function and an unrecognised statement are each only logged, with their own message. |
| Extractor.FileExtractor.ExtractAnonymousClassStmt | java/kotlin-extractor/src/main/kotlin/KotlinFileExtractor.kt:128-141 | The anonymous class is extracted first, opening with its head. The tuples then end with the declaration statement at `idx` of `parent` naming that class. |
| Extractor.FileExtractor.ExtractLocalFunctionStmt | java/kotlin-extractor/src/main/kotlin/KotlinFileExtractor.kt:532-539 | A local function's generated class comes first; the tuples end with the declaration statement naming that class. Afterwards there is no current function. |
| Extractor.FileExtractor.ExtractAnonymousClassDeclStmt | java/kotlin-extractor/src/main/kotlin/KotlinFileExtractor.kt:134-141 | Exactly the declaration statement, its link to the class, and its location. |
| Extractor.FileExtractor.ExtractVariable | java/kotlin-extractor/src/main/kotlin/KotlinFileExtractor.kt:492-498 | A local variable declaration statement. The declaration expression is placed at 1, and nothing goes at any other index. |
| Extractor.FileExtractor.ExtractVariableExpr | java/kotlin-extractor/src/main/kotlin/KotlinFileExtractor.kt:500-515 | The local variable, then its declaration expression at the slot. A present initializer is placed at 0 of that expression, or nothing more is written and a diagnostic is logged. Without an initializer nothing more is written. |
| Extractor.FileExtractor.ExtractDeclaration | java/kotlin-extractor/src/main/kotlin/KotlinFileExtractor.kt:24-36 | An anonymous initializer writes and logs nothing. An unrecognised declaration is only logged, with its class name. |
| Extractor.FileExtractor.ExtractDeclarations | java/kotlin-extractor/src/main/kotlin/KotlinFileExtractor.kt:203 | The declarations in order, as one step that places nothing under an existing expression slot. |
| Extractor.FileExtractor.ExtractTypeParameter | java/kotlin-extractor/src/main/kotlin/KotlinFileExtractor.kt:63-82 | The type variable is written under the label interned for its key, declared by its function or class, with its location. An unexpected parent is logged. |
| Extractor.FileExtractor.ExtractTypeParameters | java/kotlin-extractor/src/main/kotlin/KotlinFileExtractor.kt:337 | Type parameter `k` is written as the `k`-th pair of tuples, each under its interned label, and the logs come in the same order. |
| Extractor.FileExtractor.ExtractValueParameter | java/kotlin-extractor/src/main/kotlin/KotlinFileExtractor.kt:257-265 | Exactly the parameter at `idx` of the callable, with its location; the parameter's type is returned. |
| Extractor.FileExtractor.ExtractValueParameters | java/kotlin-extractor/src/main/kotlin/KotlinFileExtractor.kt:347-349 | Parameter `k` goes at `k + offset`, and the types are returned in order. |
| Extractor.FileExtractor.ExtractParameters | java/kotlin-extractor/src/main/kotlin/KotlinFileExtractor.kt:347-363 | The value parameters shifted by one when there is an extension receiver; the extension receiver is then parameter 0. The signatures returned are the receiver's first, then the value parameters'. |
| Extractor.FileExtractor.ExtractSignature | java/kotlin-extractor/src/main/kotlin/KotlinFileExtractor.kt:347-379 | The parameters, then the constructor or method tuple whose signature is the name followed by the joined parameter signatures, then the location. |
| Extractor.FileExtractor.ExtractCallableHead | java/kotlin-extractor/src/main/kotlin/KotlinFileExtractor.kt:337-379 | The type parameters, then the signature, under the function's label. |
| Extractor.FileExtractor.ExtractCallable | java/kotlin-extractor/src/main/kotlin/KotlinFileExtractor.kt:337-383 | The head, then the body (if any) at 0 of the callable; a function without a body writes exactly the head. |
| Extractor.FileExtractor.ExtractFunction | java/kotlin-extractor/src/main/kotlin/KotlinFileExtractor.kt:334-387 | The callable under its label. Afterwards there is no current function, even for a local function nested in another. |
| Extractor.FileExtractor.ExtractBody | java/kotlin-extractor/src/main/kotlin/KotlinFileExtractor.kt:465-490 | A block body is a block at 0 of the callable. A synthetic enum body writes exactly one tuple with its kind's code, and an unrecognised body is only logged. |
| Extractor.FileExtractor.ExtractBlockBody | java/kotlin-extractor/src/main/kotlin/KotlinFileExtractor.kt:475-483 | A block statement at 0 of the callable. Unless a diagnostic is logged, statement `k` is placed at `k`. |
| Extractor.FileExtractor.ExtractField | java/kotlin-extractor/src/main/kotlin/KotlinFileExtractor.kt:389-396 | Exactly the field tuple, declared on the given type under the field's label, and its location. |
| Extractor.FileExtractor.ExtractProperty | java/kotlin-extractor/src/main/kotlin/KotlinFileExtractor.kt:398-435 | The property tuple and its location come first. The tuples end with the backing field and its link when there is one. Without accessors, exactly the missing-accessor complaints that the property's kind does not explain are logged. |
| Extractor.FileExtractor.ExtractPropertyParts | java/kotlin-extractor/src/main/kotlin/KotlinFileExtractor.kt:408-434 | The accessors, then the backing field and its link as the last tuples. |
| Extractor.FileExtractor.ExtractPropertyAccessors | java/kotlin-extractor/src/main/kotlin/KotlinFileExtractor.kt:408-429 | Without accessors nothing is written and both complaints are logged as the property's kind demands. |
| Extractor.FileExtractor.ExtractPropertyGetter | java/kotlin-extractor/src/main/kotlin/KotlinFileExtractor.kt:408-416 | A getter is extracted as a function and linked last. A missing getter writes nothing and is logged unless the property is both final and external. |
| Extractor.FileExtractor.ExtractPropertySetter | java/kotlin-extractor/src/main/kotlin/KotlinFileExtractor.kt:418-429 | A setter is extracted and linked last, with a complaint when the property is a `val`. A missing setter writes nothing and is logged exactly when the property is a `var` that is not external. |
| Extractor.FileExtractor.ExtractPropertyBackingField | java/kotlin-extractor/src/main/kotlin/KotlinFileExtractor.kt:431-434 | Exactly the backing field and its link to the property, or nothing. |
| Extractor.FileExtractor.ExtractEnumEntry | java/kotlin-extractor/src/main/kotlin/KotlinFileExtractor.kt:437-450 | The entry as a field of its enum class, with its location; when its parent is not a class, or is a class with type parameters, only a complaint. |
| Extractor.FileExtractor.ExtractTypeAlias | java/kotlin-extractor/src/main/kotlin/KotlinFileExtractor.kt:452-463 | Exactly the alias, the Kotlin type it expands to and its location. Type parameters are only logged. |
| Extractor.FileExtractor.ExtractClassSource | java/kotlin-extractor/src/main/kotlin/KotlinFileExtractor.kt:143-224 | The class opens with its head and its nesting under the nearest enclosing class, including a companion's fabricated field. It closes with a non-companion object's `INSTANCE` field, then the modifiers and supertypes. |
| Extractor.FileExtractor.ExtractClassOpening | java/kotlin-extractor/src/main/kotlin/KotlinFileExtractor.kt:144-200 | Exactly the class or interface tuple (an enum is marked), its location, and the enclosing-class tuples. |
| Extractor.FileExtractor.ExtractEnclosingClass | java/kotlin-extractor/src/main/kotlin/KotlinFileExtractor.kt:170-200 | Only the nearest enclosing class is recorded, looking through every declaration parent. The companion field is written only for a companion whose parent is a class. |
| Extractor.FileExtractor.ExtractCompanionField | java/kotlin-extractor/src/main/kotlin/KotlinFileExtractor.kt:181-194 | The companion's instance field, declared on the companion's own label, as line 188 writes it. It is public static final and linked to the outer class. A companion without an outer class only logs. |
| Extractor.FileExtractor.ExtractClassRest | java/kotlin-extractor/src/main/kotlin/KotlinFileExtractor.kt:202-221 | The members, then the class's closing tuples last. |
| Extractor.FileExtractor.ExtractClassMembers | java/kotlin-extractor/src/main/kotlin/KotlinFileExtractor.kt:202-204 | Type parameters, declarations and `<obinit>` as one step. |
| Extractor.FileExtractor.ExtractClassBody | java/kotlin-extractor/src/main/kotlin/KotlinFileExtractor.kt:203-204 | Declarations, then `<obinit>`, as one step. |
| Extractor.FileExtractor.ExtractClassClosing | java/kotlin-extractor/src/main/kotlin/KotlinFileExtractor.kt:205-221 | For a non-companion object, the `INSTANCE` field declared on the object; then the modifiers and supertypes. |
| Extractor.FileExtractor.ExtractObjectInitializerFunction | java/kotlin-extractor/src/main/kotlin/KotlinFileExtractor.kt:267-332 | An external class gets nothing. Otherwise one `<obinit>` method under its interned label, with a block at 0. Entry `k` of the block is statement `k`, in declaration order: an initialized non-static backing field's assignment, or a statement of a non-static `init` block. |
| Extractor.FileExtractor.ExtractObinitHead | java/kotlin-extractor/src/main/kotlin/KotlinFileExtractor.kt:273-284 | Exactly the method tuple named `<obinit>` with signature `<obinit>()` and the `Unit` return type, declared on the class, its location, and the body block at 0 with the class's location. |
| Extractor.FileExtractor.ExtractObinitBody | java/kotlin-extractor/src/main/kotlin/KotlinFileExtractor.kt:286-331 | The block's statements are numbered 0, 1, 2, … with one segment per entry, laid out in order. |
| Extractor.FileExtractor.ExtractObinitDecl | java/kotlin-extractor/src/main/kotlin/KotlinFileExtractor.kt:288-330 | One declaration adds exactly its entries after the earlier ones and advances the index by their number. |
| Extractor.FileExtractor.ExtractFieldInit | java/kotlin-extractor/src/main/kotlin/KotlinFileExtractor.kt:290-319 | An expression statement holding an assignment. The varaccess bound to the field is at 0. The initializer is placed at 1, or nothing more is written and a diagnostic is logged. |
| Extractor.FileExtractor.ExtractInitStatements | java/kotlin-extractor/src/main/kotlin/KotlinFileExtractor.kt:320-328 | The statements of an `init` block take the next indices, in order. Unless a diagnostic is logged, each is placed at its index. |
| Extractor.FileExtractor.ExtractGeneratedClass | java/kotlin-extractor/src/main/kotlin/KotlinFileExtractor.kt:1757-1797 | The local function's class opens with its head. The tuples end with its constructor, whose block calls the first supertype's first constructor, then the modifiers and supertypes. Afterwards there is no current function. |
| Extractor.FileExtractor.ExtractGeneratedMembers | java/kotlin-extractor/src/main/kotlin/KotlinFileExtractor.kt:1769-1796 | The function as a member, then the class tail last. |
| Extractor.FileExtractor.ExtractGeneratedTail | java/kotlin-extractor/src/main/kotlin/KotlinFileExtractor.kt:1771-1796 | Exactly the constructor, its block and super call under two new labels, then the modifiers and supertypes. The super call's callable is the function's label, as in the source. |
| Extractor.FileExtractor.ExtractCall | java/kotlin-extractor/src/main/kotlin/KotlinFileExtractor.kt:636-1044 | An unhandled builtin, or a member lookup that fails, writes nothing and logs one error. Otherwise the call opens with one expression at its slot, of the kind the first matching rule fixes. |
| Extractor.FileExtractor.ExtractCallRule | java/kotlin-extractor/src/main/kotlin/KotlinFileExtractor.kt:636-1044 | A failing rule writes nothing and logs its one error. Otherwise the call opens with the expression kind its rule fixes, at its slot. |
| Extractor.FileExtractor.ExtractLookupCall | java/kotlin-extractor/src/main/kotlin/KotlinFileExtractor.kt:742-958 | A nullable string `+`, `toString`, `enumValues` or `enumValueOf` either fails with one logged error or opens with a method access. |
| Extractor.FileExtractor.ExtractLibraryCall | java/kotlin-extractor/src/main/kotlin/KotlinFileExtractor.kt:959-1042 | `arrayOfNulls` and the array builders open with an array creation; every other call opens with a method access. |
| Extractor.FileExtractor.ExtractDispatchBinary | java/kotlin-extractor/src/main/kotlin/KotlinFileExtractor.kt:786-820 | The arithmetic expression, then `binopDisp`'s tuples, with its complaint about a missing dispatch receiver logged. |
| Extractor.FileExtractor.ExtractNegatedEquality | java/kotlin-extractor/src/main/kotlin/KotlinFileExtractor.kt:821-841 | A not-equal expression whose operands are written by `binOp` on the inner comparison. |
| Extractor.FileExtractor.ExtractBuiltinOperator | java/kotlin-extractor/src/main/kotlin/KotlinFileExtractor.kt:845-919 | The expression kind is fixed by the builtin. A mismatched origin is logged, but the same expression is still emitted, followed by `binOp` or `unaryOp`. |
| Extractor.FileExtractor.ExtractBuiltinMemberCall | java/kotlin-extractor/src/main/kotlin/KotlinFileExtractor.kt:794-802 | A method access to the builtin type's member when it has one; otherwise only the given message is logged. |
| Extractor.FileExtractor.ExtractSpecialEnumFunction | java/kotlin-extractor/src/main/kotlin/KotlinFileExtractor.kt:742-755 | Without exactly one type argument, or when the enum type has no such function, one message is logged and nothing written. Otherwise a method access without type arguments. |
| Extractor.FileExtractor.ExtractArrayOfNulls | java/kotlin-extractor/src/main/kotlin/KotlinFileExtractor.kt:959-983 | An array creation, without an enclosing-statement tuple, with its element type at -1. With exactly one present argument the size is then placed at 0, unless a diagnostic is logged; with any other argument list, or an absent argument, nothing is written after the element type and that complaint is the last log entry. |
| Extractor.FileExtractor.ExtractArrayOfNullsSize | java/kotlin-extractor/src/main/kotlin/KotlinFileExtractor.kt:972-982 | A single present argument is the size. It is placed at 0, or nothing is written and a diagnostic is logged. Any other arity, or an absent argument, is logged with its own message and nothing is written. |
| Extractor.FileExtractor.ExtractArrayCreation | java/kotlin-extractor/src/main/kotlin/KotlinFileExtractor.kt:959-1010 | The array creation, then the element type at -1. That is the builder's own type for a primitive builder, or the single type argument; without one, the given message is logged. |
| Extractor.FileExtractor.ExtractArrayBuilder | java/kotlin-extractor/src/main/kotlin/KotlinFileExtractor.kt:984-1039 | `arrayOf` complains without exactly one type argument; the builders open the same way. With a single vararg argument, the initializer comes right after the element type at -2, each element is placed under it unless a diagnostic is logged after the type-argument complaint, and the last five tuples are the element count at 0. Otherwise nothing is written after the element type, and exactly the type-argument complaint and the argument complaint are logged. |
| Extractor.FileExtractor.ExtractArrayElements | java/kotlin-extractor/src/main/kotlin/KotlinFileExtractor.kt:1012-1038 | With a single vararg argument, the initializer at -2, element k placed under it at k unless a diagnostic is logged, and the element count as an integer literal at 0, last. Otherwise only a log entry. |
| Extractor.FileExtractor.ExtractArrayInitializer | java/kotlin-extractor/src/main/kotlin/KotlinFileExtractor.kt:1013-1021 | The array initializer at -2 comes first. Unless a diagnostic is logged, element `k` is placed at its child `k`. |
| Extractor.FileExtractor.ExtractArrayDimension | java/kotlin-extractor/src/main/kotlin/KotlinFileExtractor.kt:1023-1030 | Exactly an integer literal at 0 whose text is the element count. |
| Extractor.FileExtractor.ExtractMethodAccess | java/kotlin-extractor/src/main/kotlin/KotlinFileExtractor.kt:687-740 | A method access with the type arguments at -2, -3, … when asked, then its binding. Unless a diagnostic is logged, the dispatch receiver of a non-local target is placed at -1, the extension receiver at 0 and each present argument at its index. Nothing goes outside -1 to the argument count. |
| Extractor.FileExtractor.ExtractMethodAccessOpening | java/kotlin-extractor/src/main/kotlin/KotlinFileExtractor.kt:688-700 | Exactly the method access and, when asked, type argument `k` at `-2 - k` under the next labels. |
| Extractor.FileExtractor.ExtractCallTarget | java/kotlin-extractor/src/main/kotlin/KotlinFileExtractor.kt:702-739 | A local function binds to its own label, with a new expression of its generated class at -1 bound to its constructor. Any other target binds to the function, and its dispatch receiver is placed at -1 unless a diagnostic is logged. The extension receiver and arguments are placed as ExtractReceiverArguments states. |
| Extractor.FileExtractor.ExtractCallReceiver | java/kotlin-extractor/src/main/kotlin/KotlinFileExtractor.kt:702-723 | The binding to the target, and a local function's new expression at -1. Unless a diagnostic is logged, the dispatch receiver of any other target is placed at -1. |
| Extractor.FileExtractor.ExtractReceiverArguments | java/kotlin-extractor/src/main/kotlin/KotlinFileExtractor.kt:725-739 | Unless a diagnostic is logged, the extension receiver is placed at 0 and each present value argument `i` at `i + 1` when there is a receiver, or at `i` otherwise. Absent arguments are skipped. |
| Extractor.FileExtractor.ExtractTypeArguments | java/kotlin-extractor/src/main/kotlin/KotlinFileExtractor.kt:1046-1063 | Exactly type argument `k` under the `k`-th new label, at `start - k` when reversed and `start + k` otherwise. |
| Extractor.FileExtractor.WriteTypeArguments | java/kotlin-extractor/src/main/kotlin/KotlinFileExtractor.kt:1054-1062 | The loop over the type arguments appends exactly their tuples, one new label each, and logs nothing. |
| Extractor.FileExtractor.BinopDisp | java/kotlin-extractor/src/main/kotlin/KotlinFileExtractor.kt:757-782 | The operator's location, callable and statement tuples. A missing dispatch receiver is logged first; unless a diagnostic is logged, a present one is placed at 0 and the first argument at 1. A missing or absent right operand is logged last. |
| Extractor.FileExtractor.ExtractDispatchOperand | java/kotlin-extractor/src/main/kotlin/KotlinFileExtractor.kt:757-768 | A missing dispatch receiver adds exactly its complaint to the log. Unless a diagnostic is logged, a present one is placed at 0. |
| Extractor.FileExtractor.ExtractRightOperandValue | java/kotlin-extractor/src/main/kotlin/KotlinFileExtractor.kt:775-780 | An absent right operand writes nothing and logs "RHS null". A present one is placed at 1, or nothing is written and a diagnostic is logged. |
| Extractor.FileExtractor.ExtractRightOperand | java/kotlin-extractor/src/main/kotlin/KotlinFileExtractor.kt:770-781 | The first argument is placed at 1, or nothing more is written and a diagnostic is logged. Its complaints come last. |
| Extractor.FileExtractor.BinOp | java/kotlin-extractor/src/main/kotlin/KotlinFileExtractor.kt:597-625 | With no arguments it logs "No arguments found" and extracts nothing. With one it extracts the left operand at 0 and logs "No RHS found". Otherwise it extracts only 0 and 1, logging "Extra arguments found" beyond two. A dispatch receiver is logged first. Unless a diagnostic is logged after that one, each present operand is placed at its index. |
| Extractor.FileExtractor.WriteOperatorTail | java/kotlin-extractor/src/main/kotlin/KotlinFileExtractor.kt:597-606 | Exactly the operator's location, callable and statement tuples. The log grows by the unexpected-receiver complaint exactly when there is a dispatch receiver. |
| Extractor.FileExtractor.ExtractBinOperands | java/kotlin-extractor/src/main/kotlin/KotlinFileExtractor.kt:613-624 | An absent left operand is logged first. Unless a diagnostic is logged, a present left operand is placed at 0 and a present right operand at 1. The closing complaints come last. |
| Extractor.FileExtractor.ExtractSecondOperand | java/kotlin-extractor/src/main/kotlin/KotlinFileExtractor.kt:615-624 | The second operand is placed at 1, or nothing more is written and a diagnostic is logged. The right-operand and surplus-argument complaints come last. |
| Extractor.FileExtractor.UnaryOp | java/kotlin-extractor/src/main/kotlin/KotlinFileExtractor.kt:574-595 | The same for one operand at 0. No arguments is logged with nothing extracted, surplus arguments are logged last, and a dispatch receiver is logged first. Unless a diagnostic is logged after that one, a present operand is placed at 0. |
| Extractor.FileExtractor.ExtractArgument | java/kotlin-extractor/src/main/kotlin/KotlinFileExtractor.kt:627-634 | A present argument `i` is placed at `i`, or nothing is written and a diagnostic is logged. An absent one writes nothing and logs the given message. |
| Extractor.FileExtractor.ExtractConstructorCall | java/kotlin-extractor/src/main/kotlin/KotlinFileExtractor.kt:1065-1126 | A new expression bound to the constructor, marked when it creates an anonymous class. Type arguments on an anonymous constructor call are warned about. Unless a further diagnostic is logged, every present argument is placed at its index and the dispatch receiver at -2. The tuples end with the type access at -3 and the type arguments under it from 0. |
| Extractor.FileExtractor.WriteNewExpr | java/kotlin-extractor/src/main/kotlin/KotlinFileExtractor.kt:1072-1095 | Exactly the new expression's tuples under the next label, and the warning about type arguments only for an anonymous constructor call that has them. |
| Extractor.FileExtractor.ExtractConstructorParts | java/kotlin-extractor/src/main/kotlin/KotlinFileExtractor.kt:1096-1125 | The type access at -3 with the type arguments under it. Unless a diagnostic is logged, every present argument is placed at its index and the dispatch receiver at -2. |
| Extractor.FileExtractor.ExtractConstructorArguments | java/kotlin-extractor/src/main/kotlin/KotlinFileExtractor.kt:1092-1101 | Unless a diagnostic is logged, every present argument is placed at its index and the dispatch receiver at the receiver index (-2). Nothing goes at any other index. |
| Extractor.FileExtractor.ExtractConstructedTypeAccess | java/kotlin-extractor/src/main/kotlin/KotlinFileExtractor.kt:1103-1125 | Exactly the type access at -3 (of the anonymous class's supertype when it is anonymous) and the type arguments under it. |
| Matchers.TargetClass | java/kotlin-extractor/src/main/kotlin/KotlinFileExtractor.kt:644-656 | The class `isFunction` looks at. Without an extension receiver it is exactly the target's parent class, if any. With one it is exactly the receiver's class when the receiver is a simple class type whose nullability matches, and none otherwise. |
| Matchers.IsBuiltinCall | java/kotlin-extractor/src/main/kotlin/KotlinFileExtractor.kt:549-572 | A builtin matches exactly when the name matches, there is no extension receiver, and the parent is that package. |
| Matchers.IsAnonymous | java/kotlin-extractor/src/main/kotlin/KotlinFileExtractor.kt:1754-1755 | A type is anonymous exactly when its class is an anonymous object. |
| Matchers.MemberIsNotBuiltin | java/kotlin-extractor/src/main/kotlin/KotlinFileExtractor.kt:546-572 | A class member matched by `isFunction` is never matched by `isBuiltinCall`. |
| Matchers.IsFunctionNullability | java/kotlin-extractor/src/main/kotlin/KotlinFileExtractor.kt:637-676 | Without an extension receiver the nullability flag is irrelevant; with one, at most one flag matches. |
| Matchers.ClassifyCall | java/kotlin-extractor/src/main/kotlin/KotlinFileExtractor.kt:784-1043 | The rule chosen for a call: arithmetic only for its origins, negated equality only for `!=`/`!==` over a call without arguments, builtins only from the internal package, array and enum functions only from `kotlin`. |
| Matchers.BuiltinRuleIgnoresOrigin | java/kotlin-extractor/src/main/kotlin/KotlinFileExtractor.kt:845-943 | For a target in the internal builtin package, the rule depends only on the target, never on the origin. |
| Matchers.ComparisonKinds | java/kotlin-extractor/src/main/kotlin/KotlinFileExtractor.kt:845-919 | `less`, `lessOrEqual`, `greater`, `greaterOrEqual`, `EQEQ`, `EQEQEQ`, `ieee754equals` and `CHECK_NOT_NULL` each map to a fixed expression kind and expected origin. |
| Matchers.UnrecognisedCallIsPlain | java/kotlin-extractor/src/main/kotlin/KotlinFileExtractor.kt:1040-1042 | A call whose target lives in neither a package nor a class is a plain method access. |
| Matchers.ElementKey | java/kotlin-extractor/src/main/kotlin/KotlinFileExtractor.kt:40-61 | `getLabel` gives the key of each labelled kind of element. A file's key is `@"` + path + `;sourcefile"`. A class, type parameter, function, value parameter, field, property or enum entry gets its collaborator's key. Bodies, expressions and other elements get none. |
| Matchers.ElementKeyLog | java/kotlin-extractor/src/main/kotlin/KotlinFileExtractor.kt:54-58 | `getLabel` logs exactly for an unhandled element type. |
| Layout.TypeArgumentIndex | java/kotlin-extractor/src/main/kotlin/KotlinFileExtractor.kt:1054-1062 | Type argument `k` goes at `start - k` when reversed and `start + k` otherwise. |
| Layout.ValueArgumentIndex | java/kotlin-extractor/src/main/kotlin/KotlinFileExtractor.kt:725-739 | Value arguments go at non-negative indices, from 1 when an extension receiver takes 0. |
| Layout.MethodAccessIndicesDistinct | java/kotlin-extractor/src/main/kotlin/KotlinFileExtractor.kt:687-740 | Distinct children of a method access (type arguments, receivers, value arguments) never share an index. |
| Layout.NewExprIndicesDistinct | java/kotlin-extractor/src/main/kotlin/KotlinFileExtractor.kt:1065-1126 | Distinct children of a new expression never share an index. |
| Layout.TypeOperatorLayout | java/kotlin-extractor/src/main/kotlin/KotlinFileExtractor.kt:1645-1732 | Exactly the five cast operators and `is`/`!is` are supported. Their two children take indices 0 and 1, with the type access at 0 exactly for a cast. |
| Layout.ParamsSignature | java/kotlin-extractor/src/main/kotlin/KotlinFileExtractor.kt:365 | The parameter signature is the joined signatures between parentheses. |
| Layout.SplitJoin | java/kotlin-extractor/src/main/kotlin/KotlinFileExtractor.kt:365 | Splitting the comma-joined signatures at commas gives the signatures back when none contains a comma. |
| Layout.InstanceFieldKey | java/kotlin-extractor/src/main/kotlin/KotlinFileExtractor.kt:240 | The key of a fabricated instance field ends with the field's name before the closing quote. |
| Layout.InstanceFieldKeyInjective | java/kotlin-extractor/src/main/kotlin/KotlinFileExtractor.kt:240-252 | Two instance-field keys of one owner are equal only for equal names. |
| Layout.InitItems | java/kotlin-extractor/src/main/kotlin/KotlinFileExtractor.kt:320-328 | An `init` block contributes one entry per statement, in order. |
| Layout.DeclObinitItems | java/kotlin-extractor/src/main/kotlin/KotlinFileExtractor.kt:287-331 | A property contributes one entry, its field initializer, exactly when it has a non-static backing field with an initializer, and none otherwise. A non-static `init` block contributes exactly its statements' entries, in order. A static `init` block and other declarations contribute none. |
| Facts.NatText | java/kotlin-extractor/src/main/kotlin/KotlinFileExtractor.kt:1362 | The decimal text of a number is all digits, with no leading zero, and has one digit exactly below 10. |
| Facts.NatTextRoundTrip | java/kotlin-extractor/src/main/kotlin/KotlinFileExtractor.kt:1362 | Reading the decimal text back gives the number. |
| Facts.NatTextInjective | java/kotlin-extractor/src/main/kotlin/KotlinFileExtractor.kt:240 | Distinct numbers have distinct texts. |
| Facts.IntText | java/kotlin-extractor/src/main/kotlin/KotlinFileExtractor.kt:1362 | A negative integer's text is a minus sign followed by its magnitude's text. |
| Facts.IntTextRoundTrip | java/kotlin-extractor/src/main/kotlin/KotlinFileExtractor.kt:1362 | Reading an integer's text back, sign included, gives the integer. |
| Facts.LabelText | java/kotlin-extractor/src/main/kotlin/KotlinFileExtractor.kt:240 | A label renders as `#` followed by its number. |
| Emission.LiteralKind | java/kotlin-extractor/src/main/kotlin/KotlinFileExtractor.kt:1351-1431 | `Int`, `Short` and `Byte` become integer literals, and exactly `null` becomes the null literal. |
| Emission.IntegerLiteralRoundTrip | java/kotlin-extractor/src/main/kotlin/KotlinFileExtractor.kt:1354-1371 | An integer or long literal's text reads back as its value. |
| Emission.LiteralTextExact | java/kotlin-extractor/src/main/kotlin/KotlinFileExtractor.kt:1351-1430 | A boolean's text is `true` or `false` as its value, a character's is that character, and a string's is the string itself. |
| Emission.TypeArgumentsLayout | java/kotlin-extractor/src/main/kotlin/KotlinFileExtractor.kt:1054-1062 | The `k`-th type access is labelled with the `k`-th new label and sits at `start ∓ k`. |
| Emission.TypeArgumentsFactsSnoc | java/kotlin-extractor/src/main/kotlin/KotlinFileExtractor.kt:1054-1062 | The tuples of the first `k + 1` type arguments are those of the first `k`, followed by argument `k`'s. |
| Emission.ParamsLayout | java/kotlin-extractor/src/main/kotlin/KotlinFileExtractor.kt:257-265 | The `k`-th triple of parameter tuples is parameter `k` at `k + offset`. |
| Emission.ParamTypesSigs | java/kotlin-extractor/src/main/kotlin/KotlinFileExtractor.kt:347-365 | The types returned for the parameters are their used types, whose signatures are the parameters' signatures. |
| Emission.CallableSignatureRoundTrip | java/kotlin-extractor/src/main/kotlin/KotlinFileExtractor.kt:365-377 | The callable tuple's signature starts with the callable's name, and its parenthesised part splits back into the parameter signatures. |
| Emission.SignatureLayout | java/kotlin-extractor/src/main/kotlin/KotlinFileExtractor.kt:347-349 | In the signature tuples, value parameter `k` occupies the `k`-th triple, shifted past the extension receiver. |
| Emission.SignatureTailLayout | java/kotlin-extractor/src/main/kotlin/KotlinFileExtractor.kt:351-377 | After the value parameters come the extension receiver as parameter 0 and then the callable tuple. |
| Emission.TypeParametersLayout | java/kotlin-extractor/src/main/kotlin/KotlinFileExtractor.kt:63-82 | The `k`-th pair of type-parameter tuples is type parameter `k` under its interned label. |
| Emission.ObinitLaidOutAppend | java/kotlin-extractor/src/main/kotlin/KotlinFileExtractor.kt:287-331 | Appending the next `<obinit>` entry at its index keeps every earlier entry in place. |
| Emission.ObinitFunctionStep | java/kotlin-extractor/src/main/kotlin/KotlinFileExtractor.kt:267-332 | The head followed by the laid-out body is the whole `<obinit>` routine. |
| Emission.BaseConstructor | java/kotlin-extractor/src/main/kotlin/KotlinFileExtractor.kt:1784-1785 | The generated class calls the first constructor declared by the first supertype's class, as `declarations.find` picks it. |
| Emission.EnclosingClass | java/kotlin-extractor/src/main/kotlin/KotlinFileExtractor.kt:170-200 | The nearest enclosing class is found through every declaration parent and lies in the same package. |
| Emission.ClassOpeningStable | java/kotlin-extractor/src/main/kotlin/KotlinFileExtractor.kt:181-194 | A class's opening tuples do not change as more keys are interned. |
| Ir.FindMember | java/kotlin-extractor/src/main/kotlin/KotlinFileExtractor.kt:794-802 | The member found by name is the first of the class's members with that name, as `declarations.find` picks it, and there is none when no member has it. |
| Ir.FindConstructor | java/kotlin-extractor/src/main/kotlin/KotlinFileExtractor.kt:1784 | The constructor found is the first constructor the class declares, as `declarations.find` picks it, and there is none when the class declares none. |
| Ir.FindFunction | java/kotlin-extractor/src/main/kotlin/KotlinFileExtractor.kt:944-958 | A function is found on a type exactly when the type's class has a member of that name. It is the first such member, as `declarations.find` picks it, and it is that class's own, non-local member. |
| Steps.ShrinksWithinDisjoint | java/kotlin-extractor/src/main/kotlin/KotlinFileExtractor.kt:1274-1301 | A step that removes only loops it contains leaves a map holding none of them unchanged. |
| Steps.LoopScope | java/kotlin-extractor/src/main/kotlin/KotlinFileExtractor.kt:1277-1286 | Mapping a loop, extracting inside it and then removing the entry is one step in the loop statement's slot. |
| Steps.FunctionScope | java/kotlin-extractor/src/main/kotlin/KotlinFileExtractor.kt:335-385 | Setting the current function, extracting and then resetting it to `null` is one step. |

## Left out

- `extractClassInstance` (lines 84-126) writes a parameterised class instance. Nothing in this file calls it, so it is not part of this model.
- The internals of the collaborators are not modelled. They are `useType`, `useFunction`, `useClassSource`, `useClassInstance`, `useAnonymousClass`, `getFunctionLabel`, `getLocation`, `extractPackage`, `extractClassModifiers`, `extractClassSupertypes` and `addModifiers`. Each is a function of its argument that returns a label identified by its key, and the last three are single tuples.
- The trap text encoding of tuples is not modelled; tuples are datatype values.
- Runtime class names (`javaClass`, `::class`) in diagnostics are the IR node's kind name.
- `render()`, the compiler's IR dump, is not modelled. In the diagnostic for an unsupported type operator (line 1729), the operator's name is written as the source writes it, but the rendered call is replaced by its node kind, `IrTypeOperatorCall`. A type alias (line 455) renders as `typealias`, its name, `=` and the key text of the type it expands to.
- Float and Double literal values are opaque strings, their `toString()` text. Floating-point formatting is not modelled.
- The `verboseln` debug output of the matchers is not modelled, because `verbose` is always false there.
- The label casts (`@Suppress("UNCHECKED_CAST")`) are type bookkeeping only.
- Source locations are opaque: a location label is a function of the element's location.
- The builtin types (`pluginContext.irBuiltIns`) are a constructor parameter, required to name classes.
- Extractor.FileExtractor.ExtractGeneratedClass: requires that the supertypes are non-empty and that the first one names a class with a constructor. The source's `!!` and `first()` assume this and would throw otherwise.
- Identity of `IrLoop` objects is a `LoopRef` value. A loop that is already in `loopIdMap` when it is entered again is only described by the general step law.
- The companion object's fabricated field is declared with the companion's own label as its declaring type, which is what line 188 writes.
- Extractor.FileExtractor.ExtractBranch: does not state the exact tuples of the condition and the result, only their indices and the else mark.
- Extractor.FileExtractor.BinopDisp: states the opening and closing diagnostics as a prefix and a suffix of the new log, not the diagnostics of the operands between them.
- Extractor.FileExtractor.BinOp: states the opening and closing diagnostics as a prefix and a suffix of the new log, not the diagnostics of the operands between them.
- Extractor.FileExtractor.UnaryOp: states the opening and closing diagnostics as a prefix and a suffix of the new log, not the diagnostics of the operand between them.
- Extractor.FileExtractor.ExtractPropertyGetter: states the getter link as the last tuple, not the getter function's own tuples.
- Extractor.FileExtractor.ExtractPropertySetter: states the setter link as the last tuple, not the setter function's own tuples.
- Extractor.FileExtractor.ExtractProperty: does not state where the getter and setter links sit when a backing field follows them.
- Extractor.FileExtractor.ExtractFunction: states the tuples only through the callable's step law; the exact head is stated by ExtractCallable.
- Extractor.FileExtractor.ExtractStatement: states exact outcomes only for the logged cases; the extracted cases are stated by the members it calls.
- Extractor.FileExtractor.ExtractClassMembers: states only the step law; the members' tuples are stated by the members it calls.
- Extractor.FileExtractor.ExtractClassBody: states only the step law; the members' tuples are stated by the members it calls.
- Extractor.FileExtractor.ExtractDeclarations: states only the step law; each declaration is stated by ExtractDeclaration.
- Extractor.FileExtractor.ExtractStatementLike: states that the slot is filled or the node logged, not which statement kind is written; each kind's tuples are stated by the member it calls.
- Extractor.FileExtractor.ExtractExpressionLike: states that the slot is filled or the node logged, not which expression kind is written; each kind's tuples are stated by the member it calls.
- Extractor.FileExtractor.ExtractCallRule: states how a call opens, not where its receivers and arguments go; that is stated by ExtractMethodAccess and the members it calls.
- `Placed` and `AllPlaced` excuse a missing child when the call logged any diagnostic, not only one logged while extracting that child. The members that state them are ExtractDelegatingConstructorCall, ExtractArguments, ExtractTry, ExtractCatch, ExtractContainer, ExtractStatements, ExtractLoop, ExtractStringConcatenation, ExtractBranch, ExtractTypeOperatorCall, ExtractTypeOperands, ExtractVararg, ExtractVarargElements, ExtractBlockBody, ExtractInitStatements, ExtractArrayInitializer, ExtractArrayElements, ExtractArrayBuilder, ExtractMethodAccess, ExtractCallTarget, ExtractReceiverArguments, BinopDisp, BinOp, UnaryOp, ExtractConstructorCall and ExtractConstructorArguments, and the helpers ExtractTryBlocks, ExtractCatchParts, ExtractLoopParts, ExtractCallReceiver, ExtractBinOperands, ExtractDispatchOperand and ExtractConstructorParts. ExtractArrayBuilder counts only diagnostics logged after the `arrayOf` type-argument complaint.
- ExtractArrayBuilder: an element missing under the initializer is excused by any diagnostic logged after the `arrayOf` type-argument complaint, not only by one about that element.
- ExtractArrayElements: an element missing under the initializer is excused by any diagnostic logged while the elements are extracted, not only by one about that element.
- The exceptions the source raises on malformed IR are not modelled. These are the `as IrClass` casts of a delegating constructor call's parents (lines 1184-1185), which the model compares as any two parents; `signature!!` (line 365); `getTypeArgument(argIdx)!!` (line 1054); and the anonymous type's cast to a simple class type (lines 1080-1081). None of them changes behaviour on well-formed IR.
- Kotlin `Int` and `Long` literal values have fixed widths; the model carries them as unbounded integers, which agree on every value the source can hold.
- Logging is a sequence of diagnostics (severity, message, optional element location); the logger's output format is not modelled.
