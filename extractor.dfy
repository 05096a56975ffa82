/**
 * The file extractor: a walk over the IR of one file that appends trap
 * tuples for every declaration, statement and expression it meets.  Its
 * state is the tuples written so far, the label counter, the key-to-label
 * map of the trap writer, the label of every loop being extracted, the
 * function being extracted, and the diagnostics logged.
 */
module Extractor {
  import opened Wrappers
  import opened Ir
  import opened Facts
  import opened Uses
  import opened Matchers
  import opened Layout

  import opened Steps
  import opened Emission

  /**
   * Where an expression goes: as statement `idx` of `parent`, or as
   * expression child `idx` of `parent` inside statement `enclosingStmt`.
   */
  datatype Slot =
    | StmtSlot(parent: Label, idx: int)
    | ExprSlot(parent: Label, idx: int, enclosingStmt: Label)

  /** The field fabricated for an object instance: its label and name. */
  datatype FieldResult = FieldResult(id: Label, name: string)


  class FileExtractor {
    /** The trap tuples written so far, in order. */
    var facts: seq<Fact>
    /** The next label number. */
    var next: nat
    /** The trap writer's labels for keys. */
    var interned: map<string, Label>
    /** The statement label of every loop being extracted. */
    var loopIdMap: map<LoopRef, Label>
    /** The function being extracted, if any. */
    var currentFunction: Option<FunctionSym>
    /** The diagnostics logged so far, in order. */
    var log: seq<Diagnostic>
    /** The compiler's builtin types. */
    const irBuiltIns: BuiltIns

    /** The extractor's state. */
    ghost function State(): Snap
      reads this
    {
      Snap(facts, next, interned, loopIdMap, currentFunction, log)
    }

    ghost predicate Valid()
      reads this
    {
      LabelsValid(interned, next) && BuiltInsOk(irBuiltIns)
    }

    /** The call is one extraction step, as `Step` describes it. */
    twostate predicate Progress(inner: set<LoopRef>, anchor: Label, lo: int, hi: int)
      reads this
    {
      Step(old(State()), State(), inner, anchor, lo, hi)
    }

    /** The call extracted a child at index `idx` of `anchor`: an entity is placed there, or nothing is written and a diagnostic says why. */
    twostate predicate Extracted(anchor: Label, idx: int)
      reads this
    {
      HandledAt(facts, |old(facts)|, |log|, |old(log)|, anchor, idx)
    }

    /** Unless the call logged a diagnostic, it placed an entity at index `idx` of `anchor`. */
    twostate predicate Placed(anchor: Label, idx: int)
      reads this
    {
      PlacedAt(facts, |old(facts)|, |log|, |old(log)|, anchor, idx)
    }

    /** Unless the call logged a diagnostic, it placed every present child `k` at index `lo + k` of `anchor`. */
    twostate predicate AllPlaced(anchor: Label, lo: int, present: seq<bool>)
      reads this
    {
      AllPlacedAt(facts, |old(facts)|, |log|, |old(log)|, anchor, lo, present)
    }

    constructor (builtIns: BuiltIns)
      requires BuiltInsOk(builtIns)
      ensures Valid() && irBuiltIns == builtIns
      ensures facts == [] && next == 0 && interned == map[] && loopIdMap == map[] && currentFunction == None && log == []
    {
      irBuiltIns := builtIns;
      facts := [];
      next := 0;
      interned := map[];
      loopIdMap := map[];
      currentFunction := None;
      log := [];
    }

    /** `tw.getLabelFor(key)`: the label already given to `key`, or a new one recorded for it. */
    method LabelFor(key: string) returns (l: Label)
      requires Valid()
      modifies this
      ensures Valid()
      ensures key in interned && interned[key] == l
      ensures key in old(interned) ==> l == old(interned)[key] && interned == old(interned) && next == old(next)
      ensures key !in old(interned) ==> l == Interned(old(next)) && interned == old(interned)[key := l] && next == old(next) + 1
      ensures l !in old(interned).Values || key in old(interned)
      ensures facts == old(facts) && log == old(log) && loopIdMap == old(loopIdMap) && currentFunction == old(currentFunction)
    {
      if key in interned {
        l := interned[key];
      } else {
        l := Interned(next);
        interned := interned[key := l];
        next := next + 1;
      }
    }

    /** Appends `added`, allocating `count` labels, as one step in slot `lo..hi` of `anchor`. */
    method Write(added: seq<Fact>, count: nat, ghost anchor: Label, ghost lo: int, ghost hi: int)
      requires Valid() && AllAttach(added, next, anchor, lo, hi)
      modifies this
      ensures Progress({}, anchor, lo, hi)
      ensures facts == old(facts) + added && next == old(next) + count
      ensures log == old(log) && interned == old(interned) && loopIdMap == old(loopIdMap) && currentFunction == old(currentFunction)
    {
      ghost var s0 := State();
      facts := facts + added;
      next := next + count;
      AppendStep(s0, State(), added, anchor, lo, hi);
    }

    /** Logs `d` and writes nothing, as a step in any slot. */
    method Report(d: Diagnostic, ghost anchor: Label, ghost lo: int, ghost hi: int)
      requires Valid()
      modifies this
      ensures Progress({}, anchor, lo, hi)
      ensures log == old(log) + [d]
      ensures facts == old(facts) && next == old(next) && interned == old(interned) && loopIdMap == old(loopIdMap) && currentFunction == old(currentFunction)
    {
      log := log + [d];
    }

    /** A new statement of kind `kind` at `idx` of `parent`, with its location, followed by `extra`. */
    method EmitStmt(kind: StmtKind, parent: Label, idx: int, callable: Label, loc: Label, extra: seq<Fact>) returns (id: Label)
      requires Valid() && NoSlots(extra)
      modifies this
      ensures id == Fresh(old(next)) && next == old(next) + 1
      ensures facts == old(facts) + [Stmt(kind, id, parent, idx, callable), HasLocation(id, loc)] + extra
      ensures Progress({}, parent, idx, idx + 1)
      ensures Opens(facts, |old(facts)|, parent, idx)
      ensures log == old(log) && interned == old(interned) && loopIdMap == old(loopIdMap) && currentFunction == old(currentFunction)
    {
      ghost var n0 := |facts|;
      id := Fresh(next);
      var head := [Stmt(kind, id, parent, idx, callable), HasLocation(id, loc)];
      NoSlotsAttach(extra, next, parent, idx, idx + 1);
      AllAttachConcat(head, extra, next, parent, idx, idx + 1);
      Write(head + extra, 1, parent, idx, idx + 1);
      OpensAt(facts, n0, n0, parent, idx);
    }

    /** A new expression of kind `kind` at `idx` of `parent` with its four opening tuples, followed by `extra`. */
    method EmitExpr(kind: ExprKind, t: TypeResults, parent: Label, idx: int, loc: Label, callable: Label, encl: Label, extra: seq<Fact>)
      returns (id: Label)
      requires Valid() && NoSlots(extra)
      modifies this
      ensures id == Fresh(old(next)) && next == old(next) + 1
      ensures facts == old(facts) + ExprHead(kind, id, t, parent, idx, loc, callable, encl) + extra
      ensures Progress({}, parent, idx, idx + 1)
      ensures Opens(facts, |old(facts)|, parent, idx)
      ensures log == old(log) && interned == old(interned) && loopIdMap == old(loopIdMap) && currentFunction == old(currentFunction)
    {
      id := Fresh(next);
      WriteExpr(kind, id, t, parent, idx, loc, callable, encl, extra, 1);
    }

    /** The opening tuples of expression `id` at `idx` of `parent`, followed by `extra`, allocating `count` labels. */
    method WriteExpr(kind: ExprKind, id: Label, t: TypeResults, parent: Label, idx: int, loc: Label, callable: Label, encl: Label,
                     extra: seq<Fact>, count: nat)
      requires Valid() && NoSlots(extra)
      modifies this
      ensures facts == old(facts) + ExprHead(kind, id, t, parent, idx, loc, callable, encl) + extra && next == old(next) + count
      ensures Progress({}, parent, idx, idx + 1)
      ensures Opens(facts, |old(facts)|, parent, idx)
      ensures log == old(log) && interned == old(interned) && loopIdMap == old(loopIdMap) && currentFunction == old(currentFunction)
    {
      ghost var n0 := |facts|;
      ExprHeadAttached(kind, id, t, parent, idx, loc, callable, encl, next);
      NoSlotsAttach(extra, next, parent, idx, idx + 1);
      AllAttachConcat(ExprHead(kind, id, t, parent, idx, loc, callable, encl), extra, next, parent, idx, idx + 1);
      Write(ExprHead(kind, id, t, parent, idx, loc, callable, encl) + extra, count, parent, idx, idx + 1);
      OpensAt(facts, n0, n0, parent, idx);
    }

    /** `parent.stmt(e)`: a statement slot, wrapping an expression slot in a statement expression. */
    method SlotStmt(slot: Slot, e: Ir.Expr, callable: Label) returns (sp: Slot)
      requires Valid()
      modifies this
      ensures sp.StmtSlot?
      ensures Progress({}, slot.parent, slot.idx, slot.idx + 1)
      ensures sp == slot || (sp.parent.Fresh? && sp.parent.n >= old(next))
      ensures slot.ExprSlot? ==> Opens(facts, |old(facts)|, slot.parent, slot.idx)
      ensures slot.StmtSlot? ==> sp == slot && facts == old(facts) && next == old(next)
      ensures slot.ExprSlot? ==>
        var id := Fresh(old(next));
        sp == StmtSlot(id, 0) && next == old(next) + 1 &&
        facts == old(facts) + ExprHead(StmtExpr, id, UseType(e.typ, OtherContext), slot.parent, slot.idx, GetLocation(e.loc), callable, slot.enclosingStmt)
      ensures log == old(log) && interned == old(interned) && loopIdMap == old(loopIdMap) && currentFunction == old(currentFunction)
    {
      if slot.StmtSlot? {
        sp := slot;
        Write([], 0, slot.parent, slot.idx, slot.idx + 1);
      } else {
        var id := EmitExpr(StmtExpr, UseType(e.typ, OtherContext), slot.parent, slot.idx, GetLocation(e.loc), callable, slot.enclosingStmt, []);
        sp := StmtSlot(id, 0);
      }
    }

    /** `parent.expr(e)`: an expression slot, wrapping a statement slot in an expression statement. */
    method SlotExpr(slot: Slot, e: Ir.Expr, callable: Label) returns (ep: Slot)
      requires Valid()
      modifies this
      ensures ep.ExprSlot?
      ensures Progress({}, slot.parent, slot.idx, slot.idx + 1)
      ensures ep == slot || (ep.parent.Fresh? && ep.parent.n >= old(next))
      ensures slot.StmtSlot? ==> Opens(facts, |old(facts)|, slot.parent, slot.idx)
      ensures slot.ExprSlot? ==> ep == slot && facts == old(facts) && next == old(next)
      ensures slot.StmtSlot? ==>
        var id := Fresh(old(next));
        ep == ExprSlot(id, 0, id) && next == old(next) + 1 &&
        facts == old(facts) + [Stmt(ExprStmt, id, slot.parent, slot.idx, callable), HasLocation(id, GetLocation(e.loc))]
      ensures log == old(log) && interned == old(interned) && loopIdMap == old(loopIdMap) && currentFunction == old(currentFunction)
    {
      if slot.ExprSlot? {
        ep := slot;
        Write([], 0, slot.parent, slot.idx, slot.idx + 1);
      } else {
        var id := EmitStmt(ExprStmt, slot.parent, slot.idx, callable, GetLocation(e.loc), []);
        ep := ExprSlot(id, 0, id);
      }
    }

    /** `extractExpressionStmt`: extract `e` as statement `idx` of `parent`. */
    method ExtractExpressionStmt(e: Ir.Expr, callable: Label, parent: Label, idx: int)
      requires Valid()
      modifies this
      ensures Progress(ExprLoops(e), parent, idx, idx + 1)
      ensures Extracted(parent, idx)
      decreases e, 9
    {
      ExtractExpression(e, callable, StmtSlot(parent, idx));
    }

    /** `extractExpressionExpr`: extract `e` as expression child `idx` of `parent`. */
    method ExtractExpressionExpr(e: Ir.Expr, callable: Label, parent: Label, idx: int, encl: Label)
      requires Valid()
      modifies this
      ensures Progress(ExprLoops(e), parent, idx, idx + 1)
      ensures Extracted(parent, idx)
      decreases e, 9
    {
      ExtractExpression(e, callable, ExprSlot(parent, idx, encl));
    }

    /**
     * `extractExpression`: an unrecognised expression is only logged;
     * statement-like kinds first turn the slot into a statement slot, the
     * others into an expression slot.
     */
    method ExtractExpression(e: Ir.Expr, callable: Label, slot: Slot)
      requires Valid()
      modifies this
      ensures Progress(ExprLoops(e), slot.parent, slot.idx, slot.idx + 1)
      ensures Extracted(slot.parent, slot.idx)
      ensures e.node.OtherExpression? ==>
        facts == old(facts) && next == old(next) &&
        log == old(log) + [Diagnostic(ErrorSevere, "Unrecognised IrExpression: " + e.node.className, Some(e.loc))]
      ensures IsStatementLike(e.node) && slot.ExprSlot? ==>
        old(facts) + ExprHead(StmtExpr, Fresh(old(next)), UseType(e.typ, OtherContext), slot.parent, slot.idx, GetLocation(e.loc), callable, slot.enclosingStmt) <= facts
      ensures !IsStatementLike(e.node) && !e.node.OtherExpression? && slot.StmtSlot? ==>
        old(facts) + [Stmt(ExprStmt, Fresh(old(next)), slot.parent, slot.idx, callable), HasLocation(Fresh(old(next)), GetLocation(e.loc))] <= facts
      decreases e, 8
    {
      ghost var s0 := State();
      if e.node.OtherExpression? {
        log := log + [Diagnostic(ErrorSevere, "Unrecognised IrExpression: " + e.node.className, Some(e.loc))];
        return;
      }
      if IsStatementLike(e.node) {
        var sp := SlotStmt(slot, e, callable);
        ghost var s1 := State();
        ExtractStatementLike(e, callable, sp.parent, sp.idx);
        if slot.ExprSlot? {
          OpensKept(s1.facts, facts, |s0.facts|, |s0.facts|, slot.parent, slot.idx);
        }
        StepThen(s0, s1, State(), {}, slot.parent, slot.idx, slot.idx + 1, ExprLoops(e), sp.parent, sp.idx, sp.idx + 1,
                 ExprLoops(e), slot.parent, slot.idx, slot.idx + 1);
      } else {
        var ep := SlotExpr(slot, e, callable);
        ghost var s1 := State();
        ExtractExpressionLike(e, callable, ep.parent, ep.idx, ep.enclosingStmt);
        if slot.StmtSlot? {
          OpensKept(s1.facts, facts, |s0.facts|, |s0.facts|, slot.parent, slot.idx);
        }
        StepThen(s0, s1, State(), {}, slot.parent, slot.idx, slot.idx + 1, ExprLoops(e), ep.parent, ep.idx, ep.idx + 1,
                 ExprLoops(e), slot.parent, slot.idx, slot.idx + 1);
      }
    }

    /** The statement-like kinds, each extracted as statement `idx` of `parent`. */
    method ExtractStatementLike(e: Ir.Expr, callable: Label, parent: Label, idx: int)
      requires IsStatementLike(e.node) && Valid()
      modifies this
      ensures Progress(ExprLoops(e), parent, idx, idx + 1)
      ensures Extracted(parent, idx)
      decreases e, 7
    {
      if e.node.DelegatingConstructorCall? {
        ExtractDelegatingConstructorCall(e, callable, parent, idx);
      } else if e.node.Throw? || e.node.Return? {
        ExtractValueStmt(e, callable, parent, idx);
      } else if e.node.Break? || e.node.Continue? {
        ExtractJump(e, callable, parent, idx);
      } else if e.node.Try? {
        ExtractTry(e, callable, parent, idx);
      } else if e.node.Container? {
        ExtractContainer(e, callable, parent, idx);
      } else {
        ExtractLoop(e, callable, parent, idx);
      }
    }

    /** The other recognised kinds, each extracted as expression child `idx` of `parent`. */
    method ExtractExpressionLike(e: Ir.Expr, callable: Label, parent: Label, idx: int, encl: Label)
      requires !IsStatementLike(e.node) && !e.node.OtherExpression? && Valid()
      modifies this
      ensures Progress(ExprLoops(e), parent, idx, idx + 1)
      ensures Extracted(parent, idx)
      decreases e, 7
    {
      if e.node.InstanceInitializerCall? {
        ExtractInstanceInitializerCall(e, callable, parent, idx, encl);
      } else if e.node.ConstructorCall? || e.node.EnumConstructorCall? {
        ExtractConstructorCall(e, callable, parent, idx, encl);
      } else if e.node.Call? {
        ExtractCall(e, callable, parent, idx, encl);
      } else if e.node.StringConcatenation? {
        ExtractStringConcatenation(e, callable, parent, idx, encl);
      } else if e.node.Const? {
        ExtractConst(e, callable, parent, idx, encl);
      } else if e.node.GetValue? {
        ExtractGetValue(e, callable, parent, idx, encl);
      } else if e.node.GetField? {
        ExtractGetField(e, callable, parent, idx, encl);
      } else if e.node.GetEnumValue? {
        ExtractGetEnumValue(e, callable, parent, idx, encl);
      } else if e.node.SetValue? || e.node.SetField? {
        ExtractSet(e, callable, parent, idx, encl);
      } else if e.node.When? {
        ExtractWhen(e, callable, parent, idx, encl);
      } else if e.node.GetClass? {
        ExtractGetClass(e, callable, parent, idx, encl);
      } else if e.node.TypeOperatorCall? {
        ExtractTypeOperatorCall(e, callable, parent, idx, encl);
      } else if e.node.Vararg? {
        ExtractVararg(e, callable, parent, idx, encl);
      } else {
        ExtractGetObjectValue(e, callable, parent, idx, encl);
      }
    }

    // -------------------------------------------------------------------
    // Statement-like expressions
    // -------------------------------------------------------------------

    /** IrDelegatingConstructorCall: a (super) constructor invocation statement of the current function. */
    method ExtractDelegatingConstructorCall(e: Ir.Expr, callable: Label, parent: Label, idx: int)
      requires e.node.DelegatingConstructorCall? && Valid()
      modifies this
      ensures Progress(ExprLoops(e), parent, idx, idx + 1)
      ensures old(currentFunction).None? ==>
        facts == old(facts) && next == old(next) &&
        log == old(log) + [Diagnostic(ErrorSevere, "Current function is not set", Some(e.loc))]
      ensures old(currentFunction).Some? ==>
        var id := Fresh(old(next));
        var kind := if e.node.target.parent != old(currentFunction).value.parent then SuperConstructorInvocationStmt else ConstructorInvocationStmt;
        old(facts) + [Stmt(kind, id, parent, idx, callable), HasLocation(id, GetLocation(e.loc)), CallableBinding(id, UseFunction(e.node.target))] <= facts &&
        AttachedFrom(facts, |old(facts)| + 3, old(next) + 1, id, -1, |e.node.args|) &&
        AllPlaced(id, 0, Present(e.node.args)) && (e.node.dispatchReceiver.Some? ==> Placed(id, -1))
      ensures Extracted(parent, idx)
      decreases e, 5
    {
      ghost var s0 := State();
      if currentFunction.None? {
        log := log + [Diagnostic(ErrorSevere, "Current function is not set", Some(e.loc))];
        return;
      }
      var kind := if e.node.target.parent != currentFunction.value.parent then SuperConstructorInvocationStmt else ConstructorInvocationStmt;
      var id := EmitStmt(kind, parent, idx, callable, GetLocation(e.loc), [CallableBinding(Fresh(next), UseFunction(e.node.target))]);
      ghost var s1 := State();
      ExtractConstructorArguments(e, -1, id, callable, id);
      StepThen(s0, s1, State(), {}, parent, idx, idx + 1, ExprLoops(e), id, -1, |e.node.args|, ExprLoops(e), parent, idx, idx + 1);
      OpensKept(s1.facts, facts, |s0.facts|, |s0.facts|, parent, idx);
      AllPlacedKept(facts, facts, |s1.facts|, |s0.facts|, |log|, |log|, |s1.log|, |s0.log|, id, 0, Present(e.node.args));
      if e.node.dispatchReceiver.Some? {
        PlacedKept(facts, facts, |s1.facts|, |s0.facts|, |log|, |log|, |s1.log|, |s0.log|, id, -1);
      }
    }

    /** The value arguments of a call: argument `i` at `i + offset`, an absent one skipped. */
    method ExtractArguments(args: seq<Option<Ir.Expr>>, offset: int, callable: Label, id: Label, encl: Label)
      requires Valid()
      modifies this
      ensures Progress(OptsLoops(args), id, offset, |args| + offset)
      ensures AllPlaced(id, offset, Present(args))
      decreases args, 1
    {
      ghost var s1 := State();
      ghost var present := Present(args);
      var i := 0;
      while i < |args|
        invariant 0 <= i <= |args|
        invariant Step(s1, State(), OptsLoops(args), id, offset, i + offset)
        invariant AllPlacedAt(facts, |s1.facts|, |log|, |s1.log|, id, offset, present[..i])
      {
        ghost var sa := State();
        ExtractValueArgument(args, i, offset, callable, id, encl);
        AllPlacedStep(sa.facts, facts, |s1.facts|, |sa.log|, |log|, |s1.log|, id, offset, present[..i], present[i]);
        assert present[..i] + [present[i]] == present[..i + 1];
        StepThen(s1, sa, State(), OptsLoops(args), id, offset, i + offset, OptsLoops(args), id, i + offset, i + offset + 1,
                 OptsLoops(args), id, offset, i + offset + 1);
        i := i + 1;
      }
      assert present[..|args|] == present;
    }

    /** Argument `i` of `args`, when present, as child `i + offset` of call `id`. */
    method ExtractValueArgument(args: seq<Option<Ir.Expr>>, i: int, offset: int, callable: Label, id: Label, encl: Label)
      requires 0 <= i < |args| && Valid()
      modifies this
      ensures Progress(OptsLoops(args), id, i + offset, i + offset + 1)
      ensures args[i].None? ==> facts == old(facts) && next == old(next) && log == old(log)
      ensures args[i].Some? ==> Extracted(id, i + offset)
      decreases args, 0
    {
      if args[i].Some? {
        ghost var s0 := State();
        assert args[i] in args && args[i].value < args[i];
        OptsLoopsElement(args, i);
        ExtractExpressionExpr(args[i].value, callable, id, i + offset, encl);
        StepWiden(s0, State(), ExprLoops(args[i].value), id, i + offset, i + offset + 1, OptsLoops(args), i + offset, i + offset + 1);
      } else {
        Write([], 0, id, i + offset, i + offset + 1);
      }
    }

    /** IrThrow and IrReturn: a statement with its value at index 0. */
    method ExtractValueStmt(e: Ir.Expr, callable: Label, parent: Label, idx: int)
      requires (e.node.Throw? || e.node.Return?) && Valid()
      modifies this
      ensures Progress(ExprLoops(e), parent, idx, idx + 1)
      ensures var id := Fresh(old(next));
        var kind := if e.node.Throw? then ThrowStmt else ReturnStmt;
        old(facts) + [Stmt(kind, id, parent, idx, callable), HasLocation(id, GetLocation(e.loc))] <= facts &&
        AttachedFrom(facts, |old(facts)| + 2, old(next) + 1, id, 0, 1) &&
        HandledAt(facts, |old(facts)| + 2, |log|, |old(log)|, id, 0)
      ensures Opens(facts, |old(facts)|, parent, idx)
      decreases e, 5
    {
      ghost var s0 := State();
      ExprLoopsChildren(e);
      var kind := if e.node.Throw? then ThrowStmt else ReturnStmt;
      var id := EmitStmt(kind, parent, idx, callable, GetLocation(e.loc), []);
      ghost var s1 := State();
      ExtractExpressionExpr(e.node.value, callable, id, 0, id);
      StepThen(s0, s1, State(), {}, parent, idx, idx + 1, ExprLoops(e.node.value), id, 0, 1, ExprLoops(e), parent, idx, idx + 1);
      OpensKept(s1.facts, facts, |s0.facts|, |s0.facts|, parent, idx);
    }

    /** IrBreak and IrContinue: the jump statement, then its target. */
    method ExtractJump(e: Ir.Expr, callable: Label, parent: Label, idx: int)
      requires (e.node.Break? || e.node.Continue?) && Valid()
      modifies this
      ensures Progress(ExprLoops(e), parent, idx, idx + 1)
      ensures var id := Fresh(old(next));
        var kind := if e.node.Break? then BreakStmt else ContinueStmt;
        next == old(next) + 1 &&
        facts == old(facts) + [Stmt(kind, id, parent, idx, callable)] + BreakContinueFacts(e, id, old(loopIdMap))
      ensures log == old(log) + BreakContinueLog(e, old(loopIdMap))
      ensures interned == old(interned) && loopIdMap == old(loopIdMap) && currentFunction == old(currentFunction)
      ensures Opens(facts, |old(facts)|, parent, idx)
      decreases e, 5
    {
      var kind := if e.node.Break? then BreakStmt else ContinueStmt;
      var id := Fresh(next);
      ghost var n0 := |facts|;
      Write([Stmt(kind, id, parent, idx, callable)], 1, parent, idx, idx + 1);
      ghost var s1 := State();
      OpensAt(facts, n0, n0, parent, idx);
      ExtractBreakContinue(e, id);
      OpensKept(s1.facts, facts, n0, n0, parent, idx);
      assert Step(s1, State(), {}, parent, idx, idx + 1);
      StepThen(old(State()), s1, State(), {}, parent, idx, idx + 1, {}, parent, idx, idx + 1, {}, parent, idx, idx + 1);
    }

    /**
     * `extractBreakContinue`: the jump's location, its label name when it
     * has one, and the statement of the loop it leaves when that loop is
     * being extracted.
     */
    method ExtractBreakContinue(e: Ir.Expr, id: Label)
      requires e.node.Break? || e.node.Continue?
      modifies this
      ensures facts == old(facts) + BreakContinueFacts(e, id, old(loopIdMap))
      ensures log == old(log) + BreakContinueLog(e, old(loopIdMap))
      ensures next == old(next) && interned == old(interned) && loopIdMap == old(loopIdMap) && currentFunction == old(currentFunction)
    {
      facts := facts + [HasLocation(id, GetLocation(e.loc))];
      if e.node.loopLabel.Some? {
        facts := facts + [Namestrings(e.node.loopLabel.value, "", id)];
      }
      if e.node.loop !in loopIdMap {
        log := log + [Diagnostic(ErrorSevere, "Missing break/continue target", Some(e.loc))];
        return;
      }
      facts := facts + [KtBreakContinueTargets(id, loopIdMap[e.node.loop])];
    }

    /** IrTry: the try statement; the body at -1, the finally block at -2, catch clause `k` at `k`. */
    method ExtractTry(e: Ir.Expr, callable: Label, parent: Label, idx: int)
      requires e.node.Try? && Valid()
      modifies this
      ensures Progress(ExprLoops(e), parent, idx, idx + 1)
      ensures var id := Fresh(old(next));
        old(facts) + [Stmt(TryStmt, id, parent, idx, callable), HasLocation(id, GetLocation(e.loc))] <= facts &&
        AttachedFrom(facts, |old(facts)| + 2, old(next) + 1, id, -2, |e.node.catches|) &&
        Placed(id, -1) && (e.node.finallyExpression.Some? ==> Placed(id, -2)) &&
        AllOpen(facts, |old(facts)|, id, |e.node.catches|)
      ensures Opens(facts, |old(facts)|, parent, idx)
      decreases e, 5
    {
      ghost var s0 := State();
      ExprLoopsChildren(e);
      var id := EmitStmt(TryStmt, parent, idx, callable, GetLocation(e.loc), []);
      ghost var s1 := State();
      ExtractTryBlocks(e, callable, id);
      ghost var s3 := State();
      var catches := e.node.catches;
      ExtractCatches(catches, callable, id);
      StepWiden(s3, State(), CatchesLoops(catches), id, 0, |catches|, ExprLoops(e), -2, |catches|);
      StepThen(s1, s3, State(), ExprLoops(e), id, -2, 0, ExprLoops(e), id, -2, |catches|, ExprLoops(e), id, -2, |catches|);
      StepThen(s0, s1, State(), {}, parent, idx, idx + 1, ExprLoops(e), id, -2, |catches|, ExprLoops(e), parent, idx, idx + 1);
      OpensKept(s1.facts, facts, |s0.facts|, |s0.facts|, parent, idx);
      AllOpenKept(facts, facts, |s3.facts|, |s0.facts|, id, |catches|);
      PlacedKept(s3.facts, facts, |s1.facts|, |s0.facts|, |s3.log|, |log|, |s1.log|, |s0.log|, id, -1);
      if e.node.finallyExpression.Some? {
        PlacedKept(s3.facts, facts, |s1.facts|, |s0.facts|, |s3.log|, |log|, |s1.log|, |s0.log|, id, -2);
      }
    }

    /** The body of try `id` at -1, then its finally block, when it has one, at -2. */
    method ExtractTryBlocks(e: Ir.Expr, callable: Label, id: Label)
      requires e.node.Try? && Valid()
      modifies this
      ensures Progress(ExprLoops(e), id, -2, 0)
      ensures Placed(id, -1) && (e.node.finallyExpression.Some? ==> Placed(id, -2))
      decreases e, 4
    {
      ghost var s1 := State();
      ExprLoopsChildren(e);
      ExtractExpressionStmt(e.node.tryResult, callable, id, -1);
      ghost var s2 := State();
      StepWiden(s1, s2, ExprLoops(e.node.tryResult), id, -1, 0, ExprLoops(e), -2, 0);
      if e.node.finallyExpression.Some? {
        ExtractExpressionStmt(e.node.finallyExpression.value, callable, id, -2);
        StepThen(s1, s2, State(), ExprLoops(e), id, -2, 0, ExprLoops(e.node.finallyExpression.value), id, -2, -1, ExprLoops(e), id, -2, 0);
        PlacedKept(s2.facts, facts, |s1.facts|, |s1.facts|, |s2.log|, |log|, |s1.log|, |s1.log|, id, -1);
        PlacedKept(facts, facts, |s2.facts|, |s1.facts|, |log|, |log|, |s2.log|, |s1.log|, id, -2);
      }
    }

    /** Catch clause `k` of `catches` as catch clause `k` of try `tryId`. */
    method ExtractCatches(catches: seq<Catch>, callable: Label, tryId: Label)
      requires Valid()
      modifies this
      ensures Progress(CatchesLoops(catches), tryId, 0, |catches|)
      ensures AllOpen(facts, |old(facts)|, tryId, |catches|)
      decreases catches, 2
    {
      ghost var s1 := State();
      var k := 0;
      while k < |catches|
        invariant 0 <= k <= |catches|
        invariant Step(s1, State(), CatchesLoops(catches), tryId, 0, k)
        invariant AllOpen(facts, |s1.facts|, tryId, k)
      {
        ghost var sk := State();
        CatchesLoopsElement(catches, k);
        ExtractCatch(catches[k], k, callable, tryId);
        AllOpenStep(sk.facts, facts, |s1.facts|, tryId, k);
        StepThen(s1, sk, State(), CatchesLoops(catches), tryId, 0, k, CatchLoops(catches[k]), tryId, k, k + 1,
                 CatchesLoops(catches), tryId, 0, k + 1);
        k := k + 1;
      }
    }

    /** A catch clause `k` of try `tryId`: its parameter's type at -1, the parameter at 0, the handler at 1. */
    method ExtractCatch(cc: Catch, k: int, callable: Label, tryId: Label)
      requires Valid()
      modifies this
      ensures Progress(CatchLoops(cc), tryId, k, k + 1)
      ensures var catchId := Fresh(old(next));
        old(facts) + [Stmt(CatchClause, catchId, tryId, k, callable), HasLocation(catchId, GetLocation(cc.loc))] +
          ExprHead(UnannotatedTypeAccess, Fresh(old(next) + 1), UseType(cc.parameter.typ, OtherContext), catchId, -1, GetLocation(cc.parameter.loc), callable, catchId) <= facts &&
        AttachedFrom(facts, |old(facts)| + 6, old(next) + 2, catchId, 0, 2) &&
        Opens(facts, |old(facts)| + 6, catchId, 0) && Placed(catchId, 1)
      ensures Opens(facts, |old(facts)|, tryId, k)
      decreases cc, 1
    {
      ghost var s0 := State();
      var catchId := EmitStmt(CatchClause, tryId, k, callable, GetLocation(cc.loc), []);
      ghost var s1 := State();
      ExtractCatchParts(cc, callable, catchId);
      StepThen(s0, s1, State(), {}, tryId, k, k + 1, CatchLoops(cc), catchId, -1, 2, CatchLoops(cc), tryId, k, k + 1);
      OpensKept(s1.facts, facts, |s0.facts|, |s0.facts|, tryId, k);
      PlacedKept(facts, facts, |s1.facts|, |s0.facts|, |log|, |log|, |s1.log|, |s0.log|, catchId, 1);
    }

    /** The parts of catch clause `catchId`: its parameter's type at -1, the parameter at 0, the handler at 1. */
    method ExtractCatchParts(cc: Catch, callable: Label, catchId: Label)
      requires Valid()
      modifies this
      ensures Progress(CatchLoops(cc), catchId, -1, 2)
      ensures old(facts) + ExprHead(UnannotatedTypeAccess, Fresh(old(next)), UseType(cc.parameter.typ, OtherContext), catchId, -1, GetLocation(cc.parameter.loc), callable, catchId) <= facts
      ensures AttachedFrom(facts, |old(facts)| + 4, old(next) + 1, catchId, 0, 2)
      ensures Opens(facts, |old(facts)| + 4, catchId, 0) && Placed(catchId, 1)
      decreases cc, 0
    {
      ghost var s1 := State();
      var _ := ExtractTypeAccess(cc.parameter.typ, callable, catchId, -1, GetLocation(cc.parameter.loc), catchId);
      ghost var s2 := State();
      ExtractVariableExpr(cc.parameter, callable, catchId, 0, catchId);
      ghost var s3 := State();
      ExtractExpressionStmt(cc.result, callable, catchId, 1);
      StepThen(s2, s3, State(), OptLoops(cc.parameter.initializer), catchId, 0, 1, ExprLoops(cc.result), catchId, 1, 2, CatchLoops(cc), catchId, 0, 2);
      OpensKept(s3.facts, facts, |s2.facts| + 2, |s2.facts| + 2, catchId, 0);
      PlacedKept(facts, facts, |s3.facts|, |s1.facts|, |log|, |log|, |s3.log|, |s1.log|, catchId, 1);
      StepThen(s1, s2, State(), {}, catchId, -1, 0, CatchLoops(cc), catchId, 0, 2, CatchLoops(cc), catchId, -1, 2);
    }

    /** IrContainerExpression: a block whose statement `k` is the container's statement `k`. */
    method ExtractContainer(e: Ir.Expr, callable: Label, parent: Label, idx: int)
      requires e.node.Container? && Valid()
      modifies this
      ensures Progress(ExprLoops(e), parent, idx, idx + 1)
      ensures var id := Fresh(old(next));
        old(facts) + [Stmt(BlockStmt, id, parent, idx, callable), HasLocation(id, GetLocation(e.loc))] <= facts &&
        AttachedFrom(facts, |old(facts)| + 2, old(next) + 1, id, 0, |e.node.statements|) &&
        AllPlaced(id, 0, Every(|e.node.statements|))
      ensures Opens(facts, |old(facts)|, parent, idx)
      decreases e, 5
    {
      ghost var s0 := State();
      ExprLoopsChildren(e);
      var id := EmitStmt(BlockStmt, parent, idx, callable, GetLocation(e.loc), []);
      ghost var s1 := State();
      ghost var starts := ExtractStatements(e.node.statements, callable, id);
      StepThen(s0, s1, State(), {}, parent, idx, idx + 1, StatementsLoops(e.node.statements), id, 0, |e.node.statements|, ExprLoops(e), parent, idx, idx + 1);
      OpensKept(s1.facts, facts, |s0.facts|, |s0.facts|, parent, idx);
      AllPlacedKept(facts, facts, |s1.facts|, |s0.facts|, |log|, |log|, |s1.log|, |s0.log|, id, 0, Every(|e.node.statements|));
    }

    /**
     * Statement `k` of `ss` as statement `k` of `block`; each statement's
     * tuples form one segment, in order.
     */
    method ExtractStatements(ss: seq<Statement>, callable: Label, block: Label) returns (ghost starts: seq<nat>)
      requires Valid()
      modifies this
      ensures Progress(StatementsLoops(ss), block, 0, |ss|)
      ensures |starts| > 0 && starts[0] == |old(facts)| && Segmented(facts, starts, old(next), block, Indices(0, |ss|))
      ensures AllPlaced(block, 0, Every(|ss|))
      decreases ss, 0
    {
      ghost var s1 := State();
      starts := [|facts|];
      var k := 0;
      while k < |ss|
        invariant 0 <= k <= |ss|
        invariant Step(s1, State(), StatementsLoops(ss), block, 0, k)
        invariant |starts| > 0 && starts[0] == |s1.facts| && Segmented(facts, starts, s1.next, block, Indices(0, k))
        invariant AllPlacedAt(facts, |s1.facts|, |log|, |s1.log|, block, 0, Every(k))
      {
        ghost var sk := State();
        StatementsLoopsElement(ss, k);
        ExtractStatement(ss[k], callable, block, k);
        AllPlacedStep(sk.facts, facts, |s1.facts|, |sk.log|, |log|, |s1.log|, block, 0, Every(k), true);
        assert Every(k) + [true] == Every(k + 1);
        SegmentAppend(sk, State(), starts, s1.next, block, Indices(0, k), k, StatementLoops(ss[k]));
        starts := starts + [|facts|];
        StepThen(s1, sk, State(), StatementsLoops(ss), block, 0, k, StatementLoops(ss[k]), block, k, k + 1, StatementsLoops(ss), block, 0, k + 1);
        k := k + 1;
      }
    }

    /**
     * IrWhileLoop and IrDoWhileLoop: the loop statement, its condition at 0
     * and its body at 1.  While they are extracted the loop maps to the
     * statement, so jumps inside find it; afterwards it is unmapped again.
     */
    method ExtractLoop(e: Ir.Expr, callable: Label, parent: Label, idx: int)
      requires (e.node.WhileLoop? || e.node.DoWhileLoop?) && Valid()
      modifies this
      ensures Progress(ExprLoops(e), parent, idx, idx + 1)
      ensures var id := Fresh(old(next));
        var kind := if e.node.WhileLoop? then WhileStmt else DoStmt;
        old(facts) + [Stmt(kind, id, parent, idx, callable), HasLocation(id, GetLocation(e.loc))] <= facts &&
        AttachedFrom(facts, |old(facts)| + 2, old(next) + 1, id, 0, 2) &&
        Placed(id, 0) && (e.node.body.Some? ==> Placed(id, 1))
      ensures Opens(facts, |old(facts)|, parent, idx)
      ensures e.node.loop !in loopIdMap
      ensures old(loopIdMap).Keys !! ExprLoops(e) ==> loopIdMap == old(loopIdMap)
      decreases e, 5
    {
      ghost var s0 := State();
      ExprLoopsChildren(e);
      var kind := if e.node.WhileLoop? then WhileStmt else DoStmt;
      var id := EmitStmt(kind, parent, idx, callable, GetLocation(e.loc), []);
      loopIdMap := loopIdMap[e.node.loop := id];
      ghost var s1 := State();
      ExtractLoopParts(e, callable, id);
      ghost var s3 := State();
      OpensKept(s1.facts, facts, |s0.facts|, |s0.facts|, parent, idx);
      PlacedKept(facts, facts, |s1.facts|, |s0.facts|, |log|, |log|, |s1.log|, |s0.log|, id, 0);
      if e.node.body.Some? {
        PlacedKept(facts, facts, |s1.facts|, |s0.facts|, |log|, |log|, |s1.log|, |s0.log|, id, 1);
      }
      loopIdMap := loopIdMap - {e.node.loop};
      LoopScope(s0, s1, s3, e.node.loop, id, ExprLoops(e), parent, idx, 0, 2);
      if old(loopIdMap).Keys !! ExprLoops(e) {
        ShrinksWithinDisjoint(old(loopIdMap), loopIdMap, ExprLoops(e));
      }
    }

    /** The condition of loop `id` at 0, then its body, when it has one, at 1. */
    method ExtractLoopParts(e: Ir.Expr, callable: Label, id: Label)
      requires (e.node.WhileLoop? || e.node.DoWhileLoop?) && Valid()
      modifies this
      ensures Progress(ExprLoops(e), id, 0, 2)
      ensures Placed(id, 0) && (e.node.body.Some? ==> Placed(id, 1))
      decreases e, 4
    {
      ghost var s1 := State();
      ExprLoopsChildren(e);
      ExtractExpressionExpr(e.node.condition, callable, id, 0, id);
      ghost var s2 := State();
      StepWiden(s1, s2, ExprLoops(e.node.condition), id, 0, 1, ExprLoops(e), 0, 2);
      if e.node.body.Some? {
        ExtractExpressionStmt(e.node.body.value, callable, id, 1);
        StepThen(s1, s2, State(), ExprLoops(e), id, 0, 2, ExprLoops(e.node.body.value), id, 1, 2, ExprLoops(e), id, 0, 2);
        PlacedKept(facts, facts, |s2.facts|, |s1.facts|, |log|, |log|, |s2.log|, |s1.log|, id, 1);
        PlacedKept(s2.facts, facts, |s1.facts|, |s1.facts|, |s2.log|, |log|, |s1.log|, |s1.log|, id, 0);
      }
    }

    // -------------------------------------------------------------------
    // Expressions
    // -------------------------------------------------------------------

    /** IrInstanceInitializerCall: a call of the `<obinit>` method of the current function's class. */
    method ExtractInstanceInitializerCall(e: Ir.Expr, callable: Label, parent: Label, idx: int, encl: Label)
      requires e.node.InstanceInitializerCall? && Valid()
      modifies this
      ensures Progress(ExprLoops(e), parent, idx, idx + 1)
      ensures old(currentFunction).None? ==>
        facts == old(facts) && next == old(next) && interned == old(interned) &&
        log == old(log) + [Diagnostic(ErrorSevere, "Current function is not set", Some(e.loc))]
      ensures old(currentFunction).Some? ==>
        var key := FunctionLabelKey(old(currentFunction).value.parent, "<obinit>", [], e.typ, None);
        var id := Fresh(old(next));
        key in interned && log == old(log) &&
        facts == old(facts) + ExprHead(MethodAccess, id, UseType(e.typ, OtherContext), parent, idx, GetLocation(e.loc), callable, encl) +
                 [CallableBinding(id, interned[key])]
      ensures Extracted(parent, idx)
      decreases e, 5
    {
      ghost var s0 := State();
      if currentFunction.None? {
        log := log + [Diagnostic(ErrorSevere, "Current function is not set", Some(e.loc))];
        return;
      }
      var id := Fresh(next);
      next := next + 1;
      var methodId := LabelFor(FunctionLabelKey(currentFunction.value.parent, "<obinit>", [], e.typ, None));
      ghost var s1 := State();
      assert Step(s0, s1, {}, parent, idx, idx + 1);
      WriteExpr(MethodAccess, id, UseType(e.typ, OtherContext), parent, idx, GetLocation(e.loc), callable, encl, [CallableBinding(id, methodId)], 0);
      StepThen(s0, s1, State(), {}, parent, idx, idx + 1, {}, parent, idx, idx + 1, {}, parent, idx, idx + 1);
    }

    /** IrStringConcatenation: a string template whose argument `k` is child `k`. */
    method ExtractStringConcatenation(e: Ir.Expr, callable: Label, parent: Label, idx: int, encl: Label)
      requires e.node.StringConcatenation? && Valid()
      modifies this
      ensures Progress(ExprLoops(e), parent, idx, idx + 1)
      ensures var id := Fresh(old(next));
        old(facts) + ExprHead(StringTemplateExpr, id, UseType(e.typ, OtherContext), parent, idx, GetLocation(e.loc), callable, encl) <= facts &&
        AttachedFrom(facts, |old(facts)| + 4, old(next) + 1, id, 0, |e.node.arguments|) &&
        AllPlaced(id, 0, Every(|e.node.arguments|))
      ensures Opens(facts, |old(facts)|, parent, idx)
      decreases e, 5
    {
      ghost var s0 := State();
      ExprLoopsChildren(e);
      var id := EmitExpr(StringTemplateExpr, UseType(e.typ, OtherContext), parent, idx, GetLocation(e.loc), callable, encl, []);
      ghost var s1 := State();
      var args := e.node.arguments;
      var k := 0;
      while k < |args|
        invariant 0 <= k <= |args|
        invariant Step(s1, State(), ExprLoops(e), id, 0, k)
        invariant AllPlacedAt(facts, |s0.facts|, |log|, |s0.log|, id, 0, Every(k))
      {
        ghost var sk := State();
        ExprsLoopsElement(args, k);
        ExtractExpressionExpr(args[k], callable, id, k, encl);
        AllPlacedStep(sk.facts, facts, |s0.facts|, |sk.log|, |log|, |s0.log|, id, 0, Every(k), true);
        assert Every(k) + [true] == Every(k + 1);
        StepThen(s1, sk, State(), ExprLoops(e), id, 0, k, ExprLoops(args[k]), id, k, k + 1, ExprLoops(e), id, 0, k + 1);
        k := k + 1;
      }
      StepThen(s0, s1, State(), {}, parent, idx, idx + 1, ExprLoops(e), id, 0, |args|, ExprLoops(e), parent, idx, idx + 1);
      OpensKept(s1.facts, facts, |s0.facts|, |s0.facts|, parent, idx);
    }

    /** IrConst: a literal of the constant's kind carrying its text; an unknown constant is only logged. */
    method ExtractConst(e: Ir.Expr, callable: Label, parent: Label, idx: int, encl: Label)
      requires e.node.Const? && Valid()
      modifies this
      ensures Progress(ExprLoops(e), parent, idx, idx + 1)
      ensures e.node.constant.OtherValue? ==>
        facts == old(facts) && next == old(next) &&
        log == old(log) + [Diagnostic(ErrorSevere, "Unrecognised IrConst: " + e.node.constant.className, Some(e.loc))]
      ensures !e.node.constant.OtherValue? ==>
        var id := Fresh(old(next));
        var head := ExprHead(LiteralKind(e.node.constant), id, UseType(e.typ, OtherContext), parent, idx, GetLocation(e.loc), callable, encl);
        log == old(log) && next == old(next) + 1 &&
        facts == old(facts) + head + (if e.node.constant.NullValue? then [] else [Namestrings(LiteralText(e.node.constant), LiteralText(e.node.constant), id)])
      ensures interned == old(interned) && loopIdMap == old(loopIdMap) && currentFunction == old(currentFunction)
      ensures Extracted(parent, idx)
      decreases e, 5
    {
      var c := e.node.constant;
      if c.OtherValue? {
        log := log + [Diagnostic(ErrorSevere, "Unrecognised IrConst: " + c.className, Some(e.loc))];
        return;
      }
      if c.NullValue? {
        var _ := EmitExpr(LiteralKind(c), UseType(e.typ, OtherContext), parent, idx, GetLocation(e.loc), callable, encl, []);
      } else {
        var text := LiteralText(c);
        var _ := EmitExpr(LiteralKind(c), UseType(e.typ, OtherContext), parent, idx, GetLocation(e.loc), callable, encl,
                          [Namestrings(text, text, Fresh(next))]);
      }
    }

    /**
     * IrGetValue: a `this` access when the value is a receiver parameter
     * (qualified by its class when it is that class's own receiver),
     * otherwise a variable access bound to the value's declaration.
     */
    method ExtractGetValue(e: Ir.Expr, callable: Label, parent: Label, idx: int, encl: Label)
      requires e.node.GetValue? && Valid()
      modifies this
      ensures Progress(ExprLoops(e), parent, idx, idx + 1)
      ensures facts == old(facts) + GetValueFacts(e, Fresh(old(next)), Fresh(old(next) + 1), parent, idx, callable, encl)
      ensures next == old(next) + (if HasThisQualifier(e) then 2 else 1)
      ensures log == old(log) + GetValueLog(e)
      ensures interned == old(interned) && loopIdMap == old(loopIdMap) && currentFunction == old(currentFunction)
      ensures Opens(facts, |old(facts)|, parent, idx)
      decreases e, 5
    {
      ghost var s0 := State();
      var id, qualId := Fresh(next), Fresh(next + 1);
      var added, count, diags := GetValueParts(e, id, qualId, parent, idx, callable, encl);
      GetValueFactsAttached(e, next, parent, idx, callable, encl);
      Write(added, count, parent, idx, idx + 1);
      OpensAt(facts, |s0.facts|, |s0.facts|, parent, idx);
      if diags != [] {
        ghost var s1 := State();
        Report(diags[0], parent, idx, idx + 1);
        StepThen(s0, s1, State(), {}, parent, idx, idx + 1, {}, parent, idx, idx + 1, {}, parent, idx, idx + 1);
      }
    }

    /** The tuples of an IrGetValue, the number of labels they take, and its diagnostics, as `GetValueFacts` and `GetValueLog` give them. */
    static method GetValueParts(e: Ir.Expr, id: Label, qualId: Label, parent: Label, idx: int, callable: Label, encl: Label)
      returns (added: seq<Fact>, count: nat, diags: seq<Diagnostic>)
      requires e.node.GetValue?
      ensures added == GetValueFacts(e, id, qualId, parent, idx, callable, encl)
      ensures count == (if HasThisQualifier(e) then 2 else 1)
      ensures diags == GetValueLog(e) && |diags| <= 1
    {
      var owner := e.node.owner;
      var loc := GetLocation(e.loc);
      count := 1;
      diags := [];
      if IsThisReceiver(owner) {
        added := ExprHead(ThisAccess, id, UseType(e.typ, OtherContext), parent, idx, loc, callable, encl);
        match owner.owner
        case OwnerFunction(isDr, hasExt) =>
          if isDr && hasExt {
            diags := [Diagnostic(ErrorSevere, "Function-qualifier for this", Some(e.loc))];
          }
        case OwnerClass(cls, isThisReceiver) =>
          if isThisReceiver {
            count := 2;
            var t := UseSimpleTypeClass(cls);
            added := added + [Fact.Expr(UnannotatedTypeAccess, qualId, t.javaId, t.kotlinId, id, 0),
                              HasLocation(qualId, loc), CallableEnclosingExpr(qualId, callable), StatementEnclosingExpr(id, encl)];
          }
        case OwnerOther(kind) =>
          diags := [Diagnostic(ErrorSevere, "Unexpected owner parent for this access: " + kind, Some(e.loc))];
      } else {
        added := ExprHead(VarAccess, id, UseType(e.typ, OtherContext), parent, idx, loc, callable, encl) +
                 [VariableBinding(id, UseValueDeclaration(owner))];
      }
    }

    /** IrGetField: a variable access bound to the field. */
    method ExtractGetField(e: Ir.Expr, callable: Label, parent: Label, idx: int, encl: Label)
      requires e.node.GetField? && Valid()
      modifies this
      ensures Progress(ExprLoops(e), parent, idx, idx + 1)
      ensures var id := Fresh(old(next));
        log == old(log) && next == old(next) + 1 &&
        facts == old(facts) + ExprHead(VarAccess, id, UseType(e.typ, OtherContext), parent, idx, GetLocation(e.loc), callable, encl) +
                 [VariableBinding(id, UseField(e.node.field)), StatementEnclosingExpr(id, encl)]
      ensures interned == old(interned) && loopIdMap == old(loopIdMap) && currentFunction == old(currentFunction)
      ensures Opens(facts, |old(facts)|, parent, idx)
      decreases e, 5
    {
      var id := Fresh(next);
      var _ := EmitExpr(VarAccess, UseType(e.typ, OtherContext), parent, idx, GetLocation(e.loc), callable, encl,
                        [VariableBinding(id, UseField(e.node.field)), StatementEnclosingExpr(id, encl)]);
    }

    /** IrGetEnumValue: a variable access bound to the enum entry. */
    method ExtractGetEnumValue(e: Ir.Expr, callable: Label, parent: Label, idx: int, encl: Label)
      requires e.node.GetEnumValue? && Valid()
      modifies this
      ensures Progress(ExprLoops(e), parent, idx, idx + 1)
      ensures var id := Fresh(old(next));
        log == old(log) && next == old(next) + 1 &&
        facts == old(facts) + ExprHead(VarAccess, id, UseType(e.typ, OtherContext), parent, idx, GetLocation(e.loc), callable, encl) +
                 [VariableBinding(id, UseEnumEntry(e.node.entry))]
      ensures interned == old(interned) && loopIdMap == old(loopIdMap) && currentFunction == old(currentFunction)
      ensures Opens(facts, |old(facts)|, parent, idx)
      decreases e, 5
    {
      var id := Fresh(next);
      var _ := EmitExpr(VarAccess, UseType(e.typ, OtherContext), parent, idx, GetLocation(e.loc), callable, encl,
                        [VariableBinding(id, UseEnumEntry(e.node.entry))]);
    }

    /** IrSetValue and IrSetField: an assignment whose left side at 0 accesses the target and whose value is at 1. */
    method ExtractSet(e: Ir.Expr, callable: Label, parent: Label, idx: int, encl: Label)
      requires (e.node.SetValue? || e.node.SetField?) && Valid()
      modifies this
      ensures Progress(ExprLoops(e), parent, idx, idx + 1)
      ensures var id := Fresh(old(next));
        var lhsId := Fresh(old(next) + 1);
        old(facts) + ExprHead(AssignExpr, id, UseType(e.typ, OtherContext), parent, idx, GetLocation(e.loc), callable, encl) +
          AssignmentTarget(e, lhsId, id, callable, encl) <= facts &&
        AttachedFrom(facts, |old(facts)| + 9, old(next) + 2, id, 1, 2) &&
        HandledAt(facts, |old(facts)| + 9, |log|, |old(log)|, id, 1)
      ensures Opens(facts, |old(facts)|, parent, idx)
      decreases e, 5
    {
      ghost var s0 := State();
      var id := EmitExpr(AssignExpr, UseType(e.typ, OtherContext), parent, idx, GetLocation(e.loc), callable, encl, []);
      ghost var s1 := State();
      ExtractSetParts(e, id, callable, encl);
      OpensKept(s1.facts, facts, |s0.facts|, |s0.facts|, parent, idx);
      StepThen(s0, s1, State(), {}, parent, idx, idx + 1, ExprLoops(e), id, 0, 2, ExprLoops(e), parent, idx, idx + 1);
    }

    /** The parts of assignment `id`: the access to the assigned variable or field at 0, the value at 1. */
    method ExtractSetParts(e: Ir.Expr, id: Label, callable: Label, encl: Label)
      requires (e.node.SetValue? || e.node.SetField?) && Valid()
      modifies this
      ensures Progress(ExprLoops(e), id, 0, 2)
      ensures old(facts) + AssignmentTarget(e, Fresh(old(next)), id, callable, encl) <= facts
      ensures AttachedFrom(facts, |old(facts)| + 5, old(next) + 1, id, 1, 2)
      ensures HandledAt(facts, |old(facts)| + 5, |log|, |old(log)|, id, 1)
      decreases e, 4
    {
      ExprLoopsChildren(e);
      ghost var s1 := State();
      var lhsId := Fresh(next);
      AssignmentTargetAttached(e, lhsId, id, callable, encl, next);
      Write(AssignmentTarget(e, lhsId, id, callable, encl), 1, id, 0, 1);
      ghost var s2 := State();
      ExtractExpressionExpr(e.node.value, callable, id, 1, encl);
      StepThen(s1, s2, State(), {}, id, 0, 1, ExprLoops(e.node.value), id, 1, 2, ExprLoops(e), id, 0, 2);
    }

    /**
     * IrWhen: a when expression (marked as an `if` when it came from one);
     * branch `k` is branch `k`, its condition at 0 and its result at 1.
     */
    method ExtractWhen(e: Ir.Expr, callable: Label, parent: Label, idx: int, encl: Label)
      requires e.node.When? && Valid()
      modifies this
      ensures Progress(ExprLoops(e), parent, idx, idx + 1)
      ensures var id := Fresh(old(next));
        old(facts) + ExprHead(WhenExpr, id, UseType(e.typ, OtherContext), parent, idx, GetLocation(e.loc), callable, encl) +
          (if e.node.origin == If then [WhenIf(id)] else []) <= facts &&
        AttachedFrom(facts, |old(facts)| + 4 + (if e.node.origin == If then 1 else 0), old(next) + 1, id, 0, |e.node.branches|) &&
        AllOpen(facts, |old(facts)|, id, |e.node.branches|)
      ensures Opens(facts, |old(facts)|, parent, idx)
      decreases e, 5
    {
      ghost var s0 := State();
      ExprLoopsChildren(e);
      var id := EmitExpr(WhenExpr, UseType(e.typ, OtherContext), parent, idx, GetLocation(e.loc), callable, encl,
                         if e.node.origin == If then [WhenIf(Fresh(next))] else []);
      ghost var s1 := State();
      var bs := e.node.branches;
      ExtractBranches(bs, callable, id, encl);
      StepThen(s0, s1, State(), {}, parent, idx, idx + 1, ExprLoops(e), id, 0, |bs|, ExprLoops(e), parent, idx, idx + 1);
      OpensKept(s1.facts, facts, |s0.facts|, |s0.facts|, parent, idx);
      AllOpenKept(facts, facts, |s1.facts|, |s0.facts|, id, |bs|);
    }

    /** Branch `k` of `bs` as branch `k` of when `whenId`. */
    method ExtractBranches(bs: seq<Branch>, callable: Label, whenId: Label, encl: Label)
      requires Valid()
      modifies this
      ensures Progress(BranchesLoops(bs), whenId, 0, |bs|)
      ensures AllOpen(facts, |old(facts)|, whenId, |bs|)
      decreases bs, 1
    {
      ghost var s1 := State();
      var k := 0;
      while k < |bs|
        invariant 0 <= k <= |bs|
        invariant Step(s1, State(), BranchesLoops(bs), whenId, 0, k)
        invariant AllOpen(facts, |s1.facts|, whenId, k)
      {
        ghost var sk := State();
        BranchesLoopsElement(bs, k);
        ExtractBranch(bs[k], k, callable, whenId, encl);
        AllOpenStep(sk.facts, facts, |s1.facts|, whenId, k);
        StepThen(s1, sk, State(), BranchesLoops(bs), whenId, 0, k, BranchLoops(bs[k]), whenId, k, k + 1, BranchesLoops(bs), whenId, 0, k + 1);
        k := k + 1;
      }
    }

    /** Branch `k` of when `whenId`: its condition at 0, its result at 1, and for an else branch the else mark last. */
    method ExtractBranch(b: Branch, k: int, callable: Label, whenId: Label, encl: Label)
      requires Valid()
      modifies this
      ensures Progress(BranchLoops(b), whenId, k, k + 1)
      ensures var bId := Fresh(old(next));
        old(facts) + [WhenBranch(bId, whenId, k), HasLocation(bId, GetLocation(b.loc))] <= facts &&
        AttachedFrom(facts, |old(facts)| + 2, old(next) + 1, bId, 0, 2) &&
        (b.isElse ==> facts[|facts| - 1] == WhenBranchElse(bId)) &&
        Placed(bId, 0) && Placed(bId, 1)
      ensures Opens(facts, |old(facts)|, whenId, k)
      decreases b, 0
    {
      ghost var s0 := State();
      var bId := Fresh(next);
      Write([WhenBranch(bId, whenId, k), HasLocation(bId, GetLocation(b.loc))], 1, whenId, k, k + 1);
      ghost var s1 := State();
      OpensAt(facts, |s0.facts|, |s0.facts|, whenId, k);
      ExtractExpressionExpr(b.condition, callable, bId, 0, encl);
      ghost var s2 := State();
      ExtractExpressionStmt(b.result, callable, bId, 1);
      ghost var s2b := State();
      OpensKept(s1.facts, s2b.facts, |s0.facts|, |s0.facts|, whenId, k);
      PlacedKept(s2.facts, s2b.facts, |s1.facts|, |s0.facts|, |s2.log|, |s2b.log|, |s1.log|, |s0.log|, bId, 0);
      PlacedKept(s2b.facts, s2b.facts, |s2.facts|, |s0.facts|, |s2b.log|, |s2b.log|, |s2.log|, |s0.log|, bId, 1);
      StepThen(s1, s2, State(), ExprLoops(b.condition), bId, 0, 1, ExprLoops(b.result), bId, 1, 2, BranchLoops(b), bId, 0, 2);
      ghost var s3 := State();
      if b.isElse {
        Write([WhenBranchElse(bId)], 0, bId, 0, 0);
        StepThen(s1, s3, State(), BranchLoops(b), bId, 0, 2, {}, bId, 0, 0, BranchLoops(b), bId, 0, 2);
        OpensKept(s3.facts, facts, |s0.facts|, |s0.facts|, whenId, k);
        PlacedKept(s3.facts, facts, |s0.facts|, |s0.facts|, |log|, |log|, |s0.log|, |s0.log|, bId, 0);
        PlacedKept(s3.facts, facts, |s0.facts|, |s0.facts|, |log|, |log|, |s0.log|, |s0.log|, bId, 1);
      }
      StepThen(s0, s1, State(), {}, whenId, k, k + 1, BranchLoops(b), bId, 0, 2, BranchLoops(b), whenId, k, k + 1);
    }

    /** IrGetClass: a class literal with its argument at 0. */
    method ExtractGetClass(e: Ir.Expr, callable: Label, parent: Label, idx: int, encl: Label)
      requires e.node.GetClass? && Valid()
      modifies this
      ensures Progress(ExprLoops(e), parent, idx, idx + 1)
      ensures var id := Fresh(old(next));
        old(facts) + ExprHead(GetClassExpr, id, UseType(e.typ, OtherContext), parent, idx, GetLocation(e.loc), callable, encl) <= facts &&
        AttachedFrom(facts, |old(facts)| + 4, old(next) + 1, id, 0, 1) &&
        HandledAt(facts, |old(facts)| + 4, |log|, |old(log)|, id, 0)
      ensures Opens(facts, |old(facts)|, parent, idx)
      decreases e, 5
    {
      ghost var s0 := State();
      ExprLoopsChildren(e);
      var id := EmitExpr(GetClassExpr, UseType(e.typ, OtherContext), parent, idx, GetLocation(e.loc), callable, encl, []);
      ghost var s1 := State();
      ExtractExpressionExpr(e.node.argument, callable, id, 0, encl);
      StepThen(s0, s1, State(), {}, parent, idx, idx + 1, ExprLoops(e.node.argument), id, 0, 1, ExprLoops(e), parent, idx, idx + 1);
      OpensKept(s1.facts, facts, |s0.facts|, |s0.facts|, parent, idx);
    }

    /** `extractTypeAccess`: an access to type `t` at `idx` of `parent`, located at `loc`. */
    method ExtractTypeAccess(t: IrType, callable: Label, parent: Label, idx: int, loc: Label, encl: Label) returns (id: Label)
      requires Valid()
      modifies this
      ensures id == Fresh(old(next)) && next == old(next) + 1
      ensures facts == old(facts) + ExprHead(UnannotatedTypeAccess, id, UseType(t, OtherContext), parent, idx, loc, callable, encl)
      ensures Progress({}, parent, idx, idx + 1)
      ensures log == old(log) && interned == old(interned) && loopIdMap == old(loopIdMap) && currentFunction == old(currentFunction)
    {
      id := EmitExpr(UnannotatedTypeAccess, UseType(t, OtherContext), parent, idx, loc, callable, encl, []);
    }

    /**
     * IrTypeOperatorCall: casts put the type access at 0 and the operand
     * at 1, `is`/`!is` the other way round; other operators are only logged.
     */
    method ExtractTypeOperatorCall(e: Ir.Expr, callable: Label, parent: Label, idx: int, encl: Label)
      requires e.node.TypeOperatorCall? && Valid()
      modifies this
      ensures Progress(ExprLoops(e), parent, idx, idx + 1)
      ensures TypeOperatorLayout(e.node.operator).None? ==>
        facts == old(facts) && next == old(next) &&
        log == old(log) + [Diagnostic(ErrorSevere, "Unrecognised IrTypeOperatorCall for " + OperatorName(e.node.operator) + ": IrTypeOperatorCall", Some(e.loc))]
      ensures TypeOperatorLayout(e.node.operator).Some? ==>
        var lay := TypeOperatorLayout(e.node.operator).value;
        var id := Fresh(old(next));
        old(facts) + ExprHead(lay.kind, id, UseType(e.typ, OtherContext), parent, idx, GetLocation(e.loc), callable, encl) <= facts &&
        TypeOperands(e, lay.typeAccessIndex, |old(facts)| + 4, old(next) + 1, facts, next, id, callable, encl) &&
        PlacedAt(facts, |old(facts)| + 4, |log|, |old(log)|, id, 1 - lay.typeAccessIndex)
      ensures Extracted(parent, idx)
      decreases e, 5
    {
      var layout := TypeOperatorLayout(e.node.operator);
      if layout.None? {
        Report(Diagnostic(ErrorSevere, "Unrecognised IrTypeOperatorCall for " + OperatorName(e.node.operator) + ": IrTypeOperatorCall", Some(e.loc)),
               parent, idx, idx + 1);
      } else {
        ExtractTypeOperation(e, layout.value, callable, parent, idx, encl);
        ExprHeadOpens(old(facts), facts, layout.value.kind, Fresh(old(next)), UseType(e.typ, OtherContext), parent, idx, GetLocation(e.loc), callable, encl);
      }
    }

    /** A supported type operator call: the cast or instanceof expression and its two children. */
    method ExtractTypeOperation(e: Ir.Expr, lay: OperatorLayout, callable: Label, parent: Label, idx: int, encl: Label)
      requires e.node.TypeOperatorCall? && TypeOperatorLayout(e.node.operator) == Some(lay) && Valid()
      modifies this
      ensures Progress(ExprLoops(e), parent, idx, idx + 1)
      ensures var id := Fresh(old(next));
        old(facts) + ExprHead(lay.kind, id, UseType(e.typ, OtherContext), parent, idx, GetLocation(e.loc), callable, encl) <= facts &&
        TypeOperands(e, lay.typeAccessIndex, |old(facts)| + 4, old(next) + 1, facts, next, id, callable, encl) &&
        PlacedAt(facts, |old(facts)| + 4, |log|, |old(log)|, id, 1 - lay.typeAccessIndex)
      decreases e, 4
    {
      ghost var s0 := State();
      var id := EmitExpr(lay.kind, UseType(e.typ, OtherContext), parent, idx, GetLocation(e.loc), callable, encl, []);
      ghost var s1 := State();
      assert |s1.facts| == |s0.facts| + 4 && s1.next == s0.next + 1 && id == Fresh(s0.next);
      ExtractTypeOperands(e, lay.typeAccessIndex, id, callable, encl);
      assert s1.facts <= facts;
      ExprLoopsChildren(e);
      StepThen(s0, s1, State(), {}, parent, idx, idx + 1, ExprLoops(e.node.argument), id, 0, 2, ExprLoops(e), parent, idx, idx + 1);
    }

    /** The two children of a type operator call `id`: the type access at `typeIndex`, the operand at the other index. */
    method ExtractTypeOperands(e: Ir.Expr, typeIndex: int, id: Label, callable: Label, encl: Label)
      requires e.node.TypeOperatorCall? && (typeIndex == 0 || typeIndex == 1) && Valid()
      modifies this
      ensures Progress(ExprLoops(e.node.argument), id, 0, 2)
      ensures TypeOperands(e, typeIndex, |old(facts)|, old(next), facts, next, id, callable, encl)
      ensures Placed(id, 1 - typeIndex)
      decreases e, 1
    {
      ghost var s0 := State();
      if typeIndex == 0 {
        var _ := ExtractTypeAccess(e.node.typeOperand, callable, id, 0, GetLocation(e.loc), encl);
        ghost var s1 := State();
        ExtractExpressionExpr(e.node.argument, callable, id, 1, encl);
        StepThen(s0, s1, State(), {}, id, 0, 1, ExprLoops(e.node.argument), id, 1, 2, ExprLoops(e.node.argument), id, 0, 2);
        PlacedKept(facts, facts, |s1.facts|, |s0.facts|, |log|, |log|, |s1.log|, |s0.log|, id, 1);
      } else {
        ExtractExpressionExpr(e.node.argument, callable, id, 0, encl);
        ghost var s1 := State();
        var _ := ExtractTypeAccess(e.node.typeOperand, callable, id, 1, GetLocation(e.loc), encl);
        AttachedPrefix(s1.facts, facts, |s0.facts|, s0.next, id, 0, 1);
        StepThen(s0, s1, State(), ExprLoops(e.node.argument), id, 0, 1, {}, id, 1, 2, ExprLoops(e.node.argument), id, 0, 2);
        PlacedKept(s1.facts, facts, |s0.facts|, |s0.facts|, |s1.log|, |log|, |s0.log|, |s0.log|, id, 0);
      }
    }

    /** IrVararg: a vararg expression whose element `k` is child `k`. */
    method ExtractVararg(e: Ir.Expr, callable: Label, parent: Label, idx: int, encl: Label)
      requires e.node.Vararg? && Valid()
      modifies this
      ensures Progress(ExprLoops(e), parent, idx, idx + 1)
      ensures var id := Fresh(old(next));
        old(facts) + ExprHead(VarargExpr, id, UseType(e.typ, OtherContext), parent, idx, GetLocation(e.loc), callable, encl) <= facts &&
        AttachedFrom(facts, |old(facts)| + 4, old(next) + 1, id, 0, |e.node.elements|) &&
        AllPlaced(id, 0, Every(|e.node.elements|))
      ensures Opens(facts, |old(facts)|, parent, idx)
      decreases e, 5
    {
      ghost var s0 := State();
      ExprLoopsChildren(e);
      var id := EmitExpr(VarargExpr, UseType(e.typ, OtherContext), parent, idx, GetLocation(e.loc), callable, encl, []);
      ghost var s1 := State();
      ExtractVarargElements(e.node.elements, callable, id, encl);
      StepThen(s0, s1, State(), {}, parent, idx, idx + 1, VarargLoops(e.node.elements), id, 0, |e.node.elements|, ExprLoops(e), parent, idx, idx + 1);
      OpensKept(s1.facts, facts, |s0.facts|, |s0.facts|, parent, idx);
      AllPlacedKept(facts, facts, |s1.facts|, |s0.facts|, |log|, |log|, |s1.log|, |s0.log|, id, 0, Every(|e.node.elements|));
    }

    /** Element `k` of `els` as child `k` of `parent`. */
    method ExtractVarargElements(els: seq<VarargElement>, callable: Label, parent: Label, encl: Label)
      requires Valid()
      modifies this
      ensures Progress(VarargLoops(els), parent, 0, |els|)
      ensures AllPlaced(parent, 0, Every(|els|))
      decreases els, 1
    {
      ghost var s1 := State();
      var k := 0;
      while k < |els|
        invariant 0 <= k <= |els|
        invariant Step(s1, State(), VarargLoops(els), parent, 0, k)
        invariant AllPlacedAt(facts, |s1.facts|, |log|, |s1.log|, parent, 0, Every(k))
      {
        ghost var sk := State();
        VarargLoopsElement(els, k);
        ExtractVarargElement(els[k], callable, parent, k, encl);
        AllPlacedStep(sk.facts, facts, |s1.facts|, |sk.log|, |log|, |s1.log|, parent, 0, Every(k), true);
        assert Every(k) + [true] == Every(k + 1);
        StepThen(s1, sk, State(), VarargLoops(els), parent, 0, k, VarargElementLoops(els[k]), parent, k, k + 1, VarargLoops(els), parent, 0, k + 1);
        k := k + 1;
      }
    }

    /** `extractVarargElement`: an expression element is extracted in place; a spread element is only logged. */
    method ExtractVarargElement(el: VarargElement, callable: Label, parent: Label, idx: int, encl: Label)
      requires Valid()
      modifies this
      ensures Progress(VarargElementLoops(el), parent, idx, idx + 1)
      ensures el.SpreadElement? ==>
        facts == old(facts) && next == old(next) &&
        log == old(log) + [Diagnostic(ErrorSevere, "Unrecognised IrVarargElement: IrSpreadElement", Some(el.loc))]
      ensures Extracted(parent, idx)
      decreases el, 0
    {
      match el
      case VarargExpression(x) =>
        ExtractExpressionExpr(x, callable, parent, idx, encl);
      case SpreadElement(loc) =>
        log := log + [Diagnostic(ErrorSevere, "Unrecognised IrVarargElement: IrSpreadElement", Some(loc))];
    }

    /** IrGetObjectValue: a variable access bound to the object's instance field, when it has one. */
    method ExtractGetObjectValue(e: Ir.Expr, callable: Label, parent: Label, idx: int, encl: Label)
      requires e.node.GetObjectValue? && Valid()
      modifies this
      ensures Progress(ExprLoops(e), parent, idx, idx + 1)
      ensures log == old(log) + InstanceLog(e.node.cls)
      ensures !HasInstanceField(e.node.cls) ==> facts == old(facts) && next == old(next) && interned == old(interned)
      ensures HasInstanceField(e.node.cls) ==>
        var key := InstanceKey(e.node.cls);
        var id := Fresh(if key in old(interned) then old(next) else old(next) + 1);
        key in interned &&
        facts == old(facts) + ExprHead(VarAccess, id, UseType(e.typ, OtherContext), parent, idx, GetLocation(e.loc), callable, encl) +
                 [VariableBinding(id, interned[key])]
      ensures loopIdMap == old(loopIdMap) && currentFunction == old(currentFunction)
      ensures Extracted(parent, idx)
      decreases e, 5
    {
      ghost var s0 := State();
      var inst := UseInstance(e.node.cls);
      ghost var s1 := State();
      StepWithoutFacts(s0, s1, parent, idx, idx + 1);
      if inst.Some? {
        ghost var key := InstanceKey(e.node.cls);
        assert next == (if key in old(interned) then old(next) else old(next) + 1);
        var _ := EmitExpr(VarAccess, UseType(e.typ, OtherContext), parent, idx, GetLocation(e.loc), callable, encl,
                          [VariableBinding(Fresh(next), inst.value.id)]);
        StepThen(s0, s1, State(), {}, parent, idx, idx + 1, {}, parent, idx, idx + 1, {}, parent, idx, idx + 1);
      }
    }

    /** The instance field of object `c`: the companion's field in its outer class, or the object's `INSTANCE`. */
    method UseInstance(c: ClassSym) returns (inst: Option<FieldResult>)
      requires Valid()
      modifies this
      ensures Valid() && InternExtends(old(interned), interned)
      ensures inst.Some? <==> HasInstanceField(c)
      ensures inst.None? ==> interned == old(interned) && next == old(next)
      ensures inst.Some? ==>
        var key := InstanceKey(c);
        key in interned && inst.value.id == interned[key] && next == old(next) + (if key in old(interned) then 0 else 1)
      ensures log == old(log) + InstanceLog(c)
      ensures facts == old(facts) && loopIdMap == old(loopIdMap) && currentFunction == old(currentFunction)
    {
      if c.isCompanion {
        inst := UseCompanionObjectClassInstance(c);
      } else {
        var r := UseObjectClassInstance(c);
        inst := Some(r);
      }
    }

    /** `useCompanionObjectClassInstance`: the instance field of a companion object, named after it in its outer class. */
    method UseCompanionObjectClassInstance(c: ClassSym) returns (r: Option<FieldResult>)
      requires Valid()
      modifies this
      ensures Valid() && InternExtends(old(interned), interned)
      ensures r.None? <==> !(c.isCompanion && c.parent.ParentClass?)
      ensures r.None? ==>
        interned == old(interned) && next == old(next) &&
        log == old(log) + [Diagnostic(ErrorSevere, "Using companion instance for non-companion class", None)]
      ensures r.Some? ==>
        var key := CompanionInstanceKey(c);
        key in interned && r.value == FieldResult(interned[key], c.name) && log == old(log) &&
        next == old(next) + (if key in old(interned) then 0 else 1)
      ensures facts == old(facts) && loopIdMap == old(loopIdMap) && currentFunction == old(currentFunction)
    {
      if !c.isCompanion || !c.parent.ParentClass? {
        log := log + [Diagnostic(ErrorSevere, "Using companion instance for non-companion class", None)];
        return None;
      }
      var instanceId := LabelFor(CompanionInstanceKey(c));
      return Some(FieldResult(instanceId, c.name));
    }

    /** `useObjectClassInstance`: the `INSTANCE` field of an object (complaining, but answering, for other classes). */
    method UseObjectClassInstance(c: ClassSym) returns (r: FieldResult)
      requires Valid()
      modifies this
      ensures Valid() && InternExtends(old(interned), interned)
      ensures var key := ObjectInstanceKey(c);
        key in interned && r == FieldResult(interned[key], InstanceName) &&
        next == old(next) + (if key in old(interned) then 0 else 1)
      ensures log == old(log) + (if IsNonCompanionObject(c) then [] else [Diagnostic(ErrorSevere, "Using instance for non-object class", None)])
      ensures facts == old(facts) && loopIdMap == old(loopIdMap) && currentFunction == old(currentFunction)
    {
      if !IsNonCompanionObject(c) {
        log := log + [Diagnostic(ErrorSevere, "Using instance for non-object class", None)];
      }
      var instanceId := LabelFor(ObjectInstanceKey(c));
      return FieldResult(instanceId, InstanceName);
    }

    // -------------------------------------------------------------------
    // Statements
    // -------------------------------------------------------------------

    /** `extractStatement`: expressions, variables, anonymous objects and local functions. */
    method ExtractStatement(s: Statement, callable: Label, parent: Label, idx: int)
      requires Valid()
      modifies this
      ensures Progress(StatementLoops(s), parent, idx, idx + 1)
      ensures Extracted(parent, idx)
      ensures s.ClassStatement? && !s.c.sym.isAnonymousObject ==>
        facts == old(facts) && log == old(log) + [Diagnostic(ErrorSevere, "Found non anonymous IrClass as IrStatement: IrClass", Some(s.c.loc))]
      ensures s.FunctionStatement? && !s.f.sym.isLocal ==>
        facts == old(facts) && log == old(log) + [Diagnostic(ErrorSevere, "Expected to find local function", Some(s.f.loc))]
      ensures s.OtherStatement? ==>
        facts == old(facts) && log == old(log) + [Diagnostic(ErrorSevere, "Unrecognised IrStatement: " + s.className, Some(s.loc))]
      decreases s, 3
    {
      match s
      case ExpressionStatement(x) =>
        ExtractExpressionStmt(x, callable, parent, idx);
      case VariableStatement(v) =>
        ExtractVariable(v, callable, parent, idx);
      case ClassStatement(c) =>
        if c.sym.isAnonymousObject {
          ExtractAnonymousClassStmt(c, callable, parent, idx);
        } else {
          Report(Diagnostic(ErrorSevere, "Found non anonymous IrClass as IrStatement: IrClass", Some(c.loc)), parent, idx, idx + 1);
        }
      case FunctionStatement(f) =>
        if f.sym.isLocal {
          ExtractLocalFunctionStmt(f, callable, parent, idx);
        } else {
          Report(Diagnostic(ErrorSevere, "Expected to find local function", Some(f.loc)), parent, idx, idx + 1);
        }
      case OtherStatement(name, loc) =>
        Report(Diagnostic(ErrorSevere, "Unrecognised IrStatement: " + name, Some(loc)), parent, idx, idx + 1);
    }

    /**
     * An anonymous object as a statement: the class, then a declaration
     * statement at `idx` of `parent` naming it.
     */
    method ExtractAnonymousClassStmt(c: ClassDecl, callable: Label, parent: Label, idx: int)
      requires Valid()
      modifies this
      ensures next > old(next) &&
        EndsWith(facts, AnonymousClassStmtFacts(Fresh(next - 1), ClassLabel(c.sym), GetLocation(c.loc), parent, idx, callable))
      ensures Opens(facts, |old(facts)|, parent, idx)
      ensures CompanionInterned(c.sym, interned) && old(facts) + ClassOpening(c, ClassLabel(c.sym), interned) <= facts
      ensures Progress(ClassLoops(c), parent, idx, idx + 1)
      decreases c, 10
    {
      ghost var s0 := State();
      var id := ExtractClassSource(c);
      ghost var s1 := State();
      ExtractAnonymousClassDeclStmt(id, GetLocation(c.loc), callable, parent, idx, |old(facts)|);
      StepThen(s0, s1, State(), ClassLoops(c), Nowhere, 0, 0, {}, parent, idx, idx + 1, ClassLoops(c), parent, idx, idx + 1);
    }

    /**
     * A local function as a statement: its generated class (with `Any` as
     * supertype), then a declaration statement at `idx` of `parent` naming it.
     */
    method ExtractLocalFunctionStmt(f: FunctionDecl, callable: Label, parent: Label, idx: int)
      requires Valid()
      modifies this
      ensures Progress(FunctionLoops(f), parent, idx, idx + 1)
      ensures old(facts) + GeneratedClassHead(f) <= facts
      ensures next > old(next) && currentFunction == None &&
        EndsWith(facts, AnonymousClassStmtFacts(Fresh(next - 1), GetLocalFunctionLabels(f.sym).typ.javaId, GetLocation(f.loc), parent, idx, callable))
      ensures Opens(facts, |old(facts)|, parent, idx)
      decreases f, 12
    {
      ghost var s0 := State();
      var classId := ExtractGeneratedClass(f, [irBuiltIns.anyType]);
      ghost var s1 := State();
      ExtractAnonymousClassDeclStmt(classId, GetLocation(f.loc), callable, parent, idx, |old(facts)|);
      StepThen(s0, s1, State(), FunctionLoops(f), Nowhere, 0, 0, {}, parent, idx, idx + 1, FunctionLoops(f), parent, idx, idx + 1);
    }

    /** `extractAnonymousClassStmt`: the statement at `idx` of `parent` declaring class `cls`. */
    method ExtractAnonymousClassDeclStmt(cls: Label, loc: Label, callable: Label, parent: Label, idx: int, ghost from: nat)
      requires Valid() && from <= |facts|
      modifies this
      ensures Progress({}, parent, idx, idx + 1)
      ensures facts == old(facts) + AnonymousClassStmtFacts(Fresh(old(next)), cls, loc, parent, idx, callable) && next == old(next) + 1
      ensures log == old(log) && interned == old(interned) && loopIdMap == old(loopIdMap) && currentFunction == old(currentFunction)
      ensures Opens(facts, from, parent, idx)
      ensures EndsWith(facts, AnonymousClassStmtFacts(Fresh(next - 1), cls, loc, parent, idx, callable))
    {
      var stmtId := Fresh(next);
      var added := AnonymousClassStmtFacts(stmtId, cls, loc, parent, idx, callable);
      assert AttachOkAt(added, 0, next, parent, idx, idx + 1);
      assert AttachOkAt(added, 1, next, parent, idx, idx + 1);
      assert AttachOkAt(added, 2, next, parent, idx, idx + 1);
      Write(added, 1, parent, idx, idx + 1);
      OpensAt(facts, from, |facts| - 3, parent, idx);
      EndsWithAppend(old(facts), added);
    }

    /** `extractVariable`: a local variable declaration statement holding the declaration expression at 1. */
    method ExtractVariable(v: Variable, callable: Label, parent: Label, idx: int)
      requires Valid()
      modifies this
      ensures Progress(OptLoops(v.initializer), parent, idx, idx + 1)
      ensures var stmtId := Fresh(old(next));
        old(facts) + [Stmt(LocalVariableDeclStmt, stmtId, parent, idx, callable), HasLocation(stmtId, GetLocation(v.loc))] <= facts &&
        AttachedFrom(facts, |old(facts)| + 2, old(next) + 1, stmtId, 1, 2) &&
        Opens(facts, |old(facts)| + 4, stmtId, 1)
      ensures Opens(facts, |old(facts)|, parent, idx)
      decreases v, 2
    {
      ghost var s0 := State();
      var stmtId := EmitStmt(LocalVariableDeclStmt, parent, idx, callable, GetLocation(v.loc), []);
      ghost var s1 := State();
      ExtractVariableExpr(v, callable, stmtId, 1, stmtId);
      StepThen(s0, s1, State(), {}, parent, idx, idx + 1, OptLoops(v.initializer), stmtId, 1, 2, OptLoops(v.initializer), parent, idx, idx + 1);
      OpensKept(s1.facts, facts, |s0.facts|, |s0.facts|, parent, idx);
    }

    /**
     * `extractVariableExpr`: the local variable, bound to a declaration
     * expression at `idx` of `parent`, whose initializer is its child 0.
     */
    method ExtractVariableExpr(v: Variable, callable: Label, parent: Label, idx: int, encl: Label)
      requires Valid()
      modifies this
      ensures Progress(OptLoops(v.initializer), parent, idx, idx + 1)
      ensures var exprId := Fresh(old(next));
        old(facts) + VariableDeclFacts(v, UseVariable(v), exprId, parent, idx, callable, encl) <= facts &&
        AttachedFrom(facts, |old(facts)| + 6, old(next) + 1, exprId, 0, 1)
      ensures v.initializer.None? ==> next == old(next) + 1 && log == old(log) && |facts| == |old(facts)| + 6
      ensures v.initializer.Some? ==> HandledAt(facts, |old(facts)| + 6, |log|, |old(log)|, Fresh(old(next)), 0)
      ensures Opens(facts, |old(facts)| + 2, parent, idx)
      decreases v, 1
    {
      ghost var s0 := State();
      var varId := UseVariable(v);
      var exprId := Fresh(next);
      VariableDeclAttached(v, varId, exprId, parent, idx, callable, encl, next);
      Write(VariableDeclFacts(v, varId, exprId, parent, idx, callable, encl), 1, parent, idx, idx + 1);
      ghost var s1 := State();
      assert facts[|s0.facts| + 2] == ExprHead(LocalVariableDeclExpr, exprId, UseType(v.typ, OtherContext), parent, idx, GetLocation(v.loc), callable, encl)[0];
      OpensAt(facts, |s0.facts| + 2, |s0.facts| + 2, parent, idx);
      if v.initializer.Some? {
        ExtractExpressionExpr(v.initializer.value, callable, exprId, 0, encl);
        StepThen(s0, s1, State(), {}, parent, idx, idx + 1, ExprLoops(v.initializer.value), exprId, 0, 1, OptLoops(v.initializer), parent, idx, idx + 1);
        OpensKept(s1.facts, facts, |s0.facts| + 2, |s0.facts| + 2, parent, idx);
      }
    }

    // -------------------------------------------------------------------
    // Declarations
    // -------------------------------------------------------------------

    /** `extractDeclaration`: a member of a class (or of a file), under the declaring type `parentId`. */
    method ExtractDeclaration(d: Decl, parentId: Label)
      requires Valid()
      modifies this
      ensures Progress(DeclLoops(d), Nowhere, 0, 0)
      ensures d.AnonymousInitializer? ==>
        facts == old(facts) && log == old(log) && next == old(next) && interned == old(interned) && currentFunction == old(currentFunction)
      ensures d.OtherDeclaration? ==>
        facts == old(facts) && log == old(log) + [Diagnostic(ErrorSevere, "Unrecognised IrDeclaration: " + d.className, Some(d.loc))]
      decreases d, 10
    {
      match d
      case ClassDeclaration(c) =>
        var _ := ExtractClassSource(c);
      case FunctionDeclaration(f) =>
        var _ := ExtractFunction(f, parentId);
      case AnonymousInitializer(_, _, _) =>
        // Init blocks are extracted with the class's `<obinit>` method.
      case PropertyDeclaration(p) =>
        ExtractProperty(p, parentId);
      case EnumEntryDeclaration(ee) =>
        ExtractEnumEntry(ee, parentId);
      case TypeAliasDeclaration(ta) =>
        ExtractTypeAlias(ta);
      case OtherDeclaration(name, loc) =>
        Report(Diagnostic(ErrorSevere, "Unrecognised IrDeclaration: " + name, Some(loc)), Nowhere, 0, 0);
    }

    /** The declarations of a class in order, each under `parentId`. */
    method ExtractDeclarations(ds: seq<Decl>, parentId: Label)
      requires Valid()
      modifies this
      ensures Progress(DeclsLoops(ds), Nowhere, 0, 0)
      decreases ds, 0
    {
      ghost var s1 := State();
      var k := 0;
      while k < |ds|
        invariant 0 <= k <= |ds|
        invariant Step(s1, State(), DeclsLoops(ds), Nowhere, 0, 0)
      {
        ghost var sk := State();
        DeclsLoopsElement(ds, k);
        ExtractDeclaration(ds[k], parentId);
        StepThen(s1, sk, State(), DeclsLoops(ds), Nowhere, 0, 0, DeclLoops(ds[k]), Nowhere, 0, 0, DeclsLoops(ds), Nowhere, 0, 0);
        k := k + 1;
      }
    }

    /** `extractTypeParameter`: the type variable under its interned label, declared by its function or class. */
    method ExtractTypeParameter(tp: TypeParameter) returns (id: Label)
      requires Valid()
      modifies this
      ensures Progress({}, Nowhere, 0, 0)
      ensures TypeParameterKey(tp) in interned && id == interned[TypeParameterKey(tp)]
      ensures facts == old(facts) + TypeParameterFacts(tp, id) && log == old(log) + TypeParameterLog(tp)
      ensures loopIdMap == old(loopIdMap) && currentFunction == old(currentFunction)
    {
      ghost var s0 := State();
      id := LabelFor(TypeParameterKey(tp));
      var parentId: Label;
      match tp.parent {
        case ParentFunction(f) =>
          parentId := UseFunction(f);
        case ParentClass(c) =>
          parentId := UseClassSource(c);
        case _ =>
          log := log + [Diagnostic(ErrorSevere, "Unexpected type parameter parent", Some(tp.loc))];
          parentId := FakeLabel();
      }
      ghost var s1 := State();
      assert Step(s0, s1, {}, Nowhere, 0, 0);
      Write([TypeVars(id, tp.name, tp.index, 0, parentId), HasLocation(id, GetLocation(tp.loc))], 0, Nowhere, 0, 0);
      StepThen(s0, s1, State(), {}, Nowhere, 0, 0, {}, Nowhere, 0, 0, {}, Nowhere, 0, 0);
    }

    /** The type parameters in order, each under the label its key is interned as. */
    method ExtractTypeParameters(tps: seq<TypeParameter>)
      requires Valid()
      modifies this
      ensures Progress({}, Nowhere, 0, 0)
      ensures TypeParametersInterned(tps, interned) && facts == old(facts) + TypeParametersFacts(tps, interned)
      ensures log == old(log) + TypeParametersLog(tps)
      ensures loopIdMap == old(loopIdMap) && currentFunction == old(currentFunction)
    {
      ghost var s1 := State();
      var k := 0;
      while k < |tps|
        invariant 0 <= k <= |tps|
        invariant Step(s1, State(), {}, Nowhere, 0, 0)
        invariant TypeParametersInterned(tps[..k], interned) && facts == s1.facts + TypeParametersFacts(tps[..k], interned)
        invariant log == s1.log + TypeParametersLog(tps[..k])
        invariant loopIdMap == s1.loops && currentFunction == s1.currentFunction
      {
        ghost var sk := State();
        var id := ExtractTypeParameter(tps[k]);
        TypeParametersStep(s1, sk, State(), tps, k, id);
        k := k + 1;
      }
      assert tps[..k] == tps;
    }

    /** `extractValueParameter`: the parameter at `idx` of callable `parent`; its type is returned. */
    method ExtractValueParameter(vp: ValueParameter, parent: Label, idx: int) returns (t: TypeResults)
      requires Valid()
      modifies this
      ensures Valid() && t == UseType(vp.typ, OtherContext)
      ensures facts == old(facts) + ParamFacts(vp, parent, idx)
      ensures next == old(next) && log == old(log) && interned == old(interned) && loopIdMap == old(loopIdMap) && currentFunction == old(currentFunction)
    {
      var id := UseValueParameter(vp);
      t := UseType(vp.typ, OtherContext);
      var locId := GetLocation(vp.loc);
      facts := facts + [Params(id, t.javaId, t.kotlinId, idx, parent, id), HasLocation(id, locId), ParamName(id, vp.name)];
    }

    /** The value parameters in order, parameter `k` at index `k + offset`; their types are returned in order. */
    method ExtractValueParameters(vps: seq<ValueParameter>, parent: Label, offset: nat) returns (ts: seq<TypeResults>)
      requires Valid()
      modifies this
      ensures Valid() && ts == ParamTypes(vps)
      ensures facts == old(facts) + ParamsFacts(vps, parent, offset)
      ensures next == old(next) && log == old(log) && interned == old(interned) && loopIdMap == old(loopIdMap) && currentFunction == old(currentFunction)
    {
      ts := [];
      var k := 0;
      while k < |vps|
        invariant 0 <= k <= |vps| && Valid()
        invariant ts == ParamTypes(vps[..k])
        invariant facts == old(facts) + ParamsFacts(vps[..k], parent, offset)
        invariant next == old(next) && log == old(log) && interned == old(interned) && loopIdMap == old(loopIdMap) && currentFunction == old(currentFunction)
      {
        ghost var before := facts;
        var t := ExtractValueParameter(vps[k], parent, k + offset);
        ParamsFactsStep(old(facts), before, facts, vps, k, parent, offset);
        ParamTypesStep(vps, k);
        ts := ts + [t];
        k := k + 1;
      }
      assert vps[..k] == vps;
    }

    /**
     * The value parameters, then (for an extension function) the extended
     * type and the receiver as parameter 0; the types of all parameters
     * are returned, the receiver's first.
     */
    method ExtractParameters(f: FunctionDecl, id: Label) returns (all: seq<TypeResults>)
      requires Valid()
      modifies this
      ensures Valid() && |all| == |ParamSigs(f)| && forall k | 0 <= k < |all| :: all[k].javaSignature == ParamSigs(f)[k]
      ensures facts == old(facts) + (ParamsFacts(f.valueParameters, id, ParamOffset(f)) + ExtensionReceiverFacts(f, id))
      ensures next == old(next) && log == old(log) && interned == old(interned) && loopIdMap == old(loopIdMap) && currentFunction == old(currentFunction)
    {
      var offset := if f.extensionReceiver.Some? then 1 else 0;
      var paramTypes := ExtractValueParameters(f.valueParameters, id, offset);
      ParamTypesSigs(f.valueParameters);
      ghost var f0 := facts;
      match f.extensionReceiver {
        case Some(r) =>
          var extendedType := UseType(r.typ, OtherContext);
          var marker := [KtExtensionFunctions(id, extendedType.javaId, extendedType.kotlinId)];
          facts := facts + marker;
          var t := ExtractValueParameter(r, id, 0);
          AppendAssoc(f0, marker, ParamFacts(r, id, 0));
          all := [t] + paramTypes;
        case None =>
          all := paramTypes;
      }
      AppendAssoc(old(facts), ParamsFacts(f.valueParameters, id, ParamOffset(f)), ExtensionReceiverFacts(f, id));
    }

    /**
     * The parameters, then the callable tuple with the signature joined
     * from the parameters' types, and the callable's location.
     */
    method ExtractSignature(f: FunctionDecl, id: Label, parentId: Label)
      requires Valid()
      modifies this
      ensures Progress({}, Nowhere, 0, 0)
      ensures facts == old(facts) + SignatureFacts(f, id, parentId)
      ensures next == old(next) && log == old(log) && interned == old(interned) && loopIdMap == old(loopIdMap) && currentFunction == old(currentFunction)
    {
      ghost var s0 := State();
      var all := ExtractParameters(f, id);
      var sigs := seq(|all|, k requires 0 <= k < |all| => all[k].javaSignature);
      assert sigs == ParamSigs(f);
      var paramsSignature := ParamsSignature(sigs);
      var tail := [CallableTuple(f, id, parentId, paramsSignature), HasLocation(id, GetLocation(f.loc))];
      facts := facts + tail;
      AppendAssoc(s0.facts, ParamsFacts(f.valueParameters, id, ParamOffset(f)) + ExtensionReceiverFacts(f, id), tail);
      SignatureFactsNoSlots(f, id, parentId);
      NoSlotsAttach(SignatureFacts(f, id, parentId), s0.next, Nowhere, 0, 0);
      AppendStep(s0, State(), SignatureFacts(f, id, parentId), Nowhere, 0, 0);
    }

    /** The type parameters, then the signature: everything of a callable before its body. */
    method ExtractCallableHead(f: FunctionDecl, parentId: Label) returns (id: Label)
      requires Valid()
      modifies this
      ensures id == FunctionLabel(f.sym)
      ensures Progress({}, Nowhere, 0, 0)
      ensures TypeParametersInterned(f.typeParameters, interned) &&
        facts == old(facts) + TypeParametersFacts(f.typeParameters, interned) + SignatureFacts(f, id, parentId)
      ensures log == old(log) + TypeParametersLog(f.typeParameters)
      ensures loopIdMap == old(loopIdMap) && currentFunction == old(currentFunction)
    {
      ghost var s0 := State();
      ExtractTypeParameters(f.typeParameters);
      ghost var s1 := State();
      id := FunctionLabel(f.sym);
      ExtractSignature(f, id, parentId);
      StepThen(s0, s1, State(), {}, Nowhere, 0, 0, {}, Nowhere, 0, 0, {}, Nowhere, 0, 0);
    }

    /** The callable's head, then its body (if any) as child 0 of the callable. */
    method ExtractCallable(f: FunctionDecl, parentId: Label) returns (id: Label)
      requires Valid()
      modifies this
      ensures id == FunctionLabel(f.sym)
      ensures Progress(FunctionLoops(f), Nowhere, 0, 0)
      ensures TypeParametersInterned(f.typeParameters, interned) &&
        old(facts) + TypeParametersFacts(f.typeParameters, interned) + SignatureFacts(f, id, parentId) <= facts
      ensures f.body.None? ==> facts == old(facts) + TypeParametersFacts(f.typeParameters, interned) + SignatureFacts(f, id, parentId)
      decreases f, 8
    {
      ghost var s0 := State();
      id := ExtractCallableHead(f, parentId);
      ghost var s1 := State();
      if f.body.Some? {
        var b := f.body.value;
        ExtractBody(b, id);
        TypeParametersFactsStable(f.typeParameters, s1.interned, interned);
        StepThen(s0, s1, State(), {}, Nowhere, 0, 0, BodyLoops(b), id, 0, 1, FunctionLoops(f), Nowhere, 0, 0);
      }
    }

    /**
     * `extractFunction`: the callable under its label, its body extracted
     * with it as the current function.  Afterwards there is no current
     * function, even when this was a local function inside another.
     */
    method ExtractFunction(f: FunctionDecl, parentId: Label) returns (id: Label)
      requires Valid()
      modifies this
      ensures id == FunctionLabel(f.sym) && currentFunction == None
      ensures Progress(FunctionLoops(f), Nowhere, 0, 0)
      decreases f, 9
    {
      ghost var s0 := State();
      currentFunction := Some(f.sym);
      ghost var s1 := State();
      id := ExtractCallable(f, parentId);
      FunctionScope(s0, s1, State(), FunctionLoops(f), Nowhere, 0, 0);
      currentFunction := None;
    }

    /** `extractBody`: a block body, a synthetic enum body, or a logged unknown body, of `callable`. */
    method ExtractBody(b: Body, callable: Label)
      requires Valid()
      modifies this
      ensures Progress(BodyLoops(b), callable, 0, 1)
      ensures b.BlockBody? ==> var id := Fresh(old(next));
        old(facts) + [Stmt(BlockStmt, id, callable, 0, callable), HasLocation(id, GetLocation(b.loc))] <= facts &&
        AttachedFrom(facts, |old(facts)| + 2, old(next) + 1, id, 0, |b.statements|)
      ensures b.SyntheticBody? ==> facts == old(facts) + [KtSyntheticBody(callable, SyntheticBodyCode(b.kind))] && log == old(log)
      ensures b.OtherBody? ==> facts == old(facts) && log == old(log) + [Diagnostic(ErrorSevere, "Unrecognised IrBody: " + b.className, Some(b.loc))]
      decreases b, 2
    {
      match b
      case BlockBody(_, _) =>
        ExtractBlockBody(b, callable);
      case SyntheticBody(kind) =>
        match kind {
          case EnumValues => Write([KtSyntheticBody(callable, 1)], 0, callable, 0, 1);
          case EnumValueOf => Write([KtSyntheticBody(callable, 2)], 0, callable, 0, 1);
        }
      case OtherBody(name, loc) =>
        Report(Diagnostic(ErrorSevere, "Unrecognised IrBody: " + name, Some(loc)), callable, 0, 1);
    }

    /** `extractBlockBody`: a block at 0 of `callable` holding statement `k` at `k`. */
    method ExtractBlockBody(b: Body, callable: Label)
      requires b.BlockBody? && Valid()
      modifies this
      ensures Progress(StatementsLoops(b.statements), callable, 0, 1)
      ensures var id := Fresh(old(next));
        old(facts) + [Stmt(BlockStmt, id, callable, 0, callable), HasLocation(id, GetLocation(b.loc))] <= facts &&
        AttachedFrom(facts, |old(facts)| + 2, old(next) + 1, id, 0, |b.statements|) &&
        AllPlaced(id, 0, Every(|b.statements|))
      decreases b, 1
    {
      ghost var s0 := State();
      var id := EmitStmt(BlockStmt, callable, 0, callable, GetLocation(b.loc), []);
      ghost var s1 := State();
      ghost var starts := ExtractStatements(b.statements, callable, id);
      StepThen(s0, s1, State(), {}, callable, 0, 1, StatementsLoops(b.statements), id, 0, |b.statements|, StatementsLoops(b.statements), callable, 0, 1);
      AllPlacedKept(facts, facts, |s1.facts|, |s0.facts|, |log|, |log|, |s1.log|, |s0.log|, id, 0, Every(|b.statements|));
    }

    /** `extractField`: a field under its label, declared on `parentId`. */
    method ExtractField(fd: FieldDecl, parentId: Label) returns (id: Label)
      requires Valid()
      modifies this
      ensures id == UseField(fd.sym) && Progress({}, Nowhere, 0, 0)
      ensures facts == old(facts) + FieldFacts(fd, parentId)
      ensures next == old(next) && log == old(log) && interned == old(interned) && loopIdMap == old(loopIdMap) && currentFunction == old(currentFunction)
    {
      id := UseField(fd.sym);
      var locId := GetLocation(fd.loc);
      var t := UseType(fd.sym.typ, OtherContext);
      Write([Fields(id, fd.sym.name, t.javaId, t.kotlinId, parentId, id), HasLocation(id, locId)], 0, Nowhere, 0, 0);
    }

    /**
     * `extractProperty`: the property, its getter and setter functions and
     * its backing field, each linked to it; missing accessors are logged
     * unless the property's kind explains them.
     */
    method ExtractProperty(p: PropertyDecl, parentId: Label)
      requires Valid()
      modifies this
      ensures Progress(PropertyLoops(p), Nowhere, 0, 0)
      ensures var id := UseProperty(p.sym);
        old(facts) + [KtProperties(id, p.sym.name), HasLocation(id, GetLocation(p.loc))] <= facts
      ensures p.getter.Some? || p.setter.Some? ==> currentFunction == None
      ensures p.backingField.Some? ==> var bf := p.backingField.value;
        |facts| >= 3 && facts[|facts| - 3..] == FieldFacts(bf, parentId) + [KtPropertyBackingFields(UseProperty(p.sym), UseField(bf.sym))]
      ensures p.getter.None? && p.setter.None? ==> log == old(log) + GetterLog(p) + SetterLog(p)
      decreases p, 10
    {
      ghost var s0 := State();
      var id := UseProperty(p.sym);
      var locId := GetLocation(p.loc);
      Write([KtProperties(id, p.sym.name), HasLocation(id, locId)], 0, Nowhere, 0, 0);
      ghost var s1 := State();
      ExtractPropertyParts(p, parentId, id);
      StepThen(s0, s1, State(), {}, Nowhere, 0, 0, PropertyLoops(p), Nowhere, 0, 0, PropertyLoops(p), Nowhere, 0, 0);
    }

    /** The accessors of property `id`, then its backing field. */
    method ExtractPropertyParts(p: PropertyDecl, parentId: Label, id: Label)
      requires Valid()
      modifies this
      ensures Progress(PropertyLoops(p), Nowhere, 0, 0)
      ensures p.getter.Some? || p.setter.Some? ==> currentFunction == None
      ensures p.backingField.Some? ==> var bf := p.backingField.value;
        |facts| >= 3 && facts[|facts| - 3..] == FieldFacts(bf, parentId) + [KtPropertyBackingFields(id, UseField(bf.sym))]
      ensures p.getter.None? && p.setter.None? ==> log == old(log) + GetterLog(p) + SetterLog(p)
      decreases p, 9
    {
      ghost var s0 := State();
      ExtractPropertyAccessors(p, parentId, id);
      ghost var s1 := State();
      ExtractPropertyBackingField(p, parentId, id);
      if p.backingField.Some? {
        SuffixAfter(s1.facts, FieldFacts(p.backingField.value, parentId) + [KtPropertyBackingFields(id, UseField(p.backingField.value.sym))]);
      }
      StepThen(s0, s1, State(), PropertyLoops(p), Nowhere, 0, 0, {}, Nowhere, 0, 0, PropertyLoops(p), Nowhere, 0, 0);
    }

    /** The getter, then the setter, of property `id`. */
    method ExtractPropertyAccessors(p: PropertyDecl, parentId: Label, id: Label)
      requires Valid()
      modifies this
      ensures Progress(PropertyLoops(p), Nowhere, 0, 0)
      ensures p.getter.Some? || p.setter.Some? ==> currentFunction == None
      ensures p.getter.None? && p.setter.None? ==> facts == old(facts) && log == old(log) + GetterLog(p) + SetterLog(p)
      decreases p, 8
    {
      ghost var s0 := State();
      ExtractPropertyGetter(p, parentId, id);
      ghost var s1 := State();
      ExtractPropertySetter(p, parentId, id);
      StepThen(s0, s1, State(), PropertyLoops(p), Nowhere, 0, 0, PropertyLoops(p), Nowhere, 0, 0, PropertyLoops(p), Nowhere, 0, 0);
    }

    /** The getter of property `id` and its link, or the complaint about a missing one. */
    method ExtractPropertyGetter(p: PropertyDecl, parentId: Label, id: Label)
      requires Valid()
      modifies this
      ensures Progress(PropertyLoops(p), Nowhere, 0, 0)
      ensures p.getter.Some? ==>
        currentFunction == None && |facts| > 0 && facts[|facts| - 1] == KtPropertyGetters(id, FunctionLabel(p.getter.value.sym))
      ensures p.getter.None? ==> facts == old(facts) && log == old(log) + GetterLog(p) && currentFunction == old(currentFunction)
      decreases p, 7
    {
      match p.getter {
        case Some(g) =>
          ghost var s0 := State();
          var getterId := ExtractFunction(g, parentId);
          ghost var s1 := State();
          Write([KtPropertyGetters(id, getterId)], 0, Nowhere, 0, 0);
          StepThen(s0, s1, State(), FunctionLoops(g), Nowhere, 0, 0, {}, Nowhere, 0, 0, PropertyLoops(p), Nowhere, 0, 0);
        case None =>
          if p.modality != Final || !p.isExternal {
            Report(Diagnostic(ErrorSevere, "IrProperty without a getter", Some(p.loc)), Nowhere, 0, 0);
          }
      }
    }

    /** The setter of property `id` and its link (complaining on a `val`), or the complaint about a missing one. */
    method ExtractPropertySetter(p: PropertyDecl, parentId: Label, id: Label)
      requires Valid()
      modifies this
      ensures Progress(PropertyLoops(p), Nowhere, 0, 0)
      ensures p.setter.Some? ==>
        currentFunction == None && |facts| > 0 && facts[|facts| - 1] == KtPropertySetters(id, FunctionLabel(p.setter.value.sym)) &&
        old(log) + SetterLog(p) <= log
      ensures p.setter.None? ==> facts == old(facts) && log == old(log) + SetterLog(p) && currentFunction == old(currentFunction)
      decreases p, 7
    {
      match p.setter {
        case Some(st) =>
          ghost var s0 := State();
          if !p.isVar {
            Report(Diagnostic(ErrorSevere, "!isVar property with a setter", Some(p.loc)), Nowhere, 0, 0);
          }
          ghost var s1 := State();
          var setterId := ExtractFunction(st, parentId);
          ghost var s2 := State();
          Write([KtPropertySetters(id, setterId)], 0, Nowhere, 0, 0);
          StepThen(s1, s2, State(), FunctionLoops(st), Nowhere, 0, 0, {}, Nowhere, 0, 0, PropertyLoops(p), Nowhere, 0, 0);
          StepThen(s0, s1, State(), {}, Nowhere, 0, 0, PropertyLoops(p), Nowhere, 0, 0, PropertyLoops(p), Nowhere, 0, 0);
        case None =>
          if p.isVar && !p.isExternal {
            Report(Diagnostic(ErrorSevere, "isVar property without a setter", Some(p.loc)), Nowhere, 0, 0);
          }
      }
    }

    /** The backing field of property `id`, if any, and its link. */
    method ExtractPropertyBackingField(p: PropertyDecl, parentId: Label, id: Label)
      requires Valid()
      modifies this
      ensures Progress({}, Nowhere, 0, 0)
      ensures p.backingField.Some? ==> var bf := p.backingField.value;
        facts == old(facts) + FieldFacts(bf, parentId) + [KtPropertyBackingFields(id, UseField(bf.sym))]
      ensures p.backingField.None? ==> facts == old(facts)
      ensures next == old(next) && log == old(log) && interned == old(interned) && loopIdMap == old(loopIdMap) && currentFunction == old(currentFunction)
    {
      if p.backingField.Some? {
        ghost var s0 := State();
        var fieldId := ExtractField(p.backingField.value, parentId);
        ghost var s1 := State();
        Write([KtPropertyBackingFields(id, fieldId)], 0, Nowhere, 0, 0);
        StepThen(s0, s1, State(), {}, Nowhere, 0, 0, {}, Nowhere, 0, 0, {}, Nowhere, 0, 0);
      }
    }

    /** `extractEnumEntry`: the entry as a field of its enum class, or a complaint about the class. */
    method ExtractEnumEntry(ee: EnumEntryDecl, parentId: Label)
      requires Valid()
      modifies this
      ensures Progress({}, Nowhere, 0, 0)
      ensures facts == old(facts) + EnumEntryFacts(ee, parentId) && log == old(log) + EnumEntryLog(ee)
      ensures next == old(next) && interned == old(interned) && loopIdMap == old(loopIdMap) && currentFunction == old(currentFunction)
    {
      var id := UseEnumEntry(ee.sym);
      match ee.sym.parent {
        case ParentClass(c) =>
          if c.typeParameterCount > 0 {
            Report(Diagnostic(ErrorSevere, "Enum entry parent class has type parameters: " + c.name, Some(ee.loc)), Nowhere, 0, 0);
          } else {
            var t := UseSimpleTypeClass(c);
            Write([Fields(id, ee.sym.name, t.javaId, t.kotlinId, parentId, id), HasLocation(id, GetLocation(ee.loc))], 0, Nowhere, 0, 0);
          }
        case _ =>
          Report(Diagnostic(ErrorSevere, "Enum entry with unexpected parent: " + DeclParentClassName(ee.sym.parent), Some(ee.loc)), Nowhere, 0, 0);
      }
    }

    /** `extractTypeAlias`: the alias with the Kotlin type it expands to; type parameters are only logged. */
    method ExtractTypeAlias(ta: TypeAliasDecl)
      requires Valid()
      modifies this
      ensures Progress({}, Nowhere, 0, 0)
      ensures facts == old(facts) + TypeAliasFacts(ta) && log == old(log) + TypeAliasLog(ta)
      ensures next == old(next) && interned == old(interned) && loopIdMap == old(loopIdMap) && currentFunction == old(currentFunction)
    {
      ghost var s0 := State();
      if |ta.typeParameters| > 0 {
        Report(Diagnostic(ErrorSevere, "Type alias type parameters ignored for " + RenderTypeAlias(ta), None), Nowhere, 0, 0);
      }
      ghost var s1 := State();
      var id := UseTypeAlias(ta.sym);
      var locId := GetLocation(ta.loc);
      var t := UseType(ta.expandedType, OtherContext);
      Write([KtTypeAlias(id, ta.sym.name, t.kotlinId), HasLocation(id, locId)], 0, Nowhere, 0, 0);
      StepThen(s0, s1, State(), {}, Nowhere, 0, 0, {}, Nowhere, 0, 0, {}, Nowhere, 0, 0);
    }

    // -------------------------------------------------------------------
    // Classes
    // -------------------------------------------------------------------

    /**
     * `extractClassSource`: the class under its label, opened by its head
     * and nesting, then its type parameters, declarations and `<obinit>`,
     * and closed by an object's `INSTANCE` field, modifiers and supertypes.
     */
    method ExtractClassSource(c: ClassDecl) returns (id: Label)
      requires Valid()
      modifies this
      ensures id == ClassLabel(c.sym)
      ensures Progress(ClassLoops(c), Nowhere, 0, 0)
      ensures CompanionInterned(c.sym, interned) && old(facts) + ClassOpening(c, id, interned) <= facts
      ensures ObjectInterned(c.sym, interned) && EndsWith(facts, ClassClosing(c, id, interned))
      decreases c, 9
    {
      ghost var s0 := State();
      id := ExtractClassOpening(c);
      ghost var s1 := State();
      ExtractClassRest(c, id);
      ClassOpeningStable(c, id, s1.interned, interned);
      StepThen(s0, s1, State(), {}, Nowhere, 0, 0, ClassLoops(c), Nowhere, 0, 0, ClassLoops(c), Nowhere, 0, 0);
    }

    /** The head of class `c`, then what its enclosing class gives it. */
    method ExtractClassOpening(c: ClassDecl) returns (id: Label)
      requires Valid()
      modifies this
      ensures id == ClassLabel(c.sym)
      ensures Progress({}, Nowhere, 0, 0)
      ensures CompanionInterned(c.sym, interned) && facts == old(facts) + ClassOpening(c, id, interned)
      ensures log == old(log) + ClassOpeningLog(c.sym)
    {
      ghost var s0 := State();
      id := ClassLabel(c.sym);
      assert NoSlots(ClassHead(c, id));
      NoSlotsAttach(ClassHead(c, id), next, Nowhere, 0, 0);
      Write(ClassHead(c, id), 0, Nowhere, 0, 0);
      ghost var s1 := State();
      ExtractEnclosingClass(c, id);
      assert facts == s0.facts + ClassOpening(c, id, interned);
      StepThen(s0, s1, State(), {}, Nowhere, 0, 0, {}, Nowhere, 0, 0, {}, Nowhere, 0, 0);
    }

    /**
     * The loop over the parents of `c`: the nearest enclosing class is
     * recorded as the one `c` is nested in, and a companion gets its
     * instance field.
     */
    method ExtractEnclosingClass(c: ClassDecl, id: Label)
      requires Valid()
      modifies this
      ensures Progress({}, Nowhere, 0, 0)
      ensures CompanionInterned(c.sym, interned) && facts == old(facts) + EnclosingFacts(c, id, interned)
      ensures log == old(log) + ClassOpeningLog(c.sym)
    {
      match EnclosingClass(c.sym.parent) {
        case None =>
        case Some(outer) =>
          ghost var s0 := State();
          var outerId := EnclosingLabel(c.sym, outer);
          Write([EnclInReftype(id, outerId)], 0, Nowhere, 0, 0);
          if c.sym.isCompanion {
            ghost var s1 := State();
            ExtractCompanionField(c, id, outerId);
            StepThen(s0, s1, State(), {}, Nowhere, 0, 0, {}, Nowhere, 0, 0, {}, Nowhere, 0, 0);
          }
      }
    }

    /** The fabricated instance field of companion `c`, declared on `c` and linked to its outer class `outerId`. */
    method ExtractCompanionField(c: ClassDecl, id: Label, outerId: Label)
      requires Valid()
      modifies this
      ensures Progress({}, Nowhere, 0, 0)
      ensures CompanionInterned(c.sym, interned)
      ensures c.sym.isCompanion && c.sym.parent.ParentClass? ==>
        facts == old(facts) + CompanionFieldFacts(c, id, interned[CompanionInstanceKey(c.sym)], outerId) && log == old(log)
      ensures !(c.sym.isCompanion && c.sym.parent.ParentClass?) ==>
        facts == old(facts) && log == old(log) + [Diagnostic(ErrorSevere, "Using companion instance for non-companion class", None)]
    {
      ghost var s0 := State();
      var instance := UseCompanionObjectClassInstance(c.sym);
      ghost var s1 := State();
      assert Step(s0, s1, {}, Nowhere, 0, 0);
      if instance.Some? {
        Write(CompanionFieldFacts(c, id, instance.value.id, outerId), 0, Nowhere, 0, 0);
        StepThen(s0, s1, State(), {}, Nowhere, 0, 0, {}, Nowhere, 0, 0, {}, Nowhere, 0, 0);
      }
    }

    /** The members of class `c`, then its closing tuples. */
    method ExtractClassRest(c: ClassDecl, id: Label)
      requires Valid()
      modifies this
      ensures Progress(ClassLoops(c), Nowhere, 0, 0)
      ensures ObjectInterned(c.sym, interned) && EndsWith(facts, ClassClosing(c, id, interned))
      decreases c, 8
    {
      ghost var s0 := State();
      ExtractClassMembers(c, id);
      ghost var s1 := State();
      ExtractClassClosing(c, id);
      StepThen(s0, s1, State(), ClassLoops(c), Nowhere, 0, 0, {}, Nowhere, 0, 0, ClassLoops(c), Nowhere, 0, 0);
    }

    /** The type parameters of class `c`, then its body. */
    method ExtractClassMembers(c: ClassDecl, id: Label)
      requires Valid()
      modifies this
      ensures Progress(ClassLoops(c), Nowhere, 0, 0)
      decreases c, 7
    {
      ghost var s0 := State();
      ExtractTypeParameters(c.typeParameters);
      ghost var s1 := State();
      ExtractClassBody(c, id);
      StepThen(s0, s1, State(), {}, Nowhere, 0, 0, ClassLoops(c), Nowhere, 0, 0, ClassLoops(c), Nowhere, 0, 0);
    }

    /** The declarations of class `c`, each declared on `id`, then its `<obinit>` method. */
    method ExtractClassBody(c: ClassDecl, id: Label)
      requires Valid()
      modifies this
      ensures Progress(ClassLoops(c), Nowhere, 0, 0)
      decreases c, 6
    {
      ghost var s0 := State();
      ExtractDeclarations(c.declarations, id);
      ghost var s1 := State();
      ghost var _, _, _, _ := ExtractObjectInitializerFunction(c, id);
      StepThen(s0, s1, State(), ClassLoops(c), Nowhere, 0, 0, ClassLoops(c), Nowhere, 0, 0, ClassLoops(c), Nowhere, 0, 0);
    }

    /** A non-companion object's `INSTANCE` field, then the class's modifiers and supertypes. */
    method ExtractClassClosing(c: ClassDecl, id: Label)
      requires Valid()
      modifies this
      ensures Progress({}, Nowhere, 0, 0)
      ensures ObjectInterned(c.sym, interned) && facts == old(facts) + ClassClosing(c, id, interned)
      ensures EndsWith(facts, ClassClosing(c, id, interned))
      ensures log == old(log)
    {
      ghost var s0 := State();
      if IsNonCompanionObject(c.sym) {
        var instance := UseObjectClassInstance(c.sym);
        ghost var s1 := State();
        assert Step(s0, s1, {}, Nowhere, 0, 0);
        Write(ObjectFieldFacts(c, id, instance.id) + ClassTail(c.sym, id), 0, Nowhere, 0, 0);
        StepThen(s0, s1, State(), {}, Nowhere, 0, 0, {}, Nowhere, 0, 0, {}, Nowhere, 0, 0);
      } else {
        Write(ClassTail(c.sym, id), 0, Nowhere, 0, 0);
      }
      EndsWithAppend(s0.facts, ClassClosing(c, id, interned));
    }

    // -------------------------------------------------------------------
    // The <obinit> method
    // -------------------------------------------------------------------

    /**
     * `extractObjectInitializerFunction`: nothing for an external class;
     * otherwise the `<obinit>` method of `c` with its body block, whose
     * statements are the entries `ObinitItems` lists, entry `k` at index
     * `k` and in that order.
     */
    method ExtractObjectInitializerFunction(c: ClassDecl, parentId: Label)
      returns (ghost obinitId: Label, ghost blockId: Label, ghost starts: seq<nat>, ghost nexts: seq<nat>)
      requires Valid()
      modifies this
      ensures Progress(ClassLoops(c), Nowhere, 0, 0)
      ensures c.isExternal ==> facts == old(facts) && log == old(log) && next == old(next) && interned == old(interned)
      ensures !c.isExternal ==> ObinitWritten(old(State()), State(), c, parentId, obinitId, blockId, starts, nexts)
      decreases c, 5
    {
      if c.isExternal {
        obinitId, blockId, starts, nexts := Nowhere, Nowhere, [], [];
        return;
      }
      ghost var s0 := State();
      var oid, bid := ExtractObinitHead(c, parentId);
      obinitId, blockId := oid, bid;
      ghost var s1 := State();
      starts, nexts := ExtractObinitBody(c.declarations, oid, bid);
      ObinitFunctionStep(s0, s1, State(), c, parentId, oid, bid, starts, nexts);
    }

    /** The `<obinit>` method of `c` under its interned label, its location, and its body block at 0. */
    method ExtractObinitHead(c: ClassDecl, parentId: Label) returns (obinitId: Label, blockId: Label)
      requires Valid()
      modifies this
      ensures Progress({}, Nowhere, 0, 0)
      ensures ObinitKey(c.sym) in interned && obinitId == interned[ObinitKey(c.sym)]
      ensures blockId == Fresh(next - 1) && old(next) < next
      ensures facts == old(facts) + ObinitHead(c, parentId, obinitId, blockId)
    {
      ghost var s0 := State();
      obinitId := LabelFor(ObinitKey(c.sym));
      ghost var s1 := State();
      assert Step(s0, s1, {}, Nowhere, 0, 0);
      blockId := Fresh(next);
      var head := ObinitHead(c, parentId, obinitId, blockId);
      assert AttachOkAt(head, 2, next, Nowhere, 0, 0);
      Write(head, 1, Nowhere, 0, 0);
      StepThen(s0, s1, State(), {}, Nowhere, 0, 0, {}, Nowhere, 0, 0, {}, Nowhere, 0, 0);
    }

    /** The entries of the `<obinit>` body for declarations `ds`, numbered from 0 in declaration order. */
    method ExtractObinitBody(ds: seq<Decl>, obinitId: Label, blockId: Label) returns (ghost starts: seq<nat>, ghost nexts: seq<nat>)
      requires Valid() && blockId.Fresh? && blockId.n < next
      modifies this
      ensures Progress(DeclsLoops(ds), blockId, 0, |ObinitItems(ds)|)
      ensures Segmented(facts, starts, old(next), blockId, Indices(0, |ObinitItems(ds)|)) && starts[0] == |old(facts)|
      ensures ObinitLaidOut(facts, starts, nexts, ObinitItems(ds), blockId, obinitId)
      decreases ds, 4
    {
      ghost var s1 := State();
      starts, nexts := [|facts|], [];
      var idx := 0;
      var i := 0;
      while i < |ds|
        invariant 0 <= i <= |ds| && idx == |ObinitItems(ds[..i])|
        invariant Step(s1, State(), DeclsLoops(ds), blockId, 0, idx)
        invariant Segmented(facts, starts, s1.next, blockId, Indices(0, idx)) && starts[0] == |s1.facts|
        invariant ObinitLaidOut(facts, starts, nexts, ObinitItems(ds[..i]), blockId, obinitId)
      {
        ghost var sk := State();
        var idx2;
        idx2, starts, nexts := ExtractObinitDecl(ds[i], obinitId, blockId, idx, starts, nexts, s1.next, ObinitItems(ds[..i]));
        ObinitDeclStep(s1, sk, State(), ds, i, blockId, idx, idx2);
        idx := idx2;
        i := i + 1;
      }
      assert ds[..i] == ds;
    }

    /**
     * The entries of one declaration, from index `idx` of the block on: a
     * property's initialized non-static backing field, or the statements
     * of a non-static `init` block.
     */
    method ExtractObinitDecl(d: Decl, obinitId: Label, blockId: Label, idx: int,
                             ghost starts: seq<nat>, ghost nexts: seq<nat>, ghost bound: nat, ghost items: seq<ObinitItem>)
      returns (idx2: int, ghost starts2: seq<nat>, ghost nexts2: seq<nat>)
      requires Valid() && blockId.Fresh? && blockId.n < bound <= next && idx == |items|
      requires Segmented(facts, starts, bound, blockId, Indices(0, idx))
      requires ObinitLaidOut(facts, starts, nexts, items, blockId, obinitId)
      modifies this
      ensures idx2 == idx + |DeclObinitItems(d)|
      ensures Progress(DeclLoops(d), blockId, idx, idx2)
      ensures Segmented(facts, starts2, bound, blockId, Indices(0, idx2)) && starts2[0] == starts[0]
      ensures ObinitLaidOut(facts, starts2, nexts2, items + DeclObinitItems(d), blockId, obinitId)
      decreases d, 3
    {
      idx2, starts2, nexts2 := idx, starts, nexts;
      match d
      case PropertyDeclaration(p) =>
        if p.backingField.Some? && !p.backingField.value.sym.isStatic && p.backingField.value.initializer.Some? {
          var field := p.backingField.value;
          var init := field.initializer.value;
          ghost var s0 := State();
          ExtractFieldInit(p, field, init, obinitId, blockId, idx);
          FieldInitEntryStep(s0, State(), d, p, field, init, items, starts, nexts, bound, blockId, obinitId, idx);
          idx2, starts2, nexts2 := idx + 1, starts + [|facts|], nexts + [s0.next];
        }
      case AnonymousInitializer(isStatic, ss, _) =>
        if !isStatic {
          idx2, starts2, nexts2 := ExtractInitStatements(ss, obinitId, blockId, idx, starts, nexts, bound, items);
        }
      case _ =>
    }

    /** A property's initializer assigned to its backing field, as statement `idx` of the `<obinit>` block. */
    method ExtractFieldInit(p: PropertyDecl, field: FieldDecl, init: Ir.Expr, obinitId: Label, blockId: Label, idx: int)
      requires p.backingField == Some(field) && field.initializer == Some(init) && Valid()
      modifies this
      ensures Progress(ExprLoops(init), blockId, idx, idx + 1)
      ensures old(facts) + FieldInitFacts(p, field, init, old(next), blockId, idx, obinitId) <= facts
      ensures HandledAt(facts, |old(facts)| + 11, |log|, |old(log)|, Fresh(old(next) + 1), 1)
      decreases p, 2
    {
      ghost var s0 := State();
      var n := next;
      FieldInitAttached(p, field, init, n, blockId, idx, obinitId);
      Write(FieldInitFacts(p, field, init, n, blockId, idx, obinitId), 3, blockId, idx, idx + 1);
      ghost var s1 := State();
      ExtractExpressionExpr(init, obinitId, Fresh(n + 1), 1, Fresh(n));
      StepThen(s0, s1, State(), {}, blockId, idx, idx + 1, ExprLoops(init), Fresh(n + 1), 1, 2, ExprLoops(init), blockId, idx, idx + 1);
    }

    /** The statements of an `init` block, as statements `idx`, `idx + 1`, ... of the `<obinit>` block. */
    method ExtractInitStatements(ss: seq<Statement>, obinitId: Label, blockId: Label, idx: int,
                                 ghost starts: seq<nat>, ghost nexts: seq<nat>, ghost bound: nat, ghost items: seq<ObinitItem>)
      returns (idx2: int, ghost starts2: seq<nat>, ghost nexts2: seq<nat>)
      requires Valid() && blockId.Fresh? && blockId.n < bound <= next && idx == |items|
      requires Segmented(facts, starts, bound, blockId, Indices(0, idx))
      requires ObinitLaidOut(facts, starts, nexts, items, blockId, obinitId)
      modifies this
      ensures idx2 == idx + |ss|
      ensures Progress(StatementsLoops(ss), blockId, idx, idx2)
      ensures Segmented(facts, starts2, bound, blockId, Indices(0, idx2)) && starts2[0] == starts[0]
      ensures ObinitLaidOut(facts, starts2, nexts2, items + InitItems(ss), blockId, obinitId)
      ensures AllPlaced(blockId, idx, Every(|ss|))
      decreases ss, 1
    {
      ghost var s1 := State();
      idx2, starts2, nexts2 := idx, starts, nexts;
      var j := 0;
      while j < |ss|
        invariant 0 <= j <= |ss| && idx2 == idx + j
        invariant Step(s1, State(), StatementsLoops(ss), blockId, idx, idx2)
        invariant Segmented(facts, starts2, bound, blockId, Indices(0, idx2)) && starts2[0] == starts[0]
        invariant ObinitLaidOut(facts, starts2, nexts2, items + InitItems(ss[..j]), blockId, obinitId)
        invariant AllPlacedAt(facts, |s1.facts|, |log|, |s1.log|, blockId, idx, Every(j))
      {
        ghost var sk := State();
        ExtractStatement(ss[j], obinitId, blockId, idx2);
        AllPlacedStep(sk.facts, facts, |s1.facts|, |sk.log|, |log|, |s1.log|, blockId, idx, Every(j), true);
        assert Every(j) + [true] == Every(j + 1);
        InitStatementStep(s1, sk, State(), ss, j, items, starts2, nexts2, bound, blockId, obinitId, idx, idx2);
        starts2, nexts2 := starts2 + [|facts|], nexts2 + [sk.next];
        idx2 := idx2 + 1;
        j := j + 1;
      }
      assert ss[..j] == ss;
    }

    // -------------------------------------------------------------------
    // Local functions
    // -------------------------------------------------------------------

    /**
     * `extractGeneratedClass`: the class a local function is compiled to,
     * with the function as its member, then its constructor whose body
     * calls the first supertype's constructor, and its modifiers and
     * supertypes.
     */
    method ExtractGeneratedClass(f: FunctionDecl, superTypes: seq<IrType>) returns (id: Label)
      requires Valid() && SuperTypesOk(superTypes)
      modifies this
      ensures id == GetLocalFunctionLabels(f.sym).typ.javaId && currentFunction == None
      ensures Progress(FunctionLoops(f), Nowhere, 0, 0)
      ensures old(facts) + GeneratedClassHead(f) <= facts
      ensures old(next) + 2 <= next && EndsWith(facts, GeneratedClassTail(f.sym, superTypes, id, Fresh(next - 2), Fresh(next - 1), GetLocation(f.loc)))
      decreases f, 11
    {
      ghost var s0 := State();
      id := GetLocalFunctionLabels(f.sym).typ.javaId;
      assert NoSlots(GeneratedClassHead(f));
      NoSlotsAttach(GeneratedClassHead(f), next, Nowhere, 0, 0);
      Write(GeneratedClassHead(f), 0, Nowhere, 0, 0);
      ghost var s1 := State();
      ExtractGeneratedMembers(f, superTypes, id);
      StepThen(s0, s1, State(), {}, Nowhere, 0, 0, FunctionLoops(f), Nowhere, 0, 0, FunctionLoops(f), Nowhere, 0, 0);
    }

    /** The local function as a member of its generated class `id`, then the class's constructor and closing tuples. */
    method ExtractGeneratedMembers(f: FunctionDecl, superTypes: seq<IrType>, id: Label)
      requires Valid() && SuperTypesOk(superTypes)
      modifies this
      ensures currentFunction == None
      ensures Progress(FunctionLoops(f), Nowhere, 0, 0)
      ensures old(next) + 2 <= next && EndsWith(facts, GeneratedClassTail(f.sym, superTypes, id, Fresh(next - 2), Fresh(next - 1), GetLocation(f.loc)))
      decreases f, 10
    {
      ghost var s0 := State();
      var _ := ExtractFunction(f, id);
      ghost var s1 := State();
      ExtractGeneratedTail(f, superTypes, id);
      StepThen(s0, s1, State(), FunctionLoops(f), Nowhere, 0, 0, {}, Nowhere, 0, 0, FunctionLoops(f), Nowhere, 0, 0);
    }

    /** The generated class's constructor, its block and super call, its modifiers and supertypes. */
    method ExtractGeneratedTail(f: FunctionDecl, superTypes: seq<IrType>, id: Label)
      requires Valid() && SuperTypesOk(superTypes)
      modifies this
      ensures Progress({}, Nowhere, 0, 0)
      ensures log == old(log) && interned == old(interned) && loopIdMap == old(loopIdMap) && currentFunction == old(currentFunction)
      ensures next == old(next) + 2 && facts == old(facts) + GeneratedClassTail(f.sym, superTypes, id, Fresh(old(next)), Fresh(old(next) + 1), GetLocation(f.loc))
      ensures EndsWith(facts, GeneratedClassTail(f.sym, superTypes, id, Fresh(next - 2), Fresh(next - 1), GetLocation(f.loc)))
    {
      var n := next;
      GeneratedClassTailAttached(f.sym, superTypes, id, n, GetLocation(f.loc));
      Write(GeneratedClassTail(f.sym, superTypes, id, Fresh(n), Fresh(n + 1), GetLocation(f.loc)), 2, Nowhere, 0, 0);
      EndsWithAppend(old(facts), GeneratedClassTail(f.sym, superTypes, id, Fresh(n), Fresh(n + 1), GetLocation(f.loc)));
    }

    // -------------------------------------------------------------------
    // Calls
    // -------------------------------------------------------------------

    /**
     * `extractCall`: the call is lowered by the first rule of `ClassifyCall`
     * it matches.  Unless the rule is an unhandled builtin or a member lookup
     * fails, the call opens with one expression at `idx` of `parent` whose
     * kind the rule fixes, typed as the call.
     */
    method ExtractCall(e: Ir.Expr, callable: Label, parent: Label, idx: int, encl: Label)
      requires e.node.Call? && Valid()
      modifies this
      ensures Progress(ExprLoops(e), parent, idx, idx + 1)
      ensures CallFailure(e, irBuiltIns).Some? ==>
        facts == old(facts) && next == old(next) && log == old(log) + [CallFailure(e, irBuiltIns).value]
      ensures CallFailure(e, irBuiltIns).None? ==>
        CallOpens(e, CallExprKind(CallRuleOf(e)).value, facts, |old(facts)|, Fresh(old(next)), parent, idx)
      ensures Extracted(parent, idx)
      decreases e, 6
    {
      ExtractCallRule(e, callable, parent, idx, encl);
      if CallFailure(e, irBuiltIns).None? {
        OpensAt(facts, |old(facts)|, |old(facts)|, parent, idx);
      }
    }

    /** The rule of `extractCall` that call `e` falls under, as `CallRuleOf` selects it. */
    method ExtractCallRule(e: Ir.Expr, callable: Label, parent: Label, idx: int, encl: Label)
      requires e.node.Call? && Valid()
      modifies this
      ensures Progress(ExprLoops(e), parent, idx, idx + 1)
      ensures CallFailure(e, irBuiltIns).Some? ==>
        facts == old(facts) && next == old(next) && log == old(log) + [CallFailure(e, irBuiltIns).value]
      ensures CallFailure(e, irBuiltIns).None? ==>
        CallOpens(e, CallExprKind(CallRuleOf(e)).value, facts, |old(facts)|, Fresh(old(next)), parent, idx)
      decreases e, 5
    {
      match CallRuleOf(e) {
        case DispatchBinary(kind) =>
          ExtractDispatchBinary(e, kind, callable, parent, idx, encl);
        case NegatedEquality =>
          ExtractNegatedEquality(e, callable, parent, idx, encl);
        case BuiltinBinary(kind, expected, name) =>
          ExtractBuiltinOperator(e, kind, expected, name, true, callable, parent, idx, encl);
        case BuiltinUnary(kind, expected, name) =>
          ExtractBuiltinOperator(e, kind, expected, name, false, callable, parent, idx, encl);
        case UnhandledBuiltin =>
          log := log + [CallError(e, "Unhandled builtin")];
        case NullableStringPlus | NullableAnyToString | SpecialEnumFunction(_) =>
          ExtractLookupCall(e, callable, parent, idx, encl);
        case ArrayOfNulls | ArrayBuilder(_) | PlainCall =>
          ExtractLibraryCall(e, callable, parent, idx, encl);
      }
    }

    /** The rules of `extractCall` that look up a member of a builtin type or of the enum type argument. */
    method ExtractLookupCall(e: Ir.Expr, callable: Label, parent: Label, idx: int, encl: Label)
      requires e.node.Call? && Valid()
      requires CallRuleOf(e).NullableStringPlus? || CallRuleOf(e).NullableAnyToString? || CallRuleOf(e).SpecialEnumFunction?
      modifies this
      ensures Progress(ExprLoops(e), parent, idx, idx + 1)
      ensures CallFailure(e, irBuiltIns).Some? ==>
        facts == old(facts) && next == old(next) && log == old(log) + [CallFailure(e, irBuiltIns).value]
      ensures CallFailure(e, irBuiltIns).None? ==> CallOpens(e, MethodAccess, facts, |old(facts)|, Fresh(old(next)), parent, idx)
      decreases e, 4
    {
      match CallRuleOf(e)
      case NullableStringPlus =>
        ExtractBuiltinMemberCall(e, irBuiltIns.stringType, "plus", "Couldn't find plus function on string type", callable, parent, idx, encl);
      case NullableAnyToString =>
        ExtractBuiltinMemberCall(e, irBuiltIns.anyType, "toString", "Couldn't find toString function", callable, parent, idx, encl);
      case SpecialEnumFunction(fn) =>
        ExtractSpecialEnumFunction(e, fn, callable, parent, idx, encl);
    }

    /** The rules of `extractCall` that create arrays, and the plain method access every other call becomes. */
    method ExtractLibraryCall(e: Ir.Expr, callable: Label, parent: Label, idx: int, encl: Label)
      requires e.node.Call? && Valid()
      requires CallRuleOf(e).ArrayOfNulls? || CallRuleOf(e).ArrayBuilder? || CallRuleOf(e).PlainCall?
      modifies this
      ensures Progress(ExprLoops(e), parent, idx, idx + 1)
      ensures CallOpens(e, CallExprKind(CallRuleOf(e)).value, facts, |old(facts)|, Fresh(old(next)), parent, idx)
      decreases e, 4
    {
      var rule := CallRuleOf(e);
      assert CallExprKind(rule) == Some(if rule.PlainCall? then MethodAccess else ArrayCreationExpr);
      match rule
      case ArrayOfNulls =>
        ExtractArrayOfNulls(e, callable, parent, idx, encl);
      case ArrayBuilder(isArrayOf) =>
        ExtractArrayBuilder(e, isArrayOf, callable, parent, idx, encl);
      case PlainCall =>
        ExtractMethodAccess(e, e.node.target, true, callable, parent, idx, encl);
    }

    /** Arithmetic on numbers and strings: the operator expression, then `binopDisp`. */
    method ExtractDispatchBinary(e: Ir.Expr, kind: ExprKind, callable: Label, parent: Label, idx: int, encl: Label)
      requires e.node.Call? && Valid()
      modifies this
      ensures Progress(ExprLoops(e), parent, idx, idx + 1)
      ensures var id := Fresh(old(next));
        old(facts) + [CallOpening(e, kind, id, parent, idx)] + OperatorTail(id, e, callable, encl) <= facts
      ensures old(log) + BinopDispOpening(e) <= log
      ensures CallOpens(e, kind, facts, |old(facts)|, Fresh(old(next)), parent, idx)
      decreases e, 3
    {
      ghost var s0 := State();
      var id := Fresh(next);
      Write([CallOpening(e, kind, id, parent, idx)], 1, parent, idx, idx + 1);
      ghost var s1 := State();
      BinopDisp(id, e, callable, encl);
      StepThen(s0, s1, State(), {}, parent, idx, idx + 1, ExprLoops(e), id, 0, 2, ExprLoops(e), parent, idx, idx + 1);
    }

    /**
     * `!(a == b)`, `!(a === b)` and the negated `ieee754equals`: a not-equal
     * expression over the operands of the inner comparison, written by
     * `binOp` on that inner call.
     */
    method ExtractNegatedEquality(e: Ir.Expr, callable: Label, parent: Label, idx: int, encl: Label)
      requires e.node.Call? && e.node.dispatchReceiver.Some? && e.node.dispatchReceiver.value.node.Call? && Valid()
      modifies this
      ensures Progress(ExprLoops(e), parent, idx, idx + 1)
      ensures var id := Fresh(old(next));
        var inner := e.node.dispatchReceiver.value;
        old(facts) + [CallOpening(e, NeExpr, id, parent, idx)] + OperatorTail(id, inner, callable, encl) <= facts
      ensures old(log) + BinOpOpening(e.node.dispatchReceiver.value) <= log
      ensures CallOpens(e, NeExpr, facts, |old(facts)|, Fresh(old(next)), parent, idx)
      decreases e, 3
    {
      ghost var s0 := State();
      var inner := e.node.dispatchReceiver.value;
      ExprLoopsChildren(e);
      var id := Fresh(next);
      Write([CallOpening(e, NeExpr, id, parent, idx)], 1, parent, idx, idx + 1);
      ghost var s1 := State();
      BinOp(id, inner, callable, encl);
      StepThen(s0, s1, State(), {}, parent, idx, idx + 1, ExprLoops(inner), id, 0, 2, ExprLoops(e), parent, idx, idx + 1);
    }

    /**
     * The internal comparison builtins and `CHECK_NOT_NULL`: a diagnostic
     * when the origin is not the operator's, then the operator expression
     * and `binOp` or `unaryOp`.
     */
    method ExtractBuiltinOperator(e: Ir.Expr, kind: ExprKind, expected: Origin, name: string, binary: bool,
                                  callable: Label, parent: Label, idx: int, encl: Label)
      requires e.node.Call? && Valid()
      modifies this
      ensures Progress(ExprLoops(e), parent, idx, idx + 1)
      ensures var id := Fresh(old(next));
        old(facts) + [CallOpening(e, kind, id, parent, idx)] + OperatorTail(id, e, callable, encl) <= facts
      ensures old(log) + OriginLog(e, expected, name) + (if binary then BinOpOpening(e) else UnaryOpOpening(e)) <= log
      ensures CallOpens(e, kind, facts, |old(facts)|, Fresh(old(next)), parent, idx)
      decreases e, 4
    {
      ghost var s0 := State();
      log := log + OriginLog(e, expected, name);
      var id := Fresh(next);
      Write([CallOpening(e, kind, id, parent, idx)], 1, parent, idx, idx + 1);
      ghost var s1 := State();
      if binary {
        BinOp(id, e, callable, encl);
      } else {
        UnaryOp(id, e, callable, encl);
      }
      StepThen(s0, s1, State(), {}, parent, idx, idx + 1, ExprLoops(e), id, 0, if binary then 2 else 1, ExprLoops(e), parent, idx, idx + 1);
    }

    /**
     * `String?.plus` and `Any?.toString`: a method access to the member
     * `name` of the builtin type `t`, or `msg` logged when `t` has none.
     */
    method ExtractBuiltinMemberCall(e: Ir.Expr, t: IrType, name: string, msg: string, callable: Label, parent: Label, idx: int, encl: Label)
      requires e.node.Call? && Valid()
      modifies this
      ensures Progress(ExprLoops(e), parent, idx, idx + 1)
      ensures FindFunction(t, name).None? ==> facts == old(facts) && next == old(next) && log == old(log) + [CallError(e, msg)]
      ensures FindFunction(t, name).Some? ==>
        old(facts) + MethodAccessHead(e, FindFunction(t, name).value, true, Fresh(old(next)), parent, idx, callable, encl) <= facts
      ensures FindFunction(t, name).Some? ==> CallOpens(e, MethodAccess, facts, |old(facts)|, Fresh(old(next)), parent, idx)
      decreases e, 3
    {
      var f := FindFunction(t, name);
      if f.None? {
        log := log + [CallError(e, msg)];
        return;
      }
      ExtractMethodAccess(e, f.value, true, callable, parent, idx, encl);
    }

    /**
     * `extractSpecialEnumFunction`: `enumValues` and `enumValueOf` become a
     * method access, without type arguments, to the function `fn` of the
     * enum class given as the single type argument.
     */
    method ExtractSpecialEnumFunction(e: Ir.Expr, fn: string, callable: Label, parent: Label, idx: int, encl: Label)
      requires e.node.Call? && Valid()
      modifies this
      ensures Progress(ExprLoops(e), parent, idx, idx + 1)
      ensures |e.node.typeArgs| != 1 ==>
        facts == old(facts) && next == old(next) && log == old(log) + [CallError(e, "Expected to find exactly one type argument")]
      ensures |e.node.typeArgs| == 1 && FindFunction(e.node.typeArgs[0], fn).None? ==>
        facts == old(facts) && next == old(next) && log == old(log) + [CallError(e, "Couldn't find function " + fn + " on enum type")]
      ensures |e.node.typeArgs| == 1 && FindFunction(e.node.typeArgs[0], fn).Some? ==>
        old(facts) + MethodAccessHead(e, FindFunction(e.node.typeArgs[0], fn).value, false, Fresh(old(next)), parent, idx, callable, encl) <= facts
      ensures |e.node.typeArgs| == 1 && FindFunction(e.node.typeArgs[0], fn).Some? ==> CallOpens(e, MethodAccess, facts, |old(facts)|, Fresh(old(next)), parent, idx)
      decreases e, 3
    {
      if |e.node.typeArgs| != 1 {
        log := log + [CallError(e, "Expected to find exactly one type argument")];
        return;
      }
      var f := FindFunction(e.node.typeArgs[0], fn);
      if f.None? {
        log := log + [CallError(e, "Couldn't find function " + fn + " on enum type")];
        return;
      }
      ExtractMethodAccess(e, f.value, false, callable, parent, idx, encl);
    }

    /**
     * `arrayOfNulls`: an array creation with its single type argument at -1
     * and its single argument, the size, at 0; anything else is logged.
     */
    method ExtractArrayOfNulls(e: Ir.Expr, callable: Label, parent: Label, idx: int, encl: Label)
      requires e.node.Call? && Valid()
      modifies this
      ensures Progress(ExprLoops(e), parent, idx, idx + 1)
      ensures old(facts) + ArrayCreationHead(e, Fresh(old(next)), parent, idx, callable) +
              ArrayElementTypeFacts(e, false, Fresh(old(next)), old(next) + 1, callable, encl) <= facts
      ensures old(log) + ArrayOfNullsTypeLog(e) <= log
      ensures |ArrayOfNullsArgLog(e)| <= |log| && log[|log| - |ArrayOfNullsArgLog(e)|..] == ArrayOfNullsArgLog(e)
      ensures CallOpens(e, ArrayCreationExpr, facts, |old(facts)|, Fresh(old(next)), parent, idx)
      ensures var start := |old(facts)| + |ArrayCreationHead(e, Fresh(old(next)), parent, idx, callable)| +
                            |ArrayElementTypeFacts(e, false, Fresh(old(next)), old(next) + 1, callable, encl)|;
        (ArrayOfNullsArgLog(e) != [] ==> |facts| == start) &&
        (ArrayOfNullsArgLog(e) == [] ==> HandledAt(facts, start, |log|, |old(log)| + |ArrayOfNullsTypeLog(e)|, Fresh(old(next)), 0))
      decreases e, 3
    {
      ghost var s0 := State();
      var id := ExtractArrayCreation(e, false, "Expected to find exactly one type argument in an arrayOfNulls call", callable, parent, idx, encl);
      ghost var s1 := State();
      ExtractArrayOfNullsSize(e, id, callable, encl);
      StepThen(s0, s1, State(), {}, parent, idx, idx + 1, ExprLoops(e), id, 0, 1, ExprLoops(e), parent, idx, idx + 1);
    }

    /** The size argument of `arrayOfNulls` at 0 of array creation `id`, or a diagnostic. */
    method ExtractArrayOfNullsSize(e: Ir.Expr, id: Label, callable: Label, encl: Label)
      requires e.node.Call? && Valid()
      modifies this
      ensures Progress(ExprLoops(e), id, 0, 1)
      ensures ArrayOfNullsArgLog(e) != [] ==> facts == old(facts) && next == old(next) && log == old(log) + ArrayOfNullsArgLog(e)
      ensures |ArrayOfNullsArgLog(e)| <= |log| && log[|log| - |ArrayOfNullsArgLog(e)|..] == ArrayOfNullsArgLog(e)
      ensures |e.node.args| == 1 && e.node.args[0].Some? ==> Extracted(id, 0)
      decreases e, 2
    {
      if |e.node.args| == 1 {
        ExtractArgument(id, e, callable, encl, 0, "Expected to find non-null argument in an arrayOfNulls call");
      } else {
        log := log + [CallError(e, "Expected to find only one argument in an arrayOfNulls call")];
      }
      SuffixAfter(old(log), ArrayOfNullsArgLog(e));
    }

    /**
     * The array creation opening `arrayOfNulls` and the array builders, with
     * the element type at -1: the builder's own element type for a primitive
     * builder, otherwise the single type argument, or `msg` logged when
     * there is not exactly one.
     */
    method ExtractArrayCreation(e: Ir.Expr, isBuilder: bool, msg: string, callable: Label, parent: Label, idx: int, encl: Label)
      returns (id: Label)
      requires e.node.Call? && Valid()
      modifies this
      ensures id == Fresh(old(next))
      ensures facts == old(facts) + ArrayCreationHead(e, id, parent, idx, callable) + ArrayElementTypeFacts(e, isBuilder, id, old(next) + 1, callable, encl)
      ensures next == old(next) + 1 + (if isBuilder || |e.node.typeArgs| == 1 then 1 else 0)
      ensures log == old(log) + (if isBuilder || |e.node.typeArgs| == 1 then [] else [CallError(e, msg)])
      ensures CallOpens(e, ArrayCreationExpr, facts, |old(facts)|, id, parent, idx)
      ensures Progress({}, parent, idx, idx + 1)
    {
      ghost var s0 := State();
      id := Fresh(next);
      Write(ArrayCreationHead(e, id, parent, idx, callable), 1, parent, idx, idx + 1);
      ghost var s1 := State();
      if isBuilder {
        Write(BareTypeAccess(UseType(ArrayElementType(e.typ), OtherContext), Fresh(next), id, -1, callable, encl), 1, id, -1, 0);
      } else if |e.node.typeArgs| == 1 {
        ExtractTypeArguments(e.node.typeArgs, id, callable, encl, -1, false);
      } else {
        Report(CallError(e, msg), id, -1, 0);
      }
      StepThen(s0, s1, State(), {}, parent, idx, idx + 1, {}, id, -1, 0, {}, parent, idx, idx + 1);
    }

    /**
     * `arrayOf` and the primitive array builders: an array creation with
     * the element type at -1 (the type argument of `arrayOf`, the builder's
     * element type otherwise), the initializer of the vararg elements at -2
     * and their number as a literal at 0.
     */
    method ExtractArrayBuilder(e: Ir.Expr, isArrayOf: bool, callable: Label, parent: Label, idx: int, encl: Label)
      requires e.node.Call? && Valid()
      modifies this
      ensures HasVarargArgument(e) ==>
        var id := Fresh(old(next));
        old(next) + 2 <= next &&
        ArrayElementsLaidOut(facts, old(facts) + ArrayCreationHead(e, id, parent, idx, callable) + ArrayElementTypeFacts(e, !isArrayOf, id, old(next) + 1, callable, encl),
                             |log|, |old(log)| + (if isArrayOf && |e.node.typeArgs| != 1 then 1 else 0), next,
                             e, id, Fresh(old(next) + (if !isArrayOf || |e.node.typeArgs| == 1 then 2 else 1)), callable, encl)
      ensures Progress(ExprLoops(e), parent, idx, idx + 1)
      ensures old(facts) + ArrayCreationHead(e, Fresh(old(next)), parent, idx, callable) +
              ArrayElementTypeFacts(e, !isArrayOf, Fresh(old(next)), old(next) + 1, callable, encl) <= facts
      ensures isArrayOf && |e.node.typeArgs| != 1 ==> old(log) + [CallError(e, "Expected to find one type argument in arrayOf call")] <= log
      ensures CallOpens(e, ArrayCreationExpr, facts, |old(facts)|, Fresh(old(next)), parent, idx)
      ensures !HasVarargArgument(e) ==>
        facts == old(facts) + ArrayCreationHead(e, Fresh(old(next)), parent, idx, callable) +
                 ArrayElementTypeFacts(e, !isArrayOf, Fresh(old(next)), old(next) + 1, callable, encl) &&
        log == old(log) + (if isArrayOf && |e.node.typeArgs| != 1 then [CallError(e, "Expected to find one type argument in arrayOf call")] else []) +
               ArrayBuilderLog(e)
      decreases e, 3
    {
      ghost var s0 := State();
      var id := ExtractArrayCreation(e, !isArrayOf, "Expected to find one type argument in arrayOf call", callable, parent, idx, encl);
      ghost var s1 := State();
      ExtractArrayElements(e, id, callable, encl);
      StepThen(s0, s1, State(), {}, parent, idx, idx + 1, ExprLoops(e), id, -2, 1, ExprLoops(e), parent, idx, idx + 1);
      if HasVarargArgument(e) {
        assert s1.next == s0.next + (if !isArrayOf || |e.node.typeArgs| == 1 then 2 else 1);
        assert |s1.log| == |s0.log| + (if isArrayOf && |e.node.typeArgs| != 1 then 1 else 0);
      }
    }

    /**
     * The elements of an array builder `id`: the array initializer at -2
     * holding the elements of the single vararg argument, then their number
     * at 0; any other argument list is only logged.
     */
    method ExtractArrayElements(e: Ir.Expr, id: Label, callable: Label, encl: Label)
      requires e.node.Call? && Valid()
      modifies this
      ensures Progress(ExprLoops(e), id, -2, 1)
      ensures !HasVarargArgument(e) ==> facts == old(facts) && next == old(next) && log == old(log) + ArrayBuilderLog(e)
      ensures HasVarargArgument(e) ==>
        old(next) + 2 <= next && ArrayElementsLaidOut(facts, old(facts), |log|, |old(log)|, next, e, id, Fresh(old(next)), callable, encl)
      decreases e, 2
    {
      if |e.node.args| != 1 {
        log := log + [CallError(e, "Expected to find only one (vararg) argument in " + e.node.target.name + " call")];
        return;
      }
      if !HasVarargArgument(e) {
        log := log + [CallError(e, "Expected to find vararg argument in " + e.node.target.name + " call")];
        return;
      }
      ghost var s0 := State();
      ExtractArrayInitializer(e, id, callable, encl);
      ghost var s1 := State();
      ExtractArrayDimension(e, |e.node.args[0].value.node.elements|, id, callable, encl);
      StepThen(s0, s1, State(), ExprLoops(e), id, -2, -1, {}, id, 0, 1, ExprLoops(e), id, -2, 1);
      AllPlacedKept(s1.facts, facts, |s0.facts|, |s0.facts|, |s1.log|, |log|, |s0.log|, |s0.log|, Fresh(s0.next), 0, Every(|e.node.args[0].value.node.elements|));
      ArrayElementsLaidOutIntro(facts, s0.facts, |log|, |s0.log|, next, e, id, Fresh(s0.next), callable, encl,
                                s1.facts, ArrayDimension(|e.node.args[0].value.node.elements|, e, Fresh(s1.next), id, callable, encl));
    }

    /** The array initializer at -2 of array builder `id`, with the vararg's elements under it. */
    method ExtractArrayInitializer(e: Ir.Expr, id: Label, callable: Label, encl: Label)
      requires e.node.Call? && HasVarargArgument(e) && Valid()
      modifies this
      ensures Progress(ExprLoops(e), id, -2, -1)
      ensures old(facts) + ExprHead(ArrayInit, Fresh(old(next)), UseType(e.typ, OtherContext), id, -2, GetLocation(e.loc), callable, encl) <= facts
      ensures old(next) + 1 <= next
      ensures AllPlaced(Fresh(old(next)), 0, Every(|e.node.args[0].value.node.elements|))
      decreases e, 1
    {
      ghost var s0 := State();
      var vararg := e.node.args[0].value;
      ExprLoopsChildren(e);
      OptsLoopsElement(e.node.args, 0);
      ExprLoopsChildren(vararg);
      var initId := EmitExpr(ArrayInit, UseType(e.typ, OtherContext), id, -2, GetLocation(e.loc), callable, encl, []);
      ghost var s1 := State();
      ExtractVarargElements(vararg.node.elements, callable, initId, encl);
      StepThen(s0, s1, State(), {}, id, -2, -1, VarargLoops(vararg.node.elements), initId, 0, |vararg.node.elements|, ExprLoops(e), id, -2, -1);
      AllPlacedKept(facts, facts, |s1.facts|, |s0.facts|, |log|, |log|, |s1.log|, |s0.log|, initId, 0, Every(|vararg.node.elements|));
    }

    /** The number `n` of an array builder's elements as an integer literal at 0 of `id`. */
    method ExtractArrayDimension(e: Ir.Expr, n: nat, id: Label, callable: Label, encl: Label)
      requires Valid()
      modifies this
      ensures facts == old(facts) + ArrayDimension(n, e, Fresh(old(next)), id, callable, encl) && next == old(next) + 1
      ensures facts[|facts| - 5..] == ArrayDimension(n, e, Fresh(next - 1), id, callable, encl)
      ensures log == old(log)
      ensures Progress({}, id, 0, 1)
    {
      var dimId := Fresh(next);
      var text := NatText(n);
      ExprHeadAttached(IntegerLiteral, dimId, UseType(IntType, OtherContext), id, 0, GetLocation(e.loc), callable, encl, next);
      NoSlotsAttach([Namestrings(text, text, dimId)], next, id, 0, 1);
      AllAttachConcat(ExprHead(IntegerLiteral, dimId, UseType(IntType, OtherContext), id, 0, GetLocation(e.loc), callable, encl),
                      [Namestrings(text, text, dimId)], next, id, 0, 1);
      Write(ArrayDimension(n, e, dimId, id, callable, encl), 1, id, 0, 1);
      SuffixAfter(old(facts), ArrayDimension(n, e, dimId, id, callable, encl));
    }

    /**
     * `extractMethodAccess`: a method access at `idx` of `parent`, the
     * call's type arguments at -2, -3, ... when `withTypeArgs`, its binding
     * to `target`, then the receivers and arguments under it.
     */
    method ExtractMethodAccess(e: Ir.Expr, target: FunctionSym, withTypeArgs: bool, callable: Label, parent: Label, idx: int, encl: Label)
      requires e.node.Call? && Valid()
      modifies this
      ensures Progress(ExprLoops(e), parent, idx, idx + 1)
      ensures old(facts) + MethodAccessHead(e, target, withTypeArgs, Fresh(old(next)), parent, idx, callable, encl) <= facts
      ensures AttachedFrom(facts, |old(facts)| + |MethodAccessHead(e, target, withTypeArgs, Fresh(old(next)), parent, idx, callable, encl)|,
                           old(next) + 1 + (if withTypeArgs then |e.node.typeArgs| else 0), Fresh(old(next)), -1, |e.node.args| + 1)
      ensures CallOpens(e, MethodAccess, facts, |old(facts)|, Fresh(old(next)), parent, idx)
      ensures var id := Fresh(old(next));
        (!target.isLocal && e.node.dispatchReceiver.Some? ==> Placed(id, -1)) &&
        (e.node.extensionReceiver.Some? ==> Placed(id, 0)) &&
        AllPlaced(id, if e.node.extensionReceiver.Some? then 1 else 0, Present(e.node.args))
      decreases e, 2
    {
      ghost var s0 := State();
      var id := ExtractMethodAccessOpening(e, withTypeArgs, callable, parent, idx, encl);
      ghost var s1 := State();
      ExtractCallTarget(e, target, id, callable, encl);
      PrefixThen(s0.facts, MethodAccessOpening(e, withTypeArgs, id, parent, idx, callable, encl), [CallableBinding(id, FunctionLabel(target))], facts);
      StepThen(s0, s1, State(), {}, parent, idx, idx + 1, ExprLoops(e), id, -1, |e.node.args| + 1, ExprLoops(e), parent, idx, idx + 1);
      ghost var off := if e.node.extensionReceiver.Some? then 1 else 0;
      if !target.isLocal && e.node.dispatchReceiver.Some? {
        PlacedKept(facts, facts, |s1.facts|, |s0.facts|, |log|, |log|, |s1.log|, |s0.log|, id, -1);
      }
      if e.node.extensionReceiver.Some? {
        PlacedKept(facts, facts, |s1.facts|, |s0.facts|, |log|, |log|, |s1.log|, |s0.log|, id, 0);
      }
      AllPlacedKept(facts, facts, |s1.facts|, |s0.facts|, |log|, |log|, |s1.log|, |s0.log|, id, off, Present(e.node.args));
    }

    /** The method access expression at `idx` of `parent`, with the call's type arguments at -2, -3, ... when `withTypeArgs`. */
    method ExtractMethodAccessOpening(e: Ir.Expr, withTypeArgs: bool, callable: Label, parent: Label, idx: int, encl: Label) returns (id: Label)
      requires e.node.Call? && Valid()
      modifies this
      ensures id == Fresh(old(next))
      ensures facts == old(facts) + MethodAccessOpening(e, withTypeArgs, id, parent, idx, callable, encl)
      ensures next == old(next) + 1 + (if withTypeArgs then |e.node.typeArgs| else 0)
      ensures log == old(log)
      ensures CallOpens(e, MethodAccess, facts, |old(facts)|, id, parent, idx)
      ensures Progress({}, parent, idx, idx + 1)
    {
      ghost var s0 := State();
      id := EmitExpr(MethodAccess, UseType(e.typ, OtherContext), parent, idx, GetLocation(e.loc), callable, encl, []);
      ghost var s1 := State();
      if withTypeArgs {
        ExtractTypeArguments(e.node.typeArgs, id, callable, encl, -2, true);
        StepThen(s0, s1, State(), {}, parent, idx, idx + 1, {}, id, TypeArgumentsLo(|e.node.typeArgs|, -2, true),
                 TypeArgumentsHi(|e.node.typeArgs|, -2, true), {}, parent, idx, idx + 1);
      }
      MethodAccessOpened(s0.facts, s1.facts, facts, e, withTypeArgs, id, parent, idx, callable, encl);
    }

    /**
     * The binding of method access `id`: a local function's label with a
     * new expression of its generated class at -1, or `useFunction` of the
     * target with the dispatch receiver at -1; then the extension receiver
     * and the value arguments.
     */
    method ExtractCallTarget(e: Ir.Expr, target: FunctionSym, id: Label, callable: Label, encl: Label)
      requires e.node.Call? && Valid()
      modifies this
      ensures Progress(ExprLoops(e), id, -1, |e.node.args| + 1)
      ensures old(facts) + [CallableBinding(id, FunctionLabel(target))] <= facts
      ensures target.isLocal ==>
        var ids := GetLocalFunctionLabels(target);
        var newId := Fresh(old(next));
        old(facts) + [CallableBinding(id, ids.funId)] +
        ExprHead(NewExpr, newId, ids.typ, id, -1, GetLocation(e.loc), callable, encl) + [CallableBinding(newId, ids.ctorId)] <= facts
      ensures !target.isLocal && e.node.dispatchReceiver.Some? ==> Placed(id, -1)
      ensures e.node.extensionReceiver.Some? ==> Placed(id, 0)
      ensures AllPlaced(id, if e.node.extensionReceiver.Some? then 1 else 0, Present(e.node.args))
      decreases e, 1
    {
      ghost var s0 := State();
      ExtractCallReceiver(e, target, id, callable, encl);
      ghost var s1 := State();
      ExtractReceiverArguments(e, id, callable, encl);
      StepWiden(s1, State(), ExprLoops(e), id, 0, |e.node.args| + (if e.node.extensionReceiver.Some? then 1 else 0), ExprLoops(e), 0, |e.node.args| + 1);
      StepThen(s0, s1, State(), ExprLoops(e), id, -1, 0, ExprLoops(e), id, 0, |e.node.args| + 1, ExprLoops(e), id, -1, |e.node.args| + 1);
      if !target.isLocal && e.node.dispatchReceiver.Some? {
        PlacedKept(s1.facts, facts, |s0.facts|, |s0.facts|, |s1.log|, |log|, |s0.log|, |s0.log|, id, -1);
      }
      if e.node.extensionReceiver.Some? {
        PlacedKept(facts, facts, |s1.facts|, |s0.facts|, |log|, |log|, |s1.log|, |s0.log|, id, 0);
      }
      AllPlacedKept(facts, facts, |s1.facts|, |s0.facts|, |log|, |log|, |s1.log|, |s0.log|, id, if e.node.extensionReceiver.Some? then 1 else 0, Present(e.node.args));
    }

    /**
     * The callable a call `id` binds, with the local function's class
     * instance at -1 for a local function, or otherwise the dispatch
     * receiver at -1.
     */
    method ExtractCallReceiver(e: Ir.Expr, target: FunctionSym, id: Label, callable: Label, encl: Label)
      requires e.node.Call? && Valid()
      modifies this
      ensures Progress(ExprLoops(e), id, -1, 0)
      ensures old(facts) + [CallableBinding(id, FunctionLabel(target))] <= facts
      ensures target.isLocal ==>
        var ids := GetLocalFunctionLabels(target);
        var newId := Fresh(old(next));
        old(facts) + [CallableBinding(id, ids.funId)] +
        ExprHead(NewExpr, newId, ids.typ, id, -1, GetLocation(e.loc), callable, encl) + [CallableBinding(newId, ids.ctorId)] <= facts
      ensures !target.isLocal && e.node.dispatchReceiver.Some? ==> Placed(id, -1)
      decreases e, 0
    {
      ghost var s0 := State();
      if target.isLocal {
        var ids := GetLocalFunctionLabels(target);
        Write([CallableBinding(id, ids.funId)], 0, id, -1, 0);
        ghost var sa := State();
        var _ := EmitExpr(NewExpr, ids.typ, id, -1, GetLocation(e.loc), callable, encl, [CallableBinding(Fresh(next), ids.ctorId)]);
        StepThen(s0, sa, State(), {}, id, -1, 0, {}, id, -1, 0, ExprLoops(e), id, -1, 0);
      } else {
        Write([CallableBinding(id, UseFunction(target))], 0, id, -1, 0);
        if e.node.dispatchReceiver.Some? {
          ghost var sa := State();
          ExprLoopsChildren(e);
          ExtractExpressionExpr(e.node.dispatchReceiver.value, callable, id, -1, encl);
          StepThen(s0, sa, State(), {}, id, -1, 0, ExprLoops(e.node.dispatchReceiver.value), id, -1, 0, ExprLoops(e), id, -1, 0);
          PlacedKept(facts, facts, |sa.facts|, |s0.facts|, |log|, |log|, |sa.log|, |s0.log|, id, -1);
        } else {
          StepWiden(s0, State(), {}, id, -1, 0, ExprLoops(e), -1, 0);
        }
      }
    }

    /** The extension receiver at 0 of call `id`, then the value arguments after it. */
    method ExtractReceiverArguments(e: Ir.Expr, id: Label, callable: Label, encl: Label)
      requires e.node.Call? && Valid()
      modifies this
      ensures Progress(ExprLoops(e), id, 0, |e.node.args| + (if e.node.extensionReceiver.Some? then 1 else 0))
      ensures e.node.extensionReceiver.Some? ==> Placed(id, 0)
      ensures AllPlaced(id, if e.node.extensionReceiver.Some? then 1 else 0, Present(e.node.args))
      decreases e, 0
    {
      ghost var s0 := State();
      ExprLoopsChildren(e);
      var offset := 0;
      if e.node.extensionReceiver.Some? {
        ExtractExpressionExpr(e.node.extensionReceiver.value, callable, id, 0, encl);
        offset := 1;
      } else {
        Write([], 0, id, 0, 0);
      }
      ghost var s1 := State();
      ExtractArguments(e.node.args, offset, callable, id, encl);
      StepThen(s0, s1, State(), ExprLoops(e), id, 0, offset, OptsLoops(e.node.args), id, offset, |e.node.args| + offset,
               ExprLoops(e), id, 0, |e.node.args| + offset);
      if e.node.extensionReceiver.Some? {
        PlacedKept(s1.facts, facts, |s0.facts|, |s0.facts|, |s1.log|, |log|, |s0.log|, |s0.log|, id, 0);
      }
      AllPlacedKept(facts, facts, |s1.facts|, |s0.facts|, |log|, |log|, |s1.log|, |s0.log|, id, offset, Present(e.node.args));
    }

    /**
     * `extractTypeArguments`: type argument `k` as a type access labelled
     * with the `k`-th new label, at `start - k` when `reverse` and at
     * `start + k` otherwise.
     */
    method ExtractTypeArguments(ts: seq<IrType>, id: Label, callable: Label, encl: Label, start: int, reverse: bool)
      requires Valid()
      modifies this
      ensures facts == old(facts) + TypeArgumentsFacts(ts, old(next), id, callable, encl, start, reverse)
      ensures next == old(next) + |ts|
      ensures Progress({}, id, TypeArgumentsLo(|ts|, start, reverse), TypeArgumentsHi(|ts|, start, reverse))
      ensures log == old(log) && interned == old(interned) && loopIdMap == old(loopIdMap) && currentFunction == old(currentFunction)
    {
      ghost var s0 := State();
      WriteTypeArguments(ts, id, callable, encl, start, reverse);
      TypeArgumentsAttached(ts, s0.next, id, callable, encl, start, reverse, s0.next);
      AppendStep(s0, State(), TypeArgumentsFacts(ts, s0.next, id, callable, encl, start, reverse), id,
                 TypeArgumentsLo(|ts|, start, reverse), TypeArgumentsHi(|ts|, start, reverse));
    }

    /** The loop of `extractTypeArguments`: one type access per argument, each under the next new label. */
    method WriteTypeArguments(ts: seq<IrType>, id: Label, callable: Label, encl: Label, start: int, reverse: bool)
      modifies this
      ensures facts == old(facts) + TypeArgumentsFacts(ts, old(next), id, callable, encl, start, reverse)
      ensures next == old(next) + |ts|
      ensures log == old(log) && interned == old(interned) && loopIdMap == old(loopIdMap) && currentFunction == old(currentFunction)
    {
      var written: seq<Fact> := [];
      var k := 0;
      while k < |ts|
        invariant 0 <= k <= |ts|
        invariant written == TypeArgumentsFacts(ts[..k], next, id, callable, encl, start, reverse)
        modifies {}
      {
        TypeArgumentsFactsSnoc(ts, k, next, id, callable, encl, start, reverse);
        written := written + TypeArgumentFacts(ts[k], k, Fresh(next + k), id, callable, encl, start, reverse);
        k := k + 1;
      }
      assert ts[..|ts|] == ts;
      facts := facts + written;
      next := next + |ts|;
    }

    /**
     * `binopDisp`: the location, callable and statement of operator `id`,
     * then the dispatch receiver of `c` at 0 and its first argument at 1.
     */
    method BinopDisp(id: Label, c: Ir.Expr, callable: Label, encl: Label)
      requires c.node.Call? && Valid()
      modifies this
      ensures Progress(ExprLoops(c), id, 0, 2)
      ensures old(facts) + OperatorTail(id, c, callable, encl) <= facts
      ensures old(log) + BinopDispOpening(c) <= log
      ensures |BinopDispClosing(c)| <= |log| && log[|log| - |BinopDispClosing(c)|..] == BinopDispClosing(c)
      ensures c.node.dispatchReceiver.Some? ==> Placed(id, 0)
      ensures |c.node.args| >= 1 && c.node.args[0].Some? ==> Placed(id, 1)
      decreases c, 2
    {
      ghost var s0 := State();
      ExtractDispatchOperand(id, c, callable, encl);
      ghost var s1 := State();
      ExtractRightOperand(id, c, callable, encl);
      StepThen(s0, s1, State(), ExprLoops(c), id, 0, 1, ExprLoops(c), id, 1, 2, ExprLoops(c), id, 0, 2);
      if c.node.dispatchReceiver.Some? {
        PlacedKept(s1.facts, facts, |s0.facts|, |s0.facts|, |s1.log|, |log|, |s0.log|, |s0.log|, id, 0);
      }
      if |c.node.args| >= 1 && c.node.args[0].Some? {
        PlacedKept(facts, facts, |s1.facts|, |s0.facts|, |log|, |log|, |s1.log| + (if |c.node.args| > 1 then 1 else 0), |s0.log|, id, 1);
      }
    }

    /** The right operand of `binopDisp`: the first argument of `c` at 1 of `id`. */
    method ExtractRightOperand(id: Label, c: Ir.Expr, callable: Label, encl: Label)
      requires c.node.Call? && Valid()
      modifies this
      ensures Progress(ExprLoops(c), id, 1, 2)
      ensures facts == old(facts) ==> log[..|old(log)|] == old(log)
      ensures |BinopDispClosing(c)| <= |log| && log[|log| - |BinopDispClosing(c)|..] == BinopDispClosing(c)
      ensures |c.node.args| >= 1 && c.node.args[0].Some? ==>
        HandledAt(facts, |old(facts)|, |log|, |old(log)| + (if |c.node.args| > 1 then 1 else 0), id, 1)
      decreases c, 1
    {
      if |c.node.args| < 1 {
        log := log + [CallError(c, "No RHS found")];
      } else {
        if |c.node.args| > 1 {
          log := log + [CallError(c, "Extra arguments found")];
        }
        ExtractRightOperandValue(id, c, callable, encl);
      }
    }

    /** The location, callable and statement of operator `id`, then the dispatch receiver of `c` at 0 or the error for its absence. */
    method ExtractDispatchOperand(id: Label, c: Ir.Expr, callable: Label, encl: Label)
      requires c.node.Call? && Valid()
      modifies this
      ensures Progress(ExprLoops(c), id, 0, 1)
      ensures old(facts) + OperatorTail(id, c, callable, encl) <= facts
      ensures c.node.dispatchReceiver.None? ==> facts == old(facts) + OperatorTail(id, c, callable, encl) && log == old(log) + BinopDispOpening(c)
      ensures c.node.dispatchReceiver.Some? ==> Placed(id, 0)
      decreases c, 1
    {
      ghost var s0 := State();
      ExprLoopsChildren(c);
      NoSlotsAttach(OperatorTail(id, c, callable, encl), next, id, 0, 0);
      Write(OperatorTail(id, c, callable, encl), 0, id, 0, 0);
      ghost var sw := State();
      if c.node.dispatchReceiver.None? {
        log := log + [CallError(c, "Dispatch receiver not found")];
      } else {
        ExtractExpressionExpr(c.node.dispatchReceiver.value, callable, id, 0, encl);
        PlacedKept(facts, facts, |sw.facts|, |s0.facts|, |log|, |log|, |sw.log|, |s0.log|, id, 0);
      }
      assert Step(s0, State(), ExprLoops(c), id, 0, 1);
    }

    /** The first argument of `c` as the right operand of `id`, at 1, or the error for its absence. */
    method ExtractRightOperandValue(id: Label, c: Ir.Expr, callable: Label, encl: Label)
      requires c.node.Call? && |c.node.args| >= 1 && Valid()
      modifies this
      ensures Progress(ExprLoops(c), id, 1, 2)
      ensures c.node.args[0].None? ==> facts == old(facts) && log == old(log) + [CallError(c, "RHS null")]
      ensures c.node.args[0].Some? ==> Extracted(id, 1)
      decreases c, 0
    {
      var arg := c.node.args[0];
      if arg.None? {
        log := log + [CallError(c, "RHS null")];
      } else {
        assert arg in c.node.args && arg.value < arg;
        ExprLoopsChildren(c);
        OptsLoopsElement(c.node.args, 0);
        ExtractExpressionExpr(arg.value, callable, id, 1, encl);
      }
    }

    /**
     * `binOp`: the location, callable and statement of operator `id`, then
     * the first two arguments of `c` at 0 and 1.
     */
    method BinOp(id: Label, c: Ir.Expr, callable: Label, encl: Label)
      requires c.node.Call? && Valid()
      modifies this
      ensures Progress(ExprLoops(c), id, 0, 2)
      ensures old(facts) + OperatorTail(id, c, callable, encl) <= facts
      ensures old(log) + BinOpOpening(c) <= log
      ensures |BinOpClosing(c)| <= |log| && log[|log| - |BinOpClosing(c)|..] == BinOpClosing(c)
      ensures |c.node.args| < 1 ==> facts == old(facts) + OperatorTail(id, c, callable, encl) && next == old(next) && log == old(log) + BinOpOpening(c)
      ensures |c.node.args| >= 1 && c.node.args[0].Some? ==> PlacedAt(facts, |old(facts)|, |log|, |old(log)| + |DispatchLog(c)|, id, 0)
      ensures |c.node.args| >= 2 && c.node.args[1].Some? ==> PlacedAt(facts, |old(facts)|, |log|, |old(log)| + |DispatchLog(c)|, id, 1)
      decreases c, 3
    {
      ghost var s0 := State();
      WriteOperatorTail(id, c, callable, encl);
      if |c.node.args| < 1 {
        Report(CallError(c, "No arguments found"), id, 0, 2);
        return;
      }
      ghost var s1 := State();
      ExtractBinOperands(id, c, callable, encl);
      StepThen(s0, s1, State(), {}, id, 0, 0, ExprLoops(c), id, 0, 2, ExprLoops(c), id, 0, 2);
      if c.node.args[0].Some? {
        PlacedKept(facts, facts, |s1.facts|, |s0.facts|, |log|, |log|, |s1.log|, |s1.log|, id, 0);
      }
      if |c.node.args| >= 2 && c.node.args[1].Some? {
        PlacedKept(facts, facts, |s1.facts|, |s0.facts|, |log|, |log|, |s1.log|, |s1.log|, id, 1);
      }
    }

    /** The location, callable and statement of operator `id`, then the unexpected dispatch receiver's error. */
    method WriteOperatorTail(id: Label, c: Ir.Expr, callable: Label, encl: Label)
      requires Valid()
      modifies this
      ensures Progress({}, id, 0, 0)
      ensures facts == old(facts) + OperatorTail(id, c, callable, encl) && log == old(log) + DispatchLog(c)
      ensures next == old(next) && interned == old(interned) && loopIdMap == old(loopIdMap) && currentFunction == old(currentFunction)
    {
      NoSlotsAttach(OperatorTail(id, c, callable, encl), next, id, 0, 0);
      Write(OperatorTail(id, c, callable, encl), 0, id, 0, 0);
      ghost var s1 := State();
      log := log + DispatchLog(c);
      StepWithoutFacts(s1, State(), id, 0, 0);
      StepThen(old(State()), s1, State(), {}, id, 0, 0, {}, id, 0, 0, {}, id, 0, 0);
    }

    /** The first two arguments of `c` at 0 and 1, with the errors for a missing or surplus operand. */
    method ExtractBinOperands(id: Label, c: Ir.Expr, callable: Label, encl: Label)
      requires c.node.Call? && |c.node.args| >= 1 && Valid()
      modifies this
      ensures Progress(ExprLoops(c), id, 0, 2)
      ensures old(log) + (if c.node.args[0].None? then [CallError(c, "LHS null")] else []) <= log
      ensures |BinOpClosing(c)| <= |log| && log[|log| - |BinOpClosing(c)|..] == BinOpClosing(c)
      ensures c.node.args[0].Some? ==> Placed(id, 0)
      ensures |c.node.args| >= 2 && c.node.args[1].Some? ==> Placed(id, 1)
      decreases c, 2
    {
      ghost var s1 := State();
      ExtractArgument(id, c, callable, encl, 0, "LHS null");
      ghost var s2 := State();
      ExtractSecondOperand(id, c, callable, encl);
      StepThen(s1, s2, State(), ExprLoops(c), id, 0, 1, ExprLoops(c), id, 1, 2, ExprLoops(c), id, 0, 2);
      if c.node.args[0].Some? {
        PlacedKept(s2.facts, facts, |s1.facts|, |s1.facts|, |s2.log|, |log|, |s1.log|, |s1.log|, id, 0);
      }
      if |c.node.args| >= 2 && c.node.args[1].Some? {
        PlacedKept(facts, facts, |s2.facts|, |s1.facts|, |log|, |log|, |s2.log| + (if |c.node.args| > 2 then 1 else 0), |s1.log|, id, 1);
      }
    }

    /** The second operand of `binOp`: argument 1 of `c` at 1 of `id`, with the diagnostics that close `binOp`. */
    method ExtractSecondOperand(id: Label, c: Ir.Expr, callable: Label, encl: Label)
      requires c.node.Call? && |c.node.args| >= 1 && Valid()
      modifies this
      ensures Progress(ExprLoops(c), id, 1, 2)
      ensures |BinOpClosing(c)| <= |log| && log[|log| - |BinOpClosing(c)|..] == BinOpClosing(c)
      ensures |c.node.args| >= 2 && c.node.args[1].Some? ==>
        HandledAt(facts, |old(facts)|, |log|, |old(log)| + (if |c.node.args| > 2 then 1 else 0), id, 1)
      decreases c, 1
    {
      if |c.node.args| < 2 {
        log := log + [CallError(c, "No RHS found")];
        return;
      }
      ExtractArgument(id, c, callable, encl, 1, "RHS null");
      if |c.node.args| > 2 {
        log := log + [CallError(c, "Extra arguments found")];
      }
    }

    /**
     * `unaryOp`: the location, callable and statement of operator `id`,
     * then the first argument of `c` at 0.
     */
    method UnaryOp(id: Label, c: Ir.Expr, callable: Label, encl: Label)
      requires c.node.Call? && Valid()
      modifies this
      ensures Progress(ExprLoops(c), id, 0, 1)
      ensures old(facts) + OperatorTail(id, c, callable, encl) <= facts
      ensures old(log) + UnaryOpOpening(c) <= log
      ensures |c.node.args| >= 1 ==> |UnaryOpClosing(c)| <= |log| && log[|log| - |UnaryOpClosing(c)|..] == UnaryOpClosing(c)
      ensures |c.node.args| < 1 ==> facts == old(facts) + OperatorTail(id, c, callable, encl) && next == old(next) && log == old(log) + UnaryOpOpening(c)
      ensures |c.node.args| >= 1 && c.node.args[0].Some? ==> PlacedAt(facts, |old(facts)|, |log|, |old(log)| + |DispatchLog(c)|, id, 0)
      decreases c, 2
    {
      ghost var s0 := State();
      WriteOperatorTail(id, c, callable, encl);
      if |c.node.args| < 1 {
        log := log + [CallError(c, "No arguments found")];
        return;
      }
      ghost var s1 := State();
      ExtractArgument(id, c, callable, encl, 0, "Operand null");
      StepThen(s0, s1, State(), {}, id, 0, 0, ExprLoops(c), id, 0, 1, ExprLoops(c), id, 0, 1);
      if |c.node.args| > 1 {
        log := log + [CallError(c, "Extra arguments found")];
      }
      if c.node.args[0].Some? {
        PlacedKept(facts, facts, |s1.facts|, |s0.facts|, |log|, |log|, |s1.log|, |s1.log|, id, 0);
      }
    }

    /** `extractArgument`: value argument `i` of call `c` as child `i` of `id`, or `msg` logged when it is absent. */
    method ExtractArgument(id: Label, c: Ir.Expr, callable: Label, encl: Label, i: int, msg: string)
      requires c.node.Call? && 0 <= i < |c.node.args| && Valid()
      modifies this
      ensures Progress(ExprLoops(c), id, i, i + 1)
      ensures c.node.args[i].None? ==> facts == old(facts) && next == old(next) && log == old(log) + [CallError(c, msg)]
      ensures c.node.args[i].Some? ==> Extracted(id, i)
      decreases c, 0
    {
      var op := c.node.args[i];
      if op.None? {
        log := log + [CallError(c, msg)];
      } else {
        ghost var s0 := State();
        assert op in c.node.args && op.value < op;
        ExprLoopsChildren(c);
        OptsLoopsElement(c.node.args, i);
        ExtractExpressionExpr(op.value, callable, id, i, encl);
        StepWiden(s0, State(), ExprLoops(op.value), id, i, i + 1, ExprLoops(c), i, i + 1);
      }
    }

    // -------------------------------------------------------------------
    // Constructor calls
    // -------------------------------------------------------------------

    /**
     * `extractConstructorCall`: a new expression (marked as creating its
     * anonymous class when it does) bound to the constructor, the arguments
     * at their indices, the dispatch receiver at -2, and last the type access
     * at -3 with the call's type arguments under it.
     */
    method ExtractConstructorCall(e: Ir.Expr, callable: Label, parent: Label, idx: int, encl: Label)
      requires (e.node.ConstructorCall? || e.node.EnumConstructorCall?) && Valid()
      modifies this
      ensures Progress(ExprLoops(e), parent, idx, idx + 1)
      ensures old(facts) + NewExprFacts(e, Fresh(old(next)), parent, idx, callable, encl) <= facts
      ensures IsAnonymous(e.typ) && |e.node.typeArgs| > 0 ==>
        old(log) + [Diagnostic(Warn, "Unexpected type arguments for anonymous class constructor call", None)] <= log
      ensures ConstructorTypeTail(e, irBuiltIns, Fresh(old(next)), facts, next, callable, encl)
      ensures var logFrom := |old(log)| + (if IsAnonymous(e.typ) && |e.node.typeArgs| > 0 then 1 else 0);
        AllPlacedAt(facts, |old(facts)|, |log|, logFrom, Fresh(old(next)), 0, Present(e.node.args)) &&
        (e.node.dispatchReceiver.Some? ==> PlacedAt(facts, |old(facts)|, |log|, logFrom, Fresh(old(next)), -2))
      ensures Opens(facts, |old(facts)|, parent, idx)
      decreases e, 5
    {
      ghost var s0 := State();
      var id := WriteNewExpr(e, callable, parent, idx, encl);
      ghost var s1 := State();
      ExtractConstructorParts(e, id, callable, encl);
      StepThen(s0, s1, State(), {}, parent, idx, idx + 1, ExprLoops(e), id, -3, |e.node.args|, ExprLoops(e), parent, idx, idx + 1);
      NewExprOpens(s0.facts, facts, e, id, parent, idx, callable, encl);
      AllPlacedKept(facts, facts, |s1.facts|, |s0.facts|, |log|, |log|, |s1.log|, |s1.log|, id, 0, Present(e.node.args));
      if e.node.dispatchReceiver.Some? {
        PlacedKept(facts, facts, |s1.facts|, |s0.facts|, |log|, |log|, |s1.log|, |s1.log|, id, -2);
      }
    }

    /** The warning about an anonymous class's type arguments, then the new expression's own tuples. */
    method WriteNewExpr(e: Ir.Expr, callable: Label, parent: Label, idx: int, encl: Label) returns (id: Label)
      requires (e.node.ConstructorCall? || e.node.EnumConstructorCall?) && Valid()
      modifies this
      ensures Progress({}, parent, idx, idx + 1)
      ensures id == Fresh(old(next)) && next == old(next) + 1
      ensures facts == old(facts) + NewExprFacts(e, id, parent, idx, callable, encl)
      ensures log == old(log) + (if IsAnonymous(e.typ) && |e.node.typeArgs| > 0
                                 then [Diagnostic(Warn, "Unexpected type arguments for anonymous class constructor call", None)] else [])
      ensures interned == old(interned) && loopIdMap == old(loopIdMap) && currentFunction == old(currentFunction)
    {
      ghost var s0 := State();
      id := Fresh(next);
      if IsAnonymous(e.typ) && |e.node.typeArgs| > 0 {
        log := log + [Diagnostic(Warn, "Unexpected type arguments for anonymous class constructor call", None)];
      }
      ghost var s1 := State();
      StepWithoutFacts(s0, s1, parent, idx, idx + 1);
      NewExprFactsAttached(e, id, parent, idx, callable, encl, next);
      Write(NewExprFacts(e, id, parent, idx, callable, encl), 1, parent, idx, idx + 1);
      StepThen(s0, s1, State(), {}, parent, idx, idx + 1, {}, parent, idx, idx + 1, {}, parent, idx, idx + 1);
    }

    /** The children of constructor call `id`: its arguments and receiver, then the constructed type's access at -3. */
    method ExtractConstructorParts(e: Ir.Expr, id: Label, callable: Label, encl: Label)
      requires (e.node.ConstructorCall? || e.node.EnumConstructorCall?) && Valid()
      modifies this
      ensures Progress(ExprLoops(e), id, -3, |e.node.args|)
      ensures ConstructorTypeTail(e, irBuiltIns, id, facts, next, callable, encl)
      ensures AllPlaced(id, 0, Present(e.node.args))
      ensures e.node.dispatchReceiver.Some? ==> Placed(id, -2)
      decreases e, 2
    {
      ghost var s1 := State();
      ExtractConstructorArguments(e, -2, id, callable, encl);
      ghost var s2 := State();
      ExtractConstructedTypeAccess(e, id, callable, encl);
      StepThen(s1, s2, State(), ExprLoops(e), id, -2, |e.node.args|, {}, id, -3, -2, ExprLoops(e), id, -3, |e.node.args|);
      AllPlacedKept(s2.facts, facts, |s1.facts|, |s1.facts|, |s2.log|, |log|, |s1.log|, |s1.log|, id, 0, Present(e.node.args));
      if e.node.dispatchReceiver.Some? {
        PlacedKept(s2.facts, facts, |s1.facts|, |s1.facts|, |s2.log|, |log|, |s1.log|, |s1.log|, id, -2);
      }
    }

    /**
     * The value arguments of constructor call `id` at their indices, then
     * its dispatch receiver at `receiverIdx`: -2 under a new expression, -1
     * under a constructor invocation statement.
     */
    method ExtractConstructorArguments(e: Ir.Expr, receiverIdx: int, id: Label, callable: Label, encl: Label)
      requires (e.node.ConstructorCall? || e.node.EnumConstructorCall? || e.node.DelegatingConstructorCall?) && receiverIdx < 0 && Valid()
      modifies this
      ensures Progress(ExprLoops(e), id, receiverIdx, |e.node.args|)
      ensures AllPlaced(id, 0, Present(e.node.args))
      ensures e.node.dispatchReceiver.Some? ==> Placed(id, receiverIdx)
      decreases e, 1
    {
      ghost var s0 := State();
      ExprLoopsChildren(e);
      ExtractArguments(e.node.args, 0, callable, id, encl);
      ghost var s1 := State();
      StepWiden(s0, s1, OptsLoops(e.node.args), id, 0, |e.node.args|, ExprLoops(e), receiverIdx, |e.node.args|);
      if e.node.dispatchReceiver.Some? {
        ExtractExpressionExpr(e.node.dispatchReceiver.value, callable, id, receiverIdx, encl);
        StepThen(s0, s1, State(), ExprLoops(e), id, receiverIdx, |e.node.args|, ExprLoops(e.node.dispatchReceiver.value), id, receiverIdx, receiverIdx + 1,
                 ExprLoops(e), id, receiverIdx, |e.node.args|);
        AllPlacedKept(s1.facts, facts, |s0.facts|, |s0.facts|, |s1.log|, |log|, |s0.log|, |s0.log|, id, 0, Present(e.node.args));
        PlacedKept(facts, facts, |s1.facts|, |s0.facts|, |log|, |log|, |s1.log|, |s0.log|, id, receiverIdx);
      }
    }

    /** The type access at -3 of constructor call `id`, with the call's type arguments under it from 0 on. */
    method ExtractConstructedTypeAccess(e: Ir.Expr, id: Label, callable: Label, encl: Label)
      requires (e.node.ConstructorCall? || e.node.EnumConstructorCall?) && Valid()
      modifies this
      ensures Progress({}, id, -3, -2)
      ensures var taId := Fresh(old(next));
        facts == old(facts) + BareTypeAccess(ConstructedTypeAccessType(e, irBuiltIns), taId, id, -3, callable, encl) +
                 TypeArgumentsFacts(e.node.typeArgs, old(next) + 1, taId, callable, encl, 0, false)
      ensures next == old(next) + 1 + |e.node.typeArgs|
      ensures log == old(log)
      ensures ConstructorTypeTail(e, irBuiltIns, id, facts, next, callable, encl)
      decreases e, 0
    {
      ghost var s0 := State();
      var taId := Fresh(next);
      Write(BareTypeAccess(ConstructedTypeAccessType(e, irBuiltIns), taId, id, -3, callable, encl), 1, id, -3, -2);
      ghost var s1 := State();
      if |e.node.typeArgs| > 0 {
        ExtractTypeArguments(e.node.typeArgs, taId, callable, encl, 0, false);
        StepThen(s0, s1, State(), {}, id, -3, -2, {}, taId, 0, |e.node.typeArgs|, {}, id, -3, -2);
      }
      SuffixAfter(s0.facts, BareTypeAccess(ConstructedTypeAccessType(e, irBuiltIns), taId, id, -3, callable, encl) +
                            TypeArgumentsFacts(e.node.typeArgs, s0.next + 1, taId, callable, encl, 0, false));
    }
  }
}
