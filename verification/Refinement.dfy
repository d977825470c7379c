/**
 What a run of the bounded interpreter means (fair/quality/code_validator.py): its values
 are Python's, its limits only ever refuse, and more budget changes nothing but
 CODE_OPERATION_LIMIT.
 */
module Refinement {
  import opened Options
  import opened PythonSubset
  import opened CodeValidator

  // ---------- a value is Python's value ----------

  /** The three codes of an exception or of leaving the subset; the others are limits. */
  predicate Raises(code: Code) { code == RuntimeFailure || code == TypeFailure || code == UnboundName }

  /** A value is the meaning; a code that is no limit says there is none; limits claim nothing. */
  ghost predicate Agrees(r: Eval, meaning: Option<Value>) {
    && (r.Val? ==> meaning == Some(r.v))
    && (r.Stop? && Raises(r.code) ==> meaning == None)
  }

  lemma {:induction false} ExpressionAgrees(e: Expr, depth: nat, scope: Scope, budget: nat)
    ensures Agrees(Expression(e, depth, scope, budget), Meaning(e, scope))
    decreases budget, 0
  {
    if CanStep(depth, budget) {
      NodeAgrees(e, depth, scope, budget - 1);
    }
  }

  lemma {:induction false} NodeAgrees(e: Expr, depth: nat, scope: Scope, budget: nat)
    ensures Agrees(Node(e, depth, scope, budget), Meaning(e, scope))
    decreases budget, 2, 0
  {
    hide Expression, Expressions, Shortcut, Comparisons, Invoke, Binary, PyBinary, PyIndex, PyUnary, Builtins, Chain, ShortCircuit, Meanings;
    match e
    case Const(v) =>
    case Name(id) =>
    case ListOf(elts) =>
      if |elts| <= MAX_LIST {
        ExpressionsAgree(e, elts, depth + 1, scope, budget);
      }
    case Subscript(value, slice) =>
      ExpressionAgrees(value, depth + 1, scope, budget);
      var s := Expression(value, depth + 1, scope, budget);
      if s.Val? {
        ExpressionAgrees(slice, depth + 1, scope, s.left);
      }
    case Call(func, args) =>
      ExpressionsAgree(e, args, depth + 1, scope, budget);
      var vs := Expressions(args, depth + 1, scope, budget);
      if vs.Vals? {
        InvokeAgrees(func, vs.vs, depth, vs.left);
      }
    case Bin(op, left, right) =>
      ExpressionAgrees(left, depth + 1, scope, budget);
      var l := Expression(left, depth + 1, scope, budget);
      if l.Val? {
        ExpressionAgrees(right, depth + 1, scope, l.left);
        var r := Expression(right, depth + 1, scope, l.left);
        if r.Val? {
          BinaryAgrees(op, l.v, r.v, r.left);
        }
      }
    case Unary(op, operand) =>
      ExpressionAgrees(operand, depth + 1, scope, budget);
    case IfExp(test, body, orelse) =>
      ExpressionAgrees(test, depth + 1, scope, budget);
      var t := Expression(test, depth + 1, scope, budget);
      if t.Val? {
        ExpressionAgrees(if Truthy(t.v) then body else orelse, depth + 1, scope, t.left);
      }
    case And(values) =>
      if values != [] {
        ShortcutAgrees(e, values, false, depth + 1, scope, budget);
      }
    case Or(values) =>
      if values != [] {
        ShortcutAgrees(e, values, true, depth + 1, scope, budget);
      }
    case Compare(first, rest) =>
      ExpressionAgrees(first, depth + 1, scope, budget);
      var l := Expression(first, depth + 1, scope, budget);
      if l.Val? {
        ComparisonsAgree(e, l.v, rest, depth + 1, scope, l.left);
      }
  }

  lemma {:induction false} BinaryAgrees(op: BinOp, l: Value, r: Value, left: nat)
    ensures Agrees(Binary(op, l, r, left), PyBinary(op, l, r))
  {
  }

  lemma {:induction false} ExpressionsAgree(whole: Expr, es: seq<Expr>, depth: nat, scope: Scope, budget: nat)
    requires forall k | 0 <= k < |es| :: es[k] < whole
    ensures var r := Expressions(es, depth, scope, budget);
            && (r.Vals? ==> Meanings(whole, es, scope) == Some(r.vs))
            && (r.Stopped? && Raises(r.code) ==> Meanings(whole, es, scope) == None)
    decreases budget, 1, |es|
  {
    if es != [] {
      ExpressionAgrees(es[0], depth, scope, budget);
      var v := Expression(es[0], depth, scope, budget);
      if v.Val? {
        ExpressionsAgree(whole, es[1..], depth, scope, v.left);
      }
    }
  }

  lemma {:induction false} ShortcutAgrees(whole: Expr, es: seq<Expr>, stop: bool, depth: nat, scope: Scope, budget: nat)
    requires es != [] && forall k | 0 <= k < |es| :: es[k] < whole
    ensures Agrees(Shortcut(es, stop, depth, scope, budget), ShortCircuit(whole, es, stop, scope))
    decreases budget, 1, |es|
  {
    ExpressionAgrees(es[0], depth, scope, budget);
    var v := Expression(es[0], depth, scope, budget);
    if v.Val? && Truthy(v.v) != stop && |es| > 1 {
      ShortcutAgrees(whole, es[1..], stop, depth, scope, v.left);
    }
  }

  lemma {:induction false} ComparisonsAgree(whole: Expr, left: Value, rest: seq<(CmpOp, Expr)>, depth: nat, scope: Scope,
                                            budget: nat)
    requires forall k | 0 <= k < |rest| :: rest[k].1 < whole
    ensures Agrees(Comparisons(left, rest, depth, scope, budget), Chain(whole, left, rest, scope))
    decreases budget, 1, |rest|
  {
    if rest != [] {
      ExpressionAgrees(rest[0].1, depth, scope, budget);
      var right := Expression(rest[0].1, depth, scope, budget);
      if right.Val? && PyCompare(rest[0].0, left, right.v) == Some(true) {
        ComparisonsAgree(whole, right.v, rest[1..], depth, scope, right.left);
      }
    }
  }

  lemma {:induction false} SumFromFront(items: seq<Value>)
    requires NumbersOnly(items) && items != []
    ensures SumItems(items) == Num(items[0]) + SumItems(items[1..])
  {
    if |items| > 1 {
      SumFromFront(items[..|items| - 1]);
      assert items[..|items| - 1][1..] == items[1..][..|items| - 2];
    }
  }

  lemma {:induction false} TotalAgrees(total: int, items: seq<Value>, depth: nat, budget: nat)
    requires NumbersOnly(items)
    ensures var r := Total(total, items, depth, budget);
            (r.Val? ==> r.v == Int(total + SumItems(items))) && (r.Stop? ==> !Raises(r.code))
    decreases |items|
  {
    if items != [] {
      SumFromFront(items);
      if CanStep(depth, budget) {
        TotalAgrees(total + Num(items[0]), items[1..], depth, budget - 1);
      }
    }
  }

  lemma {:induction false} InvokeAgrees(func: Builtin, args: seq<Value>, depth: nat, budget: nat)
    requires forall v <- args :: Bounded(v)
    ensures Agrees(Invoke(func, args, depth, budget), Builtins(func, args))
  {
    if func == Sum && |args| == 1 && args[0].List? {
      assert Bounded(args[0]);
      TotalAgrees(0, args[0].items, depth, budget);
    }
  }

  lemma {:induction false} IterableAgrees(iter: Expr, depth: nat, scope: Scope, budget: nat)
    ensures var r := Iterable(iter, depth, scope, budget);
            && (r.Items? ==> Walk(iter, scope) == Some(r.vs))
            && (r.NoItems? && Raises(r.code) ==> Walk(iter, scope) == None)
  {
    if iter.Call? && iter.func == Range {
      ExpressionsAgree(iter, iter.args, depth + 1, scope, budget);
    } else {
      ExpressionAgrees(iter, depth + 1, scope, budget);
    }
  }

  /** `fuel` follows the Python run to where the bounded run says it goes. */
  ghost predicate Follows(r: Exec, python: Run) {
    && (r.Ran? ==> python == Done(r.control, r.scope))
    && (r.Halt? && Raises(r.code) ==> python == Raised)
  }

  function More(a: nat, b: nat): (m: nat)
    ensures m >= a && m >= b
  { if a >= b then a else b }

  lemma {:induction false} StatementsFollow(body: seq<Stmt>, depth: nat, scope: Scope, budget: nat) returns (fuel: nat)
    requires BoundedScope(scope)
    ensures Follows(Statements(body, depth, scope, budget), Body(body, scope, fuel))
    decreases budget, 2
  {
    hide One, Statement;
    fuel := 0;
    if body != [] && CanStep(depth, budget) {
      var first := One(body[0], depth, scope, budget - 1);
      fuel := OneFollows(body[0], depth, scope, budget - 1);
      if first.Ran? && first.control == Next {
        var rest := StatementsFollow(body[1..], depth, first.scope, first.left);
        var a := fuel;
        fuel := More(a, rest);
        MoreFuelStatement(body[0], scope, a, fuel);
        if Body(body[1..], first.scope, rest) != NoFuel {
          MoreFuelBody(body[1..], first.scope, rest, fuel);
        }
      }
    }
  }

  lemma {:induction false} OneFollows(s: Stmt, depth: nat, scope: Scope, budget: nat) returns (fuel: nat)
    requires BoundedScope(scope)
    ensures Follows(One(s, depth, scope, budget), Statement(s, scope, fuel))
    decreases budget, 3
  {
    hide Expression, Statements, ForSteps, WhileSteps, Iterable, Meaning, Body, ForLoop, WhileLoop, Walk, Binary, PyBinary;
    fuel := 1;
    match s
    case Return(result) =>
      if result.Some? {
        ExpressionAgrees(result.value, depth + 1, scope, budget);
      }
    case Break =>
    case Continue =>
    case Assign(target, e) =>
      ExpressionAgrees(e, depth + 1, scope, budget);
    case AugAssign(target, op, e) =>
      ExpressionAgrees(e, depth + 1, scope, budget);
      var v := Expression(e, depth + 1, scope, budget);
      if target in scope && v.Val? {
        BinaryAgrees(op, scope[target], v.v, v.left);
      }
    case If(test, body, orelse) =>
      ExpressionAgrees(test, depth + 1, scope, budget);
      var t := Expression(test, depth + 1, scope, budget);
      if t.Val? {
        fuel := StatementsFollow(if Truthy(t.v) then body else orelse, depth + 1, scope, t.left);
        fuel := fuel + 1;
      }
    case For(target, iter, body, orelse) =>
      IterableAgrees(iter, depth + 1, scope, budget);
      var items := Iterable(iter, depth + 1, scope, budget);
      if items.Items? {
        var a := ForFollows(target, items.vs, body, 0, depth + 1, scope, items.left);
        var python := ForLoop(target, items.vs, body, scope, a);
        var b := OtherwiseFollows(ForSteps(target, items.vs, body, 0, depth + 1, scope, items.left),
                                  python, orelse, depth + 1, budget);
        fuel := More(a, b) + 1;
        if python != NoFuel {
          MoreFuelFor(target, items.vs, body, scope, a, fuel - 1);
        }
        if AfterLoop(python, orelse, b) != NoFuel {
          MoreFuelAfter(python, orelse, b, fuel - 1);
        }
      }
    case While(test, body, orelse) =>
      var a := WhileFollows(test, body, 0, depth + 1, scope, budget);
      var b := OtherwiseFollows(WhileSteps(test, body, 0, depth + 1, scope, budget),
                                WhileLoop(test, body, scope, a), orelse, depth + 1, budget);
      fuel := More(a, b) + 1;
      if WhileLoop(test, body, scope, a) != NoFuel {
        MoreFuelWhile(test, body, scope, a, fuel - 1);
      }
      if AfterLoop(WhileLoop(test, body, scope, a), orelse, b) != NoFuel {
        MoreFuelAfter(WhileLoop(test, body, scope, a), orelse, b, fuel - 1);
      }
  }

  lemma {:induction false} OtherwiseFollows(loop: Exec, python: Run, orelse: seq<Stmt>, depth: nat, budget: nat)
    returns (fuel: nat)
    requires loop.Ran? ==> loop.left < budget && BoundedScope(loop.scope) && BoundedControl(loop.control)
    requires Follows(loop, python)
    ensures Follows(Otherwise(loop, orelse, depth, budget), AfterLoop(python, orelse, fuel))
    decreases budget, 2
  {
    hide Statements, Body;
    fuel := 0;
    if loop.Ran? && !loop.control.Broke? && !loop.control.Returned? {
      fuel := StatementsFollow(orelse, depth, loop.scope, loop.left);
    }
  }

  lemma {:induction false} ForFollows(target: string, items: seq<Value>, body: seq<Stmt>, count: nat, depth: nat,
                                      scope: Scope, budget: nat) returns (fuel: nat)
    requires BoundedScope(scope)
    ensures Follows(ForSteps(target, items, body, count, depth, scope, budget), ForLoop(target, items, body, scope, fuel))
    decreases budget, 1
  {
    hide Statements, Body;
    fuel := 1;
    if CanStep(depth, budget) && items != [] && Bounded(items[0]) && count + 1 <= MAX_ITERATIONS {
      var inner := scope[target := items[0]];
      var once := Statements(body, depth, inner, budget - 1);
      var a := StatementsFollow(body, depth, inner, budget - 1);
      fuel := a + 1;
      if once.Ran? && !once.control.Returned? && !once.control.Broke? {
        var b := ForFollows(target, items[1..], body, count + 1, depth, once.scope, once.left);
        fuel := More(a, b) + 1;
        MoreFuelBody(body, inner, a, fuel - 1);
        if ForLoop(target, items[1..], body, once.scope, b) != NoFuel {
          MoreFuelFor(target, items[1..], body, once.scope, b, fuel - 1);
        }
      }
    }
  }

  lemma {:induction false} WhileFollows(test: Expr, body: seq<Stmt>, count: nat, depth: nat, scope: Scope, budget: nat)
    returns (fuel: nat)
    requires BoundedScope(scope)
    ensures Follows(WhileSteps(test, body, count, depth, scope, budget), WhileLoop(test, body, scope, fuel))
    decreases budget, 1
  {
    hide Expression, Statements, Meaning, Body, BoundedScope, Bounded, Truthy;
    fuel := 1;
    if CanStep(depth, budget) {
      ExpressionAgrees(test, depth, scope, budget - 1);
      var t := Expression(test, depth, scope, budget - 1);
      if t.Val? && Truthy(t.v) && count + 1 <= MAX_ITERATIONS {
        var once := Statements(body, depth, scope, t.left);
        var a := StatementsFollow(body, depth, scope, t.left);
        fuel := a + 1;
        if once.Ran? && !once.control.Returned? && !once.control.Broke? {
          var b := WhileFollows(test, body, count + 1, depth, once.scope, once.left);
          fuel := More(a, b) + 1;
          MoreFuelBody(body, scope, a, fuel - 1);
          if WhileLoop(test, body, once.scope, b) != NoFuel {
            MoreFuelWhile(test, body, once.scope, b, fuel - 1);
          }
        }
      }
    }
  }

  /**
   A value the interpreter returns is the one value Python's own run returns, whatever the
   budget; a rejection that is no limit means that run raises or leaves the subset,
   CODE_MISSING_RETURN that it ends without returning.
   */
  lemma {:induction false} RunCaseRefines(f: Function, args: seq<Value>, budget: nat)
    ensures var r := RunCase(f, args, budget);
            && (r.Result? ==> exists scope :: Ends(f, args, Done(Returned(r.v), scope)))
            && (r.Result? ==> forall how :: Ends(f, args, how) ==> how.Done? && how.control == Returned(r.v))
            && (r.Rejected? && Raises(r.code) ==> forall how :: Ends(f, args, how) ==> how == Raised)
            && (r == MissingReturn ==> forall how :: Ends(f, args, how) ==> how.Done? && !how.control.Returned?)
  {
    if |args| == |f.params| && (forall v <- args :: Bounded(v)) {
      BindBounded(f.params, args);
      var scope := Bind(f.params, args);
      var r := Statements(f.body, 0, scope, budget);
      var fuel := StatementsFollow(f.body, 0, scope, budget);
      var how := Body(f.body, scope, fuel);
      if r.Ran? || Raises(r.code) {
        assert Ends(f, args, how);
        forall other | Ends(f, args, other) ensures other == how {
          OneEnding(f, args, how, other);
        }
      }
    }
  }

  // ---------- more budget ----------

  function Later(r: Eval, k: nat): Eval {
    if r.Val? then Val(r.v, r.left + k) else r
  }

  function LaterExec(r: Exec, k: nat): Exec {
    if r.Ran? then Ran(r.control, r.scope, r.left + k) else r
  }

  lemma {:induction false} MoreExpression(e: Expr, depth: nat, scope: Scope, budget: nat, k: nat)
    requires Expression(e, depth, scope, budget) != Stop(OperationLimit)
    ensures Expression(e, depth, scope, budget + k) == Later(Expression(e, depth, scope, budget), k)
    decreases budget, 0
  {
    MoreNode(e, depth, scope, budget - 1, k);
  }

  lemma {:induction false} MoreNode(e: Expr, depth: nat, scope: Scope, budget: nat, k: nat)
    requires Node(e, depth, scope, budget) != Stop(OperationLimit)
    ensures Node(e, depth, scope, budget + k) == Later(Node(e, depth, scope, budget), k)
    decreases budget, 2, 0
  {
    hide Expression, Expressions, Shortcut, Comparisons, Binary, Invoke, PyIndex, PyUnary;
    match e
    case Const(v) =>
    case Name(id) =>
    case ListOf(elts) =>
      if |elts| <= MAX_LIST {
        MoreExpressions(elts, depth + 1, scope, budget, k);
      }
    case Subscript(value, slice) =>
      MorePair(value, slice, depth + 1, scope, budget, k);
    case Call(func, args) =>
      MoreExpressions(args, depth + 1, scope, budget, k);
      var vs := Expressions(args, depth + 1, scope, budget);
      if vs.Vals? {
        MoreInvoke(func, vs.vs, depth, vs.left, k);
      }
    case Bin(op, left, right) =>
      MorePair(left, right, depth + 1, scope, budget, k);
      var l := Expression(left, depth + 1, scope, budget);
      if l.Val? {
        var r := Expression(right, depth + 1, scope, l.left);
        if r.Val? {
          MoreBinary(op, l.v, r.v, r.left, k);
        }
      }
    case Unary(op, operand) =>
      MoreExpression(operand, depth + 1, scope, budget, k);
    case IfExp(test, body, orelse) =>
      MoreExpression(test, depth + 1, scope, budget, k);
      var t := Expression(test, depth + 1, scope, budget);
      if t.Val? {
        MoreExpression(if Truthy(t.v) then body else orelse, depth + 1, scope, t.left, k);
      }
    case And(values) =>
      if values != [] {
        MoreShortcut(values, false, depth + 1, scope, budget, k);
      }
    case Or(values) =>
      if values != [] {
        MoreShortcut(values, true, depth + 1, scope, budget, k);
      }
    case Compare(first, rest) =>
      MoreExpression(first, depth + 1, scope, budget, k);
      var l := Expression(first, depth + 1, scope, budget);
      if l.Val? {
        MoreComparisons(l.v, rest, depth + 1, scope, l.left, k);
      }
  }

  lemma {:induction false} MoreBinary(op: BinOp, l: Value, r: Value, left: nat, k: nat)
    ensures Binary(op, l, r, left + k) == Later(Binary(op, l, r, left), k)
  {
    hide PyBinary;
  }

  /** Two operands, one after the other. */
  lemma {:induction false} MorePair(left: Expr, right: Expr, depth: nat, scope: Scope, budget: nat, k: nat)
    requires var l := Expression(left, depth, scope, budget);
             l != Stop(OperationLimit) && (l.Val? ==> Expression(right, depth, scope, l.left) != Stop(OperationLimit))
    ensures var l := Expression(left, depth, scope, budget);
            && Expression(left, depth, scope, budget + k) == Later(l, k)
            && (l.Val? ==> Expression(right, depth, scope, l.left + k) == Later(Expression(right, depth, scope, l.left), k))
    decreases budget, 1, 0
  {
    MoreExpression(left, depth, scope, budget, k);
    var l := Expression(left, depth, scope, budget);
    if l.Val? {
      MoreExpression(right, depth, scope, l.left, k);
    }
  }

  lemma {:induction false} MoreInvoke(func: Builtin, args: seq<Value>, depth: nat, budget: nat, k: nat)
    requires (forall v <- args :: Bounded(v)) && Invoke(func, args, depth, budget) != Stop(OperationLimit)
    ensures Invoke(func, args, depth, budget + k) == Later(Invoke(func, args, depth, budget), k)
  {
    if func == Sum && |args| == 1 && args[0].List? {
      assert Bounded(args[0]);
      MoreTotal(0, args[0].items, depth, budget, k);
    }
  }

  lemma {:induction false} MoreExpressions(es: seq<Expr>, depth: nat, scope: Scope, budget: nat, k: nat)
    requires Expressions(es, depth, scope, budget) != Stopped(OperationLimit)
    ensures var r := Expressions(es, depth, scope, budget);
            Expressions(es, depth, scope, budget + k) == if r.Vals? then Vals(r.vs, r.left + k) else r
    decreases budget, 1, |es|
  {
    if es != [] {
      MoreExpression(es[0], depth, scope, budget, k);
      var v := Expression(es[0], depth, scope, budget);
      if v.Val? {
        MoreExpressions(es[1..], depth, scope, v.left, k);
      }
    }
  }

  lemma {:induction false} MoreShortcut(es: seq<Expr>, stop: bool, depth: nat, scope: Scope, budget: nat, k: nat)
    requires es != [] && Shortcut(es, stop, depth, scope, budget) != Stop(OperationLimit)
    ensures Shortcut(es, stop, depth, scope, budget + k) == Later(Shortcut(es, stop, depth, scope, budget), k)
    decreases budget, 1, |es|
  {
    MoreExpression(es[0], depth, scope, budget, k);
    var v := Expression(es[0], depth, scope, budget);
    if v.Val? && Truthy(v.v) != stop && |es| > 1 {
      MoreShortcut(es[1..], stop, depth, scope, v.left, k);
    }
  }

  lemma {:induction false} MoreComparisons(left: Value, rest: seq<(CmpOp, Expr)>, depth: nat, scope: Scope, budget: nat, k: nat)
    requires Comparisons(left, rest, depth, scope, budget) != Stop(OperationLimit)
    ensures Comparisons(left, rest, depth, scope, budget + k) == Later(Comparisons(left, rest, depth, scope, budget), k)
    decreases budget, 1, |rest|
  {
    if rest != [] {
      MoreExpression(rest[0].1, depth, scope, budget, k);
      var right := Expression(rest[0].1, depth, scope, budget);
      if right.Val? && PyCompare(rest[0].0, left, right.v) == Some(true) {
        MoreComparisons(right.v, rest[1..], depth, scope, right.left, k);
      }
    }
  }

  lemma {:induction false} MoreTotal(total: int, items: seq<Value>, depth: nat, budget: nat, k: nat)
    requires NumbersOnly(items) && Total(total, items, depth, budget) != Stop(OperationLimit)
    ensures Total(total, items, depth, budget + k) == Later(Total(total, items, depth, budget), k)
    decreases |items|
  {
    if items != [] && Bounded(Int(total + Num(items[0]))) {
      MoreTotal(total + Num(items[0]), items[1..], depth, budget - 1, k);
    }
  }

  lemma {:induction false} MoreIterable(iter: Expr, depth: nat, scope: Scope, budget: nat, k: nat)
    requires Iterable(iter, depth, scope, budget) != NoItems(OperationLimit)
    ensures var r := Iterable(iter, depth, scope, budget);
            Iterable(iter, depth, scope, budget + k) == if r.Items? then Items(r.vs, r.left + k) else r
  {
    if iter.Call? && iter.func == Range {
      MoreExpressions(iter.args, depth + 1, scope, budget, k);
    } else {
      MoreExpression(iter, depth + 1, scope, budget, k);
    }
  }

  lemma {:induction false} MoreStatements(body: seq<Stmt>, depth: nat, scope: Scope, budget: nat, k: nat)
    requires BoundedScope(scope) && Statements(body, depth, scope, budget) != Halt(OperationLimit)
    ensures Statements(body, depth, scope, budget + k) == LaterExec(Statements(body, depth, scope, budget), k)
    decreases budget, 2
  {
    hide One;
    if body != [] {
      MoreOne(body[0], depth, scope, budget - 1, k);
      var first := One(body[0], depth, scope, budget - 1);
      if first.Ran? && first.control == Next {
        MoreStatements(body[1..], depth, first.scope, first.left, k);
      }
    }
  }

  lemma {:induction false} MoreOne(s: Stmt, depth: nat, scope: Scope, budget: nat, k: nat)
    requires BoundedScope(scope) && One(s, depth, scope, budget) != Halt(OperationLimit)
    ensures One(s, depth, scope, budget + k) == LaterExec(One(s, depth, scope, budget), k)
    decreases budget, 3
  {
    hide Expression, Statements, ForSteps, WhileSteps, Iterable, Binary;
    match s
    case Return(result) =>
      if result.Some? {
        MoreExpression(result.value, depth + 1, scope, budget, k);
      }
    case Break =>
    case Continue =>
    case Assign(target, e) =>
      MoreExpression(e, depth + 1, scope, budget, k);
    case AugAssign(target, op, e) =>
      if target in scope && Number(scope[target]) {
        MoreExpression(e, depth + 1, scope, budget, k);
        var v := Expression(e, depth + 1, scope, budget);
        if v.Val? {
          MoreBinary(op, scope[target], v.v, v.left, k);
        }
      }
    case If(test, body, orelse) =>
      MoreExpression(test, depth + 1, scope, budget, k);
      var t := Expression(test, depth + 1, scope, budget);
      if t.Val? {
        MoreStatements(if Truthy(t.v) then body else orelse, depth + 1, scope, t.left, k);
      }
    case For(target, iter, body, orelse) =>
      MoreIterable(iter, depth + 1, scope, budget, k);
      var items := Iterable(iter, depth + 1, scope, budget);
      if items.Items? {
        MoreFor(target, items.vs, body, 0, depth + 1, scope, items.left, k);
        MoreOtherwise(ForSteps(target, items.vs, body, 0, depth + 1, scope, items.left), orelse, depth + 1, budget, k);
      }
    case While(test, body, orelse) =>
      MoreWhile(test, body, 0, depth + 1, scope, budget, k);
      MoreOtherwise(WhileSteps(test, body, 0, depth + 1, scope, budget), orelse, depth + 1, budget, k);
  }

  lemma {:induction false} MoreOtherwise(loop: Exec, orelse: seq<Stmt>, depth: nat, budget: nat, k: nat)
    requires loop.Ran? ==> loop.left < budget && BoundedScope(loop.scope) && BoundedControl(loop.control)
    requires Otherwise(loop, orelse, depth, budget) != Halt(OperationLimit)
    ensures Otherwise(LaterExec(loop, k), orelse, depth, budget + k) == LaterExec(Otherwise(loop, orelse, depth, budget), k)
    decreases budget, 2
  {
    hide Statements;
    if loop.Ran? && !loop.control.Broke? && !loop.control.Returned? {
      MoreStatements(orelse, depth, loop.scope, loop.left, k);
    }
  }

  lemma {:induction false} MoreFor(target: string, items: seq<Value>, body: seq<Stmt>, count: nat, depth: nat, scope: Scope,
                                   budget: nat, k: nat)
    requires BoundedScope(scope) && ForSteps(target, items, body, count, depth, scope, budget) != Halt(OperationLimit)
    ensures ForSteps(target, items, body, count, depth, scope, budget + k)
         == LaterExec(ForSteps(target, items, body, count, depth, scope, budget), k)
    decreases budget, 1
  {
    hide Statements;
    if items != [] && Bounded(items[0]) && count + 1 <= MAX_ITERATIONS {
      var inner := scope[target := items[0]];
      MoreStatements(body, depth, inner, budget - 1, k);
      var once := Statements(body, depth, inner, budget - 1);
      if once.Ran? && !once.control.Returned? && !once.control.Broke? {
        MoreFor(target, items[1..], body, count + 1, depth, once.scope, once.left, k);
      }
    }
  }

  /** One turn of a `while` loop whose test holds. */
  lemma {:induction false} WhileTurns(test: Expr, body: seq<Stmt>, count: nat, depth: nat, scope: Scope, budget: nat)
    requires BoundedScope(scope) && CanStep(depth, budget) && count + 1 <= MAX_ITERATIONS
    requires Expression(test, depth, scope, budget - 1).Val? && Truthy(Expression(test, depth, scope, budget - 1).v)
    ensures var once := Statements(body, depth, scope, Expression(test, depth, scope, budget - 1).left);
            WhileSteps(test, body, count, depth, scope, budget) ==
              if once.Halt? || once.control.Returned? || once.control.Broke? then once
              else WhileSteps(test, body, count + 1, depth, once.scope, once.left)
  {
  }

  lemma {:induction false} MoreWhile(test: Expr, body: seq<Stmt>, count: nat, depth: nat, scope: Scope, budget: nat, k: nat)
    requires BoundedScope(scope) && WhileSteps(test, body, count, depth, scope, budget) != Halt(OperationLimit)
    ensures WhileSteps(test, body, count, depth, scope, budget + k)
         == LaterExec(WhileSteps(test, body, count, depth, scope, budget), k)
    decreases budget, 1
  {
    hide Expression, Statements, BoundedScope, Bounded, Truthy;
    MoreExpression(test, depth, scope, budget - 1, k);
    var t := Expression(test, depth, scope, budget - 1);
    if t.Val? && Truthy(t.v) && count + 1 <= MAX_ITERATIONS {
      hide WhileSteps;
      WhileTurns(test, body, count, depth, scope, budget);
      WhileTurns(test, body, count, depth, scope, budget + k);
      MoreStatements(body, depth, scope, t.left, k);
      var once := Statements(body, depth, scope, t.left);
      if once.Ran? && !once.control.Returned? && !once.control.Broke? {
        MoreWhile(test, body, count + 1, depth, once.scope, once.left, k);
      }
    }
  }

  /** A larger budget only ever turns CODE_OPERATION_LIMIT into something else. */
  lemma {:induction false} MoreBudget(f: Function, args: seq<Value>, budget: nat, k: nat)
    requires RunCase(f, args, budget) != Rejected(OperationLimit)
    ensures var r := RunCase(f, args, budget);
            RunCase(f, args, budget + k) == if r.Result? then Result(r.v, r.left + k) else r
  {
    if |args| == |f.params| && (forall v <- args :: Bounded(v)) {
      BindBounded(f.params, args);
      MoreStatements(f.body, 0, Bind(f.params, args), budget, k);
    }
  }
}
