/**
 The evaluator as the source runs it (fair/quality/code_validator.py, `run_case`): one
 mutable scope, one shrinking budget, loops that assign as they go.  Every method is
 proved against the evaluator's specification in CodeValidator.dfy.
 */
module Machine {
  import opened Options
  import opened PythonSubset
  import opened CodeValidator

  /** A method's answer: a value, or the rejection it raises. */
  datatype Answered<T> = Got(value: T) | Threw(code: Code)

  class Interpreter {
    var scope: Scope
    var budget: int

    constructor (scope: Scope, budget: nat)
      ensures this.scope == scope && this.budget == budget
    {
      this.scope := scope;
      this.budget := budget;
    }

    /** Charge one step; false where the source raises CODE_OPERATION_LIMIT. */
    method Step(depth: nat) returns (ok: bool)
      requires budget >= 0
      modifies this`budget
      ensures ok == CanStep(depth, old(budget)) && budget == old(budget) - 1
      ensures ok ==> budget >= 0
    {
      budget := budget - 1;
      ok := !(budget < 0 || depth > MAX_DEPTH);
    }

    /** The machine did what the specification `r` says. */
    ghost predicate Did(a: Answered<Value>, r: Eval)
      reads this
    {
      if r.Val? then a == Got(r.v) && budget == r.left else a == Threw(r.code)
    }

    method Evaluate(e: Expr, depth: nat) returns (a: Answered<Value>)
      requires budget >= 0
      modifies this`budget
      ensures Did(a, Expression(e, depth, scope, old(budget)))
      decreases budget, 0
    {
      hide Node, Bounded;
      var ok := Step(depth);
      if !ok {
        return Threw(OperationLimit);
      }
      a := Visit(e, depth);
      if a.Got? && !Bounded(a.value) {
        a := Threw(ValueLimit);
      }
    }

    method Visit(e: Expr, depth: nat) returns (a: Answered<Value>)
      requires budget >= 0
      modifies this`budget
      ensures Did(a, Node(e, depth, scope, old(budget)))
      decreases budget, 2
    {
      hide Expression, Expressions, Shortcut, Comparisons, CodeValidator.Binary, Invoke, PyIndex, PyUnary, Bounded;
      match e
      case Const(v) => a := Got(v);
      case Name(id) => a := if id in scope then Got(scope[id]) else Threw(UnboundName);
      case ListOf(elts) =>
        if |elts| > MAX_LIST {
          return Threw(ValueLimit);
        }
        var vs := EvaluateAll(elts, depth + 1);
        a := if vs.Got? then Got(List(vs.value)) else Threw(vs.code);
      case Subscript(value, slice) =>
        var sequence := Evaluate(value, depth + 1);
        if sequence.Threw? {
          return sequence;
        }
        var index := Evaluate(slice, depth + 1);
        if index.Threw? {
          return index;
        }
        if !sequence.value.List? || !Number(index.value) {
          return Threw(TypeFailure);
        }
        var item := PyIndex(sequence.value.items, Num(index.value));
        a := if item.Some? then Got(item.value) else Threw(RuntimeFailure);
      case Call(func, args) =>
        var vs := EvaluateAll(args, depth + 1);
        if vs.Threw? {
          return Threw(vs.code);
        }
        a := CallBuiltin(func, vs.value, depth);
      case Bin(op, left, right) =>
        var l := Evaluate(left, depth + 1);
        if l.Threw? {
          return l;
        }
        var r := Evaluate(right, depth + 1);
        if r.Threw? {
          return r;
        }
        a := Combine(op, l.value, r.value);
      case Unary(op, operand) =>
        var v := Evaluate(operand, depth + 1);
        if v.Threw? {
          return v;
        }
        var w := PyUnary(op, v.value);
        a := if w.Some? then Got(w.value) else Threw(RuntimeFailure);
      case IfExp(test, body, orelse) =>
        var t := Evaluate(test, depth + 1);
        if t.Threw? {
          return t;
        }
        a := Evaluate(if Truthy(t.value) then body else orelse, depth + 1);
      case And(values) => a := FirstDecisive(values, false, depth + 1);
      case Or(values) => a := FirstDecisive(values, true, depth + 1);
      case Compare(first, rest) =>
        var l := Evaluate(first, depth + 1);
        if l.Threw? {
          return l;
        }
        a := CompareChain(l.value, rest, depth + 1);
    }

    method EvaluateAll(es: seq<Expr>, depth: nat) returns (a: Answered<seq<Value>>)
      requires budget >= 0
      modifies this`budget
      ensures var r := Expressions(es, depth, scope, old(budget));
              if r.Vals? then a == Got(r.vs) && budget == r.left else a == Threw(r.code)
      decreases budget, 1
    {
      hide Expression;
      var vs := [];
      var i := 0;
      while i < |es|
        invariant 0 <= i <= |es| && 0 <= budget <= old(budget)
        invariant var all := Expressions(es, depth, scope, old(budget));
                  var rest := Expressions(es[i..], depth, scope, budget);
                  all == if rest.Vals? then Vals(vs + rest.vs, rest.left) else rest
      {
        var v := Evaluate(es[i], depth);
        if v.Threw? {
          return Threw(v.code);
        }
        assert es[i..][1..] == es[i + 1..];
        vs := vs + [v.value];
        i := i + 1;
      }
      assert es[i..] == [];
      assert vs + [] == vs;
      a := Got(vs);
    }

    /** `and` and `or`. */
    method FirstDecisive(values: seq<Expr>, stop: bool, depth: nat) returns (a: Answered<Value>)
      requires budget >= 0
      modifies this`budget
      ensures if values == [] then a == Threw(RuntimeFailure) && budget == old(budget)
              else Did(a, Shortcut(values, stop, depth, scope, old(budget)))
      decreases budget, 1
    {
      hide Expression;
      a := Threw(RuntimeFailure);
      var i := 0;
      while i < |values|
        invariant 0 <= i <= |values| && 0 <= budget <= old(budget)
        invariant i < |values| ==> Shortcut(values, stop, depth, scope, old(budget)) == Shortcut(values[i..], stop, depth, scope, budget)
        invariant i == 0 ==> a == Threw(RuntimeFailure) && budget == old(budget)
        invariant 0 < i == |values| ==> Did(a, Shortcut(values, stop, depth, scope, old(budget)))
      {
        a := Evaluate(values[i], depth);
        if a.Threw? || Truthy(a.value) == stop {
          return;
        }
        assert values[i..][1..] == values[i + 1..];
        i := i + 1;
      }
    }

    method CompareChain(first: Value, rest: seq<(CmpOp, Expr)>, depth: nat) returns (a: Answered<Value>)
      requires budget >= 0
      modifies this`budget
      ensures Did(a, Comparisons(first, rest, depth, scope, old(budget)))
      decreases budget, 1
    {
      hide Expression, PyCompare;
      var left := first;
      var i := 0;
      while i < |rest|
        invariant 0 <= i <= |rest| && 0 <= budget <= old(budget)
        invariant Comparisons(first, rest, depth, scope, old(budget)) == Comparisons(left, rest[i..], depth, scope, budget)
      {
        var right := Evaluate(rest[i].1, depth);
        if right.Threw? {
          return right;
        }
        var holds := PyCompare(rest[i].0, left, right.value);
        if holds.None? {
          return Threw(RuntimeFailure);
        }
        if !holds.value {
          return Got(Bool(false));
        }
        assert rest[i..][1..] == rest[i + 1..];
        left := right.value;
        i := i + 1;
      }
      a := Got(Bool(true));
    }

    method Combine(op: BinOp, l: Value, r: Value) returns (a: Answered<Value>)
      requires budget >= 0
      ensures Did(a, CodeValidator.Binary(op, l, r, budget))
    {
      hide PyBinary, Bounded;
      if l.List? || r.List? {
        if op.Add? && l.List? && r.List? {
          if |l.items| + |r.items| > MAX_LIST {
            return Threw(ValueLimit);
          }
          return Got(List(l.items + r.items));
        }
        return Threw(TypeFailure);
      }
      var v := PyBinary(op, l, r);
      if v.None? {
        return Threw(RuntimeFailure);
      }
      a := if Bounded(v.value) then Got(v.value) else Threw(ValueLimit);
    }

    method CallBuiltin(func: Builtin, args: seq<Value>, depth: nat) returns (a: Answered<Value>)
      requires budget >= 0 && forall v <- args :: Bounded(v)
      modifies this`budget
      ensures Did(a, Invoke(func, args, depth, old(budget)))
    {
      hide Builtins;
      if func == Sum && |args| == 1 && args[0].List? {
        assert Bounded(args[0]);
        var items := args[0].items;
        var total := 0;
        var i := 0;
        while i < |items|
          invariant 0 <= i <= |items| && 0 <= budget <= old(budget)
          invariant NumbersOnly(items) && NumbersOnly(items[i..])
          invariant Total(0, items, depth, old(budget)) == Total(total, items[i..], depth, budget)
        {
          var ok := Step(depth);
          if !ok {
            return Threw(OperationLimit);
          }
          assert items[i..][1..] == items[i + 1..];
          assert items[i..][0] == items[i];
          total := total + Num(items[i]);
          if !Bounded(Int(total)) {
            return Threw(ValueLimit);
          }
          i := i + 1;
        }
        return Got(Int(total));
      }
      var v := Builtins(func, args);
      a := if v.Some? then Got(v.value) else Threw(TypeFailure);
    }

    method EvaluateIterable(iter: Expr, depth: nat) returns (a: Answered<seq<Value>>)
      requires budget >= 0
      modifies this`budget
      ensures var r := Iterable(iter, depth, scope, old(budget));
              if r.Items? then a == Got(r.vs) && budget == r.left else a == Threw(r.code)
      decreases budget, 1
    {
      hide Expression, Expressions, PyRange, RangeCount;
      if iter.Call? && iter.func == Range {
        a := EvaluateAll(iter.args, depth + 1);
        if a.Threw? {
          return;
        }
        if !(1 <= |a.value| <= 3) || !NumbersOnly(a.value) {
          return Threw(TypeFailure);
        }
        var r := RangeArgs(a.value);
        if r.None? {
          return Threw(RuntimeFailure);
        }
        var (start, stop, step) := r.value;
        if RangeCount(start, stop, step) > MAX_ITERATIONS {
          return Threw(IterationLimit);
        }
        return Got(PyRange(start, stop, step));
      }
      var values := Evaluate(iter, depth + 1);
      if values.Threw? {
        return Threw(values.code);
      }
      a := if values.value.List? then Got(values.value.items) else Threw(TypeFailure);
    }

    /** The machine ran as the specification `r` says, its scope included. */
    ghost predicate Executed(a: Answered<Control>, r: Exec)
      reads this
    {
      if r.Ran? then a == Got(r.control) && scope == r.scope && budget == r.left else a == Threw(r.code)
    }

    method Run(body: seq<Stmt>, depth: nat) returns (a: Answered<Control>)
      requires budget >= 0 && BoundedScope(scope)
      modifies this
      ensures Executed(a, Statements(body, depth, old(scope), old(budget)))
      decreases budget, 2
    {
      hide One, BoundedScope;
      var i := 0;
      while i < |body|
        invariant 0 <= i <= |body| && 0 <= budget <= old(budget) && BoundedScope(scope)
        invariant Statements(body, depth, old(scope), old(budget)) == Statements(body[i..], depth, scope, budget)
        decreases |body| - i
      {
        var ok := Step(depth);
        if !ok {
          return Threw(OperationLimit);
        }
        a := RunOne(body[i], depth);
        if a.Threw? || a.value != Next {
          return;
        }
        assert body[i..][1..] == body[i + 1..];
        i := i + 1;
      }
      a := Got(Next);
    }

    method RunOne(s: Stmt, depth: nat) returns (a: Answered<Control>)
      requires budget >= 0 && BoundedScope(scope)
      modifies this
      ensures Executed(a, One(s, depth, old(scope), old(budget)))
      decreases budget, 3
    {
      hide Expression, Statements, ForSteps, WhileSteps, Iterable, CodeValidator.Binary;
      match s
      case Return(result) =>
        if result.None? {
          var ok := Step(depth + 1);
          return Threw(if ok then UnboundName else OperationLimit);
        }
        var v := Evaluate(result.value, depth + 1);
        EvaluationSteps(result.value, depth + 1, old(scope), old(budget));
        a := if v.Got? then Got(Returned(v.value)) else Threw(v.code);
      case Break => a := Got(Broke);
      case Continue => a := Got(Continued);
      case Assign(target, e) =>
        var v := Evaluate(e, depth + 1);
        if v.Threw? {
          return Threw(v.code);
        }
        scope := scope[target := v.value];
        a := Got(Next);
      case AugAssign(target, op, e) =>
        if target !in scope || !Number(scope[target]) {
          return Threw(TypeFailure);
        }
        var v := Evaluate(e, depth + 1);
        if v.Threw? {
          return Threw(v.code);
        }
        var w := Combine(op, scope[target], v.value);
        if w.Threw? {
          return Threw(w.code);
        }
        scope := scope[target := w.value];
        a := Got(Next);
      case If(test, body, orelse) =>
        var t := Evaluate(test, depth + 1);
        if t.Threw? {
          return Threw(t.code);
        }
        a := Run(if Truthy(t.value) then body else orelse, depth + 1);
      case For(target, iter, body, orelse) =>
        var items := EvaluateIterable(iter, depth + 1);
        if items.Threw? {
          return Threw(items.code);
        }
        a := RunFor(target, items.value, body, depth + 1);
        if a.Threw? || a.value.Returned? {
          return;
        }
        if a.value.Broke? {
          return Got(Next);
        }
        a := Run(orelse, depth + 1);
      case While(test, body, orelse) =>
        a := RunWhile(test, body, depth + 1);
        if a.Threw? || a.value.Returned? {
          return;
        }
        if a.value.Broke? {
          return Got(Next);
        }
        a := Run(orelse, depth + 1);
    }

    /** Evaluating anything starts with a step. */
    lemma {:induction false} EvaluationSteps(e: Expr, depth: nat, s: Scope, b: nat)
      ensures !CanStep(depth, b) ==> Expression(e, depth, s, b) == Stop(OperationLimit)
    {
    }

    /** A `for`'s iterations: `Broke` after a break, `Next` when the items ran out. */
    method RunFor(target: string, items: seq<Value>, body: seq<Stmt>, depth: nat) returns (a: Answered<Control>)
      requires budget >= 0 && BoundedScope(scope)
      modifies this
      ensures Executed(a, ForSteps(target, items, body, 0, depth, old(scope), old(budget)))
      decreases budget, 1
    {
      hide Statements, Bounded;
      var count := 0;
      while true
        invariant 0 <= count <= |items| && 0 <= budget <= old(budget) && BoundedScope(scope)
        invariant ForSteps(target, items, body, 0, depth, old(scope), old(budget))
               == ForSteps(target, items[count..], body, count, depth, scope, budget)
        decreases budget
      {
        var ok := Step(depth);
        if !ok {
          return Threw(OperationLimit);
        }
        if count == |items| {
          return Got(Next);
        }
        var item := items[count];
        if !Bounded(item) {
          return Threw(ValueLimit);
        }
        assert items[count..][1..] == items[count + 1..];
        scope := scope[target := item];
        count := count + 1;
        if count > MAX_ITERATIONS {
          return Threw(IterationLimit);
        }
        a := Run(body, depth);
        if a.Threw? || a.value.Returned? || a.value.Broke? {
          return;
        }
      }
    }

    method RunWhile(test: Expr, body: seq<Stmt>, depth: nat) returns (a: Answered<Control>)
      requires budget >= 0 && BoundedScope(scope)
      modifies this
      ensures Executed(a, WhileSteps(test, body, 0, depth, old(scope), old(budget)))
      decreases budget, 1
    {
      hide Statements, Expression, BoundedScope;
      var count := 0;
      while true
        invariant 0 <= budget <= old(budget) && 0 <= count && BoundedScope(scope)
        invariant WhileSteps(test, body, 0, depth, old(scope), old(budget))
               == WhileSteps(test, body, count, depth, scope, budget)
        decreases budget
      {
        var ok := Step(depth);
        if !ok {
          return Threw(OperationLimit);
        }
        var t := Evaluate(test, depth);
        if t.Threw? {
          return Threw(t.code);
        }
        if !Truthy(t.value) {
          return Got(Next);
        }
        count := count + 1;
        if count > MAX_ITERATIONS {
          return Threw(IterationLimit);
        }
        a := Run(body, depth);
        if a.Threw? || a.value.Returned? || a.value.Broke? {
          return;
        }
      }
    }
  }

  /** One case under the source's budget. */
  method RunFunction(f: Function, args: seq<Value>) returns (r: Outcome)
    ensures r == RunCase(f, args, MAX_STEPS)
  {
    hide Statements;
    if |args| != |f.params| {
      return ArgumentMismatch;
    }
    if !(forall v <- args :: Bounded(v)) {
      return Rejected(ValueLimit);
    }
    BindBounded(f.params, args);
    var machine := new Interpreter(Bind(f.params, args), MAX_STEPS);
    var a := machine.Run(f.body, 0);
    match a
    case Threw(code) => r := Rejected(code);
    case Got(control) =>
      if control.Returned? {
        r := Result(control.v, machine.budget);
      } else {
        r := MissingReturn;
      }
  }

  datatype Case = Case(arguments: seq<Value>, expected: Value)

  /** What parsing came to: a tree, or the code it was refused with. */
  datatype Parsed = Tree(tree: Function) | Unparsed(code: string)

  /** What is returned beside a refusal. */
  datatype Failure = NotParsed(code: string) | CaseRejected(outcome: Outcome) | TestFailed

  /** What one case finds wrong. */
  function Finding(f: Function, c: Case): Option<Failure> {
    var r := RunCase(f, c.arguments, MAX_STEPS);
    if !r.Result? then Some(CaseRejected(r)) else if r.v != c.expected then Some(TestFailed) else None
  }

  /**
   A validated function returns exactly the expected value, type included, in every case.
   Otherwise the failure is that of the parsing or of the first case that finds one.
   */
  method ValidateFunction(parsed: Parsed, cases: seq<Case>) returns (failure: Option<Failure>)
    ensures parsed.Unparsed? ==> failure == Some(NotParsed(parsed.code))
    ensures parsed.Tree? ==> (failure.None? <==> forall k | 0 <= k < |cases| :: Finding(parsed.tree, cases[k]).None?)
    ensures parsed.Tree? && failure.Some? ==>
              exists k :: 0 <= k < |cases| && failure == Finding(parsed.tree, cases[k])
                          && forall j | 0 <= j < k :: Finding(parsed.tree, cases[j]).None?
  {
    hide RunCase;
    if parsed.Unparsed? {
      return Some(NotParsed(parsed.code));
    }
    var f := parsed.tree;
    for i := 0 to |cases|
      invariant forall k | 0 <= k < i :: Finding(f, cases[k]).None?
    {
      var r := RunFunction(f, cases[i].arguments);
      if !r.Result? {
        return Some(CaseRejected(r));
      }
      SameValueIsIdentity(r.v, cases[i].expected);
      if !SameValue(r.v, cases[i].expected) {
        return Some(TestFailed);
      }
    }
    return None;
  }
}
