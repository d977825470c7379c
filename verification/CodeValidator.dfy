/**
 The bounded interpreter of fair/quality/code_validator.py: static checks, evaluation
 under a step budget, and what a validated run means.

 `Eval` and `Exec` specify the evaluator; `budget` is the number of steps left, and every
 evaluation and every statement charges one.  Class `Interpreter` (Machine.dfy) runs them
 on a mutable scope and budget.
 */
module CodeValidator {
  import opened Options
  import opened PythonSubset

  datatype Code =
    | OperationLimit | ValueLimit | IterationLimit | TypeFailure | UnboundName
    | RuntimeFailure

  const MAX_LIST := 64
  const MAX_STEPS := 4096
  const MAX_ITERATIONS := 1024
  const MAX_DEPTH := 20

  /** Two to the 256th: a larger magnitude has more than 256 bits. */
  const TOO_WIDE: int := 0x1_0000000000000000_0000000000000000_0000000000000000_0000000000000000

  predicate BoundedNumber(v: Value) {
    Number(v) && (v.Int? ==> -TOO_WIDE < v.i < TOO_WIDE)
  }

  predicate Bounded(v: Value) {
    if v.List? then |v.items| <= MAX_LIST && forall item <- v.items :: BoundedNumber(item)
    else BoundedNumber(v)
  }

  /** Type-exact equality: True is not 1. */
  predicate SameValue(a: Value, b: Value) {
    match (a, b)
    case (Int(i), Int(j)) => i == j
    case (Bool(p), Bool(q)) => p == q
    case (List(xs), List(ys)) => |xs| == |ys| && forall k | 0 <= k < |xs| :: SameValue(xs[k], ys[k])
    case _ => false
  }

  lemma {:induction false} SameValueIsIdentity(a: Value, b: Value)
    ensures SameValue(a, b) <==> a == b
  {
    if a.List? && b.List? && |a.items| == |b.items| {
      forall k | 0 <= k < |a.items| ensures SameValue(a.items[k], b.items[k]) <==> a.items[k] == b.items[k] {
        SameValueIsIdentity(a.items[k], b.items[k]);
      }
    }
  }

  // ---------- expressions under a budget ----------

  /** A value with the steps left, or the code of a rejection. */
  datatype Eval = Val(v: Value, left: nat) | Stop(code: Code)
  datatype Evals = Vals(vs: seq<Value>, left: nat) | Stopped(code: Code)

  predicate CanStep(depth: nat, budget: nat) {
    budget > 0 && depth <= MAX_DEPTH
  }

  /** Let a value through only if it is bounded. */
  function Check(r: Eval): (c: Eval)
    ensures c.Val? ==> c == r && Bounded(c.v)
  {
    if r.Val? && !Bounded(r.v) then Stop(ValueLimit) else r
  }

  /** Python's own answer, its exception turned into a rejection. */
  function Answer(v: Option<Value>, left: nat): Eval {
    if v.Some? then Val(v.value, left) else Stop(RuntimeFailure)
  }

  function Binary(op: BinOp, l: Value, r: Value, left: nat): Eval {
    if l.List? || r.List? then
      if op.Add? && l.List? && r.List? then
        if |l.items| + |r.items| > MAX_LIST then Stop(ValueLimit) else Val(List(l.items + r.items), left)
      else Stop(TypeFailure)
    else Check(Answer(PyBinary(op, l, r), left))
  }

  function Expression(e: Expr, depth: nat, scope: Scope, budget: nat): (r: Eval)
    ensures r.Val? ==> r.left < budget && Bounded(r.v)
    decreases budget, 0
  {
    if !CanStep(depth, budget) then Stop(OperationLimit) else Check(Node(e, depth, scope, budget - 1))
  }

  function Node(e: Expr, depth: nat, scope: Scope, budget: nat): (r: Eval)
    ensures r.Val? ==> r.left <= budget
    decreases budget, 2, 0
  {
    match e
    case Const(v) => Val(v, budget)
    case Name(id) => if id in scope then Val(scope[id], budget) else Stop(UnboundName)
    case ListOf(elts) =>
      if |elts| > MAX_LIST then Stop(ValueLimit) else
      var vs := Expressions(elts, depth + 1, scope, budget);
      if vs.Stopped? then Stop(vs.code) else Val(List(vs.vs), vs.left)
    case Subscript(value, slice) =>
      var s := Expression(value, depth + 1, scope, budget);
      if s.Stop? then s else
      var k := Expression(slice, depth + 1, scope, s.left);
      if k.Stop? then k
      else if !s.v.List? || !Number(k.v) then Stop(TypeFailure)
      else Answer(PyIndex(s.v.items, Num(k.v)), k.left)
    case Call(func, args) =>
      var vs := Expressions(args, depth + 1, scope, budget);
      if vs.Stopped? then Stop(vs.code) else Invoke(func, vs.vs, depth, vs.left)
    case Bin(op, left, right) =>
      var l := Expression(left, depth + 1, scope, budget);
      if l.Stop? then l else
      var r := Expression(right, depth + 1, scope, l.left);
      if r.Stop? then r else Binary(op, l.v, r.v, r.left)
    case Unary(op, operand) =>
      var v := Expression(operand, depth + 1, scope, budget);
      if v.Stop? then v else Answer(PyUnary(op, v.v), v.left)
    case IfExp(test, body, orelse) =>
      var t := Expression(test, depth + 1, scope, budget);
      if t.Stop? then t else Expression(if Truthy(t.v) then body else orelse, depth + 1, scope, t.left)
    case And(values) => if values == [] then Stop(RuntimeFailure) else Shortcut(values, false, depth + 1, scope, budget)
    case Or(values) => if values == [] then Stop(RuntimeFailure) else Shortcut(values, true, depth + 1, scope, budget)
    case Compare(first, rest) =>
      var l := Expression(first, depth + 1, scope, budget);
      if l.Stop? then l else Comparisons(l.v, rest, depth + 1, scope, l.left)
  }

  function Expressions(es: seq<Expr>, depth: nat, scope: Scope, budget: nat): (r: Evals)
    ensures r.Vals? ==> r.left <= budget && |r.vs| == |es| && forall v <- r.vs :: Bounded(v)
    decreases budget, 1, |es|
  {
    if es == [] then Vals([], budget)
    else
      var v := Expression(es[0], depth, scope, budget);
      if v.Stop? then Stopped(v.code) else
      var vs := Expressions(es[1..], depth, scope, v.left);
      if vs.Stopped? then vs else Vals([v.v] + vs.vs, vs.left)
  }

  function Shortcut(es: seq<Expr>, stop: bool, depth: nat, scope: Scope, budget: nat): (r: Eval)
    requires es != []
    ensures r.Val? ==> r.left <= budget
    decreases budget, 1, |es|
  {
    var v := Expression(es[0], depth, scope, budget);
    if v.Stop? || Truthy(v.v) == stop || |es| == 1 then v else Shortcut(es[1..], stop, depth, scope, v.left)
  }

  function Comparisons(left: Value, rest: seq<(CmpOp, Expr)>, depth: nat, scope: Scope, budget: nat): (r: Eval)
    ensures r.Val? ==> r.left <= budget
    decreases budget, 1, |rest|
  {
    if rest == [] then Val(Bool(true), budget)
    else
      var right := Expression(rest[0].1, depth, scope, budget);
      if right.Stop? then right else
      var holds := PyCompare(rest[0].0, left, right.v);
      if holds.None? then Stop(RuntimeFailure)
      else if !holds.value then Val(Bool(false), right.left)
      else Comparisons(right.v, rest[1..], depth, scope, right.left)
  }

  /** `sum`: one step and one bound check for every item. */
  function Total(total: int, items: seq<Value>, depth: nat, budget: nat): (r: Eval)
    requires NumbersOnly(items)
    ensures r.Val? ==> r.left <= budget
    decreases |items|
  {
    if items == [] then Val(Int(total), budget)
    else if !CanStep(depth, budget) then Stop(OperationLimit)
    else if !Bounded(Int(total + Num(items[0]))) then Stop(ValueLimit)
    else Total(total + Num(items[0]), items[1..], depth, budget - 1)
  }

  function Invoke(func: Builtin, args: seq<Value>, depth: nat, budget: nat): (r: Eval)
    requires forall v <- args :: Bounded(v)
    ensures r.Val? ==> r.left <= budget
  {
    if func == Sum && |args| == 1 && args[0].List? then
      assert Bounded(args[0]);
      Total(0, args[0].items, depth, budget)
    else
      var v := Builtins(func, args);
      if v.Some? then Val(v.value, budget) else Stop(TypeFailure)
  }

  /** What a `for` walks over, and the steps left after evaluating it. */
  datatype Items = Items(vs: seq<Value>, left: nat) | NoItems(code: Code)

  /** How many values `range(start, stop, step)` has. */
  function RangeCount(start: int, stop: int, step: int): (n: nat)
    requires step != 0
  {
    if step > 0 then (if start < stop then (stop - start - 1) / step + 1 else 0)
    else (if start > stop then (start - stop - 1) / (-step) + 1 else 0)
  }

  /** The count the limit is checked against is the number of values walked over. */
  lemma {:induction false} RangeHasCount(start: int, stop: int, step: int)
    requires step != 0
    ensures |PyRange(start, stop, step)| == RangeCount(start, stop, step)
    decreases if step > 0 then stop - start else start - stop
  {
    if if step > 0 then start < stop else start > stop {
      RangeHasCount(start + step, stop, step);
      var gap := if step > 0 then stop - start - 1 else start - stop - 1;
      var width := if step > 0 then step else -step;
      OneStepLess(gap, width);
    }
  }

  lemma {:induction false} OneStepLess(gap: nat, width: nat)
    requires width > 0
    ensures gap >= width ==> (gap - width) / width + 1 == gap / width
    ensures gap < width ==> gap / width == 0
  {
    if gap >= width {
      assert gap == width * (gap / width) + gap % width;
      var q := gap / width - 1;
      assert gap - width == width * q + gap % width by {
        assert width * (gap / width) == width * q + width;
      }
      DivisionUnique(gap - width, width, q, gap % width);
    } else {
      DivisionUnique(gap, width, 0, gap);
    }
  }

  lemma {:induction false} DivisionUnique(n: nat, width: nat, q: int, r: nat)
    requires width > 0 && n == width * q + r && r < width
    ensures n / width == q
  {
    FloorLaw(n, width, q, r);
  }

  function Iterable(iter: Expr, depth: nat, scope: Scope, budget: nat): (r: Items)
    ensures r.Items? ==> r.left <= budget
  {
    if iter.Call? && iter.func == Range then
      var args := Expressions(iter.args, depth + 1, scope, budget);
      if args.Stopped? then NoItems(args.code)
      else if !(1 <= |args.vs| <= 3) || !NumbersOnly(args.vs) then NoItems(TypeFailure)
      else
        var a := RangeArgs(args.vs);
        if a.None? then NoItems(RuntimeFailure)
        else if RangeCount(a.value.0, a.value.1, a.value.2) > MAX_ITERATIONS then NoItems(IterationLimit)
        else Items(PyRange(a.value.0, a.value.1, a.value.2), args.left)
    else
      var v := Expression(iter, depth + 1, scope, budget);
      if v.Stop? then NoItems(v.code) else if !v.v.List? then NoItems(TypeFailure) else Items(v.v.items, v.left)
  }

  // ---------- statements under a budget ----------

  datatype Exec = Ran(control: Control, scope: Scope, left: nat) | Halt(code: Code)

  predicate BoundedScope(scope: Scope) {
    forall id <- scope :: Bounded(scope[id])
  }

  predicate BoundedControl(c: Control) {
    c.Returned? ==> Bounded(c.v)
  }

  /** The rest of a run keeps the steps within the budget and everything stored or returned bounded. */
  predicate Kept(r: Exec, budget: nat) {
    r.Ran? ==> r.left <= budget && BoundedScope(r.scope) && BoundedControl(r.control)
  }

  function Statements(body: seq<Stmt>, depth: nat, scope: Scope, budget: nat): (r: Exec)
    requires BoundedScope(scope)
    ensures Kept(r, budget)
    decreases budget, 2
  {
    if body == [] then Ran(Next, scope, budget)
    else if !CanStep(depth, budget) then Halt(OperationLimit)
    else
      var first := One(body[0], depth, scope, budget - 1);
      if first.Ran? && first.control == Next then Statements(body[1..], depth, first.scope, first.left) else first
  }

  function One(s: Stmt, depth: nat, scope: Scope, budget: nat): (r: Exec)
    requires BoundedScope(scope)
    ensures Kept(r, budget)
    decreases budget, 3
  {
    match s
    case Return(result) =>
      if !CanStep(depth + 1, budget) then Halt(OperationLimit)
      else if result.None? then Halt(UnboundName)
      else
        var v := Expression(result.value, depth + 1, scope, budget);
        if v.Stop? then Halt(v.code) else Ran(Returned(v.v), scope, v.left)
    case Break => Ran(Broke, scope, budget)
    case Continue => Ran(Continued, scope, budget)
    case Assign(target, e) =>
      var v := Expression(e, depth + 1, scope, budget);
      if v.Stop? then Halt(v.code) else Ran(Next, scope[target := v.v], v.left)
    case AugAssign(target, op, e) =>
      if target !in scope || !Number(scope[target]) then Halt(TypeFailure)
      else
        var v := Expression(e, depth + 1, scope, budget);
        if v.Stop? then Halt(v.code) else
        var b := Binary(op, scope[target], v.v, v.left);
        if b.Stop? then Halt(b.code) else Ran(Next, scope[target := b.v], b.left)
    case If(test, body, orelse) =>
      var t := Expression(test, depth + 1, scope, budget);
      if t.Stop? then Halt(t.code)
      else Statements(if Truthy(t.v) then body else orelse, depth + 1, scope, t.left)
    case For(target, iter, body, orelse) =>
      var items := Iterable(iter, depth + 1, scope, budget);
      if items.NoItems? then Halt(items.code)
      else
        var loop := ForSteps(target, items.vs, body, 0, depth + 1, scope, items.left);
        Otherwise(loop, orelse, depth + 1, budget)
    case While(test, body, orelse) =>
      Otherwise(WhileSteps(test, body, 0, depth + 1, scope, budget), orelse, depth + 1, budget)
  }

  /** After a loop: `Next` means it ran out and its `else` runs. */
  function Otherwise(loop: Exec, orelse: seq<Stmt>, depth: nat, budget: nat): (r: Exec)
    requires loop.Ran? ==> loop.left < budget && BoundedScope(loop.scope) && BoundedControl(loop.control)
    ensures Kept(r, budget)
    decreases budget, 2
  {
    if loop.Halt? then loop
    else match loop.control
         case Broke => Ran(Next, loop.scope, loop.left)
         case Returned(_) => loop
         case _ => Statements(orelse, depth, loop.scope, loop.left)
  }

  function ForSteps(target: string, items: seq<Value>, body: seq<Stmt>, count: nat, depth: nat, scope: Scope, budget: nat)
    : (r: Exec)
    requires BoundedScope(scope)
    ensures Kept(r, budget) && (r.Ran? ==> r.left < budget)
    decreases budget, 1
  {
    if !CanStep(depth, budget) then Halt(OperationLimit)
    else if items == [] then Ran(Next, scope, budget - 1)
    else if !Bounded(items[0]) then Halt(ValueLimit)
    else if count + 1 > MAX_ITERATIONS then Halt(IterationLimit)
    else
      var once := Statements(body, depth, scope[target := items[0]], budget - 1);
      if once.Halt? || once.control.Returned? || once.control.Broke? then once
      else ForSteps(target, items[1..], body, count + 1, depth, once.scope, once.left)
  }

  function WhileSteps(test: Expr, body: seq<Stmt>, count: nat, depth: nat, scope: Scope, budget: nat): (r: Exec)
    requires BoundedScope(scope)
    ensures Kept(r, budget) && (r.Ran? ==> r.left < budget)
    decreases budget, 1
  {
    if !CanStep(depth, budget) then Halt(OperationLimit)
    else
      var t := Expression(test, depth, scope, budget - 1);
      if t.Stop? then Halt(t.code)
      else if !Truthy(t.v) then Ran(Next, scope, t.left)
      else if count + 1 > MAX_ITERATIONS then Halt(IterationLimit)
      else
        var once := Statements(body, depth, scope, t.left);
        if once.Halt? || once.control.Returned? || once.control.Broke? then once
        else WhileSteps(test, body, count + 1, depth, once.scope, once.left)
  }

  // ---------- one case ----------

  /** CODE_MISSING_RETURN and CODE_ARGUMENT_MISMATCH come from the case itself, all other codes from its body. */
  datatype Outcome = Result(v: Value, left: nat) | Rejected(code: Code) | MissingReturn | ArgumentMismatch

  function RunCase(f: Function, args: seq<Value>, budget: nat): (r: Outcome)
    ensures r.Result? ==> Bounded(r.v) && r.left <= budget
  {
    if |args| != |f.params| then ArgumentMismatch
    else if !(forall v <- args :: Bounded(v)) then Rejected(ValueLimit)
    else
      BindBounded(f.params, args);
      var r := Statements(f.body, 0, Bind(f.params, args), budget);
      if r.Halt? then Rejected(r.code)
      else if r.control.Returned? then Result(r.control.v, r.left)
      else MissingReturn
  }

  lemma {:induction false} BindBounded(params: seq<string>, args: seq<Value>)
    requires |params| == |args| && forall v <- args :: Bounded(v)
    ensures BoundedScope(Bind(params, args))
  {
    if params != [] {
      BindBounded(params[..|params| - 1], args[..|args| - 1]);
    }
  }

  // ---------- static checks ----------

  /** Break and continue stand inside a loop; a loop's `else` is outside it. */
  predicate LoopControls(body: seq<Stmt>, loops: nat) {
    forall k | 0 <= k < |body| :: LoopControl(body[k], loops)
  }

  predicate LoopControl(s: Stmt, loops: nat) {
    match s
    case Break => loops > 0
    case Continue => loops > 0
    case If(_, body, orelse) => LoopControls(body, loops) && LoopControls(orelse, loops)
    case For(_, _, body, orelse) => LoopControls(body, loops + 1) && LoopControls(orelse, loops)
    case While(_, body, orelse) => LoopControls(body, loops + 1) && LoopControls(orelse, loops)
    case _ => true
  }

  /** Inside a loop every statement may stand. */
  lemma {:induction false} LoopsAllowAll(body: seq<Stmt>, loops: nat)
    requires loops > 0
    ensures LoopControls(body, loops)
    decreases body
  {
    forall k | 0 <= k < |body| ensures LoopControl(body[k], loops) {
      LoopAllows(body[k], loops);
    }
  }

  lemma {:induction false} LoopAllows(s: Stmt, loops: nat)
    requires loops > 0
    ensures LoopControl(s, loops)
    decreases s
  {
    match s
    case If(_, body, orelse) => LoopsAllowAll(body, loops); LoopsAllowAll(orelse, loops);
    case For(_, _, body, orelse) => LoopsAllowAll(body, loops + 1); LoopsAllowAll(orelse, loops);
    case While(_, body, orelse) => LoopsAllowAll(body, loops + 1); LoopsAllowAll(orelse, loops);
    case _ =>
  }

  /** What the check refuses: a break or continue that no loop's body holds, be it in a branch or a loop's `else`. */
  lemma {:induction false} LooseControls(s: Stmt)
    ensures LoopControl(s, 0) <==>
              match s
              case Break => false
              case Continue => false
              case If(_, body, orelse) => LoopControls(body, 0) && LoopControls(orelse, 0)
              case For(_, _, _, orelse) => LoopControls(orelse, 0)
              case While(_, _, orelse) => LoopControls(orelse, 0)
              case _ => true
  {
    match s
    case For(_, _, body, _) => LoopsAllowAll(body, 1);
    case While(_, body, _) => LoopsAllowAll(body, 1);
    case _ =>
  }

  predicate Escapes(c: Control) {
    c.Broke? || c.Continued?
  }

  lemma {:induction false} StatementsStay(body: seq<Stmt>, depth: nat, scope: Scope, budget: nat)
    requires BoundedScope(scope) && LoopControls(body, 0)
    ensures var r := Statements(body, depth, scope, budget); r.Ran? ==> !Escapes(r.control)
    decreases budget, 2
  {
    hide One, Expression, LoopControl;
    if body != [] && CanStep(depth, budget) {
      OneStays(body[0], depth, scope, budget - 1);
      var first := One(body[0], depth, scope, budget - 1);
      if first.Ran? && first.control == Next {
        StatementsStay(body[1..], depth, first.scope, first.left);
      }
    }
  }

  lemma {:induction false} OneStays(s: Stmt, depth: nat, scope: Scope, budget: nat)
    requires BoundedScope(scope) && LoopControl(s, 0)
    ensures var r := One(s, depth, scope, budget); r.Ran? ==> !Escapes(r.control)
    decreases budget, 3
  {
    hide Expression, Statements, ForSteps, WhileSteps, Iterable, Binary, LoopControls;
    match s
    case If(test, body, orelse) =>
      var t := Expression(test, depth + 1, scope, budget);
      if t.Val? {
        StatementsStay(if Truthy(t.v) then body else orelse, depth + 1, scope, t.left);
      }
    case For(target, iter, body, orelse) =>
      var items := Iterable(iter, depth + 1, scope, budget);
      if items.Items? {
        var loop := ForSteps(target, items.vs, body, 0, depth + 1, scope, items.left);
        if loop.Ran? {
          StatementsStay(orelse, depth + 1, loop.scope, loop.left);
        }
      }
    case While(test, body, orelse) =>
      var loop := WhileSteps(test, body, 0, depth + 1, scope, budget);
      if loop.Ran? {
        StatementsStay(orelse, depth + 1, loop.scope, loop.left);
      }
    case _ =>
  }

  /** What `parse_function` still asks of a tree of this syntax. */
  predicate Accepted(f: Function) {
    |f.params| <= 8 && LoopControls(f.body, 0)
  }

  ghost predicate FallsOffEnd(f: Function, args: seq<Value>, budget: nat)
    requires |args| == |f.params| && BoundedScope(Bind(f.params, args))
  {
    var r := Statements(f.body, 0, Bind(f.params, args), budget);
    r.Ran? && r.control == Next
  }

  /**
   Every accepted function ends within its budget: in a bounded value, in falling off its
   end, or in a rejection; break and continue never reach the top.
   */
  lemma {:induction false} AcceptedEnds(f: Function, args: seq<Value>, budget: nat)
    requires Accepted(f) && |args| == |f.params| && forall v <- args :: Bounded(v)
    ensures BoundedScope(Bind(f.params, args))
    ensures var r := RunCase(f, args, budget);
            && (r.Result? ==> Bounded(r.v) && r.left <= budget)
            && (r == MissingReturn ==> FallsOffEnd(f, args, budget))
            && r != ArgumentMismatch
  {
    BindBounded(f.params, args);
    StatementsStay(f.body, 0, Bind(f.params, args), budget);
  }
}
