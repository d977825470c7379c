/**
 That the limits of the bounded interpreter (fair/quality/code_validator.py) refuse nothing
 else: an expression that is shallow and short enough, and computes nothing too large, has
 exactly Python's value.
 */
module Limits {
  import opened Options
  import opened PythonSubset
  import opened CodeValidator
  import opened Refinement

  // ---------- how deep and how long an expression is ----------

  /** How many levels of expressions lie below `e`. */
  function Height(e: Expr): nat
    decreases e, 1
  {
    match e
    case Const(_) => 0
    case Name(_) => 0
    case ListOf(elts) => 1 + Heights(e, elts)
    case Subscript(value, slice) => 1 + More(Height(value), Height(slice))
    case Call(_, args) => 1 + Heights(e, args)
    case Bin(_, left, right) => 1 + More(Height(left), Height(right))
    case Unary(_, operand) => 1 + Height(operand)
    case IfExp(test, body, orelse) => 1 + More(Height(test), More(Height(body), Height(orelse)))
    case And(values) => 1 + Heights(e, values)
    case Or(values) => 1 + Heights(e, values)
    case Compare(first, rest) => 1 + More(Height(first), HeightsRest(e, rest))
  }

  function Heights(whole: Expr, es: seq<Expr>): nat
    requires forall k | 0 <= k < |es| :: es[k] < whole
    decreases whole, 0, |es|
  {
    if es == [] then 0 else More(Height(es[0]), Heights(whole, es[1..]))
  }

  function HeightsRest(whole: Expr, rest: seq<(CmpOp, Expr)>): nat
    requires forall k | 0 <= k < |rest| :: rest[k].1 < whole
    decreases whole, 0, |rest|
  {
    if rest == [] then 0 else More(Height(rest[0].1), HeightsRest(whole, rest[1..]))
  }

  /** One step for every expression in `e`, and one for every item a call may add up. */
  function Steps(e: Expr): (n: nat)
    ensures n > 0
    decreases e, 1
  {
    match e
    case Const(_) => 1
    case Name(_) => 1
    case ListOf(elts) => 1 + StepsAll(e, elts)
    case Subscript(value, slice) => 1 + Steps(value) + Steps(slice)
    case Call(_, args) => 1 + StepsAll(e, args) + MAX_LIST
    case Bin(_, left, right) => 1 + Steps(left) + Steps(right)
    case Unary(_, operand) => 1 + Steps(operand)
    case IfExp(test, body, orelse) => 1 + Steps(test) + Steps(body) + Steps(orelse)
    case And(values) => 1 + StepsAll(e, values)
    case Or(values) => 1 + StepsAll(e, values)
    case Compare(first, rest) => 1 + Steps(first) + StepsRest(e, rest)
  }

  function StepsAll(whole: Expr, es: seq<Expr>): nat
    requires forall k | 0 <= k < |es| :: es[k] < whole
    decreases whole, 0, |es|
  {
    if es == [] then 0 else Steps(es[0]) + StepsAll(whole, es[1..])
  }

  function StepsRest(whole: Expr, rest: seq<(CmpOp, Expr)>): nat
    requires forall k | 0 <= k < |rest| :: rest[k].1 < whole
    decreases whole, 0, |rest|
  {
    if rest == [] then 0 else Steps(rest[0].1) + StepsRest(whole, rest[1..])
  }

  /** A result that costs at most `steps`, and no refusal for want of steps or for iterations. */
  predicate Paid(r: Eval, budget: nat, steps: nat) {
    if r.Val? then r.left + steps >= budget else r.code != OperationLimit && r.code != IterationLimit
  }

  predicate PaidAll(r: Evals, budget: nat, steps: nat) {
    if r.Vals? then r.left + steps >= budget else r.code != OperationLimit && r.code != IterationLimit
  }

  lemma {:induction false} ExpressionPaid(e: Expr, depth: nat, scope: Scope, budget: nat)
    requires depth + Height(e) <= MAX_DEPTH && budget >= Steps(e)
    ensures Paid(Expression(e, depth, scope, budget), budget, Steps(e))
    decreases e, 3
  {
    NodePaid(e, depth, scope, budget - 1);
  }

  lemma {:induction false} NodePaid(e: Expr, depth: nat, scope: Scope, budget: nat)
    requires depth + Height(e) <= MAX_DEPTH && budget + 1 >= Steps(e)
    ensures Paid(Node(e, depth, scope, budget), budget, Steps(e) - 1)
    decreases e, 2
  {
    if e.ListOf? || e.Call? || e.And? || e.Or? || e.Compare? {
      ManyPaid(e, depth, scope, budget);
    } else {
      FewPaid(e, depth, scope, budget);
    }
  }

  lemma {:induction false} ManyPaid(e: Expr, depth: nat, scope: Scope, budget: nat)
    requires depth + Height(e) <= MAX_DEPTH && budget + 1 >= Steps(e) && (e.ListOf? || e.Call? || e.And? || e.Or? || e.Compare?)
    ensures Paid(Node(e, depth, scope, budget), budget, Steps(e) - 1)
    decreases e, 1
  {
    hide Expression, Expressions, Shortcut, Comparisons, Invoke;
    match e
    case ListOf(elts) => ExpressionsPaid(e, elts, depth + 1, scope, budget);
    case Call(func, args) =>
      ExpressionsPaid(e, args, depth + 1, scope, budget);
      var vs := Expressions(args, depth + 1, scope, budget);
      if vs.Vals? {
        InvokePaid(func, vs.vs, depth, vs.left);
      }
    case And(values) =>
      if values != [] {
        ShortcutPaid(e, values, false, depth + 1, scope, budget);
      }
    case Or(values) =>
      if values != [] {
        ShortcutPaid(e, values, true, depth + 1, scope, budget);
      }
    case Compare(first, rest) =>
      ExpressionPaid(first, depth + 1, scope, budget);
      var l := Expression(first, depth + 1, scope, budget);
      if l.Val? {
        ComparisonsPaid(e, l.v, rest, depth + 1, scope, l.left);
      }
    case _ =>
  }

  lemma {:induction false} FewPaid(e: Expr, depth: nat, scope: Scope, budget: nat)
    requires depth + Height(e) <= MAX_DEPTH && budget + 1 >= Steps(e) && !e.ListOf? && !e.Call? && !e.And? && !e.Or? && !e.Compare?
    ensures Paid(Node(e, depth, scope, budget), budget, Steps(e) - 1)
    decreases e, 1
  {
    hide Expression, Binary, PyIndex, PyUnary;
    match e
    case Subscript(value, slice) => PairPaid(e, value, slice, depth + 1, scope, budget);
    case Bin(op, left, right) =>
      PairPaid(e, left, right, depth + 1, scope, budget);
      var l := Expression(left, depth + 1, scope, budget);
      if l.Val? {
        var r := Expression(right, depth + 1, scope, l.left);
        if r.Val? {
          BinaryPaid(op, l.v, r.v, r.left);
        }
      }
    case Unary(op, operand) => ExpressionPaid(operand, depth + 1, scope, budget);
    case IfExp(test, body, orelse) =>
      ExpressionPaid(test, depth + 1, scope, budget);
      var t := Expression(test, depth + 1, scope, budget);
      if t.Val? {
        ExpressionPaid(if Truthy(t.v) then body else orelse, depth + 1, scope, t.left);
      }
    case _ =>
  }

  lemma {:induction false} PairPaid(whole: Expr, a: Expr, b: Expr, depth: nat, scope: Scope, budget: nat)
    requires a < whole && b < whole
    requires depth + Height(a) <= MAX_DEPTH && depth + Height(b) <= MAX_DEPTH && budget >= Steps(a) + Steps(b)
    ensures var l := Expression(a, depth, scope, budget);
            Paid(l, budget, Steps(a)) && (l.Val? ==> Paid(Expression(b, depth, scope, l.left), l.left, Steps(b)))
    decreases whole, 0
  {
    ExpressionPaid(a, depth, scope, budget);
    var l := Expression(a, depth, scope, budget);
    if l.Val? {
      ExpressionPaid(b, depth, scope, l.left);
    }
  }

  lemma {:induction false} ExpressionsPaid(whole: Expr, es: seq<Expr>, depth: nat, scope: Scope, budget: nat)
    requires forall k | 0 <= k < |es| :: es[k] < whole
    requires depth + Heights(whole, es) <= MAX_DEPTH && budget >= StepsAll(whole, es)
    ensures PaidAll(Expressions(es, depth, scope, budget), budget, StepsAll(whole, es))
    decreases whole, 0, |es|
  {
    hide Expression;
    if es != [] {
      ExpressionPaid(es[0], depth, scope, budget);
      var v := Expression(es[0], depth, scope, budget);
      if v.Val? {
        ExpressionsPaid(whole, es[1..], depth, scope, v.left);
      }
    }
  }

  lemma {:induction false} ShortcutPaid(whole: Expr, es: seq<Expr>, stop: bool, depth: nat, scope: Scope, budget: nat)
    requires es != [] && forall k | 0 <= k < |es| :: es[k] < whole
    requires depth + Heights(whole, es) <= MAX_DEPTH && budget >= StepsAll(whole, es)
    ensures Paid(Shortcut(es, stop, depth, scope, budget), budget, StepsAll(whole, es))
    decreases whole, 0, |es|
  {
    hide Expression;
    ExpressionPaid(es[0], depth, scope, budget);
    var v := Expression(es[0], depth, scope, budget);
    if v.Val? && Truthy(v.v) != stop && |es| > 1 {
      ShortcutPaid(whole, es[1..], stop, depth, scope, v.left);
    }
  }

  lemma {:induction false} ComparisonsPaid(whole: Expr, left: Value, rest: seq<(CmpOp, Expr)>, depth: nat, scope: Scope, budget: nat)
    requires forall k | 0 <= k < |rest| :: rest[k].1 < whole
    requires depth + HeightsRest(whole, rest) <= MAX_DEPTH && budget >= StepsRest(whole, rest)
    ensures Paid(Comparisons(left, rest, depth, scope, budget), budget, StepsRest(whole, rest))
    decreases whole, 0, |rest|
  {
    hide Expression, PyCompare;
    if rest != [] {
      ExpressionPaid(rest[0].1, depth, scope, budget);
      var right := Expression(rest[0].1, depth, scope, budget);
      if right.Val? && PyCompare(rest[0].0, left, right.v) == Some(true) {
        ComparisonsPaid(whole, right.v, rest[1..], depth, scope, right.left);
      }
    }
  }

  lemma {:induction false} BinaryPaid(op: BinOp, l: Value, r: Value, left: nat)
    ensures Paid(Binary(op, l, r, left), left, 0)
  {
  }

  lemma {:induction false} TotalPaid(total: int, items: seq<Value>, depth: nat, budget: nat)
    requires NumbersOnly(items) && depth <= MAX_DEPTH && budget >= |items|
    ensures Paid(Total(total, items, depth, budget), budget, |items|)
    decreases |items|
  {
    if items != [] {
      TotalPaid(total + Num(items[0]), items[1..], depth, budget - 1);
    }
  }

  lemma {:induction false} InvokePaid(func: Builtin, args: seq<Value>, depth: nat, budget: nat)
    requires (forall v <- args :: Bounded(v)) && depth <= MAX_DEPTH && budget >= MAX_LIST
    ensures Paid(Invoke(func, args, depth, budget), budget, MAX_LIST)
  {
    hide Builtins;
    if func == Sum && |args| == 1 && args[0].List? {
      assert Bounded(args[0]);
      TotalPaid(0, args[0].items, depth, budget);
    }
  }

  // ---------- what is too large ----------

  /** Evaluating `e` comes upon a value out of bounds: its own, an operand's, or a sum on its way. */
  ghost predicate Exceeds(e: Expr, scope: Scope)
    decreases e, 1
  {
    || (Meaning(e, scope).Some? && !Bounded(Meaning(e, scope).value))
    || match e
       case Const(_) => false
       case Name(_) => false
       case ListOf(elts) => |elts| > MAX_LIST || ExceedsAny(e, elts, scope)
       case Subscript(value, slice) => Exceeds(value, scope) || (Meaning(value, scope).Some? && Exceeds(slice, scope))
       case Call(func, args) =>
         || ExceedsAny(e, args, scope)
         || (func == Sum && |args| == 1 && Meaning(args[0], scope).Some? && SumExceeds(Meaning(args[0], scope).value))
       case Bin(_, left, right) => Exceeds(left, scope) || (Meaning(left, scope).Some? && Exceeds(right, scope))
       case Unary(_, operand) => Exceeds(operand, scope)
       case IfExp(test, body, orelse) =>
         || Exceeds(test, scope)
         || (Meaning(test, scope).Some? && Exceeds(if Truthy(Meaning(test, scope).value) then body else orelse, scope))
       case And(values) => ExceedsUntil(e, values, false, scope)
       case Or(values) => ExceedsUntil(e, values, true, scope)
       case Compare(first, rest) =>
         Exceeds(first, scope) || (Meaning(first, scope).Some? && ExceedsChain(e, Meaning(first, scope).value, rest, scope))
  }

  ghost predicate ExceedsAny(whole: Expr, es: seq<Expr>, scope: Scope)
    requires forall k | 0 <= k < |es| :: es[k] < whole
    decreases whole, 0, |es|
  {
    es != [] && (Exceeds(es[0], scope) || (Meaning(es[0], scope).Some? && ExceedsAny(whole, es[1..], scope)))
  }

  ghost predicate ExceedsUntil(whole: Expr, es: seq<Expr>, stop: bool, scope: Scope)
    requires forall k | 0 <= k < |es| :: es[k] < whole
    decreases whole, 0, |es|
  {
    && es != []
    && (|| Exceeds(es[0], scope)
        || (Meaning(es[0], scope).Some? && Truthy(Meaning(es[0], scope).value) != stop && ExceedsUntil(whole, es[1..], stop, scope)))
  }

  ghost predicate ExceedsChain(whole: Expr, left: Value, rest: seq<(CmpOp, Expr)>, scope: Scope)
    requires forall k | 0 <= k < |rest| :: rest[k].1 < whole
    decreases whole, 0, |rest|
  {
    && rest != []
    && (|| Exceeds(rest[0].1, scope)
        || (Meaning(rest[0].1, scope).Some? && PyCompare(rest[0].0, left, Meaning(rest[0].1, scope).value) == Some(true)
            && ExceedsChain(whole, Meaning(rest[0].1, scope).value, rest[1..], scope)))
  }

  /** Some sum of the first items is out of bounds. */
  ghost predicate SumExceeds(v: Value) {
    v.List? && NumbersOnly(v.items) && exists k | 0 <= k <= |v.items| :: !Bounded(Int(SumItems(v.items[..k])))
  }

  lemma {:induction false} ExpressionExceeds(e: Expr, depth: nat, scope: Scope, budget: nat)
    requires Expression(e, depth, scope, budget) == Stop(ValueLimit)
    ensures Exceeds(e, scope)
    decreases e, 2
  {
    var r := Node(e, depth, scope, budget - 1);
    if r.Val? {
      NodeAgrees(e, depth, scope, budget - 1);
    } else {
      NodeExceeds(e, depth, scope, budget - 1);
    }
  }

  lemma {:induction false} NodeExceeds(e: Expr, depth: nat, scope: Scope, budget: nat)
    requires Node(e, depth, scope, budget) == Stop(ValueLimit)
    ensures Exceeds(e, scope)
    decreases e, 1
  {
    hide Expression, Expressions, Shortcut, Comparisons, Invoke, Binary, PyIndex, PyUnary, PyBinary, Meaning, Builtins, SumExceeds;
    match e
    case ListOf(elts) =>
      if |elts| <= MAX_LIST {
        ExpressionsExceed(e, elts, depth + 1, scope, budget);
      }
    case Subscript(value, slice) => PairExceeds(e, value, slice, depth + 1, scope, budget);
    case Call(func, args) =>
      var vs := Expressions(args, depth + 1, scope, budget);
      if vs.Stopped? {
        ExpressionsExceed(e, args, depth + 1, scope, budget);
      } else {
        ExpressionsAgree(e, args, depth + 1, scope, budget);
        InvokeExceeds(func, vs.vs, depth, vs.left);
        OnlyArgument(e, args, scope);
      }
    case Bin(op, left, right) =>
      var l := Expression(left, depth + 1, scope, budget);
      if l.Val? && Expression(right, depth + 1, scope, l.left).Val? {
        ExpressionAgrees(left, depth + 1, scope, budget);
        ExpressionAgrees(right, depth + 1, scope, l.left);
        var r := Expression(right, depth + 1, scope, l.left);
        BinaryExceeds(op, l.v, r.v, r.left);
        BinMeans(op, left, right, scope);
      } else {
        PairExceeds(e, left, right, depth + 1, scope, budget);
      }
    case Unary(op, operand) => ExpressionExceeds(operand, depth + 1, scope, budget);
    case IfExp(test, body, orelse) =>
      var t := Expression(test, depth + 1, scope, budget);
      if t.Val? {
        ExpressionAgrees(test, depth + 1, scope, budget);
        ExpressionExceeds(if Truthy(t.v) then body else orelse, depth + 1, scope, t.left);
      } else {
        ExpressionExceeds(test, depth + 1, scope, budget);
      }
    case And(values) => ShortcutExceeds(e, values, false, depth + 1, scope, budget);
    case Or(values) => ShortcutExceeds(e, values, true, depth + 1, scope, budget);
    case Compare(first, rest) =>
      var l := Expression(first, depth + 1, scope, budget);
      if l.Val? {
        ExpressionAgrees(first, depth + 1, scope, budget);
        ComparisonsExceed(e, l.v, rest, depth + 1, scope, l.left);
      } else {
        ExpressionExceeds(first, depth + 1, scope, budget);
      }
    case _ =>
  }

  lemma {:induction false} BinMeans(op: BinOp, left: Expr, right: Expr, scope: Scope)
    ensures var l, r := Meaning(left, scope), Meaning(right, scope);
            l.Some? && r.Some? ==> Meaning(Bin(op, left, right), scope) == PyBinary(op, l.value, r.value)
  {
  }

  /** A call's only argument is what it means. */
  lemma {:induction false} OnlyArgument(whole: Expr, args: seq<Expr>, scope: Scope)
    requires forall k | 0 <= k < |args| :: args[k] < whole
    ensures |args| == 1 && Meanings(whole, args, scope).Some? ==> Meaning(args[0], scope) == Some(Meanings(whole, args, scope).value[0])
  {
  }

  lemma {:induction false} PairExceeds(whole: Expr, a: Expr, b: Expr, depth: nat, scope: Scope, budget: nat)
    requires a < whole && b < whole
    requires var l := Expression(a, depth, scope, budget);
             l == Stop(ValueLimit) || (l.Val? && Expression(b, depth, scope, l.left) == Stop(ValueLimit))
    ensures Exceeds(a, scope) || (Meaning(a, scope).Some? && Exceeds(b, scope))
    decreases whole, 0
  {
    var l := Expression(a, depth, scope, budget);
    if l.Val? {
      ExpressionAgrees(a, depth, scope, budget);
      ExpressionExceeds(b, depth, scope, l.left);
    } else {
      ExpressionExceeds(a, depth, scope, budget);
    }
  }

  lemma {:induction false} ExpressionsExceed(whole: Expr, es: seq<Expr>, depth: nat, scope: Scope, budget: nat)
    requires forall k | 0 <= k < |es| :: es[k] < whole
    requires Expressions(es, depth, scope, budget) == Stopped(ValueLimit)
    ensures ExceedsAny(whole, es, scope)
    decreases whole, 0, |es|
  {
    hide Expression, Meaning, Exceeds;
    var v := Expression(es[0], depth, scope, budget);
    if v.Val? {
      ExpressionAgrees(es[0], depth, scope, budget);
      ExpressionsExceed(whole, es[1..], depth, scope, v.left);
    } else {
      ExpressionExceeds(es[0], depth, scope, budget);
    }
  }

  lemma {:induction false} ShortcutExceeds(whole: Expr, es: seq<Expr>, stop: bool, depth: nat, scope: Scope, budget: nat)
    requires es != [] && forall k | 0 <= k < |es| :: es[k] < whole
    requires Shortcut(es, stop, depth, scope, budget) == Stop(ValueLimit)
    ensures ExceedsUntil(whole, es, stop, scope)
    decreases whole, 0, |es|
  {
    hide Expression, Meaning, Exceeds;
    var v := Expression(es[0], depth, scope, budget);
    if v.Val? {
      ExpressionAgrees(es[0], depth, scope, budget);
      ShortcutExceeds(whole, es[1..], stop, depth, scope, v.left);
    } else {
      ExpressionExceeds(es[0], depth, scope, budget);
    }
  }

  lemma {:induction false} ComparisonsExceed(whole: Expr, left: Value, rest: seq<(CmpOp, Expr)>, depth: nat, scope: Scope, budget: nat)
    requires forall k | 0 <= k < |rest| :: rest[k].1 < whole
    requires Comparisons(left, rest, depth, scope, budget) == Stop(ValueLimit)
    ensures ExceedsChain(whole, left, rest, scope)
    decreases whole, 0, |rest|
  {
    hide Expression, Meaning, Exceeds, PyCompare;
    var right := Expression(rest[0].1, depth, scope, budget);
    if right.Val? {
      ExpressionAgrees(rest[0].1, depth, scope, budget);
      ComparisonsExceed(whole, right.v, rest[1..], depth, scope, right.left);
    } else {
      ExpressionExceeds(rest[0].1, depth, scope, budget);
    }
  }

  lemma {:induction false} BinaryExceeds(op: BinOp, l: Value, r: Value, left: nat)
    requires Binary(op, l, r, left) == Stop(ValueLimit)
    ensures PyBinary(op, l, r).Some? && !Bounded(PyBinary(op, l, r).value)
  {
  }

  lemma {:induction false} TotalExceeds(seen: seq<Value>, items: seq<Value>, depth: nat, budget: nat)
    requires NumbersOnly(seen) && NumbersOnly(items) && Total(SumItems(seen), items, depth, budget) == Stop(ValueLimit)
    ensures SumExceeds(List(seen + items))
    decreases |items|
  {
    var next := seen + [items[0]];
    assert next[..|seen|] == seen;
    assert seen + items == next + items[1..];
    assert (next + items[1..])[..|next|] == next;
    if Bounded(Int(SumItems(next))) {
      TotalExceeds(next, items[1..], depth, budget - 1);
    }
  }

  lemma {:induction false} InvokeExceeds(func: Builtin, args: seq<Value>, depth: nat, budget: nat)
    requires (forall v <- args :: Bounded(v)) && Invoke(func, args, depth, budget) == Stop(ValueLimit)
    ensures func == Sum && |args| == 1 && SumExceeds(args[0])
  {
    hide Builtins, SumExceeds;
    assert Bounded(args[0]);
    assert [] + args[0].items == args[0].items;
    TotalExceeds([], args[0].items, depth, budget);
  }

  /**
   An expression no more than twenty levels deep, with steps enough for all of it, that comes
   upon nothing out of bounds: the interpreter's value is Python's, and where Python has none
   the refusal says so.
   */
  lemma {:induction false} ExpressionIsComputed(e: Expr, depth: nat, scope: Scope, budget: nat)
    requires depth + Height(e) <= MAX_DEPTH && budget >= Steps(e) && !Exceeds(e, scope)
    ensures var r := Expression(e, depth, scope, budget);
            if Meaning(e, scope).Some? then r.Val? && r.v == Meaning(e, scope).value else r.Stop? && Raises(r.code)
  {
    hide Expression, Meaning, Exceeds;
    ExpressionAgrees(e, depth, scope, budget);
    ExpressionPaid(e, depth, scope, budget);
    if Expression(e, depth, scope, budget) == Stop(ValueLimit) {
      ExpressionExceeds(e, depth, scope, budget);
    }
  }
}
