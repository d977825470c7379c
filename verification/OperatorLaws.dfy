/**
 Laws of the operators that the interpreter of fair/quality/code_validator.py borrows from
 Python, stated without the functions that compute them, and whole programs of the subset
 whose results are known in closed form.
 */
module OperatorLaws {
  import opened Options
  import opened PythonSubset
  import opened CodeValidator

  // ---------- range ----------

  /** The `k`th value of a range is `k` steps from its start. */
  lemma {:induction false} RangeWalks(start: int, stop: int, step: int, k: nat)
    requires step != 0 && k < |PyRange(start, stop, step)|
    ensures PyRange(start, stop, step)[k] == Int(start + k * step)
    decreases k
  {
    if k > 0 {
      RangeWalks(start + step, stop, step, k - 1);
      assert start + step + (k - 1) * step == start + k * step;
    }
  }

  /** From `start` towards `stop`, short of it. */
  predicate Between(start: int, stop: int, step: int, x: int) {
    if step > 0 then start <= x < stop else stop < x <= start
  }

  /** One divisor less leaves the same remainder. */
  lemma {:induction false} SameRemainder(n: int, d: int)
    requires d != 0
    ensures ModFloor(n - d, d) == ModFloor(n, d)
  {
    DivFloorPair(n, d);
    assert d * (DivFloor(n, d) - 1) == d * DivFloor(n, d) - d;
    FloorLaw(n - d, d, DivFloor(n, d) - 1, ModFloor(n, d));
  }

  /** A multiple of `d` on its side of zero is no nearer than `d`. */
  lemma {:induction false} MultipleReaches(n: int, d: int)
    requires d != 0 && ModFloor(n, d) == 0 && (if d > 0 then n > 0 else n < 0)
    ensures if d > 0 then n >= d else n <= d
  {
    MultipleFar(d, DivFloor(n, d));
  }

  /** A number is in a range exactly when it lies between and whole steps from the start lead to it. */
  lemma {:induction false} RangeMembers(start: int, stop: int, step: int, x: int)
    requires step != 0
    ensures Int(x) in PyRange(start, stop, step) <==> Between(start, stop, step, x) && ModFloor(x - start, step) == 0
    decreases if step > 0 then stop - start else start - stop
  {
    if if step > 0 then start < stop else start > stop {
      RangeMembers(start + step, stop, step, x);
      SameRemainder(x - start, step);
      assert x - (start + step) == x - start - step;
      if x == start {
        FloorLaw(0, step, 0, 0);
      } else if Between(start, stop, step, x) && ModFloor(x - start, step) == 0 {
        MultipleReaches(x - start, step);
      }
    }
  }

  // ---------- arithmetic ----------

  /** Addition and multiplication as repeated steps, subtraction as the inverse, `//` and `%` by Python's law. */
  lemma {:induction false} ArithmeticLaw(a: int, b: int, q: int, r: int)
    ensures Arithmetic(Add, a, 0) == Some(a) && Arithmetic(Mult, a, 0) == Some(0)
    ensures Arithmetic(Add, a, b + 1) == Some(Arithmetic(Add, a, b).value + 1)
    ensures Arithmetic(Mult, a, b + 1) == Arithmetic(Add, Arithmetic(Mult, a, b).value, a)
    ensures Arithmetic(Add, Arithmetic(Sub, a, b).value, b) == Some(a)
    ensures Arithmetic(FloorDiv, a, b) == Some(q) && Arithmetic(Mod, a, b) == Some(r) <==> b != 0 && FloorPair(a, b, q, r)
    ensures Arithmetic(FloorDiv, a, b).None? <==> b == 0
    ensures Arithmetic(Mod, a, b).None? <==> b == 0
  {
    if b != 0 {
      FloorLaw(a, b, q, r);
    }
  }

  // ---------- the order of numbers and of lists of numbers ----------

  /** Two numbers, or two lists of numbers. */
  predicate Comparable(a: Value, b: Value) {
    || (Number(a) && Number(b))
    || (a.List? && b.List? && NumbersOnly(a.items) && NumbersOnly(b.items))
  }

  /** The lists agree before `k`, and there the first ends or holds the smaller number. */
  predicate BelowAt(xs: seq<Value>, ys: seq<Value>, k: nat)
    requires NumbersOnly(xs) && NumbersOnly(ys)
  {
    && k <= |xs| && k < |ys| && (forall j | 0 <= j < k :: Num(xs[j]) == Num(ys[j]))
    && (k < |xs| ==> Num(xs[k]) < Num(ys[k]))
  }

  lemma {:induction false} ItemsCompare(whole: Value, xs: seq<Value>, ys: seq<Value>)
    requires NumbersOnly(xs) && NumbersOnly(ys) && forall k | 0 <= k < |xs| :: xs[k] < whole
    ensures ItemsLess(whole, xs, ys).Some?
    ensures ItemsLess(whole, xs, ys).value <==> exists k: nat :: BelowAt(xs, ys, k)
    decreases |xs|
  {
    if xs == [] || ys == [] || Num(xs[0]) != Num(ys[0]) {
      assert BelowAt(xs, ys, 0) <==> (ys != [] && (xs == [] || Num(xs[0]) < Num(ys[0])));
    } else {
      ItemsCompare(whole, xs[1..], ys[1..]);
      if k: nat :| BelowAt(xs[1..], ys[1..], k) {
        assert forall j | 1 <= j < k + 1 :: xs[j] == xs[1..][j - 1] && ys[j] == ys[1..][j - 1];
        assert BelowAt(xs, ys, k + 1);
      }
      if k: nat :| BelowAt(xs, ys, k) {
        assert BelowAt(xs[1..], ys[1..], k - 1);
      }
    }
  }

  /** Smaller: by value, and for lists at the first place where they differ. */
  ghost predicate Below(a: Value, b: Value)
    requires Comparable(a, b)
  {
    if Number(a) then Num(a) < Num(b) else exists k: nat :: BelowAt(a.items, b.items, k)
  }

  /** As long, and the same number everywhere; a bool counts as 0 or 1. */
  predicate Alike(a: Value, b: Value)
    requires Comparable(a, b)
  {
    if Number(a) then Num(a) == Num(b)
    else |a.items| == |b.items| && forall k | 0 <= k < |a.items| :: Num(a.items[k]) == Num(b.items[k])
  }

  /** What every comparison says; a number against a list is an error for all but `==` and `!=`. */
  lemma {:induction false} CompareLaw(a: Value, b: Value)
    ensures Comparable(a, b) ==>
              && PyCompare(Eq, a, b) == Some(Alike(a, b)) && PyCompare(NotEq, a, b) == Some(!Alike(a, b))
              && PyCompare(Lt, a, b) == Some(Below(a, b)) && PyCompare(Gt, a, b) == Some(Below(b, a))
              && PyCompare(LtE, a, b) == Some(Below(a, b) || Alike(a, b))
              && PyCompare(GtE, a, b) == Some(Below(b, a) || Alike(a, b))
    ensures Number(a) != Number(b) ==>
              && PyCompare(Eq, a, b) == Some(false) && PyCompare(NotEq, a, b) == Some(true)
              && forall op | op !in {Eq, NotEq} :: PyCompare(op, a, b) == None
  {
    if Comparable(a, b) {
      if a.List? {
        ItemsCompare(a, a.items, b.items);
        ItemsCompare(b, b.items, a.items);
        assert forall k | 0 <= k < |a.items| && k < |b.items| ::
            PyEqual(a.items[k], b.items[k]) <==> Num(a.items[k]) == Num(b.items[k]);
      }
      OneOfThree(a, b);
    }
  }

  lemma {:induction false} FirstDifference(xs: seq<Value>, ys: seq<Value>) returns (k: nat)
    requires NumbersOnly(xs) && NumbersOnly(ys)
    ensures BelowAt(xs, ys, k) || BelowAt(ys, xs, k) || Alike(List(xs), List(ys))
  {
    k := 0;
    if xs != [] && ys != [] && Num(xs[0]) == Num(ys[0]) {
      var rest := FirstDifference(xs[1..], ys[1..]);
      k := rest + 1;
      assert forall j | 0 < j < |xs| :: xs[j] == xs[1..][j - 1];
      assert forall j | 0 < j < |ys| :: ys[j] == ys[1..][j - 1];
    }
  }

  /** Of two comparable values exactly one is smaller, or they are alike. */
  lemma {:induction false} OneOfThree(a: Value, b: Value)
    requires Comparable(a, b)
    ensures Below(a, b) || Below(b, a) || Alike(a, b)
    ensures !(Below(a, b) && Below(b, a)) && !(Below(a, b) && Alike(a, b)) && !(Below(b, a) && Alike(a, b))
  {
    if a.List? {
      var k := FirstDifference(a.items, b.items);
      if i: nat, j: nat :| BelowAt(a.items, b.items, i) && BelowAt(b.items, a.items, j) {
        assert i <= j || j <= i;
      }
    }
  }

  lemma {:induction false} BelowTransitive(a: Value, b: Value, c: Value)
    requires Comparable(a, b) && Comparable(b, c) && Below(a, b) && Below(b, c)
    ensures Comparable(a, c) && Below(a, c)
  {
    if a.List? {
      var i: nat :| BelowAt(a.items, b.items, i);
      var j: nat :| BelowAt(b.items, c.items, j);
      assert BelowAt(a.items, c.items, if i <= j then i else j);
    }
  }

  // ---------- lists ----------

  /** An item is found from the front and from the back; every index outside raises. */
  lemma {:induction false} IndexLaw(front: seq<Value>, v: Value, back: seq<Value>, index: int)
    ensures var items := front + [v] + back;
            && PyIndex(items, |front|) == Some(v) && PyIndex(items, -|back| - 1) == Some(v)
            && (PyIndex(items, index).None? <==> index >= |items| || index < -|items|)
  {
  }

  /** The first item that no other is less than. */
  ghost predicate FirstLeast(items: seq<Value>, k: nat)
    requires NumbersOnly(items)
  {
    && k < |items| && (forall j | 0 <= j < |items| :: Num(items[k]) <= Num(items[j]))
    && forall j | 0 <= j < k :: Num(items[k]) < Num(items[j])
  }

  ghost predicate FirstGreatest(items: seq<Value>, k: nat)
    requires NumbersOnly(items)
  {
    && k < |items| && (forall j | 0 <= j < |items| :: Num(items[k]) >= Num(items[j]))
    && forall j | 0 <= j < k :: Num(items[k]) > Num(items[j])
  }

  lemma {:induction false} LeastIsFirst(items: seq<Value>) returns (k: nat)
    requires items != [] && NumbersOnly(items)
    ensures FirstLeast(items, k) && LeastItem(items) == items[k]
  {
    if |items| == 1 {
      k := 0;
    } else {
      k := LeastIsFirst(items[..|items| - 1]);
      assert forall j | 0 <= j < |items| - 1 :: items[..|items| - 1][j] == items[j];
      if Num(items[|items| - 1]) < Num(items[k]) {
        k := |items| - 1;
      }
    }
  }

  lemma {:induction false} GreatestIsFirst(items: seq<Value>) returns (k: nat)
    requires items != [] && NumbersOnly(items)
    ensures FirstGreatest(items, k) && GreatestItem(items) == items[k]
  {
    if |items| == 1 {
      k := 0;
    } else {
      k := GreatestIsFirst(items[..|items| - 1]);
      assert forall j | 0 <= j < |items| - 1 :: items[..|items| - 1][j] == items[j];
      if Num(items[|items| - 1]) > Num(items[k]) {
        k := |items| - 1;
      }
    }
  }

  lemma {:induction false} SumLaw(a: seq<Value>, b: seq<Value>, v: Value)
    requires NumbersOnly(a) && NumbersOnly(b) && Number(v)
    ensures SumItems([]) == 0 && SumItems([v]) == Num(v) && SumItems(a + b) == SumItems(a) + SumItems(b)
  {
    if b == [] {
      assert a + b == a;
    } else {
      assert (a + b)[..|a + b| - 1] == a + b[..|b| - 1];
      SumLaw(a, b[..|b| - 1], v);
    }
    assert [v][..0] == [];
  }

  /** The items with the value `n`, in order. */
  function WithValue(items: seq<Value>, n: int): (r: seq<Value>)
    requires NumbersOnly(items)
  {
    if items == [] then []
    else
      var last := items[|items| - 1];
      WithValue(items[..|items| - 1], n) + if Num(last) == n then [last] else []
  }

  lemma {:induction false} InsertStable(sorted: seq<Value>, v: Value, n: int)
    requires NumbersOnly(sorted) && Number(v)
    ensures WithValue(Insert(sorted, v), n) == WithValue(sorted, n) + if Num(v) == n then [v] else []
  {
    if sorted != [] && Num(sorted[|sorted| - 1]) > Num(v) {
      var front, last := sorted[..|sorted| - 1], sorted[|sorted| - 1];
      InsertStable(front, v, n);
      assert (Insert(front, v) + [last])[..|Insert(front, v)|] == Insert(front, v);
    } else {
      assert (sorted + [v])[..|sorted|] == sorted;
      assert WithValue(sorted + [v], n) == WithValue(sorted, n) + if Num(v) == n then [v] else [];
    }
  }

  /** Sorting keeps items of one value (1 and True) in their order. */
  lemma {:induction false} SortIsStable(items: seq<Value>, n: int)
    requires NumbersOnly(items)
    ensures WithValue(SortItems(items), n) == WithValue(items, n)
  {
    if items != [] {
      var front, last := items[..|items| - 1], items[|items| - 1];
      SortIsStable(front, n);
      InsertStable(SortItems(front), last, n);
    }
  }

  /** `not` tells the empty and the zero from the rest; a sign undone is zero; lists have no sign. */
  lemma {:induction false} UnaryLaw(v: Value)
    ensures PyUnary(Not, v) == Some(Bool(v == Int(0) || v == Bool(false) || v == List([])))
    ensures Number(v) ==> PyUnary(UAdd, v) == PyBinary(Add, v, Int(0))
    ensures Number(v) ==> PyUnary(USub, v).Some? && PyBinary(Add, v, PyUnary(USub, v).value) == Some(Int(0))
    ensures v.List? ==> PyUnary(UAdd, v) == PyUnary(USub, v) == None
  {
  }

  /** `abs`, `len`, `min`, `max` on their arguments and on a list of them. */
  lemma {:induction false} BuiltinLaw(v: Value, vs: seq<Value>)
    ensures Number(v) ==> exists n: nat :: (n == Num(v) || n == -Num(v)) && Builtins(Abs, [v]) == Some(Int(n))
    ensures Builtins(Len, [List(vs)]) == Some(Int(|vs|))
    ensures |vs| >= 2 && NumbersOnly(vs) ==>
              && Builtins(Min, vs) == Builtins(Min, [List(vs)]) == Some(LeastItem(vs))
              && Builtins(Max, vs) == Builtins(Max, [List(vs)]) == Some(GreatestItem(vs))
    ensures Builtins(Min, [List([])]) == Builtins(Max, [List([])]) == None
    ensures NumbersOnly(vs) ==> Builtins(Sum, [List(vs)]) == Some(Int(SumItems(vs))) && Builtins(Sorted, [List(vs)]) == Some(List(SortItems(vs)))
  {
    if Number(v) {
      var n: nat := if Num(v) < 0 then -Num(v) else Num(v);
      assert Builtins(Abs, [v]) == Some(Int(n));
    }
  }

  // ---------- expressions that mean the same ----------

  /** `and` and `or`, from what their operands mean. */
  lemma {:induction false} TwoOperands(a: Expr, b: Expr, scope: Scope)
    ensures var l, r := Meaning(a, scope), Meaning(b, scope);
            && Meaning(And([a, b]), scope) == (if l.None? || !Truthy(l.value) then l else r)
            && Meaning(Or([a, b]), scope) == (if l.None? || Truthy(l.value) then l else r)
  {
    var all, any := And([a, b]), Or([a, b]);
    assert all.values[1..] == [b] && any.values[1..] == [b];
    assert ShortCircuit(all, [b], false, scope) == ShortCircuit(any, [b], true, scope) == Meaning(b, scope);
    assert ShortCircuit(all, all.values, false, scope) == Meaning(all, scope);
    assert ShortCircuit(any, any.values, true, scope) == Meaning(any, scope);
  }

  /** A comparison of two values already computed. */
  function Compared(p: CmpOp, l: Option<Value>, r: Option<Value>): Option<bool> {
    if l.None? || r.None? then None else PyCompare(p, l.value, r.value)
  }

  lemma {:induction false} OneComparison(whole: Expr, left: Value, p: CmpOp, b: Expr, scope: Scope)
    requires b < whole
    ensures Chain(whole, left, [(p, b)], scope) ==
            (var holds := Compared(p, Some(left), Meaning(b, scope)); if holds.None? then None else Some(Bool(holds.value)))
  {
    hide PyCompare, Meaning;
    assert [(p, b)][1..] == [];
    assert Chain(whole, left, [], scope) == Some(Bool(true));
  }

  /** `a op b op c` is `a op b and b op c`. */
  lemma {:induction false} ChainIsConjunction(a: Expr, p: CmpOp, b: Expr, q: CmpOp, c: Expr, scope: Scope)
    ensures Meaning(Compare(a, [(p, b), (q, c)]), scope) == Meaning(And([Compare(a, [(p, b)]), Compare(b, [(q, c)])]), scope)
  {
    hide PyCompare;
    var whole, first, second := Compare(a, [(p, b), (q, c)]), Compare(a, [(p, b)]), Compare(b, [(q, c)]);
    TwoOperands(first, second, scope);
    var l, r := Meaning(a, scope), Meaning(b, scope);
    assert whole.rest[1] == (q, c) && whole.rest[1..] == [(q, c)];
    assert first.rest[0] == (p, b) && second.rest[0] == (q, c);
    if l.Some? {
      OneComparison(first, l.value, p, b, scope);
    }
    if r.Some? {
      OneComparison(second, r.value, q, c, scope);
      OneComparison(whole, r.value, q, c, scope);
    }
  }

  /** `not (a and b)` is `not a or not b`, and the other way round. */
  lemma {:induction false} DeMorgan(a: Expr, b: Expr, scope: Scope)
    ensures Meaning(Unary(Not, And([a, b])), scope) == Meaning(Or([Unary(Not, a), Unary(Not, b)]), scope)
    ensures Meaning(Unary(Not, Or([a, b])), scope) == Meaning(And([Unary(Not, a), Unary(Not, b)]), scope)
  {
    TwoOperands(a, b, scope);
    TwoOperands(Unary(Not, a), Unary(Not, b), scope);
  }

  /** `a and b` is `b if a else a`; `a or b` is `a if a else b`. */
  lemma {:induction false} ShortCircuits(a: Expr, b: Expr, scope: Scope)
    ensures Meaning(And([a, b]), scope) == Meaning(IfExp(a, b, a), scope)
    ensures Meaning(Or([a, b]), scope) == Meaning(IfExp(a, a, b), scope)
  {
    TwoOperands(a, b, scope);
  }

  // ---------- a sum, step by step under the budget ----------

  /** total = 0; for i in range(n): total += i; return total */
  const ADDING := [AugAssign("total", Add, Name("i"))]
  const TRIANGLE := Function(["n"], [
    Assign("total", Const(Int(0))),
    For("i", Call(Range, [Name("n")]), ADDING, []),
    Return(Some(Name("total")))])

  /** The sum of the numbers below `n`. */
  function Triangle(n: int): int { if n <= 0 then 0 else n * (n - 1) / 2 }

  lemma {:induction false} Product(k: nat)
    requires 0 < k <= MAX_ITERATIONS
    ensures 0 <= k * (k - 1) <= 0x200000
  {
    assert 0 <= k * (k - 1) <= k * 1024 <= 1024 * 1024;
  }

  lemma {:induction false} NextTriangle(k: nat)
    requires k <= MAX_ITERATIONS
    ensures Triangle(k + 1) == Triangle(k) + k && 0 <= Triangle(k) <= 0x100000
  {
    if k > 0 {
      var twice := k * (k - 1);
      assert (k + 1) * k == twice + 2 * k;
      Product(k);
    }
  }

  predicate Adding(scope: Scope, n: int, k: nat) {
    && BoundedScope(scope) && "n" in scope && scope["n"] == Int(n)
    && "total" in scope && scope["total"] == Int(Triangle(k))
  }

  lemma {:induction false} OneAddition(scope: Scope, n: int, k: nat, budget: nat)
    requires Adding(scope, n, k) && k <= MAX_ITERATIONS && budget >= 2
    ensures BoundedScope(scope["i" := Int(k)])
    ensures var r := Statements(ADDING, 1, scope["i" := Int(k)], budget);
            r.Ran? && r.control == Next && r.left == budget - 2 && Adding(r.scope, n, k + 1)
  {
    NextTriangle(k);
    var now := scope["i" := Int(k)];
    assert BoundedScope(now);
    assert Expression(Name("i"), 2, now, budget - 1) == Val(Int(k), budget - 2);
    assert ADDING[1..] == [];
  }

  lemma {:induction false} Additions(items: seq<Value>, scope: Scope, n: int, k: nat, budget: nat)
    requires k + |items| <= MAX_ITERATIONS && budget > 3 * |items| && Adding(scope, n, k)
    requires forall j | 0 <= j < |items| :: items[j] == Int(k + j)
    ensures var r := ForSteps("i", items, ADDING, k, 1, scope, budget);
            r.Ran? && r.control == Next && r.left == budget - 3 * |items| - 1 && Adding(r.scope, n, k + |items|)
    decreases |items|
  {
    hide Statements, Triangle;
    if items != [] {
      assert items[0] == Int(k);
      OneAddition(scope, n, k, budget - 1);
      var once := Statements(ADDING, 1, scope["i" := items[0]], budget - 1);
      Additions(items[1..], once.scope, n, k + 1, once.left);
    }
  }

  lemma {:induction false} OverRange(n: int, budget: nat)
    requires n <= MAX_ITERATIONS && budget >= 4090 && Bounded(Int(n))
    ensures var scope: Scope := map["n" := Int(n), "total" := Int(0)];
            BoundedScope(scope) &&
            var r := One(TRIANGLE.body[1], 0, scope, budget);
            r.Ran? && r.control == Next && r.left >= 2 && "total" in r.scope && r.scope["total"] == Int(Triangle(n))
  {
    hide Triangle, Statements, ForSteps, PyRange;
    var scope: Scope := map["n" := Int(n), "total" := Int(0)];
    var items := PyRange(0, n, 1);
    RangeHasCount(0, n, 1);
    forall j | 0 <= j < |items| ensures items[j] == Int(j) {
      RangeWalks(0, n, 1, j);
    }
    RangeOf("n", n, 1, scope, budget);
    assert Triangle(0) == 0 && (n <= 0 ==> Triangle(n) == 0) by {
      TriangleOfNone(0);
      TriangleOfNone(n);
    }
    Additions(items, scope, n, 0, budget - 1);
    NoElse(ForSteps("i", items, ADDING, 0, 1, scope, budget - 1), 1, budget);
  }

  lemma {:induction false} TriangleOfNone(n: int)
    ensures n <= 0 ==> Triangle(n) == 0
  {
  }

  /** A loop without `else` that ran out goes on behind it. */
  lemma {:induction false} NoElse(loop: Exec, depth: nat, budget: nat)
    requires loop.Ran? && loop.control == Next && loop.left < budget && BoundedScope(loop.scope)
    ensures Otherwise(loop, [], depth, budget) == loop
  {
  }

  /** `range(name)` costs one step and is refused beyond the iteration limit. */
  lemma {:induction false} RangeOf(name: string, n: int, depth: nat, scope: Scope, budget: nat)
    requires BoundedScope(scope) && name in scope && scope[name] == Int(n) && depth < MAX_DEPTH && budget > 0
    ensures Iterable(Call(Range, [Name(name)]), depth, scope, budget) ==
            if n > MAX_ITERATIONS then NoItems(IterationLimit) else Items(PyRange(0, n, 1), budget - 1)
  {
    hide PyRange;
    assert Expression(Name(name), depth + 1, scope, budget) == Val(Int(n), budget - 1);
    assert [Name(name)][1..] == [];
    assert Expressions([Name(name)], depth + 1, scope, budget) == Vals([Int(n)], budget - 1);
  }

  /**
   `total = 0`, `for i in range(n): total += i`, `return total` is n(n - 1) / 2 for every n up
   to 1024, within its 4096 steps, and refused for every larger one.
   */
  lemma {:induction false} TriangleIsComputed(n: int)
    ensures var r := RunCase(TRIANGLE, [Int(n)], MAX_STEPS);
            if !Bounded(Int(n)) then r == Rejected(ValueLimit)
            else if n > MAX_ITERATIONS then r == Rejected(IterationLimit)
            else r.Result? && r.v == Int(Triangle(n))
  {
    hide Triangle, One, ForSteps, PyRange, Iterable;
    if Bounded(Int(n)) {
      var given: Scope := map["n" := Int(n)];
      var scope: Scope := given["total" := Int(0)];
      assert Bind(["n"], [Int(n)]) == given by { assert Bind([], []) == map[]; }
      BindBounded(["n"], [Int(n)]);
      assert scope == map["n" := Int(n), "total" := Int(0)];
      AssignsZero(given, 4095);
      if n <= MAX_ITERATIONS {
        OverRange(n, 4093);
        var loop := One(TRIANGLE.body[1], 0, scope, 4093);
        ReturnsTotal(loop.scope, loop.left);
      } else {
        RangeOf("n", n, 1, scope, 4093);
        LoopRefused(scope, 4093);
      }
      assert TRIANGLE.body[1..][0] == TRIANGLE.body[1] && TRIANGLE.body[1..][1..] == [TRIANGLE.body[2]];
    }
  }

  lemma {:induction false} AssignsZero(scope: Scope, budget: nat)
    requires BoundedScope(scope) && budget > 1
    ensures One(TRIANGLE.body[0], 0, scope, budget) == Ran(Next, scope["total" := Int(0)], budget - 1)
  {
    assert Expression(Const(Int(0)), 1, scope, budget) == Val(Int(0), budget - 1);
  }

  lemma {:induction false} ReturnsTotal(scope: Scope, budget: nat)
    requires BoundedScope(scope) && "total" in scope && budget >= 2
    ensures Statements([TRIANGLE.body[2]], 0, scope, budget) == Ran(Returned(scope["total"]), scope, budget - 2)
  {
    assert Expression(Name("total"), 1, scope, budget - 1) == Val(scope["total"], budget - 2);
  }

  lemma {:induction false} LoopRefused(scope: Scope, budget: nat)
    requires BoundedScope(scope) && Iterable(Call(Range, [Name("n")]), 1, scope, budget) == NoItems(IterationLimit)
    ensures One(TRIANGLE.body[1], 0, scope, budget) == Halt(IterationLimit)
  {
    hide Iterable;
  }

  // ---------- two more programs, without limits ----------

  /** r = 1; while n > 0: r *= b; n -= 1 (and return r) */
  const MULTIPLYING := [AugAssign("r", Mult, Name("b")), AugAssign("n", Sub, Const(Int(1)))]
  const LEFT := Compare(Name("n"), [(Gt, Const(Int(0)))])
  const POWER := Function(["b", "n"], [
    Assign("r", Const(Int(1))), While(LEFT, MULTIPLYING, []), Return(Some(Name("r")))])

  function Power(b: int, n: nat): int { if n == 0 then 1 else b * Power(b, n - 1) }

  function Max0(n: int): nat { if n > 0 then n else 0 }

  predicate Multiplying(scope: Scope, b: int, n: int, r: int) {
    && "b" in scope && scope["b"] == Int(b) && "n" in scope && scope["n"] == Int(n) && "r" in scope && scope["r"] == Int(r)
  }

  lemma {:induction false} OneMultiplication(scope: Scope, b: int, n: int, r: int, fuel: nat)
    requires Multiplying(scope, b, n, r) && fuel > 0
    ensures var run := Body(MULTIPLYING, scope, fuel);
            run.Done? && run.control == Next && Multiplying(run.scope, b, n - 1, r * b)
  {
    var once := scope["r" := Int(r * b)];
    assert Statement(MULTIPLYING[0], scope, fuel) == Done(Next, once);
    assert Statement(MULTIPLYING[1], once, fuel) == Done(Next, once["n" := Int(n - 1)]);
    assert MULTIPLYING[1..] == [MULTIPLYING[1]] && [MULTIPLYING[1]][1..] == [];
    assert Body([MULTIPLYING[1]], once, fuel) == Done(Next, once["n" := Int(n - 1)]);
    assert Body(MULTIPLYING, scope, fuel) == Body([MULTIPLYING[1]], once, fuel);
  }

  lemma {:induction false} Left(scope: Scope, n: int)
    requires "n" in scope && scope["n"] == Int(n)
    ensures Meaning(LEFT, scope) == Some(Bool(n > 0))
  {
    assert LEFT.rest[0] == (Gt, Const(Int(0)));
    OneComparison(LEFT, Int(n), Gt, Const(Int(0)), scope);
  }

  lemma {:induction false} Multiplications(scope: Scope, b: int, n: int, r: int, fuel: nat)
    requires Multiplying(scope, b, n, r) && fuel > Max0(n)
    ensures var run := WhileLoop(LEFT, MULTIPLYING, scope, fuel + 1);
            run.Done? && run.control == Next && "r" in run.scope && run.scope["r"] == Int(r * Power(b, Max0(n)))
    decreases Max0(n)
  {
    hide Meaning, Body;
    Left(scope, n);
    if n > 0 {
      OneMultiplication(scope, b, n, r, fuel);
      Multiplications(Body(MULTIPLYING, scope, fuel).scope, b, n - 1, r * b, fuel - 1);
      assert r * b * Power(b, n - 1) == r * (b * Power(b, n - 1));
    }
  }

  /** The program raises `b` to the `n`th power, for every `b` and `n`. */
  lemma {:induction false} PowerIsComputed(b: int, n: int) returns (run: Run)
    ensures Ends(POWER, [Int(b), Int(n)], run) && run.Done? && run.control == Returned(Int(Power(b, Max0(n))))
  {
    hide Meaning, WhileLoop;
    var given: Scope := map["b" := Int(b), "n" := Int(n)];
    assert Bind(["b", "n"], [Int(b), Int(n)]) == given by {
      assert ["b", "n"][..1] == ["b"] && [Int(b), Int(n)][..1] == [Int(b)];
      assert Bind(["b"], [Int(b)]) == map["b" := Int(b)] by { assert Bind([], []) == map[]; }
    }
    var scope := given["r" := Int(1)];
    var fuel := Max0(n) + 3;
    MeansItself(Int(1), given);
    assert Statement(POWER.body[0], given, fuel) == Done(Next, scope);
    Multiplications(scope, b, n, 1, fuel - 2);
    var loop := WhileLoop(LEFT, MULTIPLYING, scope, fuel - 1);
    assert AfterLoop(loop, [], fuel - 1) == loop;
    assert Statement(POWER.body[1], scope, fuel) == loop;
    MeansIts("r", loop.scope);
    var tail := [POWER.body[2]];
    run := Done(Returned(loop.scope["r"]), loop.scope);
    assert Statement(POWER.body[2], loop.scope, fuel) == run;
    assert Body(tail, loop.scope, fuel) == run;
    assert POWER.body[1..][0] == POWER.body[1] && POWER.body[1..][1..] == tail;
    assert Body(POWER.body[1..], scope, fuel) == run;
    assert Body(POWER.body, given, fuel) == run;
  }

  lemma {:induction false} MeansItself(v: Value, scope: Scope)
    ensures Meaning(Const(v), scope) == Some(v)
  {
  }

  lemma {:induction false} MeansIts(name: string, scope: Scope)
    ensures Meaning(Name(name), scope) == if name in scope then Some(scope[name]) else None
  {
  }

  /** for x in xs: {if x != v: continue; break} else: return False; return True */
  const OTHER := Compare(Name("x"), [(NotEq, Name("v"))])
  const SEEKING := [If(OTHER, [Continue], []), Break]
  const MEMBER := Function(["xs", "v"], [
    For("x", Name("xs"), SEEKING, [Return(Some(Const(Bool(false))))]), Return(Some(Const(Bool(true))))])

  /** Some item has the value of `v`. */
  predicate Among(xs: seq<Value>, v: Value)
    requires NumbersOnly(xs) && Number(v)
  {
    exists k :: 0 <= k < |xs| && Num(xs[k]) == Num(v)
  }

  lemma {:induction false} OneLook(scope: Scope, x: Value, v: Value, fuel: nat)
    requires Number(x) && Number(v) && "v" in scope && scope["v"] == v && "x" in scope && scope["x"] == x && fuel >= 2
    ensures Body(SEEKING, scope, fuel) == Done(if Num(x) == Num(v) then Broke else Continued, scope)
  {
    assert Meaning(OTHER, scope) == Some(Bool(Num(x) != Num(v))) by {
      assert OTHER.rest[0] == (NotEq, Name("v"));
      OneComparison(OTHER, x, NotEq, Name("v"), scope);
    }
    assert SEEKING[1..] == [Break] && [Break][1..] == [];
    assert Body([Continue], scope, fuel - 1) == Done(Continued, scope);
    assert Statement(SEEKING[0], scope, fuel) == if Num(x) == Num(v) then Done(Next, scope) else Done(Continued, scope);
    assert Body([Break], scope, fuel) == Done(Broke, scope);
  }

  lemma {:induction false} Looks(items: seq<Value>, v: Value, scope: Scope, fuel: nat)
    requires NumbersOnly(items) && Number(v) && "v" in scope && scope["v"] == v && fuel >= |items| + 3
    ensures var run := ForLoop("x", items, SEEKING, scope, fuel);
            run.Done? && ((run.control == Broke && Among(items, v)) || (!run.control.Returned? && run.control != Broke && !Among(items, v)))
    decreases |items|
  {
    hide Body;
    if items != [] {
      var next := scope["x" := items[0]];
      OneLook(next, items[0], v, fuel - 1);
      Looks(items[1..], v, next, fuel - 1);
      assert Among(items, v) <==> Num(items[0]) == Num(v) || Among(items[1..], v) by { AmongRest(items, v); }
    }
  }

  lemma {:induction false} AmongRest(items: seq<Value>, v: Value)
    requires NumbersOnly(items) && Number(v) && items != []
    ensures Among(items, v) <==> Num(items[0]) == Num(v) || Among(items[1..], v)
  {
    if k :| 0 <= k < |items[1..]| && Num(items[1..][k]) == Num(v) {
      assert Num(items[k + 1]) == Num(v);
    }
    if k :| 0 <= k < |items| && Num(items[k]) == Num(v) && k > 0 {
      assert Num(items[1..][k - 1]) == Num(v);
    }
  }

  /** The program tells whether a list holds a value, for every list of numbers: `continue`, `break` and `else` as Python has them. */
  lemma {:induction false} MemberIsComputed(xs: seq<Value>, v: Value) returns (run: Run)
    requires NumbersOnly(xs) && Number(v)
    ensures Ends(MEMBER, [List(xs), v], run) && run.Done? && run.control == Returned(Bool(Among(xs, v)))
  {
    hide Meaning, ForLoop, Among;
    var given: Scope := map["xs" := List(xs), "v" := v];
    assert Bind(["xs", "v"], [List(xs), v]) == given by {
      assert ["xs", "v"][..1] == ["xs"] && [List(xs), v][..1] == [List(xs)];
      assert Bind(["xs"], [List(xs)]) == map["xs" := List(xs)] by { assert Bind([], []) == map[]; }
    }
    var fuel := |xs| + 4;
    MeansIts("xs", given);
    assert Walk(Name("xs"), given) == Some(xs);
    Looks(xs, v, given, fuel - 1);
    var loop := ForLoop("x", xs, SEEKING, given, fuel - 1);
    MeansItself(Bool(false), loop.scope);
    MeansItself(Bool(true), loop.scope);
    run := Done(Returned(Bool(Among(xs, v))), loop.scope);
    var orelse := [Return(Some(Const(Bool(false))))];
    assert Statement(orelse[0], loop.scope, fuel - 1) == Done(Returned(Bool(false)), loop.scope);
    assert Body(orelse, loop.scope, fuel - 1) == Done(Returned(Bool(false)), loop.scope);
    assert Statement(MEMBER.body[0], given, fuel) == AfterLoop(loop, orelse, fuel - 1);
    assert MEMBER.body[1..] == [MEMBER.body[1]];
    assert Statement(MEMBER.body[1], loop.scope, fuel) == Done(Returned(Bool(true)), loop.scope);
    assert Body([MEMBER.body[1]], loop.scope, fuel) == Done(Returned(Bool(true)), loop.scope);
    assert Body(MEMBER.body, given, fuel) == run;
  }
}
