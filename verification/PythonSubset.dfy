/**
 The numeric Python subset of fair/quality/code_validator.py: its syntax, its values and
 the operators the interpreter borrows from Python, and the subset's meaning without any
 budget, depth or size limit.

 The meaning is big-step.  Loops may run forever, so statements carry `fuel` that only
 bounds how deep a run is followed; `Ends` says that some amount is enough.
 */
module PythonSubset {
  import opened Options

  /** int, bool and list; a list inside a list exists only until it is refused. */
  datatype Value = Int(i: int) | Bool(b: bool) | List(items: seq<Value>)

  type Scope = map<string, Value>

  datatype BinOp = Add | Sub | Mult | FloorDiv | Mod
  datatype UnOp = UAdd | USub | Not
  datatype CmpOp = Eq | NotEq | Lt | LtE | Gt | GtE
  datatype Builtin = Range | Len | Abs | Min | Max | Sum | Sorted

  datatype Expr =
    | Const(v: Value)
    | Name(id: string)
    | ListOf(elts: seq<Expr>)
    | Subscript(value: Expr, slice: Expr)
    | Call(func: Builtin, args: seq<Expr>)
    | Bin(op: BinOp, left: Expr, right: Expr)
    | Unary(uop: UnOp, operand: Expr)
    | IfExp(test: Expr, body: Expr, orelse: Expr)
    | And(values: seq<Expr>)
    | Or(values: seq<Expr>)
    | Compare(first: Expr, rest: seq<(CmpOp, Expr)>)

  /** `Return(None)` is a bare `return`. */
  datatype Stmt =
    | Return(result: Option<Expr>)
    | Break
    | Continue
    | Assign(target: string, e: Expr)
    | AugAssign(target: string, op: BinOp, e: Expr)
    | If(test: Expr, body: seq<Stmt>, orelse: seq<Stmt>)
    | For(target: string, iter: Expr, body: seq<Stmt>, orelse: seq<Stmt>)
    | While(test: Expr, body: seq<Stmt>, orelse: seq<Stmt>)

  datatype Function = Function(params: seq<string>, body: seq<Stmt>)

  // ---------- Python's operators ----------

  /** `type(v) in {int, bool}` */
  predicate Number(v: Value) {
    !v.List?
  }

  /** A bool counts as 0 or 1. */
  function Num(v: Value): int
    requires Number(v)
  {
    if v.Int? then v.i else if v.b then 1 else 0
  }

  predicate Truthy(v: Value) {
    match v
    case Int(i) => i != 0
    case Bool(b) => b
    case List(items) => items != []
  }

  /** Floor division; the quotient rounds toward minus infinity. */
  function DivFloor(a: int, b: int): int
    requires b != 0
  {
    if b > 0 then a / b else (-a) / (-b)
  }

  function ModFloor(a: int, b: int): int
    requires b != 0
  {
    a - b * DivFloor(a, b)
  }

  /** What identifies Python's `//` and `%`: the remainder lies between 0 and the divisor, on its side. */
  ghost predicate FloorPair(a: int, b: int, q: int, r: int) {
    a == b * q + r && (if b > 0 then 0 <= r < b else b < r <= 0)
  }

  lemma {:induction false} DivFloorPair(a: int, b: int)
    requires b != 0
    ensures FloorPair(a, b, DivFloor(a, b), ModFloor(a, b))
  {
    if b < 0 {
      var c, d := -a, -b;
      assert c == d * (c / d) + c % d;
      assert b * (c / d) == -(d * (c / d));
    }
  }

  /** A nonzero multiple of `b` is at least as far from zero as `b`. */
  lemma {:induction false} MultipleFar(b: int, d: int)
    requires b != 0 && d != 0
    ensures b * d >= (if b > 0 then b else -b) || b * d <= (if b > 0 then -b else b)
  {
    if b > 0 {
      assert d >= 1 ==> b * d >= b * 1;
      assert d <= -1 ==> b * d <= b * -1;
    } else {
      assert d >= 1 ==> b * d <= b * 1;
      assert d <= -1 ==> b * d >= b * -1;
    }
  }

  lemma {:induction false} FloorLaw(a: int, b: int, q: int, r: int)
    requires b != 0
    ensures FloorPair(a, b, q, r) <==> q == DivFloor(a, b) && r == ModFloor(a, b)
  {
    var p, m := DivFloor(a, b), ModFloor(a, b);
    DivFloorPair(a, b);
    assert b * (q - p) == b * q - b * p;
    if q != p {
      MultipleFar(b, q - p);
    }
  }

  /** `op` on two numbers; None where Python raises. */
  function Arithmetic(op: BinOp, a: int, b: int): Option<int> {
    match op
    case Add => Some(a + b)
    case Sub => Some(a - b)
    case Mult => Some(a * b)
    case FloorDiv => if b == 0 then None else Some(DivFloor(a, b))
    case Mod => if b == 0 then None else Some(ModFloor(a, b))
  }

  predicate NumbersOnly(items: seq<Value>) {
    forall v <- items :: Number(v)
  }

  /** `a == b`: numbers by value whatever their type, lists item by item. */
  predicate PyEqual(a: Value, b: Value) {
    if Number(a) && Number(b) then Num(a) == Num(b)
    else if a.List? && b.List? then
      |a.items| == |b.items| && forall k | 0 <= k < |a.items| :: PyEqual(a.items[k], b.items[k])
    else false
  }

  /** `a < b`, None where Python raises: lists compare at the first difference. */
  function PyLess(a: Value, b: Value): Option<bool>
    decreases a
  {
    if Number(a) && Number(b) then Some(Num(a) < Num(b))
    else if a.List? && b.List? then ItemsLess(a, a.items, b.items)
    else None
  }

  function ItemsLess(whole: Value, xs: seq<Value>, ys: seq<Value>): Option<bool>
    requires forall k | 0 <= k < |xs| :: xs[k] < whole
    decreases whole, |xs|
  {
    if xs == [] then Some(ys != [])
    else if ys == [] then Some(false)
    else if PyEqual(xs[0], ys[0]) then ItemsLess(whole, xs[1..], ys[1..])
    else PyLess(xs[0], ys[0])
  }

  function Negate(o: Option<bool>): Option<bool> {
    if o.Some? then Some(!o.value) else None
  }

  /** One comparison.  `<=` on these values is `not >` : numbers and lists of numbers are totally ordered. */
  function PyCompare(op: CmpOp, a: Value, b: Value): Option<bool> {
    match op
    case Eq => Some(PyEqual(a, b))
    case NotEq => Some(!PyEqual(a, b))
    case Lt => PyLess(a, b)
    case LtE => Negate(PyLess(b, a))
    case Gt => PyLess(b, a)
    case GtE => Negate(PyLess(a, b))
  }

  /** `sequence[index]`: a negative index counts from the end; None where Python raises. */
  function PyIndex(items: seq<Value>, index: int): Option<Value> {
    var k := if index < 0 then index + |items| else index;
    if 0 <= k < |items| then Some(items[k]) else None
  }

  /** The first of the least items. */
  function LeastItem(items: seq<Value>): (m: Value)
    requires items != [] && NumbersOnly(items)
    ensures m in items
  {
    if |items| == 1 then items[0]
    else var m := LeastItem(items[..|items| - 1]); if Num(items[|items| - 1]) < Num(m) then items[|items| - 1] else m
  }

  /** The first of the greatest items. */
  function GreatestItem(items: seq<Value>): (m: Value)
    requires items != [] && NumbersOnly(items)
    ensures m in items
  {
    if |items| == 1 then items[0]
    else var m := GreatestItem(items[..|items| - 1]); if Num(items[|items| - 1]) > Num(m) then items[|items| - 1] else m
  }

  ghost predicate Ordered(items: seq<Value>)
    requires NumbersOnly(items)
  {
    forall i, j | 0 <= i < j < |items| :: Num(items[i]) <= Num(items[j])
  }

  /** Put `v` behind every item that is not greater. */
  function Insert(sorted: seq<Value>, v: Value): (r: seq<Value>)
    requires NumbersOnly(sorted) && Number(v)
    ensures NumbersOnly(r) && multiset(r) == multiset(sorted) + multiset{v}
  {
    if sorted == [] then [v]
    else
      var front, last := sorted[..|sorted| - 1], sorted[|sorted| - 1];
      assert sorted == front + [last];
      if Num(last) <= Num(v) then sorted + [v] else Insert(front, v) + [last]
  }

  lemma {:induction false} InsertBelow(sorted: seq<Value>, v: Value, bound: int)
    requires NumbersOnly(sorted) && Number(v) && Num(v) <= bound
    requires forall k | 0 <= k < |sorted| :: Num(sorted[k]) <= bound
    ensures forall k | 0 <= k < |Insert(sorted, v)| :: Num(Insert(sorted, v)[k]) <= bound
  {
    if sorted != [] {
      InsertBelow(sorted[..|sorted| - 1], v, bound);
    }
  }

  lemma {:induction false} InsertKeepsOrder(sorted: seq<Value>, v: Value)
    requires NumbersOnly(sorted) && Number(v) && Ordered(sorted)
    ensures Ordered(Insert(sorted, v))
  {
    if sorted != [] && Num(sorted[|sorted| - 1]) > Num(v) {
      InsertKeepsOrder(sorted[..|sorted| - 1], v);
      InsertBelow(sorted[..|sorted| - 1], v, Num(sorted[|sorted| - 1]));
    }
  }

  /** `sorted(items)`: stable. */
  function SortItems(items: seq<Value>): (r: seq<Value>)
    requires NumbersOnly(items)
    ensures NumbersOnly(r) && multiset(r) == multiset(items) && Ordered(r)
  {
    if items == [] then []
    else
      var front, last := items[..|items| - 1], items[|items| - 1];
      assert items == front + [last];
      InsertKeepsOrder(SortItems(front), last);
      Insert(SortItems(front), last)
  }

  function SumItems(items: seq<Value>): int
    requires NumbersOnly(items)
  {
    if items == [] then 0 else SumItems(items[..|items| - 1]) + Num(items[|items| - 1])
  }

  /** `range(start, stop, step)` walked from its start. */
  function PyRange(start: int, stop: int, step: int): seq<Value>
    requires step != 0
    decreases if step > 0 then stop - start else start - stop
  {
    if (if step > 0 then start >= stop else start <= stop) then []
    else [Int(start)] + PyRange(start + step, stop, step)
  }

  /** The arguments of `range` as start, stop and step; None where Python raises. */
  function RangeArgs(args: seq<Value>): Option<(int, int, int)>
    requires 1 <= |args| <= 3 && NumbersOnly(args)
  {
    var start := if |args| == 1 then 0 else Num(args[0]);
    var stop := if |args| == 1 then Num(args[0]) else Num(args[1]);
    var step := if |args| == 3 then Num(args[2]) else 1;
    if step == 0 then None else Some((start, stop, step))
  }

  // ---------- the meaning of expressions ----------

  /** What Python computes; None where it raises or leaves the subset's types. */
  function Meaning(e: Expr, scope: Scope): Option<Value>
    decreases e, 1, 0
  {
    match e
    case Const(v) => Some(v)
    case Name(id) => if id in scope then Some(scope[id]) else None
    case ListOf(elts) =>
      var vs := Meanings(e, elts, scope);
      if vs.Some? then Some(List(vs.value)) else None
    case Subscript(value, slice) =>
      var s := Meaning(value, scope);
      if s.None? then None else
      var k := Meaning(slice, scope);
      if k.None? || !s.value.List? || !Number(k.value) then None
      else PyIndex(s.value.items, Num(k.value))
    case Call(func, args) =>
      var vs := Meanings(e, args, scope);
      if vs.None? then None else Builtins(func, vs.value)
    case Bin(op, left, right) =>
      var l := Meaning(left, scope);
      if l.None? then None else
      var r := Meaning(right, scope);
      if r.None? then None else PyBinary(op, l.value, r.value)
    case Unary(op, operand) =>
      var v := Meaning(operand, scope);
      if v.None? then None else PyUnary(op, v.value)
    case IfExp(test, body, orelse) =>
      var t := Meaning(test, scope);
      if t.None? then None else if Truthy(t.value) then Meaning(body, scope) else Meaning(orelse, scope)
    case And(values) => if values == [] then None else ShortCircuit(e, values, false, scope)
    case Or(values) => if values == [] then None else ShortCircuit(e, values, true, scope)
    case Compare(first, rest) =>
      var l := Meaning(first, scope);
      if l.None? then None else Chain(e, l.value, rest, scope)
  }

  /** Left to right, all of them. */
  function Meanings(whole: Expr, es: seq<Expr>, scope: Scope): (r: Option<seq<Value>>)
    requires forall k | 0 <= k < |es| :: es[k] < whole
    ensures r.Some? ==> |r.value| == |es|
    decreases whole, 0, |es|
  {
    if es == [] then Some([])
    else
      var v := Meaning(es[0], scope);
      if v.None? then None else
      var vs := Meanings(whole, es[1..], scope);
      if vs.None? then None else Some([v.value] + vs.value)
  }

  /** `and`/`or`: the first value whose truth is `stop`, or the last one. */
  function ShortCircuit(whole: Expr, es: seq<Expr>, stop: bool, scope: Scope): Option<Value>
    requires es != [] && forall k | 0 <= k < |es| :: es[k] < whole
    decreases whole, 0, |es|
  {
    var v := Meaning(es[0], scope);
    if v.None? || Truthy(v.value) == stop || |es| == 1 then v else ShortCircuit(whole, es[1..], stop, scope)
  }

  /** `a < b < c` is `a < b and b < c` with `b` evaluated once. */
  function Chain(whole: Expr, left: Value, rest: seq<(CmpOp, Expr)>, scope: Scope): Option<Value>
    requires forall k | 0 <= k < |rest| :: rest[k].1 < whole
    decreases whole, 0, |rest|
  {
    if rest == [] then Some(Bool(true))
    else
      var right := Meaning(rest[0].1, scope);
      if right.None? then None else
      var holds := PyCompare(rest[0].0, left, right.value);
      if holds.None? then None
      else if !holds.value then Some(Bool(false))
      else Chain(whole, right.value, rest[1..], scope)
  }

  function PyBinary(op: BinOp, l: Value, r: Value): Option<Value> {
    if Number(l) && Number(r) then
      var n := Arithmetic(op, Num(l), Num(r));
      if n.Some? then Some(Int(n.value)) else None
    else if op.Add? && l.List? && r.List? then Some(List(l.items + r.items))
    else None
  }

  function PyUnary(op: UnOp, v: Value): Option<Value> {
    match op
    case Not => Some(Bool(!Truthy(v)))
    case UAdd => if Number(v) then Some(Int(Num(v))) else None
    case USub => if Number(v) then Some(Int(-Num(v))) else None
  }

  function Builtins(func: Builtin, args: seq<Value>): Option<Value> {
    match func
    case Range => None
    case Abs => if |args| == 1 && Number(args[0]) then Some(Int(if Num(args[0]) < 0 then -Num(args[0]) else Num(args[0]))) else None
    case Len => if |args| == 1 && args[0].List? then Some(Int(|args[0].items|)) else None
    case Sum => if |args| == 1 && args[0].List? && NumbersOnly(args[0].items) then Some(Int(SumItems(args[0].items))) else None
    case Sorted => if |args| == 1 && args[0].List? && NumbersOnly(args[0].items) then Some(List(SortItems(args[0].items))) else None
    case Min => var items := Candidates(args); if items != [] && NumbersOnly(items) then Some(LeastItem(items)) else None
    case Max => var items := Candidates(args); if items != [] && NumbersOnly(items) then Some(GreatestItem(items)) else None
  }

  /** What `min` and `max` choose from: one list, or two and more arguments. */
  function Candidates(args: seq<Value>): seq<Value> {
    if |args| == 1 && args[0].List? then args[0].items else if |args| >= 2 then args else []
  }

  // ---------- the meaning of statements ----------

  datatype Control = Next | Broke | Continued | Returned(v: Value)

  /**
   Where a run gets: a control outcome with the scope, out of fuel, or `Raised`: an
   exception, or a value outside the subset's types (the None of a bare `return`, a list
   times a number) or an update in place (`+=` on a list), on which no run of the interpreter relies.
   */
  datatype Run = Done(control: Control, scope: Scope) | Raised | NoFuel

  /** What a `for` walks over; None where Python raises. */
  function Walk(iter: Expr, scope: Scope): Option<seq<Value>> {
    if iter.Call? && iter.func == Range then
      var vs := Meanings(iter, iter.args, scope);
      if vs.None? || !(1 <= |vs.value| <= 3) || !NumbersOnly(vs.value) then None
      else
        var a := RangeArgs(vs.value);
        if a.None? then None else Some(PyRange(a.value.0, a.value.1, a.value.2))
    else
      var v := Meaning(iter, scope);
      if v.Some? && v.value.List? then Some(v.value.items) else None
  }

  function Body(body: seq<Stmt>, scope: Scope, fuel: nat): Run
    decreases fuel, |body|
  {
    if body == [] then Done(Next, scope)
    else
      var first := Statement(body[0], scope, fuel);
      if first.Done? && first.control == Next then Body(body[1..], first.scope, fuel) else first
  }

  function Statement(s: Stmt, scope: Scope, fuel: nat): Run
    decreases fuel, 0
  {
    if fuel == 0 then NoFuel
    else
      match s
      case Return(result) =>
        if result.None? then Raised else
        var v := Meaning(result.value, scope);
        if v.None? then Raised else Done(Returned(v.value), scope)
      case Break => Done(Broke, scope)
      case Continue => Done(Continued, scope)
      case Assign(target, e) =>
        var v := Meaning(e, scope);
        if v.None? then Raised else Done(Next, scope[target := v.value])
      case AugAssign(target, op, e) =>
        if target !in scope || !Number(scope[target]) then Raised else
        var v := Meaning(e, scope);
        if v.None? then Raised else
        var r := PyBinary(op, scope[target], v.value);
        if r.None? then Raised else Done(Next, scope[target := r.value])
      case If(test, body, orelse) =>
        var t := Meaning(test, scope);
        if t.None? then Raised else Body(if Truthy(t.value) then body else orelse, scope, fuel - 1)
      case For(target, iter, body, orelse) =>
        var items := Walk(iter, scope);
        if items.None? then Raised else AfterLoop(ForLoop(target, items.value, body, scope, fuel - 1), orelse, fuel - 1)
      case While(test, body, orelse) =>
        AfterLoop(WhileLoop(test, body, scope, fuel - 1), orelse, fuel - 1)
  }

  /** A loop that was not broken out of runs its `else`. */
  function AfterLoop(loop: Run, orelse: seq<Stmt>, fuel: nat): Run
    decreases fuel, |orelse| + 1
  {
    if !loop.Done? then loop
    else match loop.control
         case Broke => Done(Next, loop.scope)
         case Returned(_) => loop
         case _ => Body(orelse, loop.scope, fuel)
  }

  function ForLoop(target: string, items: seq<Value>, body: seq<Stmt>, scope: Scope, fuel: nat): Run
    decreases fuel, 0
  {
    if fuel == 0 then NoFuel
    else if items == [] then Done(Next, scope)
    else
      var once := Body(body, scope[target := items[0]], fuel - 1);
      if !once.Done? || once.control.Returned? || once.control.Broke? then once
      else ForLoop(target, items[1..], body, once.scope, fuel - 1)
  }

  function WhileLoop(test: Expr, body: seq<Stmt>, scope: Scope, fuel: nat): Run
    decreases fuel, 0
  {
    if fuel == 0 then NoFuel
    else
      var t := Meaning(test, scope);
      if t.None? then Raised
      else if !Truthy(t.value) then Done(Next, scope)
      else
        var once := Body(body, scope, fuel - 1);
        if !once.Done? || once.control.Returned? || once.control.Broke? then once
        else WhileLoop(test, body, once.scope, fuel - 1)
  }

  /** The arguments bound to the parameters. */
  function Bind(params: seq<string>, args: seq<Value>): Scope
    requires |params| == |args|
  {
    if params == [] then map[] else Bind(params[..|params| - 1], args[..|args| - 1])[params[|params| - 1] := args[|args| - 1]]
  }

  /** Calling `f` with `args` ends this way. */
  ghost predicate Ends(f: Function, args: seq<Value>, how: Run) {
    |f.params| == |args| && how != NoFuel && exists fuel: nat :: Body(f.body, Bind(f.params, args), fuel) == how
  }

  // More fuel follows the same run further, so a call ends in one way.

  lemma {:induction false} MoreFuelBody(body: seq<Stmt>, scope: Scope, fuel: nat, more: nat)
    requires fuel <= more && Body(body, scope, fuel) != NoFuel
    ensures Body(body, scope, more) == Body(body, scope, fuel)
    decreases fuel, |body|
  {
    if body != [] {
      MoreFuelStatement(body[0], scope, fuel, more);
      var first := Statement(body[0], scope, fuel);
      if first.Done? && first.control == Next {
        MoreFuelBody(body[1..], first.scope, fuel, more);
      }
    }
  }

  lemma {:induction false} MoreFuelStatement(s: Stmt, scope: Scope, fuel: nat, more: nat)
    requires fuel <= more && Statement(s, scope, fuel) != NoFuel
    ensures Statement(s, scope, more) == Statement(s, scope, fuel)
    decreases fuel, 0
  {
    match s
    case If(test, body, orelse) =>
      var t := Meaning(test, scope);
      if t.Some? {
        MoreFuelBody(if Truthy(t.value) then body else orelse, scope, fuel - 1, more - 1);
      }
    case For(target, iter, body, orelse) =>
      var items := Walk(iter, scope);
      if items.Some? {
        MoreFuelFor(target, items.value, body, scope, fuel - 1, more - 1);
        MoreFuelAfter(ForLoop(target, items.value, body, scope, fuel - 1), orelse, fuel - 1, more - 1);
      }
    case While(test, body, orelse) =>
      MoreFuelWhile(test, body, scope, fuel - 1, more - 1);
      MoreFuelAfter(WhileLoop(test, body, scope, fuel - 1), orelse, fuel - 1, more - 1);
    case _ =>
  }

  lemma {:induction false} MoreFuelAfter(loop: Run, orelse: seq<Stmt>, fuel: nat, more: nat)
    requires fuel <= more && AfterLoop(loop, orelse, fuel) != NoFuel
    ensures AfterLoop(loop, orelse, more) == AfterLoop(loop, orelse, fuel)
    decreases fuel, |orelse| + 1
  {
    if loop.Done? && !loop.control.Broke? && !loop.control.Returned? {
      MoreFuelBody(orelse, loop.scope, fuel, more);
    }
  }

  lemma {:induction false} MoreFuelFor(target: string, items: seq<Value>, body: seq<Stmt>, scope: Scope, fuel: nat, more: nat)
    requires fuel <= more && ForLoop(target, items, body, scope, fuel) != NoFuel
    ensures ForLoop(target, items, body, scope, more) == ForLoop(target, items, body, scope, fuel)
    decreases fuel, 0
  {
    if items != [] {
      var once := Body(body, scope[target := items[0]], fuel - 1);
      MoreFuelBody(body, scope[target := items[0]], fuel - 1, more - 1);
      if once.Done? && !once.control.Returned? && !once.control.Broke? {
        MoreFuelFor(target, items[1..], body, once.scope, fuel - 1, more - 1);
      }
    }
  }

  lemma {:induction false} MoreFuelWhile(test: Expr, body: seq<Stmt>, scope: Scope, fuel: nat, more: nat)
    requires fuel <= more && WhileLoop(test, body, scope, fuel) != NoFuel
    ensures WhileLoop(test, body, scope, more) == WhileLoop(test, body, scope, fuel)
    decreases fuel, 0
  {
    var t := Meaning(test, scope);
    if t.Some? && Truthy(t.value) {
      var once := Body(body, scope, fuel - 1);
      MoreFuelBody(body, scope, fuel - 1, more - 1);
      if once.Done? && !once.control.Returned? && !once.control.Broke? {
        MoreFuelWhile(test, body, once.scope, fuel - 1, more - 1);
      }
    }
  }

  /** The subset is deterministic: a call ends in at most one way. */
  lemma {:induction false} OneEnding(f: Function, args: seq<Value>, a: Run, b: Run)
    requires Ends(f, args, a) && Ends(f, args, b)
    ensures a == b
  {
    var scope := Bind(f.params, args);
    var i: nat :| Body(f.body, scope, i) == a;
    var j: nat :| Body(f.body, scope, j) == b;
    if i <= j {
      MoreFuelBody(f.body, scope, i, j);
    } else {
      MoreFuelBody(f.body, scope, j, i);
    }
  }
}
