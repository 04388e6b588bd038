/** Values of the portable expression profile and the measured operations on them
    (`inspection_cel.py`). Floating point is a parameter: a result that is not finite, and a
    division by zero, are missing results. Operands of kinds that no operation of the profile
    combines are one failure, `IllTyped`. */
module CelValues {
  import opened Options

  datatype Double = Double(bits: int)

  datatype Value =
    | Null
    | Bool(truth: bool)
    | Int(number: int)
    | Float(double: Double)
    | Text(text: string)
    | List(items: seq<Value>)
    | Map(entries: seq<Entry>)

  /** A dictionary keeps its keys in insertion order. */
  datatype Entry = Entry(key: string, value: Value)

  datatype Arithmetic = Arithmetic(
    add: (Double, Double) -> Option<Double>, sub: (Double, Double) -> Option<Double>,
    mul: (Double, Double) -> Option<Double>, div: (Double, Double) -> Option<Double>,
    neg: Double -> Double, isZero: Double -> bool, less: (Double, Double) -> bool, same: (Double, Double) -> bool,
    fromInt: int -> Option<Double>, truncate: Double -> int, show: Double -> string)

  datatype Failure = OutOfRange | DivisionByZero | Missing | IllTyped

  datatype Outcome = Ok(value: Value) | Fail(failure: Failure)

  /** What a computation charges and how it ends. */
  datatype Step = Step(cost: nat, outcome: Outcome)

  datatype UnaryOp = Not | Negate | Size | ToText | ToInt | ToDouble

  datatype BinaryOp = Eq | Ne | Lt | Le | Gt | Ge | In | Add | Sub | Mul | Div | Mod | Index

  // ---------------------------------------------------------------- measures

  function Units(v: Value): nat {
    match v
    case Text(s) => 1 + |s|
    case List(items) => |items| + UnitsOfItems(items)
    case Map(entries) => UnitsOfEntries(entries)
    case _ => 1
  }

  function UnitsOfItems(items: seq<Value>): nat {
    if items == [] then 0 else Units(items[0]) + UnitsOfItems(items[1..])
  }

  function UnitsOfEntries(entries: seq<Entry>): nat {
    if entries == [] then 0
    else 1 + |entries[0].key| + Units(entries[0].value) + UnitsOfEntries(entries[1..])
  }

  function KeyCost(entries: seq<Entry>): nat {
    if entries == [] then 0 else 1 + |entries[0].key| + KeyCost(entries[1..])
  }

  /** `_map_cost`: hashing the key and every key of the map. */
  function MapCost(entries: seq<Entry>, key: string): nat {
    1 + |key| + KeyCost(entries)
  }

  function Find(entries: seq<Entry>, key: string): Option<Value> {
    if entries == [] then None
    else if entries[0].key == key then Some(entries[0].value)
    else Find(entries[1..], key)
  }

  /** Assignment to a key: replaces its value in place, or adds it at the end. */
  function Put(entries: seq<Entry>, key: string, v: Value): seq<Entry> {
    if entries == [] then [Entry(key, v)]
    else if entries[0].key == key then [Entry(key, v)] + entries[1..]
    else [entries[0]] + Put(entries[1..], key, v)
  }

  // ---------------------------------------------------------------- equality and numbers

  /** `_portable_equal`: same kind, lists item by item, maps key by key in any order. */
  predicate PortableEqual(f: Arithmetic, a: Value, b: Value)
    decreases a
  {
    match (a, b)
    case (Null, Null) => true
    case (Bool(x), Bool(y)) => x == y
    case (Int(x), Int(y)) => x == y
    case (Float(x), Float(y)) => f.same(x, y)
    case (Text(x), Text(y)) => x == y
    case (List(x), List(y)) => |x| == |y| && forall i :: 0 <= i < |x| ==> PortableEqual(f, x[i], y[i])
    case (Map(x), Map(y)) =>
      && (forall i :: 0 <= i < |y| ==> Find(x, y[i].key).Some?)
      && (forall i :: 0 <= i < |x| ==>
            Find(y, x[i].key).Some? && PortableEqual(f, x[i].value, Find(y, x[i].key).value))
    case _ => false
  }

  const INT_MIN := -0x8000_0000_0000_0000
  const INT_MAX := 0x7fff_ffff_ffff_ffff

  /** `_checked_number` of an integer. */
  function Checked(n: int): Outcome {
    if INT_MIN <= n <= INT_MAX then Ok(Int(n)) else Fail(OutOfRange)
  }

  function Finite(d: Option<Double>): Outcome {
    if d.Some? then Ok(Float(d.value)) else Fail(OutOfRange)
  }

  function Abs(n: int): nat {
    if n < 0 then -n else n
  }

  /** `_integer_quotient`: division of magnitudes, then the sign. */
  function Quotient(dividend: int, divisor: int): int
    requires divisor != 0
  {
    var magnitude := Abs(dividend) / Abs(divisor);
    if (dividend < 0) != (divisor < 0) then -magnitude else magnitude
  }

  /** The quotient is rounded toward zero, and the remainder is smaller than the divisor and
      has the sign of the dividend. */
  lemma QuotientTruncates(dividend: int, divisor: int)
    requires divisor != 0
    ensures var r := dividend - Quotient(dividend, divisor) * divisor;
      && Abs(r) < Abs(divisor)
      && (dividend >= 0 ==> r >= 0) && (dividend <= 0 ==> r <= 0)
      && Abs(Quotient(dividend, divisor) * divisor) <= Abs(dividend)
  {
    var a, b := Abs(dividend), Abs(divisor);
    Division(a, b);
    var m: int := a / b;
    var product := m * b;
    if divisor > 0 {
      Signed(m, divisor);
      assert Quotient(dividend, divisor) * divisor == if dividend < 0 then -product else product;
    } else {
      Signed(m, divisor);
      assert Quotient(dividend, divisor) * divisor == if dividend < 0 then -product else product;
    }
  }

  lemma Division(a: nat, b: nat)
    requires b > 0
    ensures 0 <= a - (a / b) * b < b && 0 <= (a / b) * b
  {
    assert a == (a / b) * b + a % b;
  }

  lemma Signed(m: int, d: int)
    ensures (-m) * d == -(m * d) && m * (-d) == -(m * d) && (-m) * (-d) == m * d
  {
  }

  function Digits(n: nat): string {
    var last := ['0', '1', '2', '3', '4', '5', '6', '7', '8', '9'][n % 10];
    if n < 10 then [last] else Digits(n / 10) + [last]
  }

  function ShowInt(n: int): string {
    if n < 0 then "-" + Digits(-n) else Digits(n)
  }

  predicate Truthy(f: Arithmetic, v: Value) {
    match v
    case Null => false
    case Bool(b) => b
    case Int(n) => n != 0
    case Float(d) => !f.isZero(d)
    case Text(s) => s != ""
    case List(items) => items != []
    case Map(entries) => entries != []
  }

  // ---------------------------------------------------------------- operations

  predicate Sized(v: Value) {
    v.Text? || v.List? || v.Map?
  }

  function Length(v: Value): nat
    requires Sized(v)
  {
    if v.Text? then |v.text| else if v.List? then |v.items| else |v.entries|
  }

  function ApplyUnary(f: Arithmetic, op: UnaryOp, v: Value): Step {
    match op
    case Not => Step(1, Ok(Bool(!Truthy(f, v))))
    case Negate =>
      Step(1, if v.Int? then Checked(-v.number) else if v.Float? then Ok(Float(f.neg(v.double))) else Fail(IllTyped))
    case Size =>
      if Sized(v) then
        Step(if v.Map? then Units(v) else if v.Text? then |v.text| else 1, Ok(Int(Length(v))))
      else Step(1, Fail(IllTyped))
    case ToText =>
      match v {
        case Bool(b) => Shown(if b then "true" else "false")
        case Int(n) => Shown(ShowInt(n))
        case Float(d) => Shown(f.show(d))
        case Text(s) => Shown(s)
        case _ => Step(0, Fail(IllTyped))
      }
    case ToInt => Step(1, if v.Float? then Checked(f.truncate(v.double)) else Fail(IllTyped))
    case ToDouble => Step(1, if v.Int? then Finite(f.fromInt(v.number)) else Fail(IllTyped))
  }

  function Shown(s: string): Step {
    Step(|s|, Ok(Text(s)))
  }

  function EqualCost(a: Value, b: Value): Option<nat> {
    if a.List? || a.Map? then Some(Units(a) + Units(b))
    else if a.Text? then if Sized(b) then Some(|a.text| + Length(b)) else None
    else Some(1)
  }

  function Compare(f: Arithmetic, op: BinaryOp, a: Value, b: Value): Outcome {
    match (a, b)
    case (Int(x), Int(y)) => Ok(Bool(Ordered(op, x < y, y < x)))
    case (Float(x), Float(y)) => Ok(Bool(Ordered(op, f.less(x, y), f.less(y, x))))
    case (Text(x), Text(y)) => Ok(Bool(Ordered(op, TextLess(x, y), TextLess(y, x))))
    case _ => Fail(IllTyped)
  }

  predicate Ordered(op: BinaryOp, less: bool, greater: bool) {
    match op
    case Lt => less
    case Le => !greater
    case Gt => greater
    case _ => !less
  }

  predicate TextLess(x: string, y: string) {
    if y == "" then false
    else if x == "" then true
    else x[0] < y[0] || (x[0] == y[0] && TextLess(x[1..], y[1..]))
  }

  function Contains(f: Arithmetic, a: Value, b: Value): Step {
    if b.List? then
      Step(Units(b) + Units(a), Ok(Bool(exists i :: 0 <= i < |b.items| && PortableEqual(f, a, b.items[i]))))
    else if b.Map? && a.Text? then
      Step(MapCost(b.entries, a.text), Ok(Bool(Find(b.entries, a.text).Some?)))
    else Step(0, Fail(IllTyped))
  }

  function Sum(f: Arithmetic, a: Value, b: Value): Step {
    match (a, b)
    case (Int(x), Int(y)) => Step(1, Checked(x + y))
    case (Float(x), Float(y)) => Step(1, Finite(f.add(x, y)))
    case (Text(x), Text(y)) => Step(|x| + |y| + |x + y|, Ok(Text(x + y)))
    case (List(x), List(y)) => Step(|x| + |y| + |x + y|, Ok(List(x + y)))
    case _ => Step(0, Fail(IllTyped))
  }

  function Compute(f: Arithmetic, op: BinaryOp, a: Value, b: Value): Outcome {
    match (a, b)
    case (Int(x), Int(y)) =>
      if op.Sub? then Checked(x - y)
      else if op.Mul? then Checked(x * y)
      else if y == 0 then Fail(DivisionByZero)
      else if op.Div? then Checked(Quotient(x, y))
      else Checked(x - Quotient(x, y) * y)
    case (Float(x), Float(y)) =>
      if op.Sub? then Finite(f.sub(x, y))
      else if op.Mul? then Finite(f.mul(x, y))
      else if op.Div? then if f.isZero(y) then Fail(DivisionByZero) else Finite(f.div(x, y))
      else Fail(IllTyped)
    case _ => Fail(IllTyped)
  }

  /** Item of a list, counting back from the end for a negative index, or value of a key. */
  function At(a: Value, b: Value): Step {
    match (a, b)
    case (List(items), Int(n)) =>
      Step(1, if 0 <= n < |items| then Ok(items[n])
              else if -|items| <= n < 0 then Ok(items[|items| + n])
              else Fail(Missing))
    case (Map(entries), Text(key)) => Step(MapCost(entries, key), Looked(entries, key))
    case (List(_), _) => Step(1, Fail(IllTyped))
    case _ => Step(0, Fail(IllTyped))
  }

  function Looked(entries: seq<Entry>, key: string): Outcome {
    if Find(entries, key).Some? then Ok(Find(entries, key).value) else Fail(Missing)
  }

  function ApplyBinary(f: Arithmetic, op: BinaryOp, a: Value, b: Value): Step {
    match op
    case Eq =>
      if EqualCost(a, b).Some? then Step(EqualCost(a, b).value, Ok(Bool(PortableEqual(f, a, b))))
      else Step(0, Fail(IllTyped))
    case Ne =>
      if EqualCost(a, b).Some? then Step(EqualCost(a, b).value, Ok(Bool(!PortableEqual(f, a, b))))
      else Step(0, Fail(IllTyped))
    case Lt => Relate(f, op, a, b)
    case Le => Relate(f, op, a, b)
    case Gt => Relate(f, op, a, b)
    case Ge => Relate(f, op, a, b)
    case In => Contains(f, a, b)
    case Add => Sum(f, a, b)
    case Index => At(a, b)
    case _ => Step(1, Compute(f, op, a, b))
  }

  function Relate(f: Arithmetic, op: BinaryOp, a: Value, b: Value): Step {
    if !a.Text? then Step(1, Compare(f, op, a, b))
    else if Sized(b) then Step(|a.text| + Length(b), Compare(f, op, a, b))
    else Step(0, Fail(IllTyped))
  }

  /** Field selection; a typed record is not charged for the keys of its map. */
  function Select(base: Value, name: string, record: bool): Step {
    if base.Map? then
      Step(1 + |name| + (if record then 0 else KeyCost(base.entries)), Looked(base.entries, name))
    else Step(if record then 1 + |name| else 0, Fail(IllTyped))
  }

  /** `has` of a selection. */
  function Test(base: Value, name: string, record: bool): Step {
    if base.Map? then
      Step(if record then 1 + |name| else MapCost(base.entries, name), Ok(Bool(Find(base.entries, name).Some?)))
    else Step(if record then 1 + |name| else 0, Fail(IllTyped))
  }

  /** The value of `&&` or `||` when neither operand decides it: the last one looked at. */
  function Chosen(f: Arithmetic, conjunction: bool, a: Value, b: Value): Value {
    if conjunction == Truthy(f, a) then b else a
  }

  /** `&&` and `||` look at both operands; a deciding operand wins over a failure of the other. */
  function Join(f: Arithmetic, conjunction: bool, a: Outcome, b: Outcome): Outcome {
    if a == Ok(Bool(!conjunction)) || b == Ok(Bool(!conjunction)) then Ok(Bool(!conjunction))
    else if a.Fail? then a
    else if b.Fail? then b
    else Ok(Chosen(f, conjunction, a.value, b.value))
  }

  /** On operands that are truth values or fail, the two are commutative, up to which of two
      failures is reported. */
  lemma JoinCommutes(f: Arithmetic, conjunction: bool, a: Outcome, b: Outcome)
    requires a.Ok? ==> a.value.Bool?
    requires b.Ok? ==> b.value.Bool?
    ensures Join(f, conjunction, a, b).Fail? <==> Join(f, conjunction, b, a).Fail?
    ensures Join(f, conjunction, a, b).Ok? ==> Join(f, conjunction, a, b) == Join(f, conjunction, b, a)
  {
  }
}
