/** Expressions and the bounded interpreter of `inspection_cel.py`. */
module Cel {
  import opened Options
  import opened CelValues

  datatype Expr =
    | Literal(value: Value)
    | Ident(name: string)
    | Conditional(condition: Expr, yes: Expr, no: Expr)
    | Junction(conjunction: bool, left: Expr, right: Expr)
    | Unary(op: UnaryOp, operand: Expr)
    | Binary(bop: BinaryOp, left: Expr, right: Expr)
    | Dot(base: Expr, field: string)
    | Has(base: Expr, field: string)
    | ListOf(elements: seq<Expr>)
    | MapOf(members: seq<Member>)

  datatype Member = Member(key: Expr, value: Expr)

  type Bindings = map<string, Value>

  // ---------------------------------------------------------------- running

  /** `_is_typed_record`. */
  predicate TypedRecord(e: Expr) {
    || (e.Ident? && e.name in {"event", "owner"})
    || (e.Dot? && e.base.Ident? && (e.base.name, e.field) in {("event", "payload"), ("owner", "variables")})
  }

  function After(cost: nat, s: Step): Step {
    Step(cost + s.cost, s.outcome)
  }

  /** The cost of an expression and how it ends, whatever the limit: one for the node, then
      what its kind does. */
  function Run(f: Arithmetic, env: Bindings, e: Expr): Step
    decreases e, 1
  {
    After(1, Inner(f, env, e))
  }

  function Inner(f: Arithmetic, env: Bindings, e: Expr): Step
    decreases e, 0
  {
    match e
    case Literal(v) => Step(if v.Text? then |v.text| else 0, Ok(v))
    case Ident(name) => Step(0, if name in env then Ok(env[name]) else Fail(Missing))
    case Conditional(c, yes, no) =>
      var s := Run(f, env, c);
      if s.outcome.Fail? then s
      else After(s.cost, if Truthy(f, s.outcome.value) then Run(f, env, yes) else Run(f, env, no))
    case Junction(conjunction, l, r) =>
      var a := Run(f, env, l);
      var b := Run(f, env, r);
      Step(a.cost + b.cost + 1, Join(f, conjunction, a.outcome, b.outcome))
    case Unary(op, x) =>
      var s := Run(f, env, x);
      if s.outcome.Fail? then s else After(s.cost, ApplyUnary(f, op, s.outcome.value))
    case Binary(op, l, r) =>
      var a := Run(f, env, l);
      if a.outcome.Fail? then a
      else
        var b := Run(f, env, r);
        if b.outcome.Fail? then After(a.cost, b)
        else After(a.cost + b.cost, ApplyBinary(f, op, a.outcome.value, b.outcome.value))
    case Dot(base, name) =>
      var s := Run(f, env, base);
      if s.outcome.Fail? then s else After(s.cost, Select(s.outcome.value, name, TypedRecord(base)))
    case Has(base, name) =>
      var s := Run(f, env, base);
      if s.outcome.Fail? then s else After(s.cost, Test(s.outcome.value, name, TypedRecord(base)))
    case ListOf(elements) =>
      var s := RunItems(f, env, elements);
      if s.outcome.Fail? then s else Step(s.cost + Units(s.outcome.value), s.outcome)
    case MapOf(members) =>
      var s := RunMembers(f, env, members);
      if s.outcome.Fail? then s else Step(s.cost + Units(s.outcome.value), s.outcome)
  }

  /** Items from the first on; the result is a list. */
  function RunItems(f: Arithmetic, env: Bindings, elements: seq<Expr>): (s: Step)
    ensures s.outcome.Ok? ==> s.outcome.value.List? && |s.outcome.value.items| == |elements|
    decreases elements
  {
    if elements == [] then Step(0, Ok(List([])))
    else
      var before := RunItems(f, env, elements[..|elements| - 1]);
      if before.outcome.Fail? then before
      else
        var last := Run(f, env, elements[|elements| - 1]);
        Step(before.cost + last.cost,
             if last.outcome.Fail? then last.outcome else Ok(List(before.outcome.value.items + [last.outcome.value])))
  }

  /** Members from the first on, key before value; a later key replaces an earlier one. */
  function RunMembers(f: Arithmetic, env: Bindings, members: seq<Member>): (s: Step)
    ensures s.outcome.Ok? ==> s.outcome.value.Map?
    decreases members
  {
    if members == [] then Step(0, Ok(Map([])))
    else
      var before := RunMembers(f, env, members[..|members| - 1]);
      if before.outcome.Fail? then before
      else After(before.cost, RunMember(f, env, members[|members| - 1], before.outcome.value.entries))
  }

  function RunMember(f: Arithmetic, env: Bindings, m: Member, entries: seq<Entry>): (s: Step)
    ensures s.outcome.Ok? ==> s.outcome.value.Map?
    decreases m
  {
    var k := Run(f, env, m.key);
    if k.outcome.Fail? then k
    else
      var v := Run(f, env, m.value);
      Step(k.cost + v.cost,
           if v.outcome.Fail? then v.outcome
           else if !k.outcome.value.Text? then Fail(IllTyped)
           else Ok(Map(Put(entries, k.outcome.value.text, v.outcome.value))))
  }

  // ---------------------------------------------------------------- the bounded interpreter

  datatype Answer = Result(value: Value) | Error(failure: Failure) | LimitReached

  /** What a limit makes of a computation: its own end when the cost fits, else the limit. */
  predicate Bounded(s: Step, before: nat, limit: nat, after: nat, answer: Answer) {
    if before + s.cost <= limit
    then after == before + s.cost && answer == Answered(s.outcome)
    else answer == LimitReached && before <= after <= limit
  }

  function Answered(o: Outcome): Answer {
    if o.Ok? then Result(o.value) else Error(o.failure)
  }

  class Interpreter {
    const f: Arithmetic
    const env: Bindings
    const limit: nat
    var spent: nat

    constructor (f: Arithmetic, env: Bindings, limit: nat)
      ensures this.f == f && this.env == env && this.limit == limit && spent == 0
    {
      this.f, this.env, this.limit, this.spent := f, env, limit, 0;
    }

    /** `charge`: refused, with nothing spent, when it would pass the limit. */
    method Charge(count: nat) returns (ok: bool)
      requires spent <= limit
      modifies this
      ensures ok <==> old(spent) + count <= limit
      ensures spent == if ok then old(spent) + count else old(spent)
    {
      ok := spent + count <= limit;
      if ok {
        spent := spent + count;
      }
    }

    /** Charges for an operation, then ends as it does. */
    method Finish(s: Step) returns (answer: Answer)
      requires spent <= limit
      modifies this
      ensures Bounded(s, old(spent), limit, spent, answer)
    {
      var ok := Charge(s.cost);
      answer := if ok then Answered(s.outcome) else LimitReached;
    }

    /** `eval`: exactly as far as the limit allows, what `Run` says. */
    method Eval(e: Expr) returns (answer: Answer)
      requires spent <= limit
      modifies this
      ensures Bounded(Run(f, env, e), old(spent), limit, spent, answer)
      decreases e, 2
    {
      hide Inner;
      var ok := Charge(1);
      if !ok {
        return LimitReached;
      }
      if e.Unary? || e.Binary? || e.Dot? || e.Has? {
        answer := EvalOperation(e);
      } else {
        answer := EvalInner(e);
      }
    }

    method EvalInner(e: Expr) returns (answer: Answer)
      requires spent <= limit && !e.Unary? && !e.Binary? && !e.Dot? && !e.Has?
      modifies this
      ensures Bounded(Inner(f, env, e), old(spent), limit, spent, answer)
      decreases e, 1
    {
      hide Units, Join, Truthy, RunItems, RunMembers, Run;
      match e {
        case Literal(v) =>
          answer := Finish(Step(if v.Text? then |v.text| else 0, Ok(v)));
        case Ident(name) =>
          answer := if name in env then Result(env[name]) else Error(Missing);
        case Conditional(c, yes, no) =>
          answer := Eval(c);
          if answer.Result? {
            if Truthy(f, answer.value) {
              answer := Eval(yes);
            } else {
              answer := Eval(no);
            }
          }
        case Junction(conjunction, l, r) =>
          answer := EvalJunction(conjunction, l, r);
        case ListOf(elements) =>
          answer := EvalItems(elements);
          if answer.Result? {
            answer := Finish(Step(Units(answer.value), Ok(answer.value)));
          }
        case MapOf(members) =>
          answer := EvalMembers(members);
          if answer.Result? {
            answer := Finish(Step(Units(answer.value), Ok(answer.value)));
          }
      }
    }

    /** Operands first, left to right, then the operation. */
    method EvalOperation(e: Expr) returns (answer: Answer)
      requires spent <= limit && (e.Unary? || e.Binary? || e.Dot? || e.Has?)
      modifies this
      ensures Bounded(Inner(f, env, e), old(spent), limit, spent, answer)
      decreases e, 1
    {
      hide ApplyUnary, ApplyBinary, Select, Test, TypedRecord, Run;
      answer := Eval(if e.Unary? then e.operand else if e.Binary? then e.left else e.base);
      if !answer.Result? {
        return;
      }
      match e {
        case Unary(op, x) =>
          answer := Finish(ApplyUnary(f, op, answer.value));
        case Binary(op, l, r) =>
          var left := answer.value;
          answer := Eval(r);
          if answer.Result? {
            answer := Finish(ApplyBinary(f, op, left, answer.value));
          }
        case Dot(base, name) =>
          answer := Finish(Select(answer.value, name, TypedRecord(base)));
        case Has(base, name) =>
          answer := Finish(Test(answer.value, name, TypedRecord(base)));
      }
    }

    /** Both operands are evaluated; their failures are held back, reaching the limit is not. */
    method EvalJunction(conjunction: bool, l: Expr, r: Expr) returns (answer: Answer)
      requires spent <= limit
      modifies this
      ensures var a, b := Run(f, env, l), Run(f, env, r);
        Bounded(Step(a.cost + b.cost + 1, Join(f, conjunction, a.outcome, b.outcome)), old(spent), limit, spent, answer)
      decreases Junction(conjunction, l, r), 0
    {
      var left := Eval(l);
      if left.LimitReached? {
        return left;
      }
      var right := Eval(r);
      if right.LimitReached? {
        return right;
      }
      answer := Finish(Step(1, Join(f, conjunction, Ended(left), Ended(right))));
    }

    method EvalItems(elements: seq<Expr>) returns (answer: Answer)
      requires spent <= limit
      modifies this
      ensures Bounded(RunItems(f, env, elements), old(spent), limit, spent, answer)
      decreases elements
    {
      var items: seq<Value> := [];
      var i := 0;
      while i < |elements|
        invariant 0 <= i <= |elements| && spent <= limit
        invariant old(spent) <= spent
        invariant RunItems(f, env, elements[..i]) == Step(spent - old(spent), Ok(List(items)))
      {
        PrefixItems(f, env, elements, i);
        answer := Eval(elements[i]);
        if !answer.Result? {
          return;
        }
        items := items + [answer.value];
        i := i + 1;
      }
      assert elements[..i] == elements;
      answer := Result(List(items));
    }

    method EvalMembers(members: seq<Member>) returns (answer: Answer)
      requires spent <= limit
      modifies this
      ensures Bounded(RunMembers(f, env, members), old(spent), limit, spent, answer)
      decreases members
    {
      var entries: seq<Entry> := [];
      var i := 0;
      while i < |members|
        invariant 0 <= i <= |members| && spent <= limit
        invariant old(spent) <= spent
        invariant RunMembers(f, env, members[..i]) == Step(spent - old(spent), Ok(Map(entries)))
      {
        PrefixMembers(f, env, members, i);
        answer := EvalMember(members[i], entries);
        if !answer.Result? {
          return;
        }
        entries := answer.value.entries;
        i := i + 1;
      }
      assert members[..i] == members;
      answer := Result(Map(entries));
    }

    method EvalMember(m: Member, entries: seq<Entry>) returns (answer: Answer)
      requires spent <= limit
      modifies this
      ensures Bounded(RunMember(f, env, m, entries), old(spent), limit, spent, answer)
      decreases m
    {
      answer := Eval(m.key);
      if !answer.Result? {
        return;
      }
      var key := answer.value;
      answer := Eval(m.value);
      if !answer.Result? {
        return;
      }
      if !key.Text? {
        return Error(IllTyped);
      }
      answer := Result(Map(Put(entries, key.text, answer.value)));
    }
  }

  function Ended(a: Answer): Outcome
    requires !a.LimitReached?
  {
    if a.Result? then Ok(a.value) else Fail(a.failure)
  }

  /** Where evaluating a prefix leads, the whole does not cost less. */
  lemma {:induction false} PrefixItems(f: Arithmetic, env: Bindings, elements: seq<Expr>, i: nat)
    requires i < |elements|
    ensures RunItems(f, env, elements[..i + 1]).cost <= RunItems(f, env, elements).cost
    ensures RunItems(f, env, elements[..i + 1]).outcome.Fail? ==>
              RunItems(f, env, elements) == RunItems(f, env, elements[..i + 1])
    ensures elements[..i + 1][..i] == elements[..i]
    decreases |elements|
  {
    if i + 1 == |elements| {
      assert elements[..i + 1] == elements;
    } else {
      var shorter := elements[..|elements| - 1];
      assert shorter[..i + 1] == elements[..i + 1];
      PrefixItems(f, env, shorter, i);
    }
  }

  lemma {:induction false} PrefixMembers(f: Arithmetic, env: Bindings, members: seq<Member>, i: nat)
    requires i < |members|
    ensures RunMembers(f, env, members[..i + 1]).cost <= RunMembers(f, env, members).cost
    ensures RunMembers(f, env, members[..i + 1]).outcome.Fail? ==>
              RunMembers(f, env, members) == RunMembers(f, env, members[..i + 1])
    ensures members[..i + 1][..i] == members[..i]
    decreases |members|
  {
    if i + 1 == |members| {
      assert members[..i + 1] == members;
    } else {
      var shorter := members[..|members| - 1];
      assert shorter[..i + 1] == members[..i + 1];
      PrefixMembers(f, env, shorter, i);
    }
  }

  // ---------------------------------------------------------------- guards

  function NodeCount(e: Expr): nat
    decreases e
  {
    1 + match e
    case Literal(_) => 0
    case Ident(_) => 0
    case Conditional(c, yes, no) => NodeCount(c) + NodeCount(yes) + NodeCount(no)
    case Junction(_, l, r) => NodeCount(l) + NodeCount(r)
    case Unary(_, x) => NodeCount(x)
    case Binary(_, l, r) => NodeCount(l) + NodeCount(r)
    case Dot(base, _) => NodeCount(base)
    case Has(base, _) => 1 + NodeCount(base)
    case ListOf(elements) => ItemCount(elements)
    case MapOf(members) => MemberCount(members)
  }

  function ItemCount(elements: seq<Expr>): nat
    decreases elements
  {
    if elements == [] then 0 else NodeCount(elements[0]) + ItemCount(elements[1..])
  }

  function MemberCount(members: seq<Member>): nat
    decreases members
  {
    if members == [] then 0
    else MemberNodes(members[0]) + MemberCount(members[1..])
  }

  function MemberNodes(m: Member): nat
    decreases m
  {
    NodeCount(m.key) + NodeCount(m.value)
  }

  datatype Verdict = Holds(truth: bool, spent: nat) | Fails(failure: Failure) | Exceeded

  /** `safe_evaluate`: the caps on source, snapshot and tree, then a bounded evaluation whose
      result must be a truth value. */
  method SafeEvaluate(f: Arithmetic, env: Bindings, e: Expr, sourceBytes: nat, snapshotUnits: nat, limit: nat)
    returns (verdict: Verdict)
    ensures verdict == Judged(Run(f, env, e), sourceBytes <= 4096 && snapshotUnits <= 65536 && NodeCount(e) <= 1024, limit)
  {
    if sourceBytes > 4096 || snapshotUnits > 65536 || NodeCount(e) > 1024 {
      return Exceeded;
    }
    var interpreter := new Interpreter(f, env, limit);
    var answer := interpreter.Eval(e);
    match answer {
      case LimitReached => return Exceeded;
      case Error(failure) => return Fails(failure);
      case Result(value) => return if value.Bool? then Holds(value.truth, interpreter.spent) else Fails(IllTyped);
    }
  }

  function Judged(s: Step, capped: bool, limit: nat): Verdict {
    if !capped || s.cost > limit then Exceeded
    else if s.outcome.Fail? then Fails(s.outcome.failure)
    else if s.outcome.value.Bool? then Holds(s.outcome.value.truth, s.cost)
    else Fails(IllTyped)
  }

  /** Fuel exactness: of two runs with different limits, the smaller one either reaches its limit
      or gives the answer of the larger one and spends as much; and it reaches its limit exactly
      when that is below the one cost of the expression. */
  method FuelExact(f: Arithmetic, env: Bindings, e: Expr, limit: nat, more: nat)
    returns (small: Answer, large: Answer, smallSpent: nat, largeSpent: nat)
    requires limit <= more
    ensures small == LimitReached || (small == large && smallSpent == largeSpent)
    ensures large == LimitReached ==> small == LimitReached
    ensures small == LimitReached <==> limit < Run(f, env, e).cost
    ensures small != LimitReached ==> smallSpent == Run(f, env, e).cost
  {
    hide Run;
    var frugal := new Interpreter(f, env, limit);
    small := frugal.Eval(e);
    smallSpent := frugal.spent;
    var generous := new Interpreter(f, env, more);
    large := generous.Eval(e);
    largeSpent := generous.spent;
  }

  /** Conjunction and disjunction are commutative in cost, value and whether they fail. */
  lemma JunctionCommutes(f: Arithmetic, env: Bindings, conjunction: bool, l: Expr, r: Expr)
    requires Run(f, env, l).outcome.Ok? ==> Run(f, env, l).outcome.value.Bool?
    requires Run(f, env, r).outcome.Ok? ==> Run(f, env, r).outcome.value.Bool?
    ensures var s, t := Run(f, env, Junction(conjunction, l, r)), Run(f, env, Junction(conjunction, r, l));
      && s.cost == t.cost
      && (s.outcome.Fail? <==> t.outcome.Fail?)
      && (s.outcome.Ok? ==> s == t)
  {
    JoinCommutes(f, conjunction, Run(f, env, l).outcome, Run(f, env, r).outcome);
  }
}
