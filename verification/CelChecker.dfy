/** The static types of `cel.py` and its checker, and that every accepted operation on values
    of its operand types gives a value of its result type or an allowed failure. */
module CelChecker {
  import opened Options
  import opened CelValues
  import opened Cel

  datatype Type =
    | NullType | BoolType | IntType | FloatType | TextType | Dynamic
    | ListType(element: Type)
    | MapType(element: Type, fields: seq<Field>)
    | RecordType(record: string, fields: seq<Field>)
    | ReferenceType(machine: Option<string>, nullable: bool)

  datatype Field = Field(name: string, of: Type)

  /** What an expression may mention. */
  datatype Context = Context(scope: map<string, Type>, event: Option<seq<Field>>, owner: Option<seq<Field>>)

  function Lookup(fields: seq<Field>, name: string): Option<Type> {
    if fields == [] then None
    else if fields[|fields| - 1].name == name then Some(fields[|fields| - 1].of)
    else Lookup(fields[..|fields| - 1], name)
  }

  predicate SameKind(a: Type, b: Type) {
    match a
    case NullType => b.NullType?
    case BoolType => b.BoolType?
    case IntType => b.IntType?
    case FloatType => b.FloatType?
    case TextType => b.TextType?
    case Dynamic => b.Dynamic?
    case ListType(_) => b.ListType?
    case MapType(_, _) => b.MapType?
    case RecordType(_, _) => b.RecordType?
    case ReferenceType(_, _) => b.ReferenceType?
  }

  /** `_assignable`. */
  predicate Assignable(actual: Type, expected: Type) {
    if actual.Dynamic? then false
    else if SameKind(actual, expected) then
      actual.ReferenceType? && expected.ReferenceType? ==>
        expected.machine.None? || actual.machine == expected.machine
    else
      || (expected.FloatType? && actual.IntType?)
      || (expected.ReferenceType? && expected.nullable && actual.NullType?)
  }

  /** `_references_compatible`. */
  predicate ReferencesCompatible(l: Type, r: Type) {
    if l.NullType? && r.NullType? then true
    else if l.NullType? then r.ReferenceType? && r.nullable
    else if r.NullType? then l.ReferenceType? && l.nullable
    else l.ReferenceType? && r.ReferenceType? && (l.machine.None? || r.machine.None? || l.machine == r.machine)
  }

  /** `_common_type`. */
  function CommonType(l: Type, r: Type): Option<Type> {
    if l == r then Some(l)
    else if !ReferencesCompatible(l, r) then None
    else
      var reference := if l.NullType? then r else l;
      if !reference.ReferenceType? then None
      else
        var machine := if l.ReferenceType? && r.ReferenceType? && l.machine != r.machine then None else reference.machine;
        Some(ReferenceType(machine, reference.nullable || l.NullType? || r.NullType?))
  }

  /** `_merge_elements`. */
  function Merge(types: seq<Type>): Type {
    if types == [] then Dynamic
    else if forall i :: 0 <= i < |types| ==> types[i] == types[0] then types[0]
    else Dynamic
  }

  // ---------------------------------------------------------------- the checker

  function CheckUnary(op: UnaryOp, t: Type): Option<Type> {
    match op
    case Not => if t.BoolType? then Some(BoolType) else None
    case Negate => if t.IntType? || t.FloatType? then Some(t) else None
    case Size => if t.TextType? || t.ListType? || t.MapType? then Some(IntType) else None
    case ToText => if t.BoolType? || t.IntType? || t.FloatType? || t.TextType? then Some(TextType) else None
    case ToInt => if t.FloatType? then Some(IntType) else None
    case ToDouble => if t.IntType? then Some(FloatType) else None
  }

  function CheckEquality(l: Type, r: Type): Option<Type> {
    if if l.ReferenceType? || r.ReferenceType? then ReferencesCompatible(l, r) else SameKind(l, r)
    then Some(BoolType) else None
  }

  function CheckMembership(l: Type, r: Type): Option<Type> {
    if r.ListType? then if r.element.Dynamic? || Assignable(l, r.element) then Some(BoolType) else None
    else if r.MapType? && l.TextType? then Some(BoolType)
    else None
  }

  function CheckSum(l: Type, r: Type): Option<Type> {
    if l.ListType? && r.ListType? then
      var common := CommonType(l.element, r.element);
      Some(ListType(if common.Some? then common.value else Dynamic))
    else if SameKind(l, r) && (l.IntType? || l.FloatType? || l.TextType?) then Some(l)
    else None
  }

  function CheckIndex(l: Type, r: Type): Option<Type> {
    if l.ListType? && r.IntType? then Some(l.element)
    else if l.MapType? && r.TextType? then Some(l.element)
    else None
  }

  predicate Relational(op: BinaryOp) {
    op.Lt? || op.Le? || op.Gt? || op.Ge?
  }

  function CheckBinary(op: BinaryOp, l: Type, r: Type): Option<Type> {
    if op.Eq? || op.Ne? then CheckEquality(l, r)
    else if Relational(op) then
      if SameKind(l, r) && (l.IntType? || l.FloatType? || l.TextType?) then Some(BoolType) else None
    else if op.In? then CheckMembership(l, r)
    else if op.Add? then CheckSum(l, r)
    else if op.Index? then CheckIndex(l, r)
    else if SameKind(l, r) && (l.IntType? || (l.FloatType? && !op.Mod?)) then Some(l)
    else None
  }

  function CheckDot(t: Type, name: string): Option<Type> {
    match t
    case RecordType(_, fields) => Lookup(fields, name)
    case MapType(element, fields) => Some(FieldType(element, fields, name))
    case _ => None
  }

  function FieldType(element: Type, fields: seq<Field>, name: string): Type {
    if Lookup(fields, name).Some? then Lookup(fields, name).value else element
  }

  function CheckHas(t: Type, name: string): Option<Type> {
    if t.MapType? || (t.RecordType? && t.record == "event_payload" && Lookup(t.fields, name).Some?) then Some(BoolType)
    else None
  }

  function CheckLiteral(v: Value): Option<Type> {
    match v
    case Null => Some(NullType)
    case Bool(_) => Some(BoolType)
    case Int(n) => if INT_MIN <= n <= INT_MAX then Some(IntType) else None
    case Float(_) => Some(FloatType)
    case Text(_) => Some(TextType)
    case _ => None
  }

  function CheckIdent(ctx: Context, name: string): Option<Type> {
    if name == "event" then
      if ctx.event.None? then None
      else Some(RecordType("event", [Field("payload", RecordType("event_payload", ctx.event.value))]))
    else if name == "owner" then
      if ctx.owner.None? then None
      else Some(RecordType("owner", [Field("variables", RecordType("owner_variables", ctx.owner.value))]))
    else if name in ctx.scope then Some(ctx.scope[name])
    else None
  }

  /** `_Checker.check`. */
  function Check(ctx: Context, e: Expr): Option<Type>
    decreases e
  {
    match e
    case Literal(v) => CheckLiteral(v)
    case Ident(name) => CheckIdent(ctx, name)
    case Conditional(c, yes, no) =>
      if Check(ctx, c) != Some(BoolType) || Check(ctx, yes).None? || Check(ctx, no).None? then None
      else CommonType(Check(ctx, yes).value, Check(ctx, no).value)
    case Junction(_, l, r) =>
      if Check(ctx, l) == Some(BoolType) && Check(ctx, r) == Some(BoolType) then Some(BoolType) else None
    case Unary(op, x) => if Check(ctx, x).None? then None else CheckUnary(op, Check(ctx, x).value)
    case Binary(op, l, r) =>
      if Check(ctx, l).None? || Check(ctx, r).None? then None
      else CheckBinary(op, Check(ctx, l).value, Check(ctx, r).value)
    case Dot(base, name) => if Check(ctx, base).None? then None else CheckDot(Check(ctx, base).value, name)
    case Has(base, name) => if Check(ctx, base).None? then None else CheckHas(Check(ctx, base).value, name)
    case ListOf(elements) =>
      var types := CheckItems(ctx, elements);
      if types.None? then None else Some(ListType(Merge(types.value)))
    case MapOf(members) =>
      var fields := CheckMembers(ctx, members);
      if fields.None? then None
      else Some(MapType(Merge(TypesOf(fields.value)), NamedFields(fields.value)))
  }

  function CheckItems(ctx: Context, elements: seq<Expr>): (types: Option<seq<Type>>)
    ensures types.Some? ==> |types.value| == |elements|
    decreases elements
  {
    if elements == [] then Some([])
    else
      var before := CheckItems(ctx, elements[..|elements| - 1]);
      var last := Check(ctx, elements[|elements| - 1]);
      if before.None? || last.None? then None else Some(before.value + [last.value])
  }

  /** One entry a member: its literal key, when it is one, and the type of its value. */
  datatype Keyed = Keyed(key: Option<string>, of: Type)

  function LiteralKey(e: Expr): Option<string> {
    if e.Literal? && e.value.Text? then Some(e.value.text) else None
  }

  function CheckMembers(ctx: Context, members: seq<Member>): (keyed: Option<seq<Keyed>>)
    ensures keyed.Some? ==> |keyed.value| == |members|
    decreases members
  {
    if members == [] then Some([])
    else
      var before := CheckMembers(ctx, members[..|members| - 1]);
      var last := CheckMember(ctx, members[|members| - 1]);
      if before.None? || last.None? then None else Some(before.value + [last.value])
  }

  function CheckMember(ctx: Context, m: Member): Option<Keyed>
    decreases m
  {
    if Check(ctx, m.key) == Some(TextType) && Check(ctx, m.value).Some?
    then Some(Keyed(LiteralKey(m.key), Check(ctx, m.value).value))
    else None
  }

  function TypesOf(keyed: seq<Keyed>): (types: seq<Type>)
    ensures |types| == |keyed|
    ensures forall i :: 0 <= i < |types| ==> types[i] == keyed[i].of
  {
    if keyed == [] then [] else TypesOf(keyed[..|keyed| - 1]) + [keyed[|keyed| - 1].of]
  }

  function NamedFields(keyed: seq<Keyed>): seq<Field> {
    if keyed == [] then []
    else
      var last := keyed[|keyed| - 1];
      NamedFields(keyed[..|keyed| - 1]) + (if last.key.Some? then [Field(last.key.value, last.of)] else [])
  }

  // ---------------------------------------------------------------- values of a type

  /** `v` is a value of `t`. A reference may be null, and it is a map that no accepted
      expression looks into. */
  predicate Conforms(v: Value, t: Type)
    decreases v
  {
    match t
    case NullType => v.Null?
    case BoolType => v.Bool?
    case IntType => v.Int?
    case FloatType => v.Float?
    case TextType => v.Text?
    case Dynamic => true
    case ListType(element) => v.List? && forall i :: 0 <= i < |v.items| ==> Conforms(v.items[i], element)
    case MapType(element, fields) =>
      v.Map? && forall i :: 0 <= i < |v.entries| ==>
        Conforms(v.entries[i].value, FieldType(element, fields, v.entries[i].key))
    case RecordType(_, fields) =>
      v.Map? && forall i :: 0 <= i < |v.entries| && Lookup(fields, v.entries[i].key).Some? ==>
        Conforms(v.entries[i].value, Lookup(fields, v.entries[i].key).value)
    case ReferenceType(_, _) => v.Null? || v.Map?
  }

  /** The element type of a map covers its fields. */
  predicate Regular(t: Type) {
    match t
    case ListType(element) => Regular(element)
    case MapType(element, fields) =>
      Regular(element) && forall i :: 0 <= i < |fields| ==>
        Regular(fields[i].of) && (element.Dynamic? || fields[i].of == element)
    case RecordType(_, fields) => forall i :: 0 <= i < |fields| ==> Regular(fields[i].of)
    case _ => true
  }

  predicate RegularContext(ctx: Context) {
    && (forall x :: x in ctx.scope ==> Regular(ctx.scope[x]))
    && (ctx.event.Some? ==> Regular(RecordType("event_payload", ctx.event.value)))
    && (ctx.owner.Some? ==> Regular(RecordType("owner_variables", ctx.owner.value)))
  }

  predicate Fits(env: Bindings, ctx: Context) {
    && (forall x :: x in ctx.scope && x != "event" && x != "owner" ==> x in env && Conforms(env[x], ctx.scope[x]))
    && (ctx.event.Some? ==> "event" in env && Conforms(env["event"], CheckIdent(ctx, "event").value))
    && (ctx.owner.Some? ==> "owner" in env && Conforms(env["owner"], CheckIdent(ctx, "owner").value))
  }

  /** Map keys are string literals, and no equality compares two dynamic values. */
  predicate Plain(ctx: Context, e: Expr)
    decreases e
  {
    match e
    case Literal(_) => true
    case Ident(_) => true
    case Conditional(c, yes, no) => Plain(ctx, c) && Plain(ctx, yes) && Plain(ctx, no)
    case Junction(_, l, r) => Plain(ctx, l) && Plain(ctx, r)
    case Unary(_, x) => Plain(ctx, x)
    case Binary(op, l, r) =>
      Plain(ctx, l) && Plain(ctx, r) && ((op.Eq? || op.Ne?) ==> Check(ctx, l) != Some(Dynamic))
    case Dot(base, _) => Plain(ctx, base)
    case Has(base, _) => Plain(ctx, base)
    case ListOf(elements) => forall i :: 0 <= i < |elements| ==> Plain(ctx, elements[i])
    case MapOf(members) => forall i :: 0 <= i < |members| ==> PlainMember(ctx, members[i])
  }

  predicate PlainMember(ctx: Context, m: Member)
    decreases m
  {
    LiteralKey(m.key).Some? && Plain(ctx, m.value)
  }

  /** A value of the type, or one of the failures that types do not rule out. */
  predicate Sound(o: Outcome, t: Type) {
    if o.Ok? then Conforms(o.value, t) else o.failure != IllTyped
  }

  // ---------------------------------------------------------------- soundness of the operations

  lemma UnarySound(f: Arithmetic, op: UnaryOp, v: Value, t: Type)
    requires Conforms(v, t) && CheckUnary(op, t).Some?
    ensures Sound(ApplyUnary(f, op, v).outcome, CheckUnary(op, t).value)
  {
  }

  /** Where two types have a common type, it takes the values of both. */
  lemma CommonTakes(v: Value, l: Type, r: Type)
    requires CommonType(l, r).Some?
    ensures Conforms(v, l) || Conforms(v, r) ==> Conforms(v, CommonType(l, r).value)
  {
  }

  lemma FindConforms(entries: seq<Entry>, key: string)
    ensures Find(entries, key).Some? ==>
              exists i :: 0 <= i < |entries| && entries[i].key == key && Find(entries, key) == Some(entries[i].value)
  {
    if entries != [] {
      if entries[0].key == key {
        assert Find(entries, key) == Some(entries[0].value);
      } else {
        FindConforms(entries[1..], key);
        if Find(entries[1..], key).Some? {
          var i :| 0 <= i < |entries[1..]| && entries[1..][i].key == key && Find(entries[1..], key) == Some(entries[1..][i].value);
          assert entries[i + 1] == entries[1..][i];
        }
      }
    }
  }

  lemma LookupField(fields: seq<Field>, name: string)
    ensures Lookup(fields, name).Some? ==>
              exists i :: 0 <= i < |fields| && fields[i].name == name && Lookup(fields, name) == Some(fields[i].of)
  {
    if fields != [] && fields[|fields| - 1].name != name {
      LookupField(fields[..|fields| - 1], name);
    }
  }

  lemma DotSound(v: Value, t: Type, name: string, record: bool)
    requires Conforms(v, t) && CheckDot(t, name).Some?
    ensures Sound(Select(v, name, record).outcome, CheckDot(t, name).value)
  {
    FindConforms(v.entries, name);
  }

  lemma HasSound(v: Value, t: Type, name: string, record: bool)
    requires Conforms(v, t) && CheckHas(t, name).Some?
    ensures Sound(Test(v, name, record).outcome, BoolType)
  {
  }

  lemma IndexSound(f: Arithmetic, a: Value, b: Value, l: Type, r: Type)
    requires Regular(l) && Conforms(a, l) && Conforms(b, r) && CheckIndex(l, r).Some?
    ensures Sound(At(a, b).outcome, CheckIndex(l, r).value)
  {
    if l.MapType? {
      FindConforms(a.entries, b.text);
      LookupField(l.fields, b.text);
    }
  }

  lemma SumSound(f: Arithmetic, a: Value, b: Value, l: Type, r: Type)
    requires Conforms(a, l) && Conforms(b, r) && CheckSum(l, r).Some?
    ensures Sound(Sum(f, a, b).outcome, CheckSum(l, r).value)
  {
    if l.ListType? {
      var t := CheckSum(l, r).value;
      var items := a.items + b.items;
      forall i | 0 <= i < |items| ensures Conforms(items[i], t.element) {
        if CommonType(l.element, r.element).Some? {
          CommonTakes(items[i], l.element, r.element);
        }
      }
    }
  }

  lemma EqualitySound(f: Arithmetic, op: BinaryOp, a: Value, b: Value, l: Type, r: Type)
    requires op.Eq? || op.Ne?
    requires Conforms(a, l) && Conforms(b, r) && CheckEquality(l, r).Some? && !l.Dynamic?
    ensures Sound(ApplyBinary(f, op, a, b).outcome, BoolType)
  {
  }

  lemma BinarySound(f: Arithmetic, op: BinaryOp, a: Value, b: Value, l: Type, r: Type)
    requires Regular(l) && Conforms(a, l) && Conforms(b, r) && CheckBinary(op, l, r).Some?
    requires op.Eq? || op.Ne? ==> !l.Dynamic?
    ensures Sound(ApplyBinary(f, op, a, b).outcome, CheckBinary(op, l, r).value)
  {
    if op.Eq? || op.Ne? {
      EqualitySound(f, op, a, b, l, r);
    } else if op.Add? {
      SumSound(f, a, b, l, r);
    } else if op.Index? {
      IndexSound(f, a, b, l, r);
    }
  }
}
