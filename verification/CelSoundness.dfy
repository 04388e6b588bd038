/** Type soundness of the checker for the interpreter. */
module CelSoundness {
  import opened Options
  import opened CelValues
  import opened Cel
  import opened CelChecker

  lemma {:induction false} IdentSound(f: Arithmetic, env: Bindings, ctx: Context, name: string)
    requires RegularContext(ctx) && Fits(env, ctx) && CheckIdent(ctx, name).Some?
    ensures Sound(Run(f, env, Ident(name)).outcome, CheckIdent(ctx, name).value)
    ensures Regular(CheckIdent(ctx, name).value)
  {
    if name == "event" {
      assert Regular(RecordType("event_payload", ctx.event.value));
    } else if name == "owner" {
      assert Regular(RecordType("owner_variables", ctx.owner.value));
    }
  }

  lemma CommonRegular(l: Type, r: Type)
    requires Regular(l) && Regular(r) && CommonType(l, r).Some?
    ensures Regular(CommonType(l, r).value)
  {
  }

  lemma MergeRegular(types: seq<Type>)
    requires forall i :: 0 <= i < |types| ==> Regular(types[i])
    ensures Regular(Merge(types))
    ensures forall i :: 0 <= i < |types| ==> Merge(types).Dynamic? || types[i] == Merge(types)
  {
  }

  lemma BinaryRegular(op: BinaryOp, l: Type, r: Type)
    requires Regular(l) && Regular(r) && CheckBinary(op, l, r).Some?
    ensures Regular(CheckBinary(op, l, r).value)
  {
    if op.Add? && l.ListType? && r.ListType? && CommonType(l.element, r.element).Some? {
      CommonRegular(l.element, r.element);
    }
  }

  lemma DotRegular(t: Type, name: string)
    requires Regular(t) && CheckDot(t, name).Some?
    ensures Regular(CheckDot(t, name).value)
  {
    if t.RecordType? || t.MapType? {
      LookupField(t.fields, name);
    }
  }

  /** Type soundness. */
  lemma {:induction false} Soundness(f: Arithmetic, env: Bindings, ctx: Context, e: Expr)
    requires RegularContext(ctx) && Fits(env, ctx) && Plain(ctx, e) && Check(ctx, e).Some?
    ensures Sound(Run(f, env, e).outcome, Check(ctx, e).value)
    ensures Regular(Check(ctx, e).value)
    decreases e
  {
    hide Run, Sound, Regular, RegularContext, Fits, CheckUnary, CheckBinary, CheckDot, CheckHas;
    match e
    case Literal(v) =>
      LiteralSound(f, env, ctx, v);
    case Ident(name) =>
      IdentSound(f, env, ctx, name);
    case Conditional(c, yes, no) =>
      Soundness(f, env, ctx, c);
      Soundness(f, env, ctx, yes);
      Soundness(f, env, ctx, no);
      ConditionalSound(f, env, ctx, c, yes, no);
    case Junction(conjunction, l, r) =>
      Soundness(f, env, ctx, l);
      Soundness(f, env, ctx, r);
      JunctionSound(f, env, ctx, conjunction, l, r);
    case Unary(op, x) =>
      Soundness(f, env, ctx, x);
      UnaryRunSound(f, env, ctx, op, x);
    case Binary(op, l, r) =>
      Soundness(f, env, ctx, l);
      Soundness(f, env, ctx, r);
      BinaryRunSound(f, env, ctx, op, l, r);
    case Dot(base, name) =>
      Soundness(f, env, ctx, base);
      SelectionSound(f, env, ctx, base, name);
    case Has(base, name) =>
      Soundness(f, env, ctx, base);
      PresenceSound(f, env, ctx, base, name);
    case ListOf(elements) =>
      SoundItems(f, env, ctx, elements);
      ListSound(f, env, ctx, elements);
    case MapOf(members) =>
      SoundMembers(f, env, ctx, members);
      MapSound(f, env, ctx, members);
  }

  lemma LiteralSound(f: Arithmetic, env: Bindings, ctx: Context, v: Value)
    requires CheckLiteral(v).Some?
    ensures Sound(Run(f, env, Literal(v)).outcome, CheckLiteral(v).value) && Regular(CheckLiteral(v).value)
  {
  }

  lemma JunctionSound(f: Arithmetic, env: Bindings, ctx: Context, conjunction: bool, l: Expr, r: Expr)
    requires Sound(Run(f, env, l).outcome, BoolType) && Sound(Run(f, env, r).outcome, BoolType)
    ensures Sound(Run(f, env, Junction(conjunction, l, r)).outcome, BoolType) && Regular(BoolType)
  {
  }

  lemma UnaryRunSound(f: Arithmetic, env: Bindings, ctx: Context, op: UnaryOp, x: Expr)
    requires Check(ctx, x).Some? && CheckUnary(op, Check(ctx, x).value).Some?
    requires Sound(Run(f, env, x).outcome, Check(ctx, x).value) && Regular(Check(ctx, x).value)
    ensures Sound(Run(f, env, Unary(op, x)).outcome, CheckUnary(op, Check(ctx, x).value).value)
    ensures Regular(CheckUnary(op, Check(ctx, x).value).value)
  {
    var s := Run(f, env, x);
    if s.outcome.Ok? {
      UnarySound(f, op, s.outcome.value, Check(ctx, x).value);
    }
  }

  lemma SelectionSound(f: Arithmetic, env: Bindings, ctx: Context, base: Expr, name: string)
    requires Check(ctx, base).Some? && CheckDot(Check(ctx, base).value, name).Some?
    requires Sound(Run(f, env, base).outcome, Check(ctx, base).value) && Regular(Check(ctx, base).value)
    ensures Sound(Run(f, env, Dot(base, name)).outcome, CheckDot(Check(ctx, base).value, name).value)
    ensures Regular(CheckDot(Check(ctx, base).value, name).value)
  {
    var s := Run(f, env, base);
    DotRegular(Check(ctx, base).value, name);
    if s.outcome.Ok? {
      DotSound(s.outcome.value, Check(ctx, base).value, name, TypedRecord(base));
    }
  }

  lemma PresenceSound(f: Arithmetic, env: Bindings, ctx: Context, base: Expr, name: string)
    requires Check(ctx, base).Some? && CheckHas(Check(ctx, base).value, name).Some?
    requires Sound(Run(f, env, base).outcome, Check(ctx, base).value)
    ensures Sound(Run(f, env, Has(base, name)).outcome, CheckHas(Check(ctx, base).value, name).value)
    ensures Regular(CheckHas(Check(ctx, base).value, name).value)
  {
    var s := Run(f, env, base);
    if s.outcome.Ok? {
      HasSound(s.outcome.value, Check(ctx, base).value, name, TypedRecord(base));
    }
  }

  lemma ListSound(f: Arithmetic, env: Bindings, ctx: Context, elements: seq<Expr>)
    requires CheckItems(ctx, elements).Some?
    requires forall i :: 0 <= i < |elements| ==> Regular(CheckItems(ctx, elements).value[i])
    requires var o := RunItems(f, env, elements).outcome;
      if o.Ok? then forall i :: 0 <= i < |elements| ==> Conforms(o.value.items[i], CheckItems(ctx, elements).value[i])
      else o.failure != IllTyped
    ensures Sound(Run(f, env, ListOf(elements)).outcome, Check(ctx, ListOf(elements)).value)
    ensures Regular(Check(ctx, ListOf(elements)).value)
  {
    MergeRegular(CheckItems(ctx, elements).value);
  }

  lemma {:induction false} ConditionalSound(f: Arithmetic, env: Bindings, ctx: Context, c: Expr, yes: Expr, no: Expr)
    requires Check(ctx, Conditional(c, yes, no)).Some?
    requires Sound(Run(f, env, c).outcome, Check(ctx, c).value)
    requires Sound(Run(f, env, yes).outcome, Check(ctx, yes).value) && Regular(Check(ctx, yes).value)
    requires Sound(Run(f, env, no).outcome, Check(ctx, no).value) && Regular(Check(ctx, no).value)
    ensures Sound(Run(f, env, Conditional(c, yes, no)).outcome, Check(ctx, Conditional(c, yes, no)).value)
    ensures Regular(Check(ctx, Conditional(c, yes, no)).value)
  {
    var l, r := Check(ctx, yes).value, Check(ctx, no).value;
    CommonRegular(l, r);
    var a, b := Run(f, env, yes).outcome, Run(f, env, no).outcome;
    if a.Ok? {
      CommonTakes(a.value, l, r);
    }
    if b.Ok? {
      CommonTakes(b.value, l, r);
    }
  }

  lemma {:induction false} BinaryRunSound(f: Arithmetic, env: Bindings, ctx: Context, op: BinaryOp, l: Expr, r: Expr)
    requires Check(ctx, Binary(op, l, r)).Some? && (op.Eq? || op.Ne? ==> Check(ctx, l) != Some(Dynamic))
    requires Sound(Run(f, env, l).outcome, Check(ctx, l).value) && Regular(Check(ctx, l).value)
    requires Sound(Run(f, env, r).outcome, Check(ctx, r).value) && Regular(Check(ctx, r).value)
    ensures Sound(Run(f, env, Binary(op, l, r)).outcome, Check(ctx, Binary(op, l, r)).value)
    ensures Regular(Check(ctx, Binary(op, l, r)).value)
  {
    var s, t := Check(ctx, l).value, Check(ctx, r).value;
    BinaryRegular(op, s, t);
    var a, b := Run(f, env, l).outcome, Run(f, env, r).outcome;
    if a.Ok? && b.Ok? {
      BinarySound(f, op, a.value, b.value, s, t);
    }
  }

  lemma {:induction false} SoundItems(f: Arithmetic, env: Bindings, ctx: Context, elements: seq<Expr>)
    requires RegularContext(ctx) && Fits(env, ctx) && CheckItems(ctx, elements).Some?
    requires forall i :: 0 <= i < |elements| ==> Plain(ctx, elements[i])
    ensures forall i :: 0 <= i < |elements| ==> Regular(CheckItems(ctx, elements).value[i])
    ensures var o := RunItems(f, env, elements).outcome;
      if o.Ok? then forall i :: 0 <= i < |elements| ==> Conforms(o.value.items[i], CheckItems(ctx, elements).value[i])
      else o.failure != IllTyped
    decreases elements
  {
    if elements != [] {
      SoundItems(f, env, ctx, elements[..|elements| - 1]);
      Soundness(f, env, ctx, elements[|elements| - 1]);
    }
  }

  /** Keys are distinct, and every entry has a field of its key and fits it. */
  predicate Keeps(entries: seq<Entry>, fields: seq<Field>) {
    && DistinctKeys(entries)
    && (forall i :: 0 <= i < |entries| ==>
          Lookup(fields, entries[i].key).Some? && Conforms(entries[i].value, Lookup(fields, entries[i].key).value))
  }

  predicate DistinctKeys(entries: seq<Entry>) {
    forall i, j :: 0 <= i < j < |entries| ==> entries[i].key != entries[j].key
  }

  lemma LookupLast(fields: seq<Field>, last: Field, key: string)
    ensures Lookup(fields + [last], key) == if last.name == key then Some(last.of) else Lookup(fields, key)
  {
    assert (fields + [last])[..|fields + [last]| - 1] == fields;
  }

  /** Each entry after `Put` is the one put, or an old one of another key. */
  lemma PutEntries(entries: seq<Entry>, key: string, v: Value)
    requires DistinctKeys(entries)
    ensures DistinctKeys(Put(entries, key, v))
    ensures forall i :: 0 <= i < |Put(entries, key, v)| ==>
              var e := Put(entries, key, v)[i];
              e == Entry(key, v) || (e in entries && e.key != key)
  {
    if entries != [] {
      var rest := entries[1..];
      PutEntries(rest, key, v);
      var put := Put(entries, key, v);
      if entries[0].key == key {
        forall i | 0 <= i < |put| ensures put[i] == Entry(key, v) || (put[i] in entries && put[i].key != key) {
          if i > 0 {
            assert put[i] == entries[i];
          }
        }
      } else {
        forall i | 0 < i < |put|
          ensures put[i] == Entry(key, v) || (put[i] in entries && put[i].key != key)
          ensures put[i].key != entries[0].key
        {
          assert put[i] == Put(rest, key, v)[i - 1];
          if put[i] in rest {
            var j :| 0 <= j < |rest| && rest[j] == put[i];
            assert entries[j + 1] == put[i];
          }
        }
        forall i, j | 0 <= i < j < |put| ensures put[i].key != put[j].key {
          if i > 0 {
            assert put[i] == Put(rest, key, v)[i - 1] && put[j] == Put(rest, key, v)[j - 1];
          }
        }
      }
    }
  }

  lemma PutKeeps(entries: seq<Entry>, fields: seq<Field>, key: string, v: Value, t: Type)
    requires Keeps(entries, fields) && Conforms(v, t)
    ensures Keeps(Put(entries, key, v), fields + [Field(key, t)])
  {
    PutEntries(entries, key, v);
    var put := Put(entries, key, v);
    var all := fields + [Field(key, t)];
    forall i | 0 <= i < |put|
      ensures Lookup(all, put[i].key).Some? && Conforms(put[i].value, Lookup(all, put[i].key).value)
    {
      LookupLast(fields, Field(key, t), put[i].key);
      if put[i].key != key {
        var j :| 0 <= j < |entries| && entries[j] == put[i];
      }
    }
  }

  predicate CoveredBy(fields: seq<Field>, types: seq<Type>) {
    forall i :: 0 <= i < |fields| ==> fields[i].of in types
  }

  lemma {:induction false} SoundMembers(f: Arithmetic, env: Bindings, ctx: Context, members: seq<Member>)
    requires RegularContext(ctx) && Fits(env, ctx) && CheckMembers(ctx, members).Some?
    requires forall i :: 0 <= i < |members| ==> PlainMember(ctx, members[i])
    ensures var keyed := CheckMembers(ctx, members).value;
      && (forall i :: 0 <= i < |keyed| ==> Regular(keyed[i].of))
      && CoveredBy(NamedFields(keyed), TypesOf(keyed))
    ensures var o := RunMembers(f, env, members).outcome;
      if o.Ok? then Keeps(o.value.entries, NamedFields(CheckMembers(ctx, members).value)) else o.failure != IllTyped
    decreases members
  {
    if members != [] {
      hide Run, Sound, Regular, RegularContext, Fits, Keeps, CoveredBy, Check, PlainMember, RunMembers, NamedFields, TypesOf;
      var before := members[..|members| - 1];
      var last := members[|members| - 1];
      SoundMembers(f, env, ctx, before);
      LastChecked(ctx, members);
      MemberSound(f, env, ctx, last);
      MembersStep(f, env, ctx, members);
    } else {
      assert Keeps([], []);
    }
  }

  lemma LastChecked(ctx: Context, members: seq<Member>)
    requires members != [] && CheckMembers(ctx, members).Some?
    ensures Check(ctx, members[|members| - 1].value).Some?
  {
  }

  lemma {:induction false} MembersStep(f: Arithmetic, env: Bindings, ctx: Context, members: seq<Member>)
    requires members != [] && CheckMembers(ctx, members).Some?
    requires var before := members[..|members| - 1];
      var last := members[|members| - 1];
      var keyed := CheckMembers(ctx, before).value;
      && PlainMember(ctx, last) && Check(ctx, last.value).Some?
      && Sound(Run(f, env, last.value).outcome, Check(ctx, last.value).value) && Regular(Check(ctx, last.value).value)
      && (forall i :: 0 <= i < |keyed| ==> Regular(keyed[i].of))
      && CoveredBy(NamedFields(keyed), TypesOf(keyed))
      && var o := RunMembers(f, env, before).outcome;
         if o.Ok? then Keeps(o.value.entries, NamedFields(keyed)) else o.failure != IllTyped
    ensures var keyed := CheckMembers(ctx, members).value;
      && (forall i :: 0 <= i < |keyed| ==> Regular(keyed[i].of))
      && CoveredBy(NamedFields(keyed), TypesOf(keyed))
    ensures var o := RunMembers(f, env, members).outcome;
      if o.Ok? then Keeps(o.value.entries, NamedFields(CheckMembers(ctx, members).value)) else o.failure != IllTyped
  {
    hide Keeps, Regular, Conforms, Put;
    var before := members[..|members| - 1];
    var last := members[|members| - 1];
    var keyed := CheckMembers(ctx, members).value;
    assert keyed[..|keyed| - 1] == CheckMembers(ctx, before).value;
    var key := LiteralKey(last.key).value;
    assert last.key == Literal(Text(key));
    assert Run(f, env, last.key).outcome == Ok(Text(key)) by {
      assert Inner(f, env, Literal(Text(key))).outcome == Ok(Text(key));
    }
    assert NamedFields(keyed) ==
           NamedFields(CheckMembers(ctx, before).value) + [Field(key, Check(ctx, last.value).value)];
    var o := RunMembers(f, env, before).outcome;
    var v := Run(f, env, last.value).outcome;
    if o.Ok? && v.Ok? {
      PutKeeps(o.value.entries, NamedFields(CheckMembers(ctx, before).value), key, v.value, Check(ctx, last.value).value);
    }
  }

  lemma {:induction false} MemberSound(f: Arithmetic, env: Bindings, ctx: Context, m: Member)
    requires RegularContext(ctx) && Fits(env, ctx) && PlainMember(ctx, m) && Check(ctx, m.value).Some?
    ensures Sound(Run(f, env, m.value).outcome, Check(ctx, m.value).value) && Regular(Check(ctx, m.value).value)
    decreases m
  {
    Soundness(f, env, ctx, m.value);
  }

  lemma {:induction false} MapSound(f: Arithmetic, env: Bindings, ctx: Context, members: seq<Member>)
    requires CheckMembers(ctx, members).Some?
    requires var keyed := CheckMembers(ctx, members).value;
      && (forall i :: 0 <= i < |keyed| ==> Regular(keyed[i].of))
      && CoveredBy(NamedFields(keyed), TypesOf(keyed))
    requires var o := RunMembers(f, env, members).outcome;
      if o.Ok? then Keeps(o.value.entries, NamedFields(CheckMembers(ctx, members).value)) else o.failure != IllTyped
    ensures Sound(Run(f, env, MapOf(members)).outcome, Check(ctx, MapOf(members)).value)
    ensures Regular(Check(ctx, MapOf(members)).value)
  {
    var keyed := CheckMembers(ctx, members).value;
    MergeRegular(TypesOf(keyed));
  }

  // ---------------------------------------------------------------- where the restrictions bite

  lemma ItemRuns(f: Arithmetic, env: Bindings, name: string, i: nat)
    requires name in env && env[name].List? && i < |env[name].items|
    ensures Run(f, env, Binary(Index, Ident(name), Literal(Int(i)))).outcome == Ok(env[name].items[i])
  {
    assert Run(f, env, Ident(name)).outcome == Ok(env[name]);
    assert Run(f, env, Literal(Int(i))).outcome == Ok(Int(i));
  }

  lemma ItemChecks(ctx: Context, name: string, i: nat)
    requires name in ctx.scope && name != "event" && name != "owner" && ctx.scope[name] == ListType(Dynamic) && i <= INT_MAX
    ensures Check(ctx, Binary(Index, Ident(name), Literal(Int(i)))) == Some(Dynamic)
  {
    assert Check(ctx, Ident(name)) == Some(ListType(Dynamic));
    assert Check(ctx, Literal(Int(i))) == Some(IntType);
  }

  /** Two dynamic operands of an equality are accepted, but a text on the left is measured
      together with a number on the right, which has no length. */
  lemma DynamicEqualityFails(f: Arithmetic)
    ensures var ctx := Context(map["xs" := ListType(Dynamic)], None, None);
      var env := map["xs" := List([Text("a"), Int(1)])];
      var e := Binary(Eq, Binary(Index, Ident("xs"), Literal(Int(0))), Binary(Index, Ident("xs"), Literal(Int(1))));
      && RegularContext(ctx) && Fits(env, ctx)
      && Check(ctx, e) == Some(BoolType)
      && Run(f, env, e).outcome == Fail(IllTyped)
  {
    hide Run;
    var ctx := Context(map["xs" := ListType(Dynamic)], None, None);
    var env := map["xs" := List([Text("a"), Int(1)])];
    var a := Binary(Index, Ident("xs"), Literal(Int(0)));
    var b := Binary(Index, Ident("xs"), Literal(Int(1)));
    ItemChecks(ctx, "xs", 0);
    ItemChecks(ctx, "xs", 1);
    ItemRuns(f, env, "xs", 0);
    ItemRuns(f, env, "xs", 1);
    UnequalRuns(f, env, a, b, "a", 1);
  }

  lemma UnequalRuns(f: Arithmetic, env: Bindings, a: Expr, b: Expr, s: string, n: int)
    requires Run(f, env, a).outcome == Ok(Text(s)) && Run(f, env, b).outcome == Ok(Int(n))
    ensures Run(f, env, Binary(Eq, a, b)).outcome == Fail(IllTyped)
  {
  }

  const LITERAL_MEMBER := Member(Literal(Text("n")), Literal(Int(1)))
  const COMPUTED_MEMBER := Member(Ident("k"), Literal(Text("x")))

  lemma ComputedKeyRuns(f: Arithmetic, env: Bindings)
    requires env == map["k" := Text("n")]
    ensures RunMembers(f, env, [LITERAL_MEMBER, COMPUTED_MEMBER]).outcome == Ok(Map([Entry("n", Text("x"))]))
  {
    var members := [LITERAL_MEMBER, COMPUTED_MEMBER];
    assert members[..|members| - 1] == [LITERAL_MEMBER] && members[|members| - 1] == COMPUTED_MEMBER;
    assert [LITERAL_MEMBER][..0] == [];
    assert RunMember(f, env, LITERAL_MEMBER, []).outcome == Ok(Map([Entry("n", Int(1))])) by {
      assert Run(f, env, Literal(Text("n"))).outcome == Ok(Text("n"));
      assert Run(f, env, Literal(Int(1))).outcome == Ok(Int(1));
    }
    assert RunMembers(f, env, [LITERAL_MEMBER]).outcome == Ok(Map([Entry("n", Int(1))]));
    assert RunMember(f, env, COMPUTED_MEMBER, [Entry("n", Int(1))]).outcome == Ok(Map([Entry("n", Text("x"))])) by {
      assert Run(f, env, Ident("k")).outcome == Ok(Text("n"));
      assert Run(f, env, Literal(Text("x"))).outcome == Ok(Text("x"));
      assert [Entry("n", Int(1))][1..] == [];
    }
  }

  lemma ComputedKeyMembers(ctx: Context)
    requires ctx == Context(map["k" := TextType], None, None)
    ensures CheckMembers(ctx, [LITERAL_MEMBER, COMPUTED_MEMBER]) == Some([Keyed(Some("n"), IntType), Keyed(None, TextType)])
  {
    var members := [LITERAL_MEMBER, COMPUTED_MEMBER];
    assert members[..|members| - 1] == [LITERAL_MEMBER] && members[|members| - 1] == COMPUTED_MEMBER;
    assert CheckMember(ctx, LITERAL_MEMBER) == Some(Keyed(Some("n"), IntType));
    assert CheckMember(ctx, COMPUTED_MEMBER) == Some(Keyed(None, TextType));
    assert CheckMembers(ctx, [LITERAL_MEMBER]) == Some([Keyed(Some("n"), IntType)]) by {
      assert [LITERAL_MEMBER][..0] == [] && CheckMembers(ctx, []) == Some([]);
      assert [] + [Keyed(Some("n"), IntType)] == [Keyed(Some("n"), IntType)];
    }
    var keyed := [Keyed(Some("n"), IntType), Keyed(None, TextType)];
    assert CheckMembers(ctx, members) == Some(keyed) by {
      assert [Keyed(Some("n"), IntType)] + [Keyed(None, TextType)] == keyed;
    }
  }

  lemma ComputedKeyChecks(ctx: Context)
    requires ctx == Context(map["k" := TextType], None, None)
    ensures Check(ctx, MapOf([LITERAL_MEMBER, COMPUTED_MEMBER])) == Some(MapType(Dynamic, [Field("n", IntType)]))
  {
    hide CheckMembers;
    ComputedKeyMembers(ctx);
    var keyed := [Keyed(Some("n"), IntType), Keyed(None, TextType)];
    assert keyed[..1] == [Keyed(Some("n"), IntType)] && keyed[..1][..0] == [];
    assert NamedFields(keyed[..1]) == [Field("n", IntType)];
    assert NamedFields(keyed) == [Field("n", IntType)];
    assert TypesOf(keyed)[0] != TypesOf(keyed)[1];
  }

  /** A computed key can replace the value of a literal one: the map is accepted with an
      integer field and run with a text in it. */
  lemma ComputedKeyFails(f: Arithmetic)
    ensures var ctx := Context(map["k" := TextType], None, None);
      var env := map["k" := Text("n")];
      var e := Unary(Negate, Dot(MapOf([LITERAL_MEMBER, COMPUTED_MEMBER]), "n"));
      && RegularContext(ctx) && Fits(env, ctx)
      && Check(ctx, e) == Some(IntType)
      && Run(f, env, e).outcome == Fail(IllTyped)
  {
    hide RunMembers, CheckMembers;
    var ctx := Context(map["k" := TextType], None, None);
    var env := map["k" := Text("n")];
    var m := MapOf([LITERAL_MEMBER, COMPUTED_MEMBER]);
    ComputedKeyRuns(f, env);
    ComputedKeyChecks(ctx);
    assert Run(f, env, m).outcome == Ok(Map([Entry("n", Text("x"))]));
    assert Run(f, env, Dot(m, "n")).outcome == Ok(Text("x"));
    assert [Field("n", IntType)][..0] == [];
    assert Check(ctx, Dot(m, "n")) == Some(IntType);
  }
}
