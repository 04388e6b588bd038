/** Region substitution of `compilation.py`: the slots that locators name in a document, the
    preflight check, and the loop that overwrites the slots in place. */
module Compilation {
  import opened Options
  import opened Locators

  datatype Json = Leaf(text: string) | Array(items: seq<Json>) | Object(fields: map<string, Json>)

  type Location = seq<string>

  // ---------------------------------------------------------------- slots

  /** The child of a value that a token names. */
  function Child(t: Json, token: string): Option<Json> {
    match t
    case Leaf(_) => None
    case Array(items) =>
      var i := ArrayIndex(token);
      if i.Some? && i.value < |items| then Some(items[i.value]) else None
    case Object(fields) => if token in fields then Some(fields[token]) else None
  }

  function WithChild(t: Json, token: string, v: Json): Json
    requires Child(t, token).Some?
  {
    if t.Array? then Array(t.items[ArrayIndex(token).value := v]) else Object(t.fields[token := v])
  }

  function Get(t: Json, at: Location): Option<Json>
    decreases |at|
  {
    if at == [] then Some(t)
    else if Child(t, at[0]).None? then None
    else Get(Child(t, at[0]).value, at[1..])
  }

  function Set(t: Json, at: Location, v: Json): Json
    requires Get(t, at).Some?
    decreases |at|
  {
    if at == [] then v else WithChild(t, at[0], Set(Child(t, at[0]).value, at[1..], v))
  }

  lemma WithChildReads(t: Json, token: string, v: Json, other: string)
    requires Child(t, token).Some?
    ensures Child(WithChild(t, token, v), token) == Some(v)
    ensures other != token ==> Child(WithChild(t, token, v), other) == Child(t, other)
  {
    if t.Array? && other != token && ArrayIndex(other).Some? {
      IndexNumeral(token);
      IndexNumeral(other);
    }
  }

  lemma WithChildCommutes(t: Json, a: string, v: Json, b: string, w: Json)
    requires Child(t, a).Some? && Child(t, b).Some? && a != b
    ensures Child(WithChild(t, a, v), b).Some? && Child(WithChild(t, b, w), a).Some?
    ensures WithChild(WithChild(t, a, v), b, w) == WithChild(WithChild(t, b, w), a, v)
  {
    WithChildReads(t, a, v, b);
    WithChildReads(t, b, w, a);
    if t.Array? {
      IndexNumeral(a);
      IndexNumeral(b);
    }
  }

  lemma WithChildTwice(t: Json, a: string, v: Json, w: Json)
    requires Child(t, a).Some?
    ensures Child(WithChild(t, a, v), a).Some?
    ensures WithChild(WithChild(t, a, v), a, w) == WithChild(t, a, w)
  {
    WithChildReads(t, a, v, a);
  }

  predicate Apart(a: Location, b: Location) {
    !(a <= b) && !(b <= a)
  }

  /** A slot reads back what was put there, and slots apart from it read as before. */
  lemma {:induction false} SetReads(t: Json, at: Location, v: Json, other: Location)
    requires Get(t, at).Some?
    ensures Get(Set(t, at, v), at) == Some(v)
    ensures Apart(at, other) ==> Get(Set(t, at, v), other) == Get(t, other)
    decreases |at|
  {
    if at != [] {
      var c := Child(t, at[0]).value;
      var below := if other != [] then other[1..] else [];
      SetReads(c, at[1..], v, below);
      WithChildReads(t, at[0], Set(c, at[1..], v), if other != [] then other[0] else at[0]);
      if other != [] && other[0] == at[0] {
        assert at == [at[0]] + at[1..] && other == [other[0]] + other[1..];
      }
    }
  }

  lemma {:induction false} SetCommutes(t: Json, a: Location, v: Json, b: Location, w: Json)
    requires Get(t, a).Some? && Get(t, b).Some? && Apart(a, b)
    ensures Get(Set(t, a, v), b).Some? && Get(Set(t, b, w), a).Some?
    ensures Set(Set(t, a, v), b, w) == Set(Set(t, b, w), a, v)
    decreases |a|
  {
    SetReads(t, a, v, b);
    SetReads(t, b, w, a);
    var x, y := Child(t, a[0]).value, Child(t, b[0]).value;
    if a[0] == b[0] {
      assert a == [a[0]] + a[1..] && b == [b[0]] + b[1..];
      SetCommutes(x, a[1..], v, b[1..], w);
      WithChildReads(t, a[0], Set(x, a[1..], v), a[0]);
      WithChildReads(t, a[0], Set(x, b[1..], w), a[0]);
      WithChildTwice(t, a[0], Set(x, a[1..], v), Set(Set(x, a[1..], v), b[1..], w));
      WithChildTwice(t, a[0], Set(x, b[1..], w), Set(Set(x, b[1..], w), a[1..], v));
    } else {
      WithChildReads(t, a[0], Set(x, a[1..], v), b[0]);
      WithChildReads(t, b[0], Set(y, b[1..], w), a[0]);
      WithChildCommutes(t, a[0], Set(x, a[1..], v), b[0], Set(y, b[1..], w));
    }
  }

  // ---------------------------------------------------------------- substitution

  datatype Region = Region(at: Location, value: Json)

  /** No location is a prefix of another, and each names a slot of the template. */
  predicate Placed(template: Json, regions: seq<Region>) {
    && (forall i, j :: 0 <= i < j < |regions| ==> Apart(regions[i].at, regions[j].at))
    && (forall i :: 0 <= i < |regions| ==> Get(template, regions[i].at).Some?)
  }

  function Put(t: Json, at: Location, v: Json): Json {
    if Get(t, at).Some? then Set(t, at, v) else t
  }

  /** All regions put in place, in order. */
  function Substituted(template: Json, regions: seq<Region>): Json {
    if regions == [] then template
    else
      Put(Substituted(template, regions[..|regions| - 1]), regions[|regions| - 1].at, regions[|regions| - 1].value)
  }

  /** Every slot holds its own replacement, and everything apart from the slots is as in the
      template. */
  lemma {:induction false} SubstitutedReads(template: Json, regions: seq<Region>, other: Location)
    requires Placed(template, regions)
    ensures forall i :: 0 <= i < |regions| ==> Get(Substituted(template, regions), regions[i].at) == Some(regions[i].value)
    ensures (forall i :: 0 <= i < |regions| ==> Apart(regions[i].at, other)) ==>
              Get(Substituted(template, regions), other) == Get(template, other)
    decreases |regions|
  {
    if regions != [] {
      var before := regions[..|regions| - 1];
      var last := regions[|regions| - 1];
      SubstitutedReads(template, before, other);
      SubstitutedReads(template, before, last.at);
      var t := Substituted(template, before);
      SetReads(t, last.at, last.value, other);
      forall i | 0 <= i < |before| ensures Get(Substituted(template, regions), regions[i].at) == Some(regions[i].value) {
        assert regions[i] == before[i];
        SetReads(t, last.at, last.value, regions[i].at);
      }
    }
  }

  function Without(regions: seq<Region>, i: nat): seq<Region>
    requires i < |regions|
  {
    regions[..i] + regions[i + 1..]
  }

  lemma WithoutPlaced(template: Json, regions: seq<Region>, i: nat)
    requires Placed(template, regions) && i < |regions|
    ensures Placed(template, Without(regions, i))
    ensures Get(Substituted(template, Without(regions, i)), regions[i].at).Some?
  {
    SubstitutedReads(template, Without(regions, i), regions[i].at);
  }

  lemma PutCommutes(t: Json, a: Location, v: Json, b: Location, w: Json)
    requires Get(t, a).Some? && Get(t, b).Some? && Apart(a, b)
    ensures Put(Put(t, a, v), b, w) == Put(Put(t, b, w), a, v)
  {
    SetCommutes(t, a, v, b, w);
  }

  /** Any region may be put in place last. */
  lemma {:induction false} AnyLast(template: Json, regions: seq<Region>, i: nat)
    requires Placed(template, regions) && i < |regions|
    ensures Placed(template, Without(regions, i))
    ensures Get(Substituted(template, Without(regions, i)), regions[i].at).Some?
    ensures Substituted(template, regions) ==
              Put(Substituted(template, Without(regions, i)), regions[i].at, regions[i].value)
    decreases |regions|
  {
    hide Put, Get, Set;
    WithoutPlaced(template, regions, i);
    var n := |regions| - 1;
    var before, last := regions[..n], regions[n];
    if i == n {
      assert Without(regions, i) == before;
    } else {
      var less := Without(before, i);
      assert Without(regions, i)[..|Without(regions, i)| - 1] == less;
      assert Without(regions, i)[|Without(regions, i)| - 1] == last;
      AnyLast(template, before, i);
      var t := Substituted(template, less);
      SubstitutedReads(template, less, last.at);
      SubstitutedReads(template, less, regions[i].at);
      PutCommutes(t, regions[i].at, regions[i].value, last.at, last.value);
    }
  }

  lemma SameRest(xs: seq<Region>, ys: seq<Region>, j: nat)
    requires xs != [] && j < |ys| && ys[j] == xs[|xs| - 1] && multiset(xs) == multiset(ys)
    ensures multiset(xs[..|xs| - 1]) == multiset(Without(ys, j))
  {
    assert xs == xs[..|xs| - 1] + [xs[|xs| - 1]];
    assert ys == ys[..j] + [ys[j]] + ys[j + 1..];
    var a, b, c := multiset(xs[..|xs| - 1]), multiset(ys[..j]), multiset(ys[j + 1..]);
    assert multiset(xs) == a + multiset{ys[j]};
    assert multiset(ys) == b + multiset{ys[j]} + c;
    assert multiset(Without(ys, j)) == b + c;
    assert a == multiset(xs) - multiset{ys[j]} == b + c;
  }

  /** The order of the regions does not matter. */
  lemma {:induction false} OrderIrrelevant(template: Json, xs: seq<Region>, ys: seq<Region>)
    requires Placed(template, xs) && Placed(template, ys) && multiset(xs) == multiset(ys)
    ensures Substituted(template, xs) == Substituted(template, ys)
    decreases |xs|
  {
    hide Substituted, Put;
    assert |xs| == |multiset(xs)| == |multiset(ys)| == |ys|;
    if xs == [] {
      assert ys == [];
    } else {
      AnyLast(template, xs, |xs| - 1);
      assert Without(xs, |xs| - 1) == xs[..|xs| - 1];
      var last := xs[|xs| - 1];
      assert last in multiset(ys);
      var j :| 0 <= j < |ys| && ys[j] == last;
      AnyLast(template, ys, j);
      SameRest(xs, ys, j);
      OrderIrrelevant(template, xs[..|xs| - 1], Without(ys, j));
    }
  }

  // ---------------------------------------------------------------- the compiler

  datatype Failure = CompilationFailed | LimitExceeded

  datatype Compiled = Generated(document: Json) | Failed(failure: Failure)

  datatype Source = Source(locator: string, guard: bool, text: string)

  /** The part of `_source_preflight` about locators: each is read, no two are equal or one a
      prefix of the other, and each names an executable slot of its kind. */
  method Preflight(slots: map<Location, bool>, regions: seq<Source>) returns (locations: Option<seq<Location>>)
    ensures locations.Some? <==> Admitted(slots, regions)
    ensures locations.Some? ==> |locations.value| == |regions|
    ensures locations.Some? ==> forall i :: 0 <= i < |regions| ==>
              TokensOf(regions[i].locator) == Some(locations.value[i])
    ensures locations.Some? ==> forall i, j :: 0 <= i < j < |regions| ==>
              Apart(locations.value[i], locations.value[j])
    ensures locations.Some? ==> forall i :: 0 <= i < |regions| ==> locations.value[i] in slots
  {
    locations := ReadLocators(regions);
    if locations.Some? {
      var apart := AllApart(locations.value);
      var placed := AllPlaced(slots, regions, locations.value);
      if !apart || !placed {
        return None;
      }
    }
  }

  method ReadLocators(regions: seq<Source>) returns (locations: Option<seq<Location>>)
    ensures locations.Some? <==> forall i :: 0 <= i < |regions| ==> TokensOf(regions[i].locator).Some?
    ensures locations.Some? ==> |locations.value| == |regions|
    ensures locations.Some? ==> forall i :: 0 <= i < |regions| ==>
              TokensOf(regions[i].locator) == Some(locations.value[i])
  {
    var found: seq<Location> := [];
    while |found| < |regions|
      invariant |found| <= |regions|
      invariant forall i :: 0 <= i < |found| ==> TokensOf(regions[i].locator) == Some(found[i])
    {
      var tokens := Tokens(regions[|found|].locator);
      if tokens.None? {
        return None;
      }
      found := found + [tokens.value];
    }
    return Some(found);
  }

  method AllApart(found: seq<Location>) returns (apart: bool)
    ensures apart <==> forall a, b :: 0 <= a < b < |found| ==> Apart(found[a], found[b])
  {
    var i := 0;
    while i < |found|
      invariant 0 <= i <= |found|
      invariant forall a, b :: 0 <= a < b < i ==> Apart(found[a], found[b])
    {
      var j := 0;
      while j < i
        invariant 0 <= j <= i
        invariant forall a :: 0 <= a < j ==> Apart(found[a], found[i])
      {
        if found[j] <= found[i] || found[i] <= found[j] {
          return false;
        }
        j := j + 1;
      }
      i := i + 1;
    }
    return true;
  }

  method AllPlaced(slots: map<Location, bool>, regions: seq<Source>, found: seq<Location>) returns (placed: bool)
    requires |found| == |regions|
    ensures placed <==> forall a :: 0 <= a < |found| ==> found[a] in slots && slots[found[a]] == regions[a].guard
  {
    var i := 0;
    while i < |found|
      invariant 0 <= i <= |found|
      invariant forall a :: 0 <= a < i ==> found[a] in slots && slots[found[a]] == regions[a].guard
    {
      if found[i] !in slots || slots[found[i]] != regions[i].guard {
        return false;
      }
      i := i + 1;
    }
    return true;
  }

  predicate Admitted(slots: map<Location, bool>, regions: seq<Source>) {
    && (forall i :: 0 <= i < |regions| ==> TokensOf(regions[i].locator).Some?)
    && (forall i, j :: 0 <= i < j < |regions| ==>
          Apart(TokensOf(regions[i].locator).value, TokensOf(regions[j].locator).value))
    && (forall i :: 0 <= i < |regions| ==>
          TokensOf(regions[i].locator).value in slots && slots[TokensOf(regions[i].locator).value] == regions[i].guard)
  }

  /** Accepted locators of distinct regions are distinct texts too. */
  lemma AdmittedDistinct(slots: map<Location, bool>, regions: seq<Source>, i: nat, j: nat)
    requires Admitted(slots, regions) && i < j < |regions|
    ensures regions[i].locator != regions[j].locator
  {
  }

  function Replacements(locations: seq<Location>, compiled: seq<Json>): (regions: seq<Region>)
    requires |compiled| <= |locations|
    ensures |regions| == |compiled|
    ensures forall i :: 0 <= i < |compiled| ==> regions[i] == Region(locations[i], compiled[i])
  {
    seq(|compiled|, i requires 0 <= i < |compiled| => Region(locations[i], compiled[i]))
  }

  lemma NoneYet(template: Json, locations: seq<Location>)
    ensures Placed(template, Replacements(locations, []))
    ensures Substituted(template, Replacements(locations, [])) == template
  {
  }

  /** The slot of the next region is still there, and filling it is the next substitution. */
  lemma OneMore(template: Json, locations: seq<Location>, results: seq<Json>, v: Json)
    requires |results| < |locations|
    requires forall i, j :: 0 <= i < j < |locations| ==> Apart(locations[i], locations[j])
    requires forall i :: 0 <= i < |locations| ==> Get(template, locations[i]).Some?
    ensures var t := Substituted(template, Replacements(locations, results));
      && Get(t, locations[|results|]).Some?
      && Substituted(template, Replacements(locations, results + [v])) == Set(t, locations[|results|], v)
    ensures Placed(template, Replacements(locations, results + [v]))
  {
    var before, after := Replacements(locations, results), Replacements(locations, results + [v]);
    assert after[..|results|] == before;
    SubstitutedReads(template, before, locations[|results|]);
  }

  /** The substitution loop of `compile_language_source`: one compiler step a region, within
      the budget, each replacement written into its slot in place. */
  method Substitute(
    template: Json, sources: seq<Source>, locations: seq<Location>, compiler: Source -> Option<Json>, maximumSteps: int)
    returns (compiled: Compiled, ghost results: seq<Json>)
    requires |locations| == |sources|
    requires forall i, j :: 0 <= i < j < |locations| ==> Apart(locations[i], locations[j])
    requires forall i :: 0 <= i < |locations| ==> Get(template, locations[i]).Some?
    ensures compiled.Generated? ==>
              && |results| == |sources|
              && (forall i :: 0 <= i < |sources| ==> compiler(sources[i]) == Some(results[i]))
              && Placed(template, Replacements(locations, results))
              && compiled.document == Substituted(template, Replacements(locations, results))
    ensures compiled.Generated? <==>
              (|sources| <= maximumSteps || sources == [])
              && forall i :: 0 <= i < |sources| ==> compiler(sources[i]).Some?
  {
    hide Placed, Substituted, Get, Set, Replacements;
    NoneYet(template, locations);
    results := [];
    var generated := template;
    var steps := maximumSteps;
    var i := 0;
    while i < |sources|
      invariant 0 <= i <= |sources| && |results| == i && steps == maximumSteps - i
      invariant forall j :: 0 <= j < i ==> compiler(sources[j]) == Some(results[j])
      invariant i > 0 ==> i <= maximumSteps
      invariant Placed(template, Replacements(locations, results))
      invariant generated == Substituted(template, Replacements(locations, results))
    {
      if steps <= 0 {
        return Failed(LimitExceeded), results;
      }
      steps := steps - 1;
      var replacement := compiler(sources[i]);
      if replacement.None? {
        return Failed(CompilationFailed), results;
      }
      OneMore(template, locations, results, replacement.value);
      generated := Set(generated, locations[i], replacement.value);
      results := results + [replacement.value];
      i := i + 1;
    }
    return Generated(generated), results;
  }
}
