// The claim-tag vocabulary (unica/pkg/domain/render.go): the list of exact tags
// a model copies from, and the proof that the parser reads them back.
module Render {
  import opened Options
  import opened Text
  import opened Ontology
  import opened Facts
  import opened Claims

  const PER_LINE := 4

  // Scope.Keys: class first, the other dimensions by name.
  function Keys(scope: Scope): seq<string> {
    var rest := SortedNames(scope.Keys - {CLASS});
    if CLASS in scope then [CLASS] + rest else rest
  }

  lemma KeysAreTheScope(scope: Scope)
    ensures forall dim :: dim in Keys(scope) <==> dim in scope
    ensures forall i, j | 0 <= i < j < |Keys(scope)| :: Keys(scope)[i] != Keys(scope)[j]
  {
    var rest := SortedNames(scope.Keys - {CLASS});
    forall i, j | 0 <= i < j < |rest| ensures rest[i] != rest[j] {
      LessIsStrict(rest[i]);
    }
    var keys := Keys(scope);
    forall i, j | 0 <= i < j < |keys| ensures keys[i] != keys[j] {
      if CLASS in scope {
        assert keys[j] == rest[j - 1] && rest[j - 1] in rest;
        if i > 0 {
          assert keys[i] == rest[i - 1];
        }
      }
    }
  }

  lemma ClassComesFirst(scope: Scope)
    ensures forall i, j | 0 <= i < j < |Keys(scope)| ::
              Keys(scope)[j] != "class" && (Keys(scope)[i] == "class" || Less(Keys(scope)[i], Keys(scope)[j]))
  {
    hide Less;
    var rest := SortedNames(scope.Keys - {CLASS});
    var keys := Keys(scope);
    forall i, j | 0 <= i < j < |keys|
      ensures keys[j] != "class" && (keys[i] == "class" || Less(keys[i], keys[j]))
    {
      if CLASS in scope {
        assert keys[j] == rest[j - 1] && rest[j - 1] in rest;
        if i > 0 {
          assert keys[i] == rest[i - 1];
        }
      } else {
        assert rest[j] in rest;
      }
    }
  }

  function ValuesOf(scope: Scope, dims: seq<string>): seq<string>
    requires forall d | d in dims :: d in scope
  {
    if dims == [] then [] else ValuesOf(scope, dims[..|dims| - 1]) + [scope[dims[|dims| - 1]]]
  }

  lemma {:induction false} ValuesOfAt(scope: Scope, dims: seq<string>)
    requires forall d | d in dims :: d in scope
    ensures |ValuesOf(scope, dims)| == |dims|
    ensures forall i | 0 <= i < |dims| :: ValuesOf(scope, dims)[i] == scope[dims[i]]
  {
    if dims != [] {
      ValuesOfAt(scope, dims[..|dims| - 1]);
    }
  }

  // The bare values that qualify a fact's tags.
  function Qualifiers(scope: Scope): seq<string> {
    KeysAreTheScope(scope);
    ValuesOf(scope, Keys(scope))
  }

  // ---------- What is asserted ----------

  function ValueClaims(qualifiers: seq<string>, property: string, values: seq<string>): seq<Claim> {
    if values == [] then []
    else ValueClaims(qualifiers, property, values[..|values| - 1]) + [Claim(qualifiers, property, values[|values| - 1])]
  }

  function FactClaims(property: string, facts: seq<Fact>): seq<Claim> {
    if facts == [] then []
    else
      var f := facts[|facts| - 1];
      FactClaims(property, facts[..|facts| - 1]) + ValueClaims(Qualifiers(f.scope), property, f.values)
  }

  function NamedClaims(o: Model, names: seq<string>): seq<Claim> {
    if names == [] then []
    else
      var name := names[|names| - 1];
      NamedClaims(o, names[..|names| - 1]) + FactClaims(name, FactsOf(o, name))
  }

  // Every asserted value as the claim that states it: properties by name, facts
  // from general to specific, values as declared.
  function Asserted(o: Model): seq<Claim> { NamedClaims(o, SortedNames(o.properties.Keys)) }

  lemma {:induction false} ValueClaimsAt(qualifiers: seq<string>, property: string, values: seq<string>)
    ensures |ValueClaims(qualifiers, property, values)| == |values|
    ensures forall k | 0 <= k < |values| ::
              ValueClaims(qualifiers, property, values)[k] == Claim(qualifiers, property, values[k])
  {
    if values != [] {
      ValueClaimsAt(qualifiers, property, values[..|values| - 1]);
    }
  }

  // Fact by fact, in order.
  lemma {:induction false} FactByFact(property: string, a: seq<Fact>, b: seq<Fact>)
    ensures FactClaims(property, a + b) == FactClaims(property, a) + FactClaims(property, b)
    ensures |a| == 1 ==> FactClaims(property, a) == ValueClaims(Qualifiers(a[0].scope), property, a[0].values)
  {
    hide Qualifiers, ValueClaims;
    assert FactClaims(property, []) == [];
    if b == [] {
      assert a + b == a;
      assert |a| == 1 ==> a[..0] == [];
    } else {
      assert (a + b)[..|a + b| - 1] == a + b[..|b| - 1];
      FactByFact(property, a, b[..|b| - 1]);
    }
  }

  // Property by property, in order.
  lemma {:induction false} PropertyByProperty(o: Model, a: seq<string>, b: seq<string>)
    ensures NamedClaims(o, a + b) == NamedClaims(o, a) + NamedClaims(o, b)
    ensures |a| == 1 ==> NamedClaims(o, a) == FactClaims(a[0], FactsOf(o, a[0]))
  {
    hide FactClaims, FactsOf;
    assert NamedClaims(o, []) == [];
    if b == [] {
      assert a + b == a;
      assert |a| == 1 ==> a[..0] == [];
    } else {
      assert (a + b)[..|a + b| - 1] == a + b[..|b| - 1];
      PropertyByProperty(o, a, b[..|b| - 1]);
    }
  }

  // The vocabulary lists exactly the asserted values: one claim for each value of each
  // fact of each property, qualified by the fact's scope.
  lemma AssertedIff(o: Model, c: Claim)
    ensures c in Asserted(o) <==>
              c.property in o.properties &&
              exists f | f in FactsOf(o, c.property) :: c.qualifiers == Qualifiers(f.scope) && c.value in f.values
  {
    hide FactsOf, Qualifiers, SortedNames;
    NamedIff(o, SortedNames(o.properties.Keys), c);
  }

  lemma {:induction false} NamedIff(o: Model, names: seq<string>, c: Claim)
    ensures c in NamedClaims(o, names) <==>
              c.property in names &&
              exists f | f in FactsOf(o, c.property) :: c.qualifiers == Qualifiers(f.scope) && c.value in f.values
  {
    hide FactsOf, Qualifiers;
    if names != [] {
      var front, last := names[..|names| - 1], names[|names| - 1];
      assert names == front + [last];
      NamedIff(o, front, c);
      FactsIff(last, FactsOf(o, last), c);
    }
  }

  lemma {:induction false} FactsIff(property: string, facts: seq<Fact>, c: Claim)
    ensures c in FactClaims(property, facts) <==>
              c.property == property &&
              exists f | f in facts :: c.qualifiers == Qualifiers(f.scope) && c.value in f.values
  {
    hide Qualifiers;
    if facts != [] {
      var front, f := facts[..|facts| - 1], facts[|facts| - 1];
      assert facts == front + [f];
      FactsIff(property, front, c);
      ValueClaimsAt(Qualifiers(f.scope), property, f.values);
      assert c in ValueClaims(Qualifiers(f.scope), property, f.values) <==>
             c.property == property && c.qualifiers == Qualifiers(f.scope) && c.value in f.values;
    }
  }

  // ---------- Printing ----------

  function Prefix(qualifiers: seq<string>): string {
    if qualifiers == [] then "" else qualifiers[0] + "." + Prefix(qualifiers[1..])
  }

  function TagText(c: Claim): string {
    "[FACT:" + (Prefix(c.qualifiers) + c.property) + "=" + c.value + "]"
  }

  function TagTexts(cs: seq<Claim>): seq<string> {
    if cs == [] then [] else TagTexts(cs[..|cs| - 1]) + [TagText(cs[|cs| - 1])]
  }

  // What follows the i-th of n tags.
  function Separator(i: nat, n: nat): char {
    if (i + 1) % PER_LINE == 0 || i + 1 == n then '\n' else ' '
  }

  // Lines hold four tags, but for the last one.
  lemma LinesOfFour(i: nat, n: nat)
    requires i < n
    ensures Separator(i, n) == if i % 4 == 3 || i == n - 1 then '\n' else ' '
  {
  }

  function Layout(parts: seq<string>, n: nat): string
    requires n <= |parts|
  {
    if n == 0 then "" else Layout(parts, n - 1) + parts[n - 1] + [Separator(n - 1, |parts|)]
  }

  function Rendered(o: Model): string {
    var parts := TagTexts(Asserted(o));
    Layout(parts, |parts|)
  }

  lemma {:induction false} PrefixGrows(qualifiers: seq<string>, q: string)
    ensures Prefix(qualifiers + [q]) == Prefix(qualifiers) + q + "."
  {
    if qualifiers == [] {
      assert [q][1..] == [];
    } else {
      assert (qualifiers + [q])[1..] == qualifiers[1..] + [q];
      PrefixGrows(qualifiers[1..], q);
    }
  }

  lemma {:induction false} TagTextsConcat(a: seq<Claim>, b: seq<Claim>)
    ensures TagTexts(a + b) == TagTexts(a) + TagTexts(b)
  {
    if b == [] {
      assert a + b == a;
    } else {
      assert (a + b)[..|a + b| - 1] == a + b[..|b| - 1];
      TagTextsConcat(a, b[..|b| - 1]);
    }
  }

  method RenderPrefix(scope: Scope) returns (prefix: string)
    ensures prefix == Prefix(Qualifiers(scope))
  {
    KeysAreTheScope(scope);
    var dims := Keys(scope);
    prefix := "";
    for i := 0 to |dims|
      invariant prefix == Prefix(ValuesOf(scope, dims[..i]))
    {
      assert dims[..i + 1][..i] == dims[..i];
      PrefixGrows(ValuesOf(scope, dims[..i]), scope[dims[i]]);
      prefix := prefix + scope[dims[i]] + ".";
    }
    assert dims[..|dims|] == dims;
  }

  method RenderFact(property: string, f: Fact) returns (parts: seq<string>)
    ensures parts == TagTexts(ValueClaims(Qualifiers(f.scope), property, f.values))
  {
    hide Qualifiers, Prefix;
    var prefix := RenderPrefix(f.scope);
    parts := [];
    for i := 0 to |f.values|
      invariant parts == TagTexts(ValueClaims(Qualifiers(f.scope), property, f.values[..i]))
    {
      assert f.values[..i + 1][..i] == f.values[..i];
      ghost var before := ValueClaims(Qualifiers(f.scope), property, f.values[..i]);
      TagTextsConcat(before, [Claim(Qualifiers(f.scope), property, f.values[i])]);
      OneTagText(Claim(Qualifiers(f.scope), property, f.values[i]));
      parts := parts + ["[FACT:" + (prefix + property) + "=" + f.values[i] + "]"];
    }
    assert f.values[..|f.values|] == f.values;
  }

  lemma OneTagText(c: Claim)
    ensures TagTexts([c]) == [TagText(c)]
  {
    assert [c][..0] == [];
  }

  method RenderProperty(o: Model, name: string) returns (parts: seq<string>)
    ensures parts == TagTexts(FactClaims(name, FactsOf(o, name)))
  {
    hide Qualifiers, FactsOf, ValueClaims;
    var facts := CollectFacts(o, name);
    parts := [];
    for i := 0 to |facts|
      invariant parts == TagTexts(FactClaims(name, facts[..i]))
    {
      assert facts[..i + 1][..i] == facts[..i];
      var more := RenderFact(name, facts[i]);
      TagTextsConcat(FactClaims(name, facts[..i]), ValueClaims(Qualifiers(facts[i].scope), name, facts[i].values));
      parts := parts + more;
    }
    assert facts[..|facts|] == facts;
  }

  lemma NothingNamed(o: Model)
    ensures NamedClaims(o, []) == [] && TagTexts([]) == []
  {
  }

  lemma OneMoreName(o: Model, names: seq<string>, i: nat)
    requires i < |names|
    ensures NamedClaims(o, names[..i + 1]) == NamedClaims(o, names[..i]) + FactClaims(names[i], FactsOf(o, names[i]))
  {
    hide FactClaims, FactsOf;
    assert names[..i + 1][..i] == names[..i];
  }

  method RenderTags(o: Model) returns (block: string)
    ensures block == Rendered(o)
  {
    hide FactsOf, FactClaims, TagText, Separator, TagTexts, Qualifiers, SortedNames, NamedClaims;
    assert NamedClaims(o, []) == [] && TagTexts([]) == [] by { NothingNamed(o); }
    var names := SortedNames(o.properties.Keys);
    var parts: seq<string> := [];
    for i := 0 to |names|
      invariant parts == TagTexts(NamedClaims(o, names[..i]))
    {
      var more := RenderProperty(o, names[i]);
      OneMoreName(o, names, i);
      TagTextsConcat(NamedClaims(o, names[..i]), FactClaims(names[i], FactsOf(o, names[i])));
      parts := parts + more;
    }
    assert names[..|names|] == names;
    block := "";
    for i := 0 to |parts|
      invariant block == Layout(parts, i)
    {
      block := block + parts[i] + [Separator(i, |parts|)];
    }
  }

  // ---------- Reading back ----------

  // A piece of a tag's key: nothing in it ends the key or splits it.
  predicate Plain(part: string) {
    part != "" && Trimmed(part) && forall c | c in part :: c !in {'.', '=', ']'}
  }

  predicate Printable(c: Claim) {
    && (forall q | q in c.qualifiers :: Plain(q)) && Plain(c.property)
    && c.value != "" && Trimmed(c.value) && ']' !in c.value
  }

  lemma {:induction false} SplitPrefix(qualifiers: seq<string>, property: string)
    requires Plain(property) && forall q | q in qualifiers :: Plain(q)
    ensures Split(Prefix(qualifiers) + property, '.') == qualifiers + [property]
  {
    hide Split, IndexFrom;
    if qualifiers == [] {
      assert Prefix(qualifiers) + property == property;
      SplitLast(property, '.');
    } else {
      hide Prefix;
      PrefixHead(qualifiers, property);
      SplitPrefix(qualifiers[1..], property);
      assert Plain(qualifiers[0]);
      SplitHead(qualifiers[0], '.', Prefix(qualifiers[1..]) + property);
      HeadAndTail(qualifiers, property);
    }
  }

  lemma PrefixHead(qualifiers: seq<string>, property: string)
    requires qualifiers != []
    ensures Prefix(qualifiers) + property == qualifiers[0] + ['.'] + (Prefix(qualifiers[1..]) + property)
  {
    assert "." == ['.'];
  }

  lemma HeadAndTail(parts: seq<string>, last: string)
    requires parts != []
    ensures [parts[0]] + (parts[1..] + [last]) == parts + [last]
  {
  }

  lemma {:induction false} PlainPartsAreKept(parts: seq<string>)
    requires forall p | p in parts :: Plain(p)
    ensures Kept(parts) == parts
  {
    if parts != [] {
      var last := parts[|parts| - 1];
      PlainPartsAreKept(parts[..|parts| - 1]);
      assert last in parts;
      TrimmedStays(last);
    }
  }

  lemma TagMakesClaim(c: Claim)
    requires Printable(c)
    ensures ClaimOf(Prefix(c.qualifiers) + c.property, c.value) == [c]
  {
    SplitPrefix(c.qualifiers, c.property);
    PlainPartsAreKept(c.qualifiers + [c.property]);
    TrimmedStays(c.value);
    var segments := c.qualifiers + [c.property];
    assert segments[..|segments| - 1] == c.qualifiers;
  }

  lemma {:induction false} PrefixIsPlain(qualifiers: seq<string>, c: char)
    requires forall q | q in qualifiers :: Plain(q)
    ensures c in Prefix(qualifiers) ==> c !in {'=', ']'}
  {
    if qualifiers != [] && c in Prefix(qualifiers) {
      assert Plain(qualifiers[0]);
      PrefixIsPlain(qualifiers[1..], c);
    }
  }

  // ---------- Scanning a prefix away ----------

  lemma {:induction false} KeyEndShifts(pre: string, s: string, i: nat)
    requires i <= |s|
    ensures KeyEnd(pre + s, |pre| + i) == |pre| + KeyEnd(s, i)
    decreases |s| - i
  {
    if i < |s| {
      assert (pre + s)[|pre| + i] == s[i];
      if s[i] !in {']', '='} {
        KeyEndShifts(pre, s, i + 1);
      }
    }
  }

  lemma {:induction false} IndexShifts(pre: string, s: string, c: char, i: nat)
    requires i <= |s|
    ensures IndexFrom(pre + s, c, |pre| + i) == |pre| + IndexFrom(s, c, i)
    decreases |s| - i
  {
    if i < |s| {
      assert (pre + s)[|pre| + i] == s[i];
      if s[i] != c {
        IndexShifts(pre, s, c, i + 1);
      }
    }
  }

  function Moved(m: Option<Tag>, n: nat): Option<Tag> {
    match m
    case None => None
    case Some(t) => Some(Tag(t.start + n, t.eq + n, t.close + n))
  }

  lemma OpensShifts(pre: string, s: string, i: nat)
    ensures OpensAt(pre + s, |pre| + i) == OpensAt(s, i)
  {
    if i + 6 <= |s| {
      assert forall k | i <= k < i + 6 :: (pre + s)[|pre| + k] == s[k];
    }
  }

  lemma TagAtShifts(pre: string, s: string, i: nat)
    ensures TagAt(pre + s, |pre| + i) == Moved(TagAt(s, i), |pre|)
  {
    OpensShifts(pre, s, i);
    hide OpensAt;
    if OpensAt(s, i) {
      assert i + 6 <= |s| by { OpensFits(s, i); }
      KeyEndShifts(pre, s, i + 6);
      var eq := KeyEnd(s, i + 6);
      if i + 6 < eq < |s| {
        assert (pre + s)[|pre| + eq] == s[eq];
        IndexShifts(pre, s, ']', eq + 1);
      }
    }
  }

  lemma OpensFits(s: string, i: nat)
    requires OpensAt(s, i)
    ensures i + 6 <= |s|
  {
  }

  // The claims of the tags from position i on, read from the front.
  function ClaimsFrom(s: string, i: nat): seq<Claim>
    decreases |s| - i
  {
    if i >= |s| then []
    else
      match TagAt(s, i)
      case Some(m) => ClaimOf(Key(s, m), Value(s, m)) + ClaimsFrom(s, m.close + 1)
      case None => ClaimsFrom(s, i + 1)
  }

  lemma {:induction false} ClaimsOfConcat(s: string, a: seq<Tag>, b: seq<Tag>)
    requires forall m | m in a :: TagAt(s, m.start) == Some(m)
    requires forall m | m in b :: TagAt(s, m.start) == Some(m)
    ensures ClaimsOf(s, a + b) == ClaimsOf(s, a) + ClaimsOf(s, b)
  {
    hide TagAt, ClaimOf;
    if b == [] {
      assert a + b == a;
    } else {
      assert (a + b)[..|a + b| - 1] == a + b[..|b| - 1];
      ClaimsOfConcat(s, a, b[..|b| - 1]);
    }
  }

  lemma TagFits(s: string, i: nat, m: Tag)
    requires TagAt(s, i) == Some(m)
    ensures m.start == i && i + 6 < m.eq < m.close < |s|
  {
  }

  lemma {:induction false} ClaimsFromFront(s: string, i: nat)
    ensures ClaimsOf(s, Tags(s, i)) == ClaimsFrom(s, i)
    decreases |s| - i
  {
    hide TagAt, ClaimOf, ClaimsOf;
    if i >= |s| {
      NoClaims(s);
    } else {
      match TagAt(s, i)
      case None => ClaimsFromFront(s, i + 1);
      case Some(m) =>
        TagFits(s, i, m);
        ClaimsFromFront(s, m.close + 1);
        ClaimsOfConcat(s, [m], Tags(s, m.close + 1));
        OneClaim(s, m);
    }
  }

  lemma NoClaims(s: string)
    ensures ClaimsOf(s, []) == []
  {
  }

  lemma OneClaim(s: string, m: Tag)
    requires TagAt(s, m.start) == Some(m)
    ensures ClaimsOf(s, [m]) == ClaimOf(Key(s, m), Value(s, m))
  {
    hide TagAt, ClaimOf;
    assert [m][..0] == [];
    assert ClaimsOf(s, []) == [];
  }

  lemma ContentShifts(pre: string, s: string, m: Tag, m': Tag)
    requires TagAt(s, m.start) == Some(m) && TagAt(pre + s, m'.start) == Some(m')
    requires m' == Tag(m.start + |pre|, m.eq + |pre|, m.close + |pre|)
    ensures Key(pre + s, m') == Key(s, m) && Value(pre + s, m') == Value(s, m)
  {
    assert (pre + s)[|pre| + m.start + 6..|pre| + m.eq] == s[m.start + 6..m.eq];
    assert (pre + s)[|pre| + m.eq + 1..|pre| + m.close] == s[m.eq + 1..m.close];
  }

  lemma {:induction false} ClaimsFromShifts(pre: string, s: string, i: nat)
    ensures ClaimsFrom(pre + s, |pre| + i) == ClaimsFrom(s, i)
    decreases |s| - i
  {
    hide TagAt, ClaimOf, Key, Value;
    if i < |s| {
      TagAtShifts(pre, s, i);
      match TagAt(s, i)
      case None => ClaimsFromShifts(pre, s, i + 1);
      case Some(m) =>
        TagFits(s, i, m);
        ClaimsFromShifts(pre, s, m.close + 1);
        ContentShifts(pre, s, m, Tag(m.start + |pre|, m.eq + |pre|, m.close + |pre|));
    }
  }

  // ---------- The round trip ----------

  lemma TagReadsBack(c: Claim, rest: string)
    requires Printable(c)
    ensures ClaimsFrom(TagText(c) + rest, 0) == [c] + ClaimsFrom(rest, 0)
  {
    hide Printable, IsTag, ClaimOf, TagAt;
    var key := Prefix(c.qualifiers) + c.property;
    var s := TagText(c) + rest;
    var m := Tag(0, 6 + |key|, 7 + |key| + |c.value|);
    TagIsThere(c, rest, key, m);
    TagAtFindsTags(s, 0, m);
    assert Key(s, m) == key && Value(s, m) == c.value;
    TagMakesClaim(c);
    ClaimsFromShifts(TagText(c), rest, 0);
  }

  lemma TagIsThere(c: Claim, rest: string, key: string, m: Tag)
    requires Printable(c) && key == Prefix(c.qualifiers) + c.property
    requires m == Tag(0, 6 + |key|, 7 + |key| + |c.value|)
    ensures IsTag(TagText(c) + rest, m)
  {
    var s := TagText(c) + rest;
    assert s[0..6] == "[FACT:";
    assert OpensAt(s, 0) by {
      assert forall k | 0 <= k < 6 :: s[k] == "[FACT:"[k];
    }
    assert s[6..m.eq] == key && s[m.eq + 1..m.close] == c.value;
    forall k | 6 <= k < m.eq ensures s[k] !in {']', '='} {
      assert s[k] == key[k - 6];
      PrefixIsPlain(c.qualifiers, s[k]);
      assert key[k - 6] in Prefix(c.qualifiers) || key[k - 6] in c.property;
    }
    forall k | m.eq < k < m.close ensures s[k] != ']' {
      assert s[k] == c.value[k - m.eq - 1] && s[k] in c.value;
    }
  }

  lemma SeparatorReadsNothing(c: char, rest: string)
    requires c != '['
    ensures ClaimsFrom([c] + rest, 0) == ClaimsFrom(rest, 0)
  {
    ClaimsFromShifts([c], rest, 0);
  }

  lemma {:induction false} LayoutReadsBack(cs: seq<Claim>, n: nat, rest: string)
    requires n <= |cs| && forall c | c in cs :: Printable(c)
    ensures |TagTexts(cs)| == |cs|
    ensures ClaimsFrom(Layout(TagTexts(cs), n) + rest, 0) == cs[..n] + ClaimsFrom(rest, 0)
    decreases n
  {
    hide ClaimsFrom, TagText, Printable;
    TagTextsAt(cs);
    var parts := TagTexts(cs);
    if n == 0 {
      assert "" + rest == rest;
    } else {
      var sep := [Separator(n - 1, |parts|)];
      LayoutReadsBack(cs, n - 1, parts[n - 1] + (sep + rest));
      assert Layout(parts, n) + rest == Layout(parts, n - 1) + (parts[n - 1] + (sep + rest));
      assert cs[n - 1] in cs;
      TagReadsBack(cs[n - 1], sep + rest);
      SeparatorReadsNothing(sep[0], rest);
      assert cs[..n] == cs[..n - 1] + [cs[n - 1]];
    }
  }

  lemma {:induction false} TagTextsAt(cs: seq<Claim>)
    ensures |TagTexts(cs)| == |cs|
    ensures forall i | 0 <= i < |cs| :: TagTexts(cs)[i] == TagText(cs[i])
  {
    if cs != [] {
      TagTextsAt(cs[..|cs| - 1]);
    }
  }

  // Parsing the whole rendered block gives back every asserted scope, property
  // and value, in order.
  lemma RenderedTagsParseBack(o: Model)
    requires forall c | c in Asserted(o) :: Printable(c)
    ensures Parsed(Rendered(o)) == Asserted(o)
  {
    hide Asserted, ClaimsFrom, Tags, TagText, Printable;
    var cs := Asserted(o);
    LayoutReadsBack(cs, |cs|, "");
    assert cs[..|cs|] == cs;
    assert Rendered(o) + "" == Rendered(o);
    NothingToRead();
    ClaimsFromFront(Rendered(o), 0);
  }

  lemma NothingToRead()
    ensures ClaimsFrom("", 0) == []
  {
  }
}
