// Parsing claim tags out of an answer (unica/pkg/domain/claims.go): the strict
// pattern that reads claims, the total pattern that strips tags, the key
// splitter and the whitespace clean-up.
module Claims {
  import opened Options
  import opened Text

  datatype Claim = Claim(qualifiers: seq<string>, property: string, value: string)

  // ---------- The two patterns ----------

  // "[FACT:" in either case begins at i.
  predicate OpensAt(s: string, i: nat) {
    && i + 6 <= |s|
    && s[i] == '[' && s[i + 1] in {'F', 'f'} && s[i + 2] in {'A', 'a'} && s[i + 3] in {'C', 'c'}
    && s[i + 4] in {'T', 't'} && s[i + 5] == ':'
  }

  function Lower(s: string): string {
    seq(|s|, i requires 0 <= i < |s| => if 'A' <= s[i] <= 'Z' then s[i] - 'A' + 'a' else s[i])
  }

  lemma OpensAtIff(s: string, i: nat)
    ensures OpensAt(s, i) <==> i + 6 <= |s| && Lower(s[i..i + 6]) == "[fact:"
  {
    if i + 6 <= |s| {
      var t := s[i..i + 6];
      assert forall k | 0 <= k < 6 :: t[k] == s[i + k];
      if Lower(t) == "[fact:" {
        assert Lower(t)[0] == '[' && Lower(t)[1] == 'f' && Lower(t)[2] == 'a' && Lower(t)[3] == 'c';
        assert Lower(t)[4] == 't' && Lower(t)[5] == ':';
      }
    }
  }

  // The first ']' or '=' from i on, or |s|.
  function KeyEnd(s: string, i: nat): (j: nat)
    requires i <= |s|
    ensures i <= j <= |s| && (j < |s| ==> s[j] in {']', '='})
    ensures forall k | i <= k < j :: s[k] !in {']', '='}
    decreases |s| - i
  {
    if i == |s| || s[i] in {']', '='} then i else KeyEnd(s, i + 1)
  }

  // A strict tag: where it starts, where its '=' is and where its ']' is.
  datatype Tag = Tag(start: nat, eq: nat, close: nat)

  // \[FACT:([^\]=]+)=([^\]]*)\] matches at m.start, with this key and value.
  predicate IsTag(s: string, m: Tag) {
    && OpensAt(s, m.start) && m.start + 6 < m.eq < m.close < |s|
    && (forall k | m.start + 6 <= k < m.eq :: s[k] !in {']', '='}) && s[m.eq] == '='
    && (forall k | m.eq < k < m.close :: s[k] != ']') && s[m.close] == ']'
  }

  function TagAt(s: string, i: nat): Option<Tag> {
    if !OpensAt(s, i) then None
    else
      var eq := KeyEnd(s, i + 6);
      if i + 6 < eq < |s| && s[eq] == '=' then
        var close := IndexFrom(s, ']', eq + 1);
        if close < |s| then Some(Tag(i, eq, close)) else None
      else None
  }

  // \[FACT:[^\]]*\] matches the characters start .. close.
  datatype Span = Span(start: nat, close: nat)

  predicate IsSpan(s: string, p: Span) {
    && OpensAt(s, p.start) && p.start + 6 <= p.close < |s| && s[p.close] == ']'
    && forall k | p.start + 6 <= k < p.close :: s[k] != ']'
  }

  function SpanAt(s: string, i: nat): Option<Span> {
    if !OpensAt(s, i) then None
    else
      var close := IndexFrom(s, ']', i + 6);
      if close < |s| then Some(Span(i, close)) else None
  }

  // Each scanner finds exactly the matches of its pattern, and a start has at
  // most one.
  lemma TagAtFindsTags(s: string, i: nat, m: Tag)
    ensures TagAt(s, i) == Some(m) <==> m.start == i && IsTag(s, m)
  {
    if m.start == i && IsTag(s, m) {
      var eq := KeyEnd(s, i + 6);
      assert eq == m.eq;
      var close := IndexFrom(s, ']', eq + 1);
      assert close == m.close;
    }
  }

  lemma SpanAtFindsSpans(s: string, i: nat, p: Span)
    ensures SpanAt(s, i) == Some(p) <==> p.start == i && IsSpan(s, p)
  {
    if p.start == i && IsSpan(s, p) {
      var close := IndexFrom(s, ']', i + 6);
      assert close == p.close;
    }
  }

  // FindAllStringSubmatch: leftmost matches that do not overlap.
  function Tags(s: string, i: nat): (ms: seq<Tag>)
    ensures forall m | m in ms :: i <= m.start && TagAt(s, m.start) == Some(m)
    ensures forall a, b | 0 <= a < b < |ms| :: ms[a].close < ms[b].start
    decreases |s| - i
  {
    if i >= |s| then []
    else
      match TagAt(s, i)
      case Some(m) => [m] + Tags(s, m.close + 1)
      case None => Tags(s, i + 1)
  }

  function Spans(s: string, i: nat): (ps: seq<Span>)
    ensures forall p | p in ps :: i <= p.start && SpanAt(s, p.start) == Some(p)
    ensures forall a, b | 0 <= a < b < |ps| :: ps[a].close < ps[b].start
    decreases |s| - i
  {
    if i >= |s| then []
    else
      match SpanAt(s, i)
      case Some(p) => [p] + Spans(s, p.close + 1)
      case None => Spans(s, i + 1)
  }

  // ReplaceAllString with the empty string.
  function Strip(s: string, i: nat): string
    decreases |s| - i
  {
    if i >= |s| then ""
    else
      match SpanAt(s, i)
      case Some(p) => Strip(s, p.close + 1)
      case None => [s[i]] + Strip(s, i + 1)
  }

  // ---------- Every claim is stripped ----------

  lemma TagInsideSpan(s: string, m: Tag, p: Span)
    requires TagAt(s, m.start) == Some(m) && SpanAt(s, p.start) == Some(p)
    requires p.start <= m.start <= p.close
    ensures m.close == p.close
  {
    TagAtFindsTags(s, m.start, m);
    SpanAtFindsSpans(s, p.start, p);
    assert p.close >= m.start + 6 by {
      assert s[m.start] == '[';
    }
    assert s[p.close] == ']' && s[m.close] == ']';
  }

  lemma TagMakesSpan(s: string, m: Tag)
    requires TagAt(s, m.start) == Some(m)
    ensures SpanAt(s, m.start) == Some(Span(m.start, m.close))
  {
    TagAtFindsTags(s, m.start, m);
    SpanAtFindsSpans(s, m.start, Span(m.start, m.close));
  }

  lemma {:induction false} TagIsStripped(s: string, i: nat, m: Tag) returns (p: Span)
    requires i <= m.start && TagAt(s, m.start) == Some(m)
    ensures p in Spans(s, i) && p.start <= m.start && p.close == m.close
    decreases |s| - i
  {
    hide OpensAt, TagAt, SpanAt, Spans;
    TagMakesSpan(s, m);
    SpansUnfold(s, m.start);
    SpansUnfold(s, i);
    if SpanAt(s, i).None? {
      p := TagIsStripped(s, i + 1, m);
    } else {
      p := SpanAt(s, i).value;
      if m.start <= p.close {
        TagInsideSpan(s, m, p);
      } else {
        p := TagIsStripped(s, p.close + 1, m);
      }
    }
  }

  lemma SpansUnfold(s: string, i: nat)
    ensures i >= |s| ==> Spans(s, i) == [] && SpanAt(s, i).None?
    ensures SpanAt(s, i).Some? ==> SpanAt(s, i).value.start == i && i < SpanAt(s, i).value.close < |s|
    ensures i < |s| ==>
              Spans(s, i) == if SpanAt(s, i).Some? then [SpanAt(s, i).value] + Spans(s, SpanAt(s, i).value.close + 1)
                             else Spans(s, i + 1)
  {
  }

  // Every claim tag lies inside exactly one stripped span, and two claim tags lie
  // inside different ones.
  lemma EveryClaimIsStripped(s: string, m: Tag)
    requires m in Tags(s, 0)
    ensures exists p :: p in Spans(s, 0) && p.start <= m.start && m.close == p.close
    ensures forall p | p in Spans(s, 0) && p.start <= m.start <= p.close :: p.close == m.close
    ensures forall p, q | p in Spans(s, 0) && q in Spans(s, 0) && p.close == q.close :: p == q
    ensures forall n | n in Tags(s, 0) && n.close == m.close :: n == m
  {
    var inside := TagIsStripped(s, 0, m);
    forall p | p in Spans(s, 0) && p.start <= m.start <= p.close ensures p.close == m.close {
      TagInsideSpan(s, m, p);
    }
    forall p, q | p in Spans(s, 0) && q in Spans(s, 0) && p.close == q.close ensures p == q {
      SpansEndApart(s, p, q);
    }
    forall n | n in Tags(s, 0) && n.close == m.close ensures n == m {
      TagsEndApart(s, n, m);
    }
  }

  lemma SpansEndApart(s: string, p: Span, q: Span)
    requires p in Spans(s, 0) && q in Spans(s, 0) && p.close == q.close
    ensures p == q
  {
    hide Spans;
    var a :| 0 <= a < |Spans(s, 0)| && Spans(s, 0)[a] == p;
    var b :| 0 <= b < |Spans(s, 0)| && Spans(s, 0)[b] == q;
  }

  lemma TagsEndApart(s: string, m: Tag, n: Tag)
    requires m in Tags(s, 0) && n in Tags(s, 0) && m.close == n.close
    ensures m == n
  {
    hide Tags, OpensAt;
    TagAtFindsTags(s, m.start, m);
    TagAtFindsTags(s, n.start, n);
    var a :| 0 <= a < |Tags(s, 0)| && Tags(s, 0)[a] == m;
    var b :| 0 <= b < |Tags(s, 0)| && Tags(s, 0)[b] == n;
  }

  // What is left of s outside the spans, from position i on.
  function Outside(s: string, ps: seq<Span>, i: nat): string
    decreases |s| - i
  {
    if i >= |s| then ""
    else if exists p | p in ps :: p.start <= i <= p.close then Outside(s, ps, i + 1)
    else [s[i]] + Outside(s, ps, i + 1)
  }

  lemma {:induction false} OutsideSkips(s: string, ps: seq<Span>, p: Span, i: nat)
    requires p in ps && p.start <= i <= p.close + 1 <= |s|
    ensures Outside(s, ps, i) == Outside(s, ps, p.close + 1)
    decreases p.close + 1 - i
  {
    if i <= p.close {
      OutsideSkips(s, ps, p, i + 1);
    }
  }

  lemma {:induction false} OutsideIgnores(s: string, p: Span, ps: seq<Span>, i: nat)
    requires p.close < i
    ensures Outside(s, [p] + ps, i) == Outside(s, ps, i)
    decreases |s| - i
  {
    hide Spans, SpanAt;
    if i < |s| {
      OutsideIgnores(s, p, ps, i + 1);
      OneMoreSpan(p, ps, i);
    }
  }

  lemma OneMoreSpan(p: Span, ps: seq<Span>, i: nat)
    requires p.close < i
    ensures (exists q | q in [p] + ps :: q.start <= i <= q.close) <==> (exists q | q in ps :: q.start <= i <= q.close)
  {
    if q :| q in ps && q.start <= i <= q.close {
      assert q in [p] + ps;
    }
    if q :| q in [p] + ps && q.start <= i <= q.close {
      assert q != p;
    }
  }

  // The stripped text is the input without the characters of its spans.
  lemma {:induction false} StripRemovesSpans(s: string, i: nat)
    ensures Strip(s, i) == Outside(s, Spans(s, i), i)
    decreases |s| - i
  {
    if i < |s| {
      match SpanAt(s, i)
      case None =>
        StripRemovesSpans(s, i + 1);
        assert forall p | p in Spans(s, i + 1) :: p.start > i;
      case Some(p) =>
        var rest := Spans(s, p.close + 1);
        StripRemovesSpans(s, p.close + 1);
        assert p in [p] + rest;
        OutsideSkips(s, [p] + rest, p, i);
        OutsideIgnores(s, p, rest, p.close + 1);
    }
  }

  // ---------- Keys and claims ----------

  function Kept(parts: seq<string>): seq<string> {
    if parts == [] then []
    else
      var rest := Kept(parts[..|parts| - 1]);
      var part := Trim(parts[|parts| - 1]);
      if part != "" then rest + [part] else rest
  }

  // splitKey: dot-separated segments, trimmed, blank ones dropped.
  function Segments(key: string): seq<string> { Kept(Split(key, '.')) }

  method SplitKey(key: string) returns (out: seq<string>)
    ensures out == Segments(key)
  {
    var parts := Split(key, '.');
    out := [];
    for i := 0 to |parts|
      invariant out == Kept(parts[..i])
    {
      assert parts[..i + 1][..i] == parts[..i];
      var part := Trim(parts[i]);
      if part != "" {
        out := out + [part];
      }
    }
    assert parts[..|parts|] == parts;
  }

  function Key(s: string, m: Tag): string
    requires TagAt(s, m.start) == Some(m)
  {
    s[m.start + 6..m.eq]
  }

  function Value(s: string, m: Tag): string
    requires TagAt(s, m.start) == Some(m)
  {
    s[m.eq + 1..m.close]
  }

  // Part by part: a blank one is dropped and any other trimmed, in order.
  lemma {:induction false} KeptPartByPart(a: seq<string>, b: seq<string>)
    ensures Kept(a + b) == Kept(a) + Kept(b)
    ensures |a| == 1 ==> Kept(a) == if Trim(a[0]) == "" then [] else [Trim(a[0])]
  {
    hide Trim;
    if b == [] {
      assert a + b == a;
      if |a| == 1 {
        assert a[..0] == [] && Kept([]) == [];
      }
    } else {
      assert (a + b)[..|a + b| - 1] == a + b[..|b| - 1];
      KeptPartByPart(a, b[..|b| - 1]);
    }
  }

  // The claim a tag makes; a tag without a value or a key asserts nothing.
  function ClaimOf(key: string, value: string): seq<Claim> {
    var segments := Segments(key);
    if Trim(value) == "" || segments == [] then []
    else [Claim(segments[..|segments| - 1], segments[|segments| - 1], Trim(value))]
  }

  function ClaimsOf(s: string, ms: seq<Tag>): seq<Claim>
    requires forall m | m in ms :: TagAt(s, m.start) == Some(m)
  {
    if ms == [] then []
    else
      var m := ms[|ms| - 1];
      ClaimsOf(s, ms[..|ms| - 1]) + ClaimOf(Key(s, m), Value(s, m))
  }

  function Parsed(s: string): seq<Claim> { ClaimsOf(s, Tags(s, 0)) }

  method ParseClaims(answer: string) returns (cleaned: string, claims: seq<Claim>)
    ensures claims == Parsed(answer)
    ensures cleaned == Tidied(Strip(answer, 0))
  {
    hide TagAt, Trim, Tidied, Strip, Split, Kept;
    var matches := Tags(answer, 0);
    claims := [];
    for i := 0 to |matches|
      invariant claims == ClaimsOf(answer, matches[..i])
    {
      assert matches[..i + 1][..i] == matches[..i] && matches[i] in matches;
      var value := Trim(Value(answer, matches[i]));
      if value != "" {
        var segments := SplitKey(Key(answer, matches[i]));
        if segments != [] {
          claims := claims + [Claim(segments[..|segments| - 1], segments[|segments| - 1], value)];
        }
      }
    }
    assert matches[..|matches|] == matches;
    cleaned := Tidy(Strip(answer, 0));
  }

  // ---------- Whitespace ----------

  predicate DoubleAt(s: string, i: int) { 0 <= i < |s| - 1 && s[i] == ' ' && s[i + 1] == ' ' }

  predicate BreakAt(s: string, i: int) { 0 <= i < |s| - 1 && s[i] == ' ' && s[i + 1] == '\n' }

  predicate HasDouble(s: string) { exists i | 0 <= i < |s| - 1 :: DoubleAt(s, i) }

  // strings.ReplaceAll(s, "  ", " ").
  function Halve(s: string): string {
    if |s| < 2 then s
    else if DoubleAt(s, 0) then " " + Halve(s[2..])
    else [s[0]] + Halve(s[1..])
  }

  // strings.ReplaceAll(s, " \n", "\n").
  function DropBreaks(s: string): string {
    if |s| < 2 then s
    else if BreakAt(s, 0) then "\n" + DropBreaks(s[2..])
    else [s[0]] + DropBreaks(s[1..])
  }

  // Every run of spaces becomes one space.
  function Collapse(s: string): string {
    if |s| < 2 then s
    else if DoubleAt(s, 0) then Collapse(s[1..])
    else [s[0]] + Collapse(s[1..])
  }

  function Tidied(s: string): string { DropBreaks(Collapse(Trim(s))) }

  lemma {:induction false} CollapseStarts(s: string)
    ensures s != [] ==> Collapse(s) != [] && Collapse(s)[0] == s[0]
    ensures s == [] ==> Collapse(s) == []
    decreases |s|
  {
    if |s| >= 2 && DoubleAt(s, 0) {
      CollapseStarts(s[1..]);
    }
  }

  lemma {:induction false} HalveStarts(s: string)
    ensures s != [] ==> Halve(s) != [] && Halve(s)[0] == s[0]
    ensures s == [] ==> Halve(s) == []
  {
  }

  lemma CollapseCons(c: char, s: string)
    requires s != [] && !(c == ' ' && s[0] == ' ')
    ensures Collapse([c] + s) == [c] + Collapse(s)
  {
    assert ([c] + s)[1..] == s;
  }

  lemma CollapseSpaces(s: string)
    requires s != [] && s[0] == ' '
    ensures Collapse([' '] + s) == Collapse(s)
  {
    assert ([' '] + s)[1..] == s;
    assert DoubleAt([' '] + s, 0);
  }

  // Halving runs of spaces does not change what they collapse to.
  lemma {:induction false} CollapseAfterHalve(s: string)
    ensures Collapse(Halve(s)) == Collapse(s)
    decreases |s|
  {
    if |s| >= 2 {
      if DoubleAt(s, 0) {
        var rest := s[2..];
        CollapseAfterHalve(rest);
        HalveStarts(rest);
        assert s[1..] == [' '] + rest && s == [' '] + s[1..];
        if rest == [] {
          assert Halve(s) == " " && s[1..] == " ";
        } else if rest[0] == ' ' {
          CollapseSpaces(Halve(rest));
          CollapseSpaces(rest);
        } else {
          CollapseCons(' ', Halve(rest));
          CollapseCons(' ', rest);
        }
      } else {
        CollapseAfterHalve(s[1..]);
        HalveStarts(s[1..]);
        assert s == [s[0]] + s[1..];
        if !(s[0] == ' ' && s[1] == ' ') {
          CollapseCons(s[0], Halve(s[1..]));
        }
      }
    }
  }

  lemma {:induction false} CollapseKeepsSingle(s: string)
    requires forall i :: !DoubleAt(s, i)
    ensures Collapse(s) == s
  {
    if |s| >= 2 {
      forall i ensures !DoubleAt(s[1..], i) {
        assert DoubleAt(s[1..], i) ==> DoubleAt(s, i + 1);
      }
      CollapseKeepsSingle(s[1..]);
      assert !DoubleAt(s, 0);
    }
  }

  lemma {:induction false} HalveShortens(s: string)
    ensures |Halve(s)| <= |s|
    ensures HasDouble(s) ==> |Halve(s)| < |s|
    decreases |s|
  {
    if |s| >= 2 {
      if DoubleAt(s, 0) {
        HalveShortens(s[2..]);
      } else {
        HalveShortens(s[1..]);
        if HasDouble(s) {
          var i :| 0 <= i < |s| - 1 && DoubleAt(s, i);
          assert DoubleAt(s[1..], i - 1);
        }
      }
    }
  }

  method Tidy(s: string) returns (t: string)
    ensures t == Tidied(s)
  {
    t := Trim(s);
    while HasDouble(t)
      invariant Collapse(t) == Collapse(Trim(s))
      decreases |t|
    {
      HalveShortens(t);
      CollapseAfterHalve(t);
      t := Halve(t);
    }
    assert forall i :: !DoubleAt(t, i);
    CollapseKeepsSingle(t);
    t := DropBreaks(t);
  }

  // ---------- What a tidied text looks like ----------

  predicate Tidy?(s: string) {
    Trimmed(s) && forall i | 0 <= i < |s| :: !DoubleAt(s, i) && !BreakAt(s, i)
  }

  lemma {:induction false} CollapseIsSingle(s: string, i: int)
    ensures !DoubleAt(Collapse(s), i)
    decreases |s|
  {
    if |s| >= 2 {
      CollapseIsSingle(s[1..], i);
      if !DoubleAt(s, 0) {
        CollapseIsSingle(s[1..], i - 1);
        CollapseStarts(s[1..]);
      }
    }
  }

  // The first and the last character of a text survive both rewritings.
  lemma {:induction false} CollapseEnds(s: string)
    requires s != []
    ensures Collapse(s) != [] && Collapse(s)[|Collapse(s)| - 1] == s[|s| - 1]
    decreases |s|
  {
    if |s| >= 2 {
      CollapseEnds(s[1..]);
    }
  }

  lemma {:induction false} DropBreaksEnds(s: string)
    requires s != []
    ensures var t := DropBreaks(s);
            && t != [] && t[|t| - 1] == s[|s| - 1]
            && (s[0] != ' ' ==> t[0] == s[0])
            && (s[0] == ' ' ==> t[0] in {' ', '\n'})
    decreases |s|
  {
    if |s| >= 2 {
      if BreakAt(s, 0) {
        if |s| > 2 {
          DropBreaksEnds(s[2..]);
        }
      } else {
        DropBreaksEnds(s[1..]);
      }
    }
  }

  // Dropping the space before a line break leaves no other one and joins no two
  // spaces.
  lemma {:induction false} DropBreaksClean(s: string, i: int)
    requires forall k :: !DoubleAt(s, k)
    ensures !DoubleAt(DropBreaks(s), i) && !BreakAt(DropBreaks(s), i)
    decreases |s|
  {
    if |s| >= 2 {
      assert !DoubleAt(s, 0);
      if BreakAt(s, 0) {
        forall k ensures !DoubleAt(s[2..], k) {
          assert DoubleAt(s[2..], k) ==> DoubleAt(s, k + 2);
        }
        DropBreaksClean(s[2..], i - 1);
      } else {
        forall k ensures !DoubleAt(s[1..], k) {
          assert DoubleAt(s[1..], k) ==> DoubleAt(s, k + 1);
        }
        DropBreaksClean(s[1..], i - 1);
        FirstAfterDrop(s);
      }
    }
  }

  // A space that no break follows is not followed by one after the dropping.
  lemma FirstAfterDrop(s: string)
    requires |s| >= 2 && !BreakAt(s, 0) && forall k :: !DoubleAt(s, k)
    ensures s[0] == ' ' ==> DropBreaks(s[1..]) != [] && DropBreaks(s[1..])[0] !in {' ', '\n'}
  {
    assert !DoubleAt(s, 0);
    DropBreaksEnds(s[1..]);
  }

  lemma {:induction false} DropBreaksKeeps(s: string)
    requires forall i :: !BreakAt(s, i)
    ensures DropBreaks(s) == s
    decreases |s|
  {
    if |s| >= 2 {
      forall i ensures !BreakAt(s[1..], i) {
        assert BreakAt(s[1..], i) ==> BreakAt(s, i + 1);
      }
      DropBreaksKeeps(s[1..]);
      assert !BreakAt(s, 0);
    }
  }

  // The characters a reader sees.
  function Visible(s: string): string {
    if s == [] then [] else (if IsSpace(s[0]) then [] else [s[0]]) + Visible(s[1..])
  }

  lemma {:induction false} VisibleConcat(a: string, b: string)
    ensures Visible(a + b) == Visible(a) + Visible(b)
  {
    if a == [] {
      assert a + b == b;
    } else {
      assert (a + b)[1..] == a[1..] + b;
      VisibleConcat(a[1..], b);
    }
  }

  lemma {:induction false} TrimLeftShowsAll(s: string)
    ensures Visible(TrimLeft(s)) == Visible(s)
  {
    hide IsSpace;
    if s != [] && IsSpace(s[0]) {
      TrimLeftShowsAll(s[1..]);
    }
  }

  lemma {:induction false} TrimRightShowsAll(s: string)
    ensures Visible(TrimRight(s)) == Visible(s)
  {
    hide IsSpace;
    if s != [] && IsSpace(s[|s| - 1]) {
      var front, last := s[..|s| - 1], s[|s| - 1];
      TrimRightShowsAll(front);
      VisibleConcat(front, [last]);
      assert s == front + [last];
      assert Visible([last]) == [];
    }
  }

  lemma VisibleCons(c: char, s: string)
    ensures Visible([c] + s) == (if IsSpace(c) then [] else [c]) + Visible(s)
  {
    assert ([c] + s)[1..] == s;
  }

  lemma {:induction false} RewritingShowsAll(s: string)
    ensures Visible(Collapse(s)) == Visible(s)
    ensures Visible(DropBreaks(s)) == Visible(s)
    decreases |s|
  {
    if |s| >= 2 {
      RewritingShowsAll(s[1..]);
      VisibleCons(s[0], Collapse(s[1..]));
      if BreakAt(s, 0) {
        RewritingShowsAll(s[2..]);
        VisibleCons('\n', DropBreaks(s[2..]));
        assert s[1..][1..] == s[2..];
      } else {
        VisibleCons(s[0], DropBreaks(s[1..]));
      }
    }
  }

  // tidy leaves no double space, no space before a line break and no white space
  // at either end, shows every visible character in order, and changes nothing
  // when it runs again.
  lemma TidiedIsTidy(s: string)
    ensures Tidy?(Tidied(s)) && Visible(Tidied(s)) == Visible(s) && Tidied(Tidied(s)) == Tidied(s)
  {
    hide Trimmed, Trim, Collapse, DropBreaks;
    var a := Trim(s);
    var b := Collapse(a);
    TidiedEnds(a, s);
    forall i ensures !DoubleAt(b, i) {
      CollapseIsSingle(a, i);
    }
    var t := DropBreaks(b);
    forall i ensures !DoubleAt(t, i) && !BreakAt(t, i) {
      DropBreaksClean(b, i);
    }
    TrimmedStays(t);
    CollapseKeepsSingle(t);
    DropBreaksKeeps(t);
    TrimVisible(s);
    RewritingShowsAll(a);
    RewritingShowsAll(b);
  }

  lemma TrimVisible(s: string)
    ensures Visible(Trim(s)) == Visible(s)
  {
    TrimLeftShowsAll(s);
    TrimRightShowsAll(TrimLeft(s));
  }

  lemma TidiedEnds(a: string, s: string)
    requires a == Trim(s)
    ensures Trimmed(DropBreaks(Collapse(a)))
  {
    TrimIsTrimmed(s);
    CollapseStarts(a);
    if a != [] {
      CollapseEnds(a);
      DropBreaksEnds(Collapse(a));
    }
  }
}
