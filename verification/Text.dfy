// Strings as sequences of code points: trimming, case folding, ordering,
// splitting and joining, as the Go standard library defines them.
module Text {
  // unicode.IsSpace.
  predicate IsSpace(c: char) {
    || c in {'\t', '\n', '\U{0B}', '\U{0C}', '\r', ' ', '\U{85}', '\U{A0}'}
    || c in {'\U{1680}', '\U{2028}', '\U{2029}', '\U{202F}', '\U{205F}', '\U{3000}'}
    || '\U{2000}' <= c <= '\U{200A}'
  }

  // ---------- strings.TrimSpace ----------

  function TrimLeft(s: string): string {
    if s != [] && IsSpace(s[0]) then TrimLeft(s[1..]) else s
  }

  function TrimRight(s: string): string {
    if s != [] && IsSpace(s[|s| - 1]) then TrimRight(s[..|s| - 1]) else s
  }

  function Trim(s: string): string { TrimRight(TrimLeft(s)) }

  predicate Trimmed(s: string) {
    s == [] || (!IsSpace(s[0]) && !IsSpace(s[|s| - 1]))
  }

  lemma {:induction false} TrimLeftStart(s: string)
    ensures TrimLeft(s) == [] || !IsSpace(TrimLeft(s)[0])
  {
    if s != [] && IsSpace(s[0]) {
      TrimLeftStart(s[1..]);
    }
  }

  lemma {:induction false} TrimRightEnds(s: string)
    ensures var t := TrimRight(s);
            t == [] || (t[0] == s[0] && !IsSpace(t[|t| - 1]))
  {
    if s != [] && IsSpace(s[|s| - 1]) {
      TrimRightEnds(s[..|s| - 1]);
    }
  }

  lemma TrimIsTrimmed(s: string)
    ensures Trimmed(Trim(s))
  {
    TrimLeftStart(s);
    TrimRightEnds(TrimLeft(s));
  }

  lemma TrimmedStays(s: string)
    requires Trimmed(s)
    ensures Trim(s) == s
  {
  }

  // ---------- strings.EqualFold ----------

  // Two strings are equal under simple case folding when they are so code point
  // by code point; `fold` names the representative of each orbit.
  predicate EqualFold(fold: char -> char, a: string, b: string) {
    |a| == |b| && forall i | 0 <= i < |a| :: fold(a[i]) == fold(b[i])
  }

  function Folded(fold: char -> char, s: string): string { seq(|s|, i requires 0 <= i < |s| => fold(s[i])) }

  // Two texts are equal up to case exactly when their representatives are the same text.
  lemma EqualFoldIff(fold: char -> char, a: string, b: string)
    ensures EqualFold(fold, a, b) <==> Folded(fold, a) == Folded(fold, b)
  {
    if Folded(fold, a) == Folded(fold, b) {
      assert forall i | 0 <= i < |a| :: Folded(fold, a)[i] == fold(a[i]) && Folded(fold, b)[i] == fold(b[i]);
    }
  }

  // containsFold of the ontology: both sides trimmed.
  predicate ContainsFold(fold: char -> char, list: seq<string>, value: string) {
    exists v | v in list :: EqualFold(fold, Trim(v), Trim(value))
  }

  // ---------- Ordering ----------

  predicate Less(a: string, b: string) {
    b != [] && (a == [] || (if a[0] != b[0] then a[0] < b[0] else Less(a[1..], b[1..])))
  }

  lemma {:induction false} LessIsStrict(a: string)
    ensures !Less(a, a)
  {
    if a != [] {
      LessIsStrict(a[1..]);
    }
  }

  lemma {:induction false} LessIsTransitive(a: string, b: string, c: string)
    requires Less(a, b) && Less(b, c)
    ensures Less(a, c)
  {
    if a != [] && a[0] == b[0] == c[0] {
      LessIsTransitive(a[1..], b[1..], c[1..]);
    }
  }

  lemma {:induction false} LessIsTotal(a: string, b: string)
    ensures a == b || Less(a, b) || Less(b, a)
  {
    if a != [] && b != [] && a[0] == b[0] {
      LessIsTotal(a[1..], b[1..]);
      assert a == [a[0]] + a[1..];
      assert b == [b[0]] + b[1..];
    }
  }

  predicate IsLeast(m: string, names: set<string>) {
    m in names && forall x | x in names :: x == m || Less(m, x)
  }

  lemma {:induction false} LeastExists(names: set<string>) returns (m: string)
    requires names != {}
    ensures IsLeast(m, names)
  {
    var x :| x in names;
    var rest := names - {x};
    if rest == {} {
      m := x;
      assert names == {x};
    } else {
      m := LeastExists(rest);
      LessIsTotal(x, m);
      if Less(x, m) {
        forall y | y in names && y != x ensures Less(x, y) {
          if y != m { LessIsTransitive(x, m, y); }
        }
        m := x;
      }
    }
  }

  lemma LeastIsUnique(m: string, n: string, names: set<string>)
    requires IsLeast(m, names) && IsLeast(n, names)
    ensures m == n
  {
    if m != n {
      LessIsTransitive(m, n, m);
      LessIsStrict(m);
    }
  }

  lemma LeastIsDefined(names: set<string>)
    requires names != {}
    ensures exists m :: m in names && IsLeast(m, names)
    ensures forall m, n | IsLeast(m, names) && IsLeast(n, names) :: m == n
  {
    var m := LeastExists(names);
    forall m, n | IsLeast(m, names) && IsLeast(n, names) ensures m == n {
      LeastIsUnique(m, n, names);
    }
  }

  function Least(names: set<string>): (m: string)
    requires names != {}
    ensures IsLeast(m, names)
  {
    LeastIsDefined(names);
    var m :| m in names && IsLeast(m, names);
    m
  }

  predicate Ascending(names: seq<string>) {
    forall i, j | 0 <= i < j < |names| :: Less(names[i], names[j])
  }

  // sortedMapKeys.
  function SortedNames(names: set<string>): (r: seq<string>)
    ensures forall x :: x in r <==> x in names
    ensures Ascending(r)
    decreases |names|
  {
    if names == {} then []
    else
      var m := Least(names);
      [m] + SortedNames(names - {m})
  }

  // ---------- Splitting and joining ----------

  // The position of the first c in s from i on, or |s|.
  function IndexFrom(s: string, c: char, i: nat): (j: nat)
    requires i <= |s|
    ensures i <= j <= |s| && (j < |s| ==> s[j] == c)
    ensures forall k | i <= k < j :: s[k] != c
    decreases |s| - i
  {
    if i == |s| || s[i] == c then i else IndexFrom(s, c, i + 1)
  }

  // strings.Split with a one-character separator.
  function Split(s: string, sep: char): (parts: seq<string>)
    ensures parts != []
    decreases |s|
  {
    var i := IndexFrom(s, sep, 0);
    if i == |s| then [s] else [s[..i]] + Split(s[i + 1..], sep)
  }

  lemma SplitHead(part: string, sep: char, rest: string)
    requires sep !in part
    ensures Split(part + [sep] + rest, sep) == [part] + Split(rest, sep)
  {
    var s := part + [sep] + rest;
    var i := IndexFrom(s, sep, 0);
    assert s[|part|] == sep;
    assert forall k | 0 <= k < |part| :: s[k] == part[k] && part[k] in part;
    assert s[..i] == part && s[i + 1..] == rest;
  }

  lemma SplitLast(part: string, sep: char)
    requires sep !in part
    ensures Split(part, sep) == [part]
  {
  }

  function Join(parts: seq<string>, sep: string): string {
    if parts == [] then ""
    else if |parts| == 1 then parts[0]
    else parts[0] + sep + Join(parts[1..], sep)
  }

  // Parts that do not contain the separator can be told from their join.
  lemma {:induction false} JoinSplits(parts: seq<string>, sep: char)
    requires parts != [] && forall p | p in parts :: sep !in p
    ensures Split(Join(parts, [sep]), sep) == parts
  {
    hide Split, IndexFrom;
    if |parts| == 1 {
      SplitLast(parts[0], sep);
    } else {
      JoinSplits(parts[1..], sep);
      SplitHead(parts[0], sep, Join(parts[1..], [sep]));
      assert parts[0] + [sep] + Join(parts[1..], [sep]) == Join(parts, [sep]);
    }
  }

  lemma JoinsAgreeIff(a: seq<string>, b: seq<string>, sep: char)
    requires a != [] && b != []
    requires (forall p | p in a :: sep !in p) && (forall p | p in b :: sep !in p)
    ensures Join(a, [sep]) == Join(b, [sep]) <==> a == b
  {
    hide Split, Join;
    JoinSplits(a, sep);
    JoinSplits(b, sep);
  }
}
