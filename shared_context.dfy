/** The declaration scanner of src/shared-context.ts: two global regular
    expressions, `(?:let|const|var)\s+NAME` and `function\s+NAME` with
    NAME = `[a-zA-Z_$][a-zA-Z0-9_$]*`, run with `exec` from `lastIndex`
    onwards, their captures collected in an insertion-ordered `Set`. */
module SharedContext {
  import opened Js

  /** The keywords of the declaration pattern, in alternation order. */
  const DeclarationKeywords: seq<string> := ["let", "const", "var"]
  /** The keyword of the function pattern. */
  const FunctionKeywords: seq<string> := ["function"]

  /** `[a-zA-Z_$]` */
  predicate IdentStart(c: char) {
    'a' <= c <= 'z' || 'A' <= c <= 'Z' || c == '_' || c == '$'
  }

  /** `[a-zA-Z0-9_$]` */
  predicate IdentPart(c: char) {
    IdentStart(c) || '0' <= c <= '9'
  }

  /** A text the capture group `([a-zA-Z_$][a-zA-Z0-9_$]*)` can match. */
  predicate IsIdentifier(s: string) {
    |s| > 0 && IdentStart(s[0]) && forall i :: 0 <= i < |s| ==> IdentPart(s[i])
  }

  /** One successful match: the captured name, where the match starts and
      where `lastIndex` moves to. */
  datatype Capture = Capture(name: string, start: nat, end: nat)

  /** The length of the longest run of `\s` characters starting at `q`
      (SpaceRunSpec). */
  function SpaceRun(code: string, q: nat): (n: nat)
    requires q <= |code|
    ensures q + n <= |code|
    decreases |code| - q
  {
    if q < |code| && IsSpace(code[q]) then 1 + SpaceRun(code, q + 1) else 0
  }

  /** The run is all whitespace and cannot be extended. */
  lemma {:induction false} SpaceRunSpec(code: string, q: nat)
    requires q <= |code|
    ensures var n := SpaceRun(code, q);
            && (forall i :: q <= i < q + n ==> IsSpace(code[i]))
            && (q + n == |code| || !IsSpace(code[q + n]))
    decreases |code| - q
  {
    if q < |code| && IsSpace(code[q]) {
      SpaceRunSpec(code, q + 1);
    }
  }

  /** The length of the longest run of `[a-zA-Z0-9_$]` starting at `q`
      (IdentRunSpec). */
  function IdentRun(code: string, q: nat): (n: nat)
    requires q <= |code|
    ensures q + n <= |code|
    decreases |code| - q
  {
    if q < |code| && IdentPart(code[q]) then 1 + IdentRun(code, q + 1) else 0
  }

  /** The run is all identifier characters and cannot be extended. */
  lemma {:induction false} IdentRunSpec(code: string, q: nat)
    requires q <= |code|
    ensures var n := IdentRun(code, q);
            && (forall i :: q <= i < q + n ==> IdentPart(code[i]))
            && (q + n == |code| || !IdentPart(code[q + n]))
    decreases |code| - q
  {
    if q < |code| && IdentPart(code[q]) {
      IdentRunSpec(code, q + 1);
    }
  }

  /** The first alternative among `keywords` that occurs at `p`, by its
      length (KeywordAtSpec). */
  function KeywordAt(code: string, p: nat, keywords: seq<string>): (r: Option<nat>)
    requires p <= |code|
    ensures r.Some? ==> p + r.value <= |code|
  {
    if |keywords| == 0 then None
    else if p + |keywords[0]| <= |code| && code[p..p + |keywords[0]|] == keywords[0] then Some(|keywords[0]|)
    else KeywordAt(code, p, keywords[1..])
  }

  /** A keyword is found exactly when one of the alternatives occurs at
      `p`, and what is found is one of them. */
  lemma {:induction false} KeywordAtSpec(code: string, p: nat, keywords: seq<string>)
    requires p <= |code|
    ensures var r := KeywordAt(code, p, keywords);
            && (r.Some? ==> code[p..p + r.value] in keywords)
            && (r.None? ==> forall k :: k in keywords ==> !(p + |k| <= |code| && code[p..p + |k|] == k))
  {
    if |keywords| > 0 {
      KeywordAtSpec(code, p, keywords[1..]);
    }
  }

  /** The attempt of the pattern at exactly position `p`: a keyword, at
      least one whitespace character, then the greedy identifier
      (MatchAtSpec says what a match is). */
  function MatchAt(code: string, p: nat, keywords: seq<string>): (r: Option<Capture>)
    requires p <= |code|
    ensures r.Some? ==> r.value.start == p < r.value.end <= |code|
  {
    match KeywordAt(code, p, keywords)
    case None => None
    case Some(k) =>
      var spaces := SpaceRun(code, p + k);
      var q := p + k + spaces;
      if spaces == 0 || q == |code| || !IdentStart(code[q]) then None
      else
        var n := IdentRun(code, q);
        Some(Capture(code[q..q + n], p, q + n))
  }

  /** A match at `p` begins with one of the keywords, followed by
      whitespace that runs up to the captured name. */
  lemma MatchAtKeyword(code: string, p: nat, keywords: seq<string>)
    requires p <= |code|
    requires MatchAt(code, p, keywords).Some?
    ensures var c := MatchAt(code, p, keywords).value;
            var k := KeywordAt(code, p, keywords);
            && k.Some? && code[p..p + k.value] in keywords
            && p + k.value < c.end - |c.name|
            && forall i :: p + k.value <= i < c.end - |c.name| ==> IsSpace(code[i])
  {
    var k := KeywordAt(code, p, keywords).value;
    KeywordAtSpec(code, p, keywords);
    SpaceRunSpec(code, p + k);
    var q := p + k + SpaceRun(code, p + k);
    assert MatchAt(code, p, keywords).value.end - |MatchAt(code, p, keywords).value.name| == q;
  }

  /** A match captures a whole identifier: it is the text just before
      where the match ends, and the next character cannot extend it. */
  lemma MatchAtName(code: string, p: nat, keywords: seq<string>)
    requires p <= |code|
    requires MatchAt(code, p, keywords).Some?
    ensures var c := MatchAt(code, p, keywords).value;
            && |c.name| <= c.end && code[c.end - |c.name|..c.end] == c.name
            && IsIdentifier(c.name)
            && (c.end == |code| || !IdentPart(code[c.end]))
  {
    var k := KeywordAt(code, p, keywords).value;
    var q := p + k + SpaceRun(code, p + k);
    var n := IdentRun(code, q);
    var c := MatchAt(code, p, keywords).value;
    assert c == Capture(code[q..q + n], p, q + n);
    IdentRunSpec(code, q);
    forall i | 0 <= i < n
      ensures IdentPart(c.name[i])
    {
      assert c.name[i] == code[q + i];
    }
  }

  /** What `exec` finds from `lastIndex == from`: the leftmost position at
      or after `from` where the pattern matches (NextMatchSpec). */
  function NextMatch(code: string, from: nat, keywords: seq<string>): (r: Option<Capture>)
    requires from <= |code|
    ensures r.Some? ==> from <= r.value.start < r.value.end <= |code|
    decreases |code| - from
  {
    var m := MatchAt(code, from, keywords);
    if m.Some? then m
    else if from == |code| then None
    else NextMatch(code, from + 1, keywords)
  }

  /** `exec` returns the match at the leftmost position where the pattern
      matches, and `null` only when it matches nowhere from `from` on. */
  lemma {:induction false} NextMatchSpec(code: string, from: nat, keywords: seq<string>)
    requires from <= |code|
    ensures var r := NextMatch(code, from, keywords);
            && (r.Some? ==> from <= r.value.start && MatchAt(code, r.value.start, keywords) == r)
            && (r.Some? ==> forall p :: from <= p < r.value.start ==> MatchAt(code, p, keywords).None?)
            && (r.None? ==> forall p :: from <= p <= |code| ==> MatchAt(code, p, keywords).None?)
    decreases |code| - from
  {
    if MatchAt(code, from, keywords).None? && from < |code| {
      NextMatchSpec(code, from + 1, keywords);
    }
  }

  /** The names captured by repeated `exec` calls from `lastIndex == from`
      until it returns `null`; each search resumes where the previous match
      ended, so matches never overlap. */
  function Scan(code: string, from: nat, keywords: seq<string>): seq<string>
    requires from <= |code|
    decreases |code| - from
  {
    match NextMatch(code, from, keywords)
    case None => []
    case Some(c) => [c.name] + Scan(code, c.end, keywords)
  }

  /** Every captured name is a whole identifier. */
  lemma {:induction false} ScanIdentifiers(code: string, from: nat, keywords: seq<string>)
    requires from <= |code|
    ensures forall x :: x in Scan(code, from, keywords) ==> IsIdentifier(x)
    decreases |code| - from
  {
    match NextMatch(code, from, keywords)
    case None =>
    case Some(c) =>
      NextMatchSpec(code, from, keywords);
      MatchAtName(code, c.start, keywords);
      ScanIdentifiers(code, c.end, keywords);
  }

  /** No declaration keyword starts at a character other than `l`, `c`
      or `v`. */
  lemma NoDeclarationKeywordAt(code: string, p: nat)
    requires p < |code| && code[p] != 'l' && code[p] != 'c' && code[p] != 'v'
    ensures KeywordAt(code, p, DeclarationKeywords).None?
  {
    var ks := DeclarationKeywords;
    assert ks[1..] == ["const", "var"] && ks[1..][1..] == ["var"] && ks[1..][1..][1..] == [];
    if p + 3 <= |code| {
      assert code[p..p + 3][0] == code[p];
    }
    if p + 5 <= |code| {
      assert code[p..p + 5][0] == code[p];
    }
    assert KeywordAt(code, p, ks) == KeywordAt(code, p, ks[1..]);
    assert KeywordAt(code, p, ks[1..]) == KeywordAt(code, p, ks[1..][1..]);
    assert KeywordAt(code, p, ks[1..][1..]) == KeywordAt(code, p, []);
  }

  /** There is no word-boundary check: the `let` inside `outlet` starts a
      declaration, whose name is `x`. */
  lemma OutletDeclaresX()
    ensures Scan("outlet x", 0, DeclarationKeywords) == ["x"]
  {
    var code := "outlet x";
    var K := DeclarationKeywords;
    NoDeclarationKeywordAt(code, 0);
    NoDeclarationKeywordAt(code, 1);
    NoDeclarationKeywordAt(code, 2);
    assert code[3..6] == K[0];
    assert KeywordAt(code, 3, K) == Some(3);
    assert SpaceRun(code, 7) == 0;
    assert SpaceRun(code, 6) == 1;
    assert IdentRun(code, 8) == 0;
    assert IdentRun(code, 7) == 1;
    assert code[7..8] == "x";
    var x := Some(Capture("x", 3, 8));
    assert MatchAt(code, 3, K) == x;
    assert NextMatch(code, 2, K) == x;
    assert NextMatch(code, 1, K) == x;
    assert NextMatch(code, 0, K) == x;
    KeywordAtSpec(code, 8, K);
    assert NextMatch(code, 8, K) == None;
  }

  /** `regex.exec(code)` with `regex.lastIndex == lastIndex`: the pattern
      is tried at each position in turn until it matches or the text runs
      out. */
  method Exec(code: string, lastIndex: nat, keywords: seq<string>) returns (m: Option<Capture>)
    requires lastIndex <= |code|
    ensures m == NextMatch(code, lastIndex, keywords)
    ensures m.Some? ==> lastIndex <= m.value.start < m.value.end <= |code|
  {
    var p := lastIndex;
    m := MatchAt(code, p, keywords);
    while m.None? && p < |code|
      invariant lastIndex <= p <= |code|
      invariant m == MatchAt(code, p, keywords)
      invariant NextMatch(code, lastIndex, keywords) == NextMatch(code, p, keywords)
    {
      p := p + 1;
      m := MatchAt(code, p, keywords);
    }
  }

  predicate NoDuplicates(s: seq<string>) {
    forall i, j :: 0 <= i < j < |s| ==> s[i] != s[j]
  }

  /** `set.add(x)` for each element of `xs` in turn, on a set seen as its
      insertion-ordered contents. */
  function AddAll(s: seq<string>, xs: seq<string>): seq<string>
    decreases |xs|
  {
    if |xs| == 0 then s
    else AddAll(if xs[0] in s then s else s + [xs[0]], xs[1..])
  }

  /** `Array.from(new Set(xs))` */
  function Dedupe(xs: seq<string>): seq<string> {
    AddAll([], xs)
  }

  /** Adding keeps what was there, in place, adds each missing element
      once and nothing else. */
  lemma {:induction false} AddAllSpec(s: seq<string>, xs: seq<string>)
    requires NoDuplicates(s)
    ensures var r := AddAll(s, xs);
            && NoDuplicates(r)
            && |s| <= |r| && r[..|s|] == s
            && forall x :: x in r <==> x in s || x in xs
    decreases |xs|
  {
    if |xs| > 0 {
      var s' := if xs[0] in s then s else s + [xs[0]];
      AddAllSpec(s', xs[1..]);
      var r := AddAll(s, xs);
      assert r[..|s|] == r[..|s'|][..|s|];
      assert xs == [xs[0]] + xs[1..];
    }
  }

  /** Adding two lists in turn is adding their concatenation. */
  lemma {:induction false} AddAllConcat(s: seq<string>, a: seq<string>, b: seq<string>)
    ensures AddAll(AddAll(s, a), b) == AddAll(s, a + b)
    decreases |a|
  {
    if |a| == 0 {
      assert a + b == b;
    } else {
      var s' := if a[0] in s then s else s + [a[0]];
      AddAllConcat(s', a[1..], b);
      assert AddAll(s, a) == AddAll(s', a[1..]);
      assert (a + b)[0] == a[0];
      assert (a + b)[1..] == a[1..] + b;
      assert AddAll(s, a + b) == AddAll(s', a[1..] + b);
    }
  }

  /** The position of the first occurrence of `x` in `xs`. */
  function FirstIndex(xs: seq<string>, x: string): (i: nat)
    requires x in xs
    ensures i < |xs| && xs[i] == x && x !in xs[..i]
  {
    if xs[0] == x then 0 else 1 + FirstIndex(xs[1..], x)
  }

  /** Elements added after `s` appear in the order of their first
      occurrence in `xs`. */
  lemma {:induction false} AddAllOrder(s: seq<string>, xs: seq<string>, i: nat, j: nat)
    requires NoDuplicates(s)
    requires i < j < |AddAll(s, xs)|
    requires AddAll(s, xs)[j] !in s
    ensures var r := AddAll(s, xs);
            r[i] in s || (r[i] in xs && r[j] in xs && FirstIndex(xs, r[i]) < FirstIndex(xs, r[j]))
    decreases |xs|
  {
    assert |xs| > 0;
    var s' := if xs[0] in s then s else s + [xs[0]];
    var r := AddAll(s', xs[1..]);
    assert AddAll(s, xs) == r;
    if r[j] == xs[0] {
      assert r[i] in s by {
        AddAllSpec(s', xs[1..]);
        assert r[|s|] == r[..|s'|][|s|] == xs[0];
        assert j == |s|;
        assert r[i] == r[..|s'|][i] == s[i];
      }
    } else {
      assert NoDuplicates(s') && r[j] !in s' && r[j] in xs[1..] by {
        AddAllSpec(s', xs[1..]);
      }
      AddAllOrder(s', xs[1..], i, j);
      FirstIndexTail(xs, r[j]);
      if r[i] !in s' {
        FirstIndexTail(xs, r[i]);
      }
    }
  }

  lemma FirstIndexTail(xs: seq<string>, x: string)
    requires |xs| > 0 && x in xs[1..] && x != xs[0]
    ensures x in xs && FirstIndex(xs, x) == 1 + FirstIndex(xs[1..], x)
  {
    assert xs == [xs[0]] + xs[1..];
  }

  /** `Array.from(new Set(xs))` has no duplicates, holds exactly the
      elements of `xs`, and keeps them in the order of their first
      occurrence. */
  lemma DedupeSpec(xs: seq<string>)
    ensures var r := Dedupe(xs);
            && NoDuplicates(r)
            && (forall x :: x in r <==> x in xs)
            && forall i, j :: 0 <= i < j < |r| ==> FirstIndex(xs, r[i]) < FirstIndex(xs, r[j])
  {
    var r := Dedupe(xs);
    AddAllSpec([], xs);
    forall i, j | 0 <= i < j < |r|
      ensures FirstIndex(xs, r[i]) < FirstIndex(xs, r[j])
    {
      AddAllOrder([], xs, i, j);
    }
  }

  /** One `while ((match = pattern.exec(code)) !== null)` loop of
      `extractVariableNames`: `lastIndex` starts at 0 and each match's
      name is added to the set. */
  method AddMatches(code: string, keywords: seq<string>, variables: seq<string>) returns (names: seq<string>)
    ensures names == AddAll(variables, Scan(code, 0, keywords))
  {
    names := variables;
    var m := Exec(code, 0, keywords);
    while m.Some?
      invariant m.Some? ==> m.value.start < m.value.end <= |code|
      invariant AddAll(names, if m.Some? then [m.value.name] + Scan(code, m.value.end, keywords) else [])
                == AddAll(variables, Scan(code, 0, keywords))
      decreases if m.Some? then |code| - m.value.start + 1 else 0
    {
      var name := m.value.name;
      if name !in names {
        names := names + [name];
      }
      m := Exec(code, m.value.end, keywords);
    }
  }

  /** `extractVariableNames`: the names of the declaration pattern's
      matches, then those of the function pattern's, each kept once at its
      first occurrence. */
  method ExtractVariableNames(code: string) returns (names: seq<string>)
    ensures names == Dedupe(Scan(code, 0, DeclarationKeywords) + Scan(code, 0, FunctionKeywords))
  {
    names := AddMatches(code, DeclarationKeywords, []);
    names := AddMatches(code, FunctionKeywords, names);
    AddAllConcat([], Scan(code, 0, DeclarationKeywords), Scan(code, 0, FunctionKeywords));
  }

  /** The declared names come first, then the function names not already
      declared; no name appears twice and every name is an identifier
      found by one of the two patterns. */
  lemma ExtractedNames(code: string)
    ensures var declared := Scan(code, 0, DeclarationKeywords);
            var functions := Scan(code, 0, FunctionKeywords);
            var names := Dedupe(declared + functions);
            && NoDuplicates(names)
            && (forall x :: x in names <==> x in declared || x in functions)
            && (forall x :: x in names ==> IsIdentifier(x))
            && |Dedupe(declared)| <= |names| && names[..|Dedupe(declared)|] == Dedupe(declared)
  {
    var declared := Scan(code, 0, DeclarationKeywords);
    var functions := Scan(code, 0, FunctionKeywords);
    DedupeSpec(declared + functions);
    ScanIdentifiers(code, 0, DeclarationKeywords);
    ScanIdentifiers(code, 0, FunctionKeywords);
    AddAllSpec([], declared);
    AddAllSpec(Dedupe(declared), functions);
    AddAllConcat([], declared, functions);
  }
}
