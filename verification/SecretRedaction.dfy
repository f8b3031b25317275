/** The literal redaction pass of packages/runtime/src/logging.ts: token classification, the
    right-to-left scan with the matcher, the boundary-only tokens, and the greedy rewrite. */
module SecretRedaction {
  import opened SecretMatcher

  const REDACTED_LOG_VALUE := "[REDACTED]"
  const MIN_SUBSTRING_TOKEN_LENGTH := 3
  const MAX_WORD_TOKEN_LENGTH := 12

  // ----- Classification

  datatype Provenance = Customer | Platform
  datatype TokenMatch = Boundary | Substring

  predicate IsLower(c: char) { 'a' <= c <= 'z' }
  predicate IsUpper(c: char) { 'A' <= c <= 'Z' }

  /** Lower-case letters after any first letter, or upper-case letters only; never empty. */
  predicate IsWordToken(token: string) {
    && token != ""
    && (|| ((IsLower(token[0]) || IsUpper(token[0])) && forall i :: 1 <= i < |token| ==> IsLower(token[i]))
        || (forall i :: 0 <= i < |token| ==> IsUpper(token[i])))
  }

  function ClassifyRedactionToken(token: string, provenance: Provenance): TokenMatch {
    if |token| < MIN_SUBSTRING_TOKEN_LENGTH then Boundary
    else if provenance != Platform then Substring
    else if |token| <= MAX_WORD_TOKEN_LENGTH && IsWordToken(token) then Boundary
    else Substring
  }

  function ProvenanceOf(token: string, platformGeneratedValues: set<string>): Provenance {
    if token in platformGeneratedValues then Platform else Customer
  }

  /** The tokens of one class, in the order given. */
  function TokensOf(tokens: seq<string>, platform: set<string>, m: TokenMatch): seq<string> {
    if tokens == [] then []
    else
      var rest := TokensOf(tokens[..|tokens| - 1], platform, m);
      var last := tokens[|tokens| - 1];
      if ClassifyRedactionToken(last, ProvenanceOf(last, platform)) == m then rest + [last] else rest
  }

  lemma {:induction false} TokensOfMember(tokens: seq<string>, platform: set<string>, m: TokenMatch, s: string)
    ensures s in TokensOf(tokens, platform, m)
       <==> s in tokens && ClassifyRedactionToken(s, ProvenanceOf(s, platform)) == m
  {
    if tokens != [] {
      TokensOfMember(tokens[..|tokens| - 1], platform, m, s);
      assert tokens == tokens[..|tokens| - 1] + [tokens[|tokens| - 1]];
    }
  }

  method PartitionRedactionTokens(tokens: seq<string>, platformGeneratedValues: set<string>)
    returns (boundary: seq<string>, substring: seq<string>)
    ensures boundary == TokensOf(tokens, platformGeneratedValues, Boundary)
    ensures substring == TokensOf(tokens, platformGeneratedValues, Substring)
  {
    boundary, substring := [], [];
    for n := 0 to |tokens|
      invariant boundary == TokensOf(tokens[..n], platformGeneratedValues, Boundary)
      invariant substring == TokensOf(tokens[..n], platformGeneratedValues, Substring)
    {
      assert tokens[..n + 1][..n] == tokens[..n];
      var provenance := ProvenanceOf(tokens[n], platformGeneratedValues);
      if ClassifyRedactionToken(tokens[n], provenance) == Boundary {
        boundary := boundary + [tokens[n]];
      } else {
        substring := substring + [tokens[n]];
      }
    }
    assert tokens[..|tokens|] == tokens;
  }

  // ----- Boundary-only tokens

  predicate IsLexicalCharacter(c: char) {
    IsLower(c) || IsUpper(c) || '0' <= c <= '9' || c == '_'
  }

  /** Neither neighbour of value[start..start + length] is a lexical character. */
  predicate IsLexicalBoundaryMatch(value: string, start: nat, length: nat) {
    && !(0 < start <= |value| && IsLexicalCharacter(value[start - 1]))
    && !(start + length < |value| && IsLexicalCharacter(value[start + length]))
  }

  predicate OccursAt(value: string, token: string, i: nat) {
    i <= |value| && token <= value[i..]
  }

  /** token stands at i as its own lexeme. */
  predicate StandsAt(value: string, token: string, i: nat) {
    OccursAt(value, token, i) && IsLexicalBoundaryMatch(value, i, |token|)
  }

  /** The length of the longest token standing at i as its own lexeme, or 0. */
  function LongestBoundaryAt(tokens: seq<string>, value: string, i: nat): nat {
    if tokens == [] then 0
    else
      var rest := LongestBoundaryAt(tokens[..|tokens| - 1], value, i);
      var last := tokens[|tokens| - 1];
      if StandsAt(value, last, i) then Max(rest, |last|) else rest
  }

  lemma {:induction false} LongestBoundaryMeaning(tokens: seq<string>, value: string, i: nat)
    ensures var n := LongestBoundaryAt(tokens, value, i);
            && (n != 0 ==> i + n <= |value| && value[i..i + n] in tokens && StandsAt(value, value[i..i + n], i))
            && (forall t :: t in tokens && StandsAt(value, t, i) ==> |t| <= n)
  {
    if tokens != [] {
      var last := tokens[|tokens| - 1];
      assert tokens == tokens[..|tokens| - 1] + [last];
      LongestBoundaryMeaning(tokens[..|tokens| - 1], value, i);
      if StandsAt(value, last, i) {
        assert last == value[i..][..|last|] == value[i..i + |last|];
      }
    }
  }

  /** String.prototype.indexOf for a non-empty needle: the first occurrence at or after from, or -1. */
  function IndexOf(value: string, needle: string, from: nat): int
    requires needle != ""
    decreases |value| - from
  {
    if from >= |value| then -1
    else if needle <= value[from..] then from
    else IndexOf(value, needle, from + 1)
  }

  lemma {:induction false} IndexOfIsFirst(value: string, needle: string, from: nat)
    requires needle != ""
    ensures var r := IndexOf(value, needle, from);
            && (r == -1 || (from <= r < |value| && OccursAt(value, needle, r)))
            && (forall i :: from <= i < |value| && (r == -1 || i < r) ==> !OccursAt(value, needle, i))
    decreases |value| - from
  {
    if from < |value| && !(needle <= value[from..]) {
      IndexOfIsFirst(value, needle, from + 1);
    }
  }

  ghost predicate Raised(before: seq<nat>, after: seq<nat>) {
    |before| == |after| && exists i :: 0 <= i < |before| && after[i] > before[i]
  }

  /** The positions where token stands as its own lexeme. */
  ghost function Stands(value: string, token: string): (stands: seq<bool>)
    ensures |stands| == |value|
  {
    seq(|value|, i requires 0 <= i < |value| => StandsAt(value, token, i))
  }

  /** What the search from a position tells about stands: nothing stands before its result. */
  ghost predicate FindsNext(value: string, token: string, stands: seq<bool>, from: nat)
    requires token != "" && |stands| == |value|
  {
    var r := IndexOf(value, token, from);
    && (r == -1 || (from <= r < |value| && (stands[r] <==> IsLexicalBoundaryMatch(value, r, |token|))))
    && (forall i :: from <= i < |value| && (r == -1 || i < r) ==> !stands[i])
  }

  lemma SearchFindsNext(value: string, token: string, from: nat)
    requires token != "" && from <= |value|
    ensures FindsNext(value, token, Stands(value, token), from)
  {
    IndexOfIsFirst(value, token, from);
  }

  /** The inner loop: every occurrence of one token, found with indexOf. */
  method AddTokenMatches(value: string, secretValue: string, ghost stands: seq<bool>, longestMatchAt: array<nat>)
    returns (hasMatch: bool)
    requires longestMatchAt.Length == |value| == |stands| && secretValue != ""
    requires forall from :: 0 <= from <= |value| ==> FindsNext(value, secretValue, stands, from)
    modifies longestMatchAt
    ensures forall i :: 0 <= i < |value| ==>
              longestMatchAt[i] == if stands[i] then Max(old(longestMatchAt[i]), |secretValue|) else old(longestMatchAt[i])
    ensures hasMatch <==> Raised(old(longestMatchAt[..]), longestMatchAt[..])
  {
    ghost var before := longestMatchAt[..];
    hasMatch := false;
    assert FindsNext(value, secretValue, stands, 0);
    var offset := IndexOf(value, secretValue, 0);
    ghost var next, raised := 0, 0;
    while offset != -1
      invariant 0 <= next <= |value| && offset == IndexOf(value, secretValue, next)
      invariant FindsNext(value, secretValue, stands, next)
      invariant forall i :: 0 <= i < |value| ==>
                  longestMatchAt[i] == if i < next && stands[i] then Max(before[i], |secretValue|) else before[i]
      invariant if hasMatch then 0 <= raised < |value| && longestMatchAt[raised] > before[raised]
                else forall i :: 0 <= i < |value| ==> longestMatchAt[i] == before[i]
      decreases |value| - next
    {
      if IsLexicalBoundaryMatch(value, offset, |secretValue|) && |secretValue| > longestMatchAt[offset] {
        longestMatchAt[offset] := |secretValue|;
        hasMatch, raised := true, offset;
      }
      next := offset + 1;
      assert FindsNext(value, secretValue, stands, next);
      offset := IndexOf(value, secretValue, offset + 1);
    }
    assert hasMatch ==> longestMatchAt[..][raised] > before[raised];
  }

  method AddBoundaryMatches(value: string, boundaryTextValues: seq<string>, longestMatchAt: array<nat>)
    returns (hasMatch: bool)
    requires longestMatchAt.Length == |value|
    requires forall t :: t in boundaryTextValues ==> t != ""
    modifies longestMatchAt
    ensures forall i :: 0 <= i < |value| ==>
              longestMatchAt[i] == Max(old(longestMatchAt[i]), LongestBoundaryAt(boundaryTextValues, value, i))
    ensures hasMatch <==> Raised(old(longestMatchAt[..]), longestMatchAt[..])
  {
    hasMatch := false;
    for n := 0 to |boundaryTextValues|
      invariant forall i :: 0 <= i < |value| ==>
                  longestMatchAt[i] == Max(old(longestMatchAt[i]), LongestBoundaryAt(boundaryTextValues[..n], value, i))
      invariant hasMatch <==> Raised(old(longestMatchAt[..]), longestMatchAt[..])
    {
      assert boundaryTextValues[n] in boundaryTextValues;
      assert boundaryTextValues[..n + 1][..n] == boundaryTextValues[..n];
      ghost var before := longestMatchAt[..];
      ghost var stands := Stands(value, boundaryTextValues[n]);
      forall from | 0 <= from <= |value| ensures FindsNext(value, boundaryTextValues[n], stands, from) {
        SearchFindsNext(value, boundaryTextValues[n], from);
      }
      var tokenMatched := AddTokenMatches(value, boundaryTextValues[n], stands, longestMatchAt);
      RaisedTransitive(old(longestMatchAt[..]), before, longestMatchAt[..]);
      hasMatch := hasMatch || tokenMatched;
    }
    assert boundaryTextValues[..|boundaryTextValues|] == boundaryTextValues;
  }

  lemma RaisedTransitive(a: seq<nat>, b: seq<nat>, c: seq<nat>)
    requires |a| == |b| == |c|
    requires forall i :: 0 <= i < |a| ==> a[i] <= b[i] <= c[i]
    ensures Raised(a, c) <==> Raised(a, b) || Raised(b, c)
  {
    if Raised(a, b) {
      var i :| 0 <= i < |a| && b[i] > a[i];
      assert c[i] > a[i];
    }
    if Raised(b, c) {
      var i :| 0 <= i < |b| && c[i] > b[i];
      assert c[i] > a[i];
    }
  }

  // ----- The table and the greedy rewrite

  /** What the scan and the boundary pass leave in longestMatchAt, position by position. */
  function MatchTable(substring: seq<string>, boundary: seq<string>, value: string): (table: seq<nat>)
    ensures |table| == |value|
  {
    seq(|value|, i requires 0 <= i < |value| =>
      Max(LongestSecretAt(substring, value[i..]), LongestBoundaryAt(boundary, value, i)))
  }

  ghost predicate InBounds(table: seq<nat>) {
    forall i :: 0 <= i < |table| ==> i + table[i] <= |table|
  }

  lemma MatchTableInBounds(substring: seq<string>, boundary: seq<string>, value: string)
    ensures InBounds(MatchTable(substring, boundary, value))
  {
    forall i | 0 <= i < |value|
      ensures i + MatchTable(substring, boundary, value)[i] <= |value|
    {
      LongestSecretIsAttained(substring, value[i..]);
      LongestBoundaryMeaning(boundary, value, i);
    }
  }

  /** A redacted text keeps some stretches of the original and masks others. */
  datatype Piece = Kept(text: string) | Masked(text: string)

  /** The greedy rewrite from index on, the current kept stretch having begun at segmentStart. */
  function Greedy(value: string, table: seq<nat>, segmentStart: nat, index: nat): seq<Piece>
    requires |table| == |value| && InBounds(table) && segmentStart <= index <= |value|
    decreases |value| - index
  {
    if index == |value| then [Kept(value[segmentStart..])]
    else if table[index] == 0 then Greedy(value, table, segmentStart, index + 1)
    else
      [Kept(value[segmentStart..index]), Masked(value[index..index + table[index]])]
      + Greedy(value, table, index + table[index], index + table[index])
  }

  function Original(pieces: seq<Piece>): string {
    if pieces == [] then "" else pieces[0].text + Original(pieces[1..])
  }

  function Render(pieces: seq<Piece>): string {
    if pieces == [] then ""
    else (if pieces[0].Kept? then pieces[0].text else REDACTED_LOG_VALUE) + Render(pieces[1..])
  }

  /** Where piece k starts in the original. */
  function PieceStart(pieces: seq<Piece>, k: nat): nat
    requires k <= |pieces|
  {
    if k == 0 then 0 else |pieces[0].text| + PieceStart(pieces[1..], k - 1)
  }

  /** A piece starting at start: a kept one holds no match start, a masked one is the longest match. */
  ghost predicate PieceFits(piece: Piece, value: string, table: seq<nat>, start: nat)
    requires |table| == |value|
  {
    && start + |piece.text| <= |value|
    && value[start..start + |piece.text|] == piece.text
    && match piece
       case Kept(text) => forall p :: start <= p < start + |text| ==> table[p] == 0
       case Masked(text) => start < |value| && |text| == table[start] > 0
  }

  lemma {:induction false} GreedySpellsOriginal(value: string, table: seq<nat>, segmentStart: nat, index: nat)
    requires |table| == |value| && InBounds(table) && segmentStart <= index <= |value|
    ensures Original(Greedy(value, table, segmentStart, index)) == value[segmentStart..]
    decreases |value| - index
  {
    if index == |value| {
    } else if table[index] == 0 {
      GreedySpellsOriginal(value, table, segmentStart, index + 1);
    } else {
      var next := index + table[index];
      var rest := Greedy(value, table, next, next);
      GreedySpellsOriginal(value, table, next, next);
      var pieces := [Kept(value[segmentStart..index]), Masked(value[index..next])] + rest;
      assert pieces[1..] == [Masked(value[index..next])] + rest && pieces[1..][1..] == rest;
      assert value[segmentStart..] == value[segmentStart..index] + (value[index..next] + value[next..]);
    }
  }

  ghost predicate AllFit(pieces: seq<Piece>, value: string, table: seq<nat>, start: nat)
    requires |table| == |value|
  {
    pieces != [] ==>
      PieceFits(pieces[0], value, table, start) && AllFit(pieces[1..], value, table, start + |pieces[0].text|)
  }

  lemma {:induction false} EachFits(pieces: seq<Piece>, value: string, table: seq<nat>, start: nat, k: nat)
    requires |table| == |value| && AllFit(pieces, value, table, start) && k < |pieces|
    ensures PieceFits(pieces[k], value, table, start + PieceStart(pieces, k))
  {
    if k > 0 {
      EachFits(pieces[1..], value, table, start + |pieces[0].text|, k - 1);
    }
  }

  lemma AllFitCons(piece: Piece, rest: seq<Piece>, value: string, table: seq<nat>, start: nat)
    requires |table| == |value| && PieceFits(piece, value, table, start)
    requires AllFit(rest, value, table, start + |piece.text|)
    ensures AllFit([piece] + rest, value, table, start)
  {
    assert ([piece] + rest)[1..] == rest;
  }

  lemma {:induction false} GreedyPiecesFit(value: string, table: seq<nat>, segmentStart: nat, index: nat)
    requires |table| == |value| && InBounds(table) && segmentStart <= index <= |value|
    requires forall p :: segmentStart <= p < index ==> table[p] == 0
    ensures AllFit(Greedy(value, table, segmentStart, index), value, table, segmentStart)
    decreases |value| - index
  {
    if index < |value| {
      if table[index] == 0 {
        GreedyPiecesFit(value, table, segmentStart, index + 1);
      } else {
        var next := index + table[index];
        var kept, masked := Kept(value[segmentStart..index]), Masked(value[index..next]);
        var rest := Greedy(value, table, next, next);
        GreedyPiecesFit(value, table, next, next);
        AllFitCons(masked, rest, value, table, index);
        AllFitCons(kept, [masked] + rest, value, table, segmentStart);
        assert Greedy(value, table, segmentStart, index) == [kept] + ([masked] + rest);
      }
    }
  }

  /** The redaction of a text: the greedy decomposition over the naive match table. */
  function Redaction(substring: seq<string>, boundary: seq<string>, value: string): seq<Piece> {
    MatchTableInBounds(substring, boundary, value);
    Greedy(value, MatchTable(substring, boundary, value), 0, 0)
  }

  /** Position p of the original lies in piece k. */
  ghost predicate InPiece(pieces: seq<Piece>, k: nat, p: nat) {
    k < |pieces| && PieceStart(pieces, k) <= p < PieceStart(pieces, k) + |pieces[k].text|
  }

  /** The pieces put together are the text that was redacted. */
  lemma RedactionSpellsOriginal(substring: seq<string>, boundary: seq<string>, value: string)
    ensures Original(Redaction(substring, boundary, value)) == value
  {
    MatchTableInBounds(substring, boundary, value);
    GreedySpellsOriginal(value, MatchTable(substring, boundary, value), 0, 0);
    assert value[0..] == value;
  }

  lemma RedactedPieceFits(substring: seq<string>, boundary: seq<string>, value: string, k: nat) returns (start: nat)
    requires k < |Redaction(substring, boundary, value)|
    ensures start == PieceStart(Redaction(substring, boundary, value), k)
    ensures var piece, table := Redaction(substring, boundary, value)[k], MatchTable(substring, boundary, value);
            && PieceFits(piece, value, table, start)
            && (piece.Masked? ==> start < |value| && piece.text == value[start..start + table[start]] && piece.text != "")
  {
    MatchTableInBounds(substring, boundary, value);
    start := PieceStart(Redaction(substring, boundary, value), k);
    GreedyPiecesFit(value, MatchTable(substring, boundary, value), 0, 0);
    EachFits(Redaction(substring, boundary, value), value, MatchTable(substring, boundary, value), 0, k);
  }

  /** Soundness: no strict token starts, and no boundary token stands as its own lexeme, at a
      position redaction keeps. */
  lemma NothingStartsWhereKept(substring: seq<string>, boundary: seq<string>, value: string, k: nat, p: nat, s: string)
    requires var pieces := Redaction(substring, boundary, value);
             InPiece(pieces, k, p) && pieces[k].Kept? && s != ""
    ensures s in substring ==> !OccursAt(value, s, p)
    ensures s in boundary ==> !StandsAt(value, s, p)
  {
    var start := RedactedPieceFits(substring, boundary, value, k);
    NoMatchMeaning(substring, boundary, value, p, s);
  }

  /** Precision: what a masked piece hides is itself a configured token, matching where it stands,
      and the longest that does. */
  lemma MaskedPieceIsLongestToken(substring: seq<string>, boundary: seq<string>, value: string, k: nat)
    requires var pieces := Redaction(substring, boundary, value);
             k < |pieces| && pieces[k].Masked?
    ensures var pieces := Redaction(substring, boundary, value);
            var text, start := pieces[k].text, PieceStart(pieces, k);
            && text != "" && OccursAt(value, text, start)
            && (text in substring || (text in boundary && StandsAt(value, text, start)))
            && (forall s :: s in substring && OccursAt(value, s, start) ==> |s| <= |text|)
            && (forall s :: s in boundary && StandsAt(value, s, start) ==> |s| <= |text|)
  {
    var start := RedactedPieceFits(substring, boundary, value, k);
    MatchMeaning(substring, boundary, value, start);
  }

  lemma NoMatchMeaning(substring: seq<string>, boundary: seq<string>, value: string, p: nat, s: string)
    requires p < |value| && MatchTable(substring, boundary, value)[p] == 0
    ensures s in substring && s != "" ==> !OccursAt(value, s, p)
    ensures s in boundary && s != "" ==> !StandsAt(value, s, p)
  {
    LongestBoundaryMeaning(boundary, value, p);
    if s in substring && OccursAt(value, s, p) {
      LongestSecretIsUpperBound(substring, s, value[p..]);
    }
  }

  lemma MatchMeaning(substring: seq<string>, boundary: seq<string>, value: string, p: nat)
    requires p < |value| && MatchTable(substring, boundary, value)[p] > 0
    ensures var n := MatchTable(substring, boundary, value)[p];
            && p + n <= |value| && OccursAt(value, value[p..p + n], p)
            && (value[p..p + n] in substring || (value[p..p + n] in boundary && StandsAt(value, value[p..p + n], p)))
            && (forall s :: s in substring && OccursAt(value, s, p) ==> |s| <= n)
            && (forall s :: s in boundary && StandsAt(value, s, p) ==> |s| <= n)
  {
    var n := MatchTable(substring, boundary, value)[p];
    LongestSecretIsAttained(substring, value[p..]);
    LongestBoundaryMeaning(boundary, value, p);
    assert value[p..p + n] == value[p..][..n];
    forall s | s in substring && OccursAt(value, s, p) ensures |s| <= n {
      LongestSecretIsUpperBound(substring, s, value[p..]);
    }
  }

  // ----- The scan

  /** One character further left. */
  method ScanStep(matcher: seq<Node>, ghost l: Labels, ghost substring: seq<string>, state: nat, c: char,
                  ghost text: string)
    returns (next: nat)
    requires MatcherWith(matcher, l, substring)
    requires state < |matcher| && LongestWord(l, l.words[state], text)
    ensures next < |matcher| && LongestWord(l, l.words[next], Cons(c, text))
    ensures matcher[next].maxOutputLength == LongestSecretAt(substring, Cons(c, text))
  {
    next := Advance(matcher, l, state, c, text);
    LongestWordDecides(matcher, l, substring, next, Cons(c, text));
  }

  /** Fills the table from right to left; the state is that of the longest word value[index..] starts with. */
  method ScanSubstrings(value: string, matcher: seq<Node>, ghost substring: seq<string>, longestMatchAt: array<nat>)
    returns (hasMatch: bool)
    requires longestMatchAt.Length == |value| && IsMatcherFor(matcher, substring)
    requires forall i :: 0 <= i < |value| ==> longestMatchAt[i] == 0
    modifies longestMatchAt
    ensures forall i :: 0 <= i < |value| ==> longestMatchAt[i] == LongestSecretAt(substring, value[i..])
    ensures hasMatch <==> exists i :: 0 <= i < |value| && longestMatchAt[i] > 0
  {
    ghost var l :| MatcherWith(matcher, l, substring);
    hasMatch := false;
    var state: nat := 0;
    var index := |value|;
    assert LongestWord(l, l.words[0], value[|value|..]) by { assert value[|value|..] == ""; }
    while index > 0
      invariant 0 <= index <= |value|
      invariant state < |matcher| && LongestWord(l, l.words[state], value[index..])
      invariant forall i :: 0 <= i < index ==> longestMatchAt[i] == 0
      invariant forall i :: index <= i < |value| ==> longestMatchAt[i] == LongestSecretAt(substring, value[i..])
      invariant hasMatch <==> exists i :: 0 <= i < |value| && longestMatchAt[i] > 0
    {
      index := index - 1;
      assert value[index..] == Cons(value[index], value[index + 1..]);
      state := ScanStep(matcher, l, substring, state, value[index], value[index + 1..]);
      var matchLength := matcher[state].maxOutputLength;
      if matchLength > 0 {
        longestMatchAt[index] := matchLength;
        hasMatch := true;
      }
    }
  }

  function Join(parts: seq<string>): string {
    if parts == [] then "" else Join(parts[..|parts| - 1]) + parts[|parts| - 1]
  }

  lemma JoinTwo(parts: seq<string>, a: string, b: string)
    ensures Join(parts + [a, b]) == Join(parts) + a + b
  {
    assert parts + [a, b] == (parts + [a]) + [b];
    assert (parts + [a, b])[..|parts| + 1] == parts + [a];
    assert (parts + [a])[..|parts|] == parts;
  }

  lemma {:induction false} NoMatchKeepsAll(value: string, table: seq<nat>, index: nat)
    requires |table| == |value| && InBounds(table) && index <= |value|
    requires forall i :: 0 <= i < |table| ==> table[i] == 0
    ensures Render(Greedy(value, table, 0, index)) == value
    decreases |value| - index
  {
    if index == |value| {
      assert value[0..] == value;
    } else {
      NoMatchKeepsAll(value, table, index + 1);
    }
  }

  /** A matcher with a root only finds nothing. */
  lemma RootOnlyFindsNothing(matcher: seq<Node>, substring: seq<string>, value: string, i: nat)
    requires IsMatcherFor(matcher, substring) && |matcher| <= 1 && i <= |value|
    ensures LongestSecretAt(substring, value[i..]) == 0
  {
    var l :| MatcherWith(matcher, l, substring);
    LongestSecretIsAttained(substring, value[i..]);
    assert forall s :: s in l.index ==> l.index[s] == 0 && s == "";
  }

  /** redactLiteralSecretsWithMatcher. */
  method RedactLiteralSecretsWithMatcher(value: string, matcher: seq<Node>, boundaryTextValues: seq<string>,
                                         ghost substring: seq<string>)
    returns (redactedText: string)
    requires IsMatcherFor(matcher, substring)
    requires forall t :: t in boundaryTextValues ==> t != ""
    ensures redactedText == Render(Redaction(substring, boundaryTextValues, value))
  {
    ghost var spec := MatchTable(substring, boundaryTextValues, value);
    MatchTableInBounds(substring, boundaryTextValues, value);
    if (|matcher| <= 1 && |boundaryTextValues| == 0) || |value| == 0 {
      forall i | 0 <= i < |value| ensures spec[i] == 0 {
        RootOnlyFindsNothing(matcher, substring, value, i);
      }
      NoMatchKeepsAll(value, spec, 0);
      return value;
    }
    var longestMatchAt := new nat[|value|](_ => 0);
    var hasMatch := ScanSubstrings(value, matcher, substring, longestMatchAt);
    var hasBoundaryMatch := AddBoundaryMatches(value, boundaryTextValues, longestMatchAt);
    hasMatch := hasBoundaryMatch || hasMatch;
    assert longestMatchAt[..] == spec;
    if !hasMatch {
      NoMatchKeepsAll(value, spec, 0);
      return value;
    }
    redactedText := Rewrite(value, longestMatchAt);
  }

  method Rewrite(value: string, longestMatchAt: array<nat>) returns (redactedText: string)
    requires longestMatchAt.Length == |value| && InBounds(longestMatchAt[..])
    ensures redactedText == Render(Greedy(value, longestMatchAt[..], 0, 0))
  {
    ghost var table := longestMatchAt[..];
    var redacted: seq<string> := [];
    var segmentStart := 0;
    var index := 0;
    while index < |value|
      invariant 0 <= segmentStart <= index <= |value|
      invariant Join(redacted) + Render(Greedy(value, table, segmentStart, index)) == Render(Greedy(value, table, 0, 0))
    {
      var matchLength := longestMatchAt[index];
      if matchLength == 0 {
        index := index + 1;
      } else {
        RewriteStep(redacted, value[segmentStart..index], value[index..index + matchLength],
                    Greedy(value, table, index + matchLength, index + matchLength));
        redacted := redacted + [value[segmentStart..index], REDACTED_LOG_VALUE];
        index := index + matchLength;
        segmentStart := index;
      }
    }
    assert (redacted + [value[segmentStart..]])[..|redacted|] == redacted;
    redacted := redacted + [value[segmentStart..]];
    redactedText := Join(redacted);
  }

  lemma RewriteStep(redacted: seq<string>, a: string, b: string, rest: seq<Piece>)
    ensures Join(redacted + [a, REDACTED_LOG_VALUE]) + Render(rest)
         == Join(redacted) + Render([Kept(a), Masked(b)] + rest)
  {
    JoinTwo(redacted, a, REDACTED_LOG_VALUE);
    var all := [Kept(a), Masked(b)] + rest;
    assert all[1..] == [Masked(b)] + rest && all[1..][1..] == rest;
  }

  // ----- The compiled redactor

  /** How far token may reach: anywhere, or only where it stands as its own lexeme. */
  ghost predicate MatchesAt(value: string, token: string, platform: set<string>, p: nat) {
    match ClassifyRedactionToken(token, ProvenanceOf(token, platform))
    case Substring => OccursAt(value, token, p)
    case Boundary => StandsAt(value, token, p)
  }

  /** The redaction of a text by the tokens of both classes. */
  function RedactionFor(value: string, tokens: seq<string>, platform: set<string>): seq<Piece> {
    Redaction(TokensOf(tokens, platform, Substring), TokensOf(tokens, platform, Boundary), value)
  }

  /** What is kept starts no match of any token by its class; what is masked is a token; the rest of the
      text is unchanged. */
  lemma RedactionIsRight(value: string, tokens: seq<string>, platform: set<string>)
    requires forall t :: t in tokens ==> t != ""
    ensures var pieces := RedactionFor(value, tokens, platform);
            && Original(pieces) == value
            && (forall k: nat, p: nat, t :: InPiece(pieces, k, p) && pieces[k].Kept? && t in tokens ==>
                  !MatchesAt(value, t, platform, p))
            && (forall k :: 0 <= k < |pieces| && pieces[k].Masked? ==>
                  pieces[k].text in tokens && MatchesAt(value, pieces[k].text, platform, PieceStart(pieces, k)))
  {
    var substring, boundary := TokensOf(tokens, platform, Substring), TokensOf(tokens, platform, Boundary);
    var pieces := RedactionFor(value, tokens, platform);
    RedactionSpellsOriginal(substring, boundary, value);
    forall k: nat, p: nat, t | InPiece(pieces, k, p) && pieces[k].Kept? && t in tokens
      ensures !MatchesAt(value, t, platform, p)
    {
      NothingStartsWhereKept(substring, boundary, value, k, p, t);
      TokensOfMember(tokens, platform, Substring, t);
      TokensOfMember(tokens, platform, Boundary, t);
    }
    forall k | 0 <= k < |pieces| && pieces[k].Masked?
      ensures pieces[k].text in tokens && MatchesAt(value, pieces[k].text, platform, PieceStart(pieces, k))
    {
      MaskedPieceIsLongestToken(substring, boundary, value, k);
      TokensOfMember(tokens, platform, Substring, pieces[k].text);
      TokensOfMember(tokens, platform, Boundary, pieces[k].text);
    }
  }

  // ----- What that means for a token, in its own terms

  const LOWER := "abcdefghijklmnopqrstuvwxyz"
  const UPPER := "ABCDEFGHIJKLMNOPQRSTUVWXYZ"
  const LEXICAL := LOWER + UPPER + "0123456789_"

  ghost predicate AllIn(s: string, alphabet: string) { forall i :: 0 <= i < |s| ==> s[i] in alphabet }

  /** One letter and then lower-case letters, or upper-case letters only. */
  ghost predicate SingleWord(token: string) {
    && |token| >= 1
    && ((token[0] in LOWER + UPPER && AllIn(token[1..], LOWER)) || AllIn(token, UPPER))
  }

  /** The text reads token from p on. */
  ghost predicate ReadsAt(value: string, token: string, p: nat) {
    p + |token| <= |value| && value[p..p + |token|] == token
  }

  /** It does, with no letter, digit or underscore right before or behind. */
  ghost predicate ReadsAloneAt(value: string, token: string, p: nat) {
    && ReadsAt(value, token, p)
    && (p == 0 || value[p - 1] !in LEXICAL)
    && (p + |token| == |value| || value[p + |token|] !in LEXICAL)
  }

  /** Tokens masked only where they stand alone: those of one or two characters, and words of up to twelve
      letters that the platform generated. Any other token is a secret wherever it is read. */
  ghost predicate OnlyAlone(token: string, platform: set<string>) {
    |token| <= 2 || (token in platform && |token| <= 12 && SingleWord(token))
  }

  lemma LowerAre(c: char)
    ensures c in LOWER <==> 'a' <= c <= 'z'
  {
    if 'a' <= c <= 'z' { assert LOWER[c as int - 97] == c; }
  }

  lemma UpperAre(c: char)
    ensures c in UPPER <==> 'A' <= c <= 'Z'
  {
    if 'A' <= c <= 'Z' { assert UPPER[c as int - 65] == c; }
  }

  lemma LettersAre(c: char)
    ensures c in LOWER <==> 'a' <= c <= 'z'
    ensures c in UPPER <==> 'A' <= c <= 'Z'
  {
    LowerAre(c);
    UpperAre(c);
  }

  lemma LexicalCharactersAre(c: char)
    ensures IsLexicalCharacter(c) <==> c in LEXICAL
  {
    LettersAre(c);
  }

  lemma SingleWordsAre(token: string)
    ensures IsWordToken(token) <==> SingleWord(token)
  {
    if token != "" {
      forall c ensures (IsLower(c) <==> c in LOWER) && (IsUpper(c) <==> c in UPPER) { LettersAre(c); }
      assert token[1..] == token[1..|token|];
      assert AllIn(token[1..], LOWER) <==> forall i :: 1 <= i < |token| ==> IsLower(token[i]) by {
        assert forall i :: 1 <= i < |token| ==> token[1..][i - 1] == token[i];
      }
    }
  }

  lemma ReadingsAre(value: string, token: string, p: nat)
    ensures OccursAt(value, token, p) <==> ReadsAt(value, token, p)
    ensures StandsAt(value, token, p) <==> ReadsAloneAt(value, token, p)
  {
    if OccursAt(value, token, p) {
      assert value[p..p + |token|] == value[p..][..|token|];
    }
    if ReadsAt(value, token, p) {
      assert value[p..][..|token|] == token;
      if p > 0 { LexicalCharactersAre(value[p - 1]); }
      if p + |token| < |value| { LexicalCharactersAre(value[p + |token|]); }
    }
  }

  lemma MatchesAre(value: string, token: string, platform: set<string>, p: nat)
    ensures MatchesAt(value, token, platform, p) <==>
              if OnlyAlone(token, platform) then ReadsAloneAt(value, token, p) else ReadsAt(value, token, p)
  {
    ReadingsAre(value, token, p);
    SingleWordsAre(token);
  }

  /** No secret is read, not even inside a longer word, from a position that is kept, and no other token
      stands alone there; what is masked is a token, and one that is no secret stands alone. */
  lemma NoSecretIsKept(value: string, tokens: seq<string>, platform: set<string>)
    requires forall t :: t in tokens ==> t != ""
    ensures var pieces := RedactionFor(value, tokens, platform);
            && (forall k: nat, p: nat, t :: InPiece(pieces, k, p) && pieces[k].Kept? && t in tokens ==>
                  if OnlyAlone(t, platform) then !ReadsAloneAt(value, t, p) else !ReadsAt(value, t, p))
            && (forall k :: 0 <= k < |pieces| && pieces[k].Masked? ==>
                  && pieces[k].text in tokens
                  && ReadsAt(value, pieces[k].text, PieceStart(pieces, k))
                  && (OnlyAlone(pieces[k].text, platform) ==> ReadsAloneAt(value, pieces[k].text, PieceStart(pieces, k))))
  {
    RedactionIsRight(value, tokens, platform);
    var pieces := RedactionFor(value, tokens, platform);
    forall k: nat, p: nat, t | InPiece(pieces, k, p) && pieces[k].Kept? && t in tokens
      ensures if OnlyAlone(t, platform) then !ReadsAloneAt(value, t, p) else !ReadsAt(value, t, p)
    {
      MatchesAre(value, t, platform, p);
    }
    forall k | 0 <= k < |pieces| && pieces[k].Masked?
      ensures ReadsAt(value, pieces[k].text, PieceStart(pieces, k))
      ensures OnlyAlone(pieces[k].text, platform) ==> ReadsAloneAt(value, pieces[k].text, PieceStart(pieces, k))
    {
      MatchesAre(value, pieces[k].text, platform, PieceStart(pieces, k));
    }
  }

  /** What the pieces are printed as. */
  lemma {:induction false} RenderingIs(pieces: seq<Piece>)
    ensures pieces == [] ==> Render(pieces) == ""
    ensures pieces != [] && pieces[0].Kept? ==> Render(pieces) == pieces[0].text + Render(pieces[1..])
    ensures pieces != [] && pieces[0].Masked? ==> Render(pieces) == "[REDACTED]" + Render(pieces[1..])
  {
  }

  /** compileLogRedaction and one redactText, for the literal values. */
  method CompileAndRedact(value: string, tokens: seq<string>, platformGeneratedValues: set<string>)
    returns (redactedText: string)
    requires forall t :: t in tokens ==> t != ""
    ensures redactedText == Render(RedactionFor(value, tokens, platformGeneratedValues))
  {
    var boundary, substring := PartitionRedactionTokens(tokens, platformGeneratedValues);
    forall t ensures t in boundary ==> t in tokens {
      TokensOfMember(tokens, platformGeneratedValues, Boundary, t);
    }
    var matcher := CreateLiteralSecretMatcher(substring);
    redactedText := RedactLiteralSecretsWithMatcher(value, matcher, boundary, substring);
  }
}
