/** The literal secret matcher of packages/runtime/src/logging.ts: a trie over the secrets read
    from right to left, breadth-first failure links, and the longest secret propagated along them.

    A node is identified by its word in text orientation. The root's word is empty, and the child
    of the node with word w by character c has word [c] + w, so the words are suffixes of secrets.
    The failure link of a node leads to the longest proper prefix of its word that is a word too. */
module SecretMatcher {

  datatype Node = Node(failure: nat, maxOutputLength: nat, transitions: map<char, nat>)

  /** The naive search the matcher refines: the length of the longest secret that text starts with,
      or 0 when it starts with none. */
  function LongestSecretAt(secrets: seq<string>, text: string): nat {
    if secrets == [] then 0
    else
      var rest := LongestSecretAt(secrets[1..], text);
      if secrets[0] <= text && |secrets[0]| > rest then |secrets[0]| else rest
  }

  lemma {:induction false} LongestSecretIsUpperBound(secrets: seq<string>, s: string, text: string)
    requires s in secrets && s <= text
    ensures |s| <= LongestSecretAt(secrets, text)
  {
    if s != secrets[0] {
      LongestSecretIsUpperBound(secrets[1..], s, text);
    }
  }

  lemma {:induction false} LongestSecretIsAttained(secrets: seq<string>, text: string)
    ensures LongestSecretAt(secrets, text) <= |text|
    ensures LongestSecretAt(secrets, text) != 0 ==> text[..LongestSecretAt(secrets, text)] in secrets
  {
    if secrets != [] {
      LongestSecretIsAttained(secrets[1..], text);
      if secrets[0] <= text {
        assert text[..|secrets[0]|] == secrets[0];
      }
    }
  }

  /** Whatever non-empty secret b finds on a text, a finds too. */
  lemma LongestSecretMonotone(a: seq<string>, textA: string, b: seq<string>, textB: string)
    requires forall s :: s in b && s != "" && s <= textB ==> s in a && s <= textA
    ensures LongestSecretAt(b, textB) <= LongestSecretAt(a, textA)
  {
    LongestSecretIsAttained(b, textB);
    var n := LongestSecretAt(b, textB);
    if n != 0 {
      LongestSecretIsUpperBound(a, textB[..n], textA);
    }
  }

  /** The naive search depends on the set of non-empty secrets only, not on their order or repetition. */
  lemma LongestSecretDeterminedBySet(a: seq<string>, b: seq<string>, text: string)
    requires forall s :: s != "" ==> (s in a <==> s in b)
    ensures LongestSecretAt(a, text) == LongestSecretAt(b, text)
  {
    LongestSecretMonotone(a, text, b, text);
    LongestSecretMonotone(b, text, a, text);
  }

  // ----- uniqueSortedSecretValues

  /** The non-empty values, each where it first stands. */
  function UniqueValues(values: seq<string>): seq<string> {
    if values == [] then []
    else
      var rest := UniqueValues(values[..|values| - 1]);
      var last := values[|values| - 1];
      if last == "" || last in rest then rest else rest + [last]
  }

  /** A longest-first list with one more value, after those that are as long. */
  function InsertByLength(sorted: seq<string>, value: string): seq<string> {
    if sorted == [] || |sorted[0]| < |value| then [value] + sorted
    else [sorted[0]] + InsertByLength(sorted[1..], value)
  }

  function SortedByLength(values: seq<string>): seq<string> {
    if values == [] then []
    else InsertByLength(SortedByLength(values[..|values| - 1]), values[|values| - 1])
  }

  function UniqueSortedSecretValues(values: seq<string>): seq<string> { SortedByLength(UniqueValues(values)) }

  ghost predicate LongestFirst(values: seq<string>) {
    forall i, j :: 0 <= i < j < |values| ==> |values[i]| >= |values[j]|
  }

  ghost predicate Distinct(values: seq<string>) {
    forall i, j :: 0 <= i < j < |values| ==> values[i] != values[j]
  }

  lemma {:induction false} UniqueValuesAre(values: seq<string>)
    ensures Distinct(UniqueValues(values))
    ensures forall s :: s in UniqueValues(values) <==> s in values && s != ""
  {
    if values != [] {
      UniqueValuesAre(values[..|values| - 1]);
      assert values == values[..|values| - 1] + [values[|values| - 1]];
    }
  }

  lemma PrependKeeps(first: string, rest: seq<string>)
    requires LongestFirst(rest) && Distinct(rest) && forall s :: s in rest ==> s != first && |s| <= |first|
    ensures LongestFirst([first] + rest) && Distinct([first] + rest)
  {
    forall i, j | 0 <= i < j < |[first] + rest|
      ensures |([first] + rest)[i]| >= |([first] + rest)[j]| && ([first] + rest)[i] != ([first] + rest)[j]
    {
      assert rest[j - 1] in rest;
    }
  }

  lemma FirstIsLongest(sorted: seq<string>)
    requires LongestFirst(sorted) && Distinct(sorted) && sorted != []
    ensures LongestFirst(sorted[1..]) && Distinct(sorted[1..])
    ensures forall s :: s in sorted[1..] ==> s in sorted && s != sorted[0] && |s| <= |sorted[0]|
  {
    forall s | s in sorted[1..] ensures s in sorted && s != sorted[0] && |s| <= |sorted[0]| {
      var j :| 0 <= j < |sorted| - 1 && sorted[1..][j] == s;
      assert sorted[j + 1] == s;
    }
  }

  lemma {:induction false} InsertByLengthKeeps(sorted: seq<string>, value: string)
    requires LongestFirst(sorted) && Distinct(sorted) && value !in sorted
    ensures var r := InsertByLength(sorted, value); LongestFirst(r) && Distinct(r)
    ensures forall s :: s in InsertByLength(sorted, value) <==> s in sorted || s == value
  {
    if sorted == [] {
    } else {
      FirstIsLongest(sorted);
      assert sorted == [sorted[0]] + sorted[1..];
      if |sorted[0]| < |value| {
        PrependKeeps(value, sorted);
      } else {
        InsertByLengthKeeps(sorted[1..], value);
        PrependKeeps(sorted[0], InsertByLength(sorted[1..], value));
      }
    }
  }

  lemma {:induction false} SortedByLengthKeeps(values: seq<string>)
    requires Distinct(values)
    ensures LongestFirst(SortedByLength(values)) && Distinct(SortedByLength(values))
    ensures forall s :: s in SortedByLength(values) <==> s in values
  {
    if values != [] {
      SortedByLengthKeeps(values[..|values| - 1]);
      InsertByLengthKeeps(SortedByLength(values[..|values| - 1]), values[|values| - 1]);
      assert values == values[..|values| - 1] + [values[|values| - 1]];
    }
  }

  /** The non-empty values once each, longest first; the naive search finds the same with them. */
  lemma UniqueSortedKeepsAnswers(values: seq<string>, text: string)
    ensures var r := UniqueSortedSecretValues(values);
            && LongestFirst(r) && Distinct(r) && (forall s :: s in r <==> s in values && s != "")
            && LongestSecretAt(r, text) == LongestSecretAt(values, text)
  {
    UniqueValuesAre(values);
    SortedByLengthKeeps(UniqueValues(values));
    LongestSecretDeterminedBySet(UniqueSortedSecretValues(values), values, text);
  }

  function Cons(c: char, w: string): string { [c] + w }

  /** The words of a matcher's nodes, and the node that has a word. */
  datatype Labels = Labels(words: seq<string>, index: map<string, nat>)

  ghost predicate Labelled(l: Labels) {
    && (forall s :: 0 <= s < |l.words| ==> l.words[s] in l.index && l.index[l.words[s]] == s)
    && (forall w :: w in l.index ==> l.index[w] < |l.words| && l.words[l.index[w]] == w)
  }

  /** The trie: node 0 is the root, and a node has a transition by c exactly when Cons(c, word) is
      the word of a node, the one the transition leads to. */
  ghost predicate Trie(nodes: seq<Node>, l: Labels) {
    && |nodes| == |l.words| >= 1
    && Labelled(l)
    && l.words[0] == ""
    && (forall w {:trigger w[1..]} :: w in l.index && w != "" ==> w[1..] in l.index)
    && (forall s, c :: 0 <= s < |nodes| && c in nodes[s].transitions ==>
          Cons(c, l.words[s]) in l.index && nodes[s].transitions[c] == l.index[Cons(c, l.words[s])])
    && (forall s, c :: 0 <= s < |nodes| && Cons(c, l.words[s]) in l.index ==> c in nodes[s].transitions)
  }

  /** w is the longest word that text starts with. */
  ghost predicate LongestWord(l: Labels, w: string, text: string) {
    && w in l.index
    && w <= text
    && forall u :: u in l.index && u <= text ==> |u| <= |w|
  }

  ghost predicate FailureDone(nodes: seq<Node>, l: Labels, s: nat)
    requires s < |nodes| == |l.words|
  {
    if l.words[s] == "" then nodes[s].failure == 0
    else
      && nodes[s].failure < |nodes|
      && LongestWord(l, l.words[nodes[s].failure], l.words[s][..|l.words[s]| - 1])
  }

  ghost predicate OutputDone(nodes: seq<Node>, l: Labels, secrets: seq<string>, s: nat)
    requires s < |nodes| == |l.words|
  {
    nodes[s].maxOutputLength == LongestSecretAt(secrets, l.words[s])
  }

  ghost predicate OutputRaw(nodes: seq<Node>, l: Labels, secrets: seq<string>, s: nat)
    requires s < |nodes| == |l.words|
  {
    nodes[s].maxOutputLength == if l.words[s] in secrets then |l.words[s]| else 0
  }

  ghost predicate MatcherWith(nodes: seq<Node>, l: Labels, secrets: seq<string>) {
    && Trie(nodes, l)
    && (forall s :: s in secrets ==> s in l.index)
    && (forall s :: 0 <= s < |nodes| ==> FailureDone(nodes, l, s))
    && (forall s :: 0 <= s < |nodes| ==> OutputDone(nodes, l, secrets, s))
  }

  /** What construction delivers and scanning relies on. */
  ghost predicate IsMatcherFor(nodes: seq<Node>, secrets: seq<string>) {
    exists l :: MatcherWith(nodes, l, secrets)
  }

  // ----- Prefixes

  lemma PrefixesNest(u: string, w: string, text: string)
    requires u <= text && w <= text && |u| <= |w|
    ensures u <= w
  {
  }

  /** At the state of the longest word that text starts with, the output is the naive answer. */
  lemma LongestWordDecides(nodes: seq<Node>, l: Labels, secrets: seq<string>, s: nat, text: string)
    requires MatcherWith(nodes, l, secrets)
    requires s < |nodes| && LongestWord(l, l.words[s], text)
    ensures nodes[s].maxOutputLength == LongestSecretAt(secrets, text)
  {
    assert OutputDone(nodes, l, secrets, s);
    SameLongest(l, secrets, l.words[s], text);
  }

  lemma SameLongest(l: Labels, secrets: seq<string>, w: string, text: string)
    requires forall s :: s in secrets ==> s in l.index
    requires LongestWord(l, w, text)
    ensures LongestSecretAt(secrets, w) == LongestSecretAt(secrets, text)
  {
    forall s | s in secrets && s <= text ensures s <= w { PrefixesNest(s, w, text); }
    LongestSecretMonotone(secrets, w, secrets, text);
    forall s | s in secrets && s <= w ensures s <= text {}
    LongestSecretMonotone(secrets, text, secrets, w);
  }

  lemma LongestSecretWithoutLast(secrets: seq<string>, w: string)
    requires w != "" && w !in secrets
    ensures LongestSecretAt(secrets, w) == LongestSecretAt(secrets, w[..|w| - 1])
  {
    var shorter := w[..|w| - 1];
    forall s | s in secrets && s <= w ensures s <= shorter {
      assert s == w[..|s|] && w == w[..|w|];
    }
    LongestSecretMonotone(secrets, shorter, secrets, w);
    LongestSecretMonotone(secrets, w, secrets, shorter);
  }

  /** Propagation: a word's own output and its failure's make the word's final output. */
  lemma OutputPropagates(l: Labels, secrets: seq<string>, w: string, f: string)
    requires forall s :: s in secrets ==> s in l.index
    requires w != "" && LongestWord(l, f, w[..|w| - 1])
    ensures LongestSecretAt(secrets, w)
         == (if w in secrets then |w| else LongestSecretAt(secrets, f))
    ensures LongestSecretAt(secrets, f) < |w|
  {
    SameLongest(l, secrets, f, w[..|w| - 1]);
    LongestSecretIsAttained(secrets, f);
    if w in secrets {
      LongestSecretIsUpperBound(secrets, w, w);
      LongestSecretIsAttained(secrets, w);
    } else {
      LongestSecretWithoutLast(secrets, w);
    }
  }

  /** The characters in front of a word carry over to its failure: one failure-chasing step keeps
      every candidate for extension by c. */
  lemma ChaseStep(nodes: seq<Node>, l: Labels, s: nat, c: char, text: string)
    requires Trie(nodes, l)
    requires 0 < s < |nodes| && FailureDone(nodes, l, s)
    requires l.words[s] <= text && c !in nodes[s].transitions
    requires forall u :: u in l.index && u <= text && Cons(c, u) in l.index ==> |u| <= |l.words[s]|
    ensures nodes[s].failure < |nodes|
    ensures l.words[nodes[s].failure] <= text
    ensures |l.words[nodes[s].failure]| < |l.words[s]|
    ensures forall u :: u in l.index && u <= text && Cons(c, u) in l.index ==>
                          |u| <= |l.words[nodes[s].failure]|
  {
    var w := l.words[s];
    assert w != "" by { assert l.index[l.words[s]] == s; assert l.index[l.words[0]] == 0; }
    forall u | u in l.index && u <= text && Cons(c, u) in l.index
      ensures |u| <= |l.words[nodes[s].failure]|
    {
      PrefixesNest(u, w, text);
      assert u != w;
      PrefixesNest(u, w[..|w| - 1], text);
    }
  }

  /** Where the chase stops, the transition, or the root without one, is the answer. */
  lemma ChaseEnd(nodes: seq<Node>, l: Labels, s: nat, c: char, text: string)
    requires Trie(nodes, l)
    requires s < |nodes| && l.words[s] <= text
    requires s == 0 || c in nodes[s].transitions
    requires forall u :: u in l.index && u <= text && Cons(c, u) in l.index ==> |u| <= |l.words[s]|
    ensures var next := if c in nodes[s].transitions then nodes[s].transitions[c] else 0;
            next < |nodes| && LongestWord(l, l.words[next], Cons(c, text))
  {
    var next := if c in nodes[s].transitions then nodes[s].transitions[c] else 0;
    assert l.words[0] in l.index;
    forall u | u in l.index && u <= Cons(c, text)
      ensures |u| <= |l.words[next]|
    {
      if u != "" {
        assert u == Cons(c, u[1..]);
        assert u[1..] <= text by { assert Cons(c, text)[1..] == text; }
        assert |u[1..]| <= |l.words[s]|;
      }
    }
  }

  /** Follows failure links from the state of the longest word text starts with to the state of the
      longest word Cons(c, text) starts with. Both failure-chasing loops of the source do this. */
  method Advance(nodes: seq<Node>, ghost l: Labels, state: nat, c: char, ghost text: string)
    returns (next: nat)
    requires Trie(nodes, l)
    requires state < |nodes| && LongestWord(l, l.words[state], text)
    requires forall s :: 0 <= s < |nodes| && |l.words[s]| <= |l.words[state]| ==> FailureDone(nodes, l, s)
    ensures next < |nodes| && LongestWord(l, l.words[next], Cons(c, text))
  {
    next := state;
    while next != 0 && c !in nodes[next].transitions
      invariant next < |nodes| && l.words[next] <= text
      invariant |l.words[next]| <= |l.words[state]|
      invariant forall u :: u in l.index && u <= text && Cons(c, u) in l.index ==> |u| <= |l.words[next]|
      decreases |l.words[next]|
    {
      ChaseStep(nodes, l, next, c, text);
      next := nodes[next].failure;
    }
    ChaseEnd(nodes, l, next, c, text);
    next := if c in nodes[next].transitions then nodes[next].transitions[c] else 0;
  }

  // ----- Construction

  /** One secret, read from its end: afterwards its own suffixes are words. */
  method InsertSecret(nodes: seq<Node>, ghost l: Labels, ghost secrets: seq<string>, secret: string)
    returns (nodes': seq<Node>, ghost l': Labels)
    requires Trie(nodes, l)
    requires forall s :: s in secrets ==> s in l.index
    requires forall s :: 0 <= s < |nodes| ==> OutputRaw(nodes, l, secrets, s) && nodes[s].failure == 0
    ensures Trie(nodes', l')
    ensures forall s :: s in secrets + [secret] ==> s in l'.index
    ensures forall s :: 0 <= s < |nodes'| ==>
              OutputRaw(nodes', l', secrets + [secret], s) && nodes'[s].failure == 0
  {
    nodes', l' := nodes, l;
    var state: nat := 0;
    var index := |secret|;
    while index > 0
      invariant 0 <= index <= |secret|
      invariant Trie(nodes', l')
      invariant state < |nodes'| && l'.words[state] == secret[index..]
      invariant forall s :: s in secrets ==> s in l'.index
      invariant forall s :: 0 <= s < |nodes'| ==> OutputRaw(nodes', l', secrets, s) && nodes'[s].failure == 0
    {
      index := index - 1;
      var character := secret[index];
      assert secret[index..] == Cons(character, secret[index + 1..]);
      if character in nodes'[state].transitions {
        state := nodes'[state].transitions[character];
      } else {
        var nextState := |nodes'|;
        nodes', l' := AddNode(nodes', l', secrets, state, character);
        state := nextState;
      }
    }
    assert l'.words[state] == secret;
    nodes' := nodes'[state := nodes'[state].(maxOutputLength := Max(nodes'[state].maxOutputLength, |secret|))];
    forall s | 0 <= s < |nodes'|
      ensures OutputRaw(nodes', l', secrets + [secret], s)
    {
      assert l'.index[l'.words[s]] == s;
    }
  }

  function Max(a: nat, b: nat): nat { if a > b then a else b }

  method AddNode(nodes: seq<Node>, ghost l: Labels, ghost secrets: seq<string>, state: nat, c: char)
    returns (nodes': seq<Node>, ghost l': Labels)
    requires Trie(nodes, l) && state < |nodes| && c !in nodes[state].transitions
    requires forall s :: s in secrets ==> s in l.index
    requires forall s :: 0 <= s < |nodes| ==> OutputRaw(nodes, l, secrets, s) && nodes[s].failure == 0
    ensures Trie(nodes', l')
    ensures |nodes'| == |nodes| + 1 && l'.words == l.words + [Cons(c, l.words[state])]
    ensures forall w :: w in l.index ==> w in l'.index
    ensures forall s :: 0 <= s < |nodes'| ==> OutputRaw(nodes', l', secrets, s) && nodes'[s].failure == 0
  {
    var node := nodes[state];
    ghost var w := Cons(c, l.words[state]);
    nodes' := nodes[state := node.(transitions := node.transitions[c := |nodes|])] + [Node(0, 0, map[])];
    l' := Labels(l.words + [w], l.index[w := |nodes|]);
    assert w !in l.index;
    forall s | 0 <= s < |nodes'| && s != state ensures nodes'[s].transitions == if s < |nodes| then nodes[s].transitions else map[] {}
    forall v | v in l'.index && v != "" ensures v[1..] in l'.index {
      if v == w { assert w[1..] == l.words[state]; }
    }
    forall s, d | 0 <= s < |nodes'| && Cons(d, l'.words[s]) in l'.index
      ensures d in nodes'[s].transitions
    {
      var u := l'.words[s];
      if Cons(d, u) == w {
        assert Cons(d, u)[0] == w[0] && Cons(d, u)[1..] == u && w[1..] == l.words[state];
        assert l.words[state] in l.index && u == l.words[state];
      } else {
        assert Cons(d, u)[1..] == u;
      }
    }
  }

  /** The breadth-first queue: place is the position of each queued state, and done of them have been
      dequeued. The states waiting before split are at this depth, those from split on one deeper,
      and everything at this depth or above it has been queued before split. */
  datatype Frontier = Frontier(queue: seq<nat>, place: map<nat, nat>, done: nat, depth: nat, split: nat)

  ghost predicate ValidFrontier(l: Labels, f: Frontier) {
    && f.done <= f.split <= |f.queue|
    && (forall j :: 0 <= j < |f.queue| ==>
          0 < f.queue[j] < |l.words| && f.queue[j] in f.place && f.place[f.queue[j]] == j)
    && (forall t :: t in f.place ==> f.place[t] < |f.queue| && f.queue[f.place[t]] == t)
    && (forall j :: f.done <= j < f.split ==> |l.words[f.queue[j]]| == f.depth)
    && (forall j :: f.split <= j < |f.queue| ==> |l.words[f.queue[j]]| == f.depth + 1)
    && (forall t :: 0 < t < |l.words| && |l.words[t]| <= f.depth ==> t in f.place && f.place[t] < f.split)
  }

  /** The state whose word lacks the first character. */
  ghost function Up(l: Labels, t: nat): nat
    requires t < |l.words| && l.words[t] != "" && l.words[t][1..] in l.index
  {
    l.index[l.words[t][1..]]
  }

  ghost predicate Dequeued(f: Frontier, t: nat) { t == 0 || (t in f.place && f.place[t] < f.done) }

  /** Queued are the children of dequeued states, and those of state by the characters not in todo. */
  ghost predicate QueuedExactly(l: Labels, f: Frontier, state: nat, todo: set<char>) {
    forall t :: 0 < t < |l.words| ==>
      && l.words[t] != "" && l.words[t][1..] in l.index
      && (t in f.place <==> (if Up(l, t) == state then l.words[t][0] !in todo else Dequeued(f, Up(l, t))))
  }

  ghost predicate FailuresDone(nodes: seq<Node>, l: Labels, f: Frontier)
    requires |nodes| == |l.words|
  {
    forall t {:trigger FailureDone(nodes, l, t)} ::
      0 <= t < |nodes| && (t == 0 || t in f.place) ==> FailureDone(nodes, l, t)
  }

  /** The outputs: final for the dequeued states, the state's own secret for the others. */
  ghost predicate OutputsDone(nodes: seq<Node>, l: Labels, secrets: seq<string>, f: Frontier)
    requires |nodes| == |l.words|
  {
    forall t :: 0 <= t < |nodes| ==>
      if Dequeued(f, t) then OutputDone(nodes, l, secrets, t) else OutputRaw(nodes, l, secrets, t)
  }

  function Push(f: Frontier, t: nat): Frontier {
    f.(queue := f.queue + [t], place := f.place[t := |f.queue|])
  }

  lemma PushKeepsFrontier(l: Labels, f: Frontier, state: nat, todo: set<char>, c: char, child: nat)
    requires Labelled(l) && ValidFrontier(l, f) && QueuedExactly(l, f, state, todo)
    requires state < |l.words| && |l.words[state]| == f.depth && c in todo
    requires 0 < child < |l.words| && l.words[child] == Cons(c, l.words[state])
    ensures child !in f.place
    ensures ValidFrontier(l, Push(f, child))
  {
    assert l.words[child][1..] == l.words[state] && l.words[child][0] == c;
    assert Up(l, child) == state;
    PushNew(l, f, child);
  }

  lemma PushNew(l: Labels, f: Frontier, child: nat)
    requires ValidFrontier(l, f) && 0 < child < |l.words| && child !in f.place
    requires |l.words[child]| == f.depth + 1
    ensures ValidFrontier(l, Push(f, child))
  {
  }

  lemma PushKeepsQueued(l: Labels, f: Frontier, state: nat, todo: set<char>, c: char, child: nat)
    requires Labelled(l) && ValidFrontier(l, f) && QueuedExactly(l, f, state, todo)
    requires state < |l.words| && c in todo
    requires 0 < child < |l.words| && l.words[child] == Cons(c, l.words[state])
    ensures QueuedExactly(l, Push(f, child), state, todo - {c})
  {
    assert l.words[child][1..] == l.words[state] && l.words[child][0] == c;
    forall t | 0 < t < |l.words|
      ensures t in Push(f, child).place <==>
                (if Up(l, t) == state then l.words[t][0] !in todo - {c} else Dequeued(Push(f, child), Up(l, t)))
    {
      if Up(l, t) == state && l.words[t][0] == c {
        assert l.words[t] == Cons(c, l.words[state]);
        assert l.index[l.words[t]] == t;
      }
    }
  }

  /** Breadth first: everything shallower than the waiting states has been dequeued. */
  lemma ShallowerIsDequeued(l: Labels, f: Frontier, t: nat)
    requires ValidFrontier(l, f)
    requires t < |l.words| && |l.words[t]| < f.depth
    ensures Dequeued(f, t)
  {
    if t != 0 {
      assert f.queue[f.place[t]] == t;
    }
  }

  /** The nodes up to their failure links. */
  ghost predicate SameButLinks(nodes: seq<Node>, nodes': seq<Node>) {
    && |nodes'| == |nodes|
    && forall s :: 0 <= s < |nodes| ==>
         nodes'[s].maxOutputLength == nodes[s].maxOutputLength && nodes'[s].transitions == nodes[s].transitions
  }

  lemma TrieIgnoresLinks(nodes: seq<Node>, nodes': seq<Node>, l: Labels)
    requires Trie(nodes, l) && |nodes'| == |nodes|
    requires forall s :: 0 <= s < |nodes| ==> nodes'[s].transitions == nodes[s].transitions
    ensures Trie(nodes', l)
  {
  }

  lemma LinkKeepsFailures(nodes: seq<Node>, l: Labels, f: Frontier, child: nat, failure: nat)
    requires Trie(nodes, l) && FailuresDone(nodes, l, f)
    requires 0 < child < |nodes| && child !in f.place && l.words[child] != ""
    requires failure < |nodes| && LongestWord(l, l.words[failure], l.words[child][..|l.words[child]| - 1])
    ensures var nodes' := nodes[child := nodes[child].(failure := failure)];
            Trie(nodes', l) && SameButLinks(nodes, nodes') && FailuresDone(nodes', l, Push(f, child))
  {
    var nodes' := nodes[child := nodes[child].(failure := failure)];
    TrieIgnoresLinks(nodes, nodes', l);
    forall t | 0 <= t < |nodes| && (t == 0 || t in Push(f, child).place)
      ensures FailureDone(nodes', l, t)
    {
      if t != child {
        assert FailureDone(nodes, l, t);
      }
    }
  }

  lemma ShallowerFailuresDone(nodes: seq<Node>, l: Labels, f: Frontier)
    requires |nodes| == |l.words| && ValidFrontier(l, f) && FailuresDone(nodes, l, f)
    ensures forall t :: 0 <= t < |nodes| && |l.words[t]| < f.depth ==> FailureDone(nodes, l, t)
  {
    forall t | 0 <= t < |nodes| && |l.words[t]| < f.depth
      ensures FailureDone(nodes, l, t)
    {
      ShallowerIsDequeued(l, f, t);
    }
  }

  /** Before a link: what the chase needs of the dequeued state's own failure. */
  lemma OwnFailure(nodes: seq<Node>, l: Labels, f: Frontier, state: nat)
    requires |nodes| == |l.words| && ValidFrontier(l, f) && FailuresDone(nodes, l, f)
    requires state < |nodes| && state in f.place && |l.words[state]| == f.depth && l.words[state] != ""
    ensures nodes[state].failure < |nodes|
    ensures |l.words[nodes[state].failure]| < f.depth
    ensures LongestWord(l, l.words[nodes[state].failure], l.words[state][..f.depth - 1])
    ensures Dequeued(f, nodes[state].failure)
  {
    assert FailureDone(nodes, l, state);
    ShallowerIsDequeued(l, f, nodes[state].failure);
  }

  /** A child's failure link is the transition of the nearest failure of its parent that has one. */
  method ChildFailure(nodes: seq<Node>, ghost l: Labels, ghost f: Frontier, state: nat, character: char)
    returns (failure: nat)
    requires Trie(nodes, l) && ValidFrontier(l, f) && FailuresDone(nodes, l, f)
    requires state < |nodes| && state in f.place && |l.words[state]| == f.depth && l.words[state] != ""
    ensures failure < |nodes|
    ensures LongestWord(l, l.words[failure], Cons(character, l.words[state][..f.depth - 1]))
  {
    OwnFailure(nodes, l, f, state);
    ShallowerFailuresDone(nodes, l, f);
    failure := Advance(nodes, l, nodes[state].failure, character, l.words[state][..f.depth - 1]);
  }

  lemma LinkKeepsAll(nodes: seq<Node>, l: Labels, f: Frontier, state: nat, todo: set<char>, c: char, failure: nat)
    requires Trie(nodes, l) && ValidFrontier(l, f) && FailuresDone(nodes, l, f)
    requires state < |nodes| && |l.words[state]| == f.depth && l.words[state] != ""
    requires QueuedExactly(l, f, state, todo)
    requires c in todo && c in nodes[state].transitions
    requires failure < |nodes| && LongestWord(l, l.words[failure], Cons(c, l.words[state][..f.depth - 1]))
    ensures var child := nodes[state].transitions[c];
            && child < |nodes|
            && var nodes' := nodes[child := nodes[child].(failure := failure)];
            && Trie(nodes', l) && SameButLinks(nodes, nodes')
            && ValidFrontier(l, Push(f, child))
            && FailuresDone(nodes', l, Push(f, child))
            && QueuedExactly(l, Push(f, child), state, todo - {c})
  {
    var child := nodes[state].transitions[c];
    ChildWord(nodes, l, state, c);
    ConsWithoutLast(c, l.words[state]);
    PushKeepsFrontier(l, f, state, todo, c, child);
    PushKeepsQueued(l, f, state, todo, c, child);
    LinkKeepsFailures(nodes, l, f, child, failure);
  }

  /** Gives the children of the dequeued state their failure links and queues them. */
  method LinkChildren(nodes: seq<Node>, ghost l: Labels, ghost f: Frontier, queue: seq<nat>, state: nat)
    returns (nodes': seq<Node>, ghost f': Frontier, queue': seq<nat>)
    requires Trie(nodes, l) && ValidFrontier(l, f) && FailuresDone(nodes, l, f) && queue == f.queue
    requires state < |nodes| && state in f.place && |l.words[state]| == f.depth && l.words[state] != ""
    requires QueuedExactly(l, f, state, nodes[state].transitions.Keys)
    ensures Trie(nodes', l) && SameButLinks(nodes, nodes')
    ensures ValidFrontier(l, f') && FailuresDone(nodes', l, f') && queue' == f'.queue
    ensures QueuedExactly(l, f', state, {})
    ensures f'.done == f.done && f'.depth == f.depth && f'.split == f.split && f.queue <= f'.queue
  {
    nodes', f', queue' := nodes, f, queue;
    var todo := nodes[state].transitions.Keys;
    while todo != {}
      invariant todo <= nodes[state].transitions.Keys
      invariant SameButLinks(nodes, nodes') && Trie(nodes', l)
      invariant ValidFrontier(l, f') && FailuresDone(nodes', l, f') && queue' == f'.queue
      invariant state in f'.place && QueuedExactly(l, f', state, todo)
      invariant f'.done == f.done && f'.depth == f.depth && f'.split == f.split && f.queue <= f'.queue
    {
      var character :| character in todo;
      assert nodes'[state].transitions == nodes[state].transitions;
      var child := nodes'[state].transitions[character];
      var failure := ChildFailure(nodes', l, f', state, character);
      LinkKeepsAll(nodes', l, f', state, todo, character, failure);
      nodes' := nodes'[child := nodes'[child].(failure := failure)];
      queue', f' := queue' + [child], Push(f', child);
      todo := todo - {character};
    }
  }

  lemma ChildWord(nodes: seq<Node>, l: Labels, state: nat, c: char)
    requires Trie(nodes, l) && state < |nodes| && c in nodes[state].transitions
    ensures 0 < nodes[state].transitions[c] < |nodes|
    ensures l.words[nodes[state].transitions[c]] == Cons(c, l.words[state])
  {
    assert Cons(c, l.words[state]) != "" == l.words[0];
  }

  lemma ConsWithoutLast(c: char, w: string)
    requires w != ""
    ensures Cons(c, w)[..|Cons(c, w)| - 1] == Cons(c, w[..|w| - 1])
  {
  }

  /** Queues the children of the root; their failure is the root, as it was initialized. */
  method QueueRootChildren(nodes: seq<Node>, ghost l: Labels) returns (queue: seq<nat>, ghost f: Frontier)
    requires Trie(nodes, l)
    requires forall t :: 0 <= t < |nodes| ==> nodes[t].failure == 0
    ensures ValidFrontier(l, f) && FailuresDone(nodes, l, f) && queue == f.queue && f.done == 0
    ensures QueuedExactly(l, f, |l.words|, {})
  {
    queue, f := [], Frontier([], map[], 0, 0, 0);
    var todo := nodes[0].transitions.Keys;
    NothingQueued(nodes, l);
    while todo != {}
      invariant todo <= nodes[0].transitions.Keys
      invariant ValidFrontier(l, f) && FailuresDone(nodes, l, f) && queue == f.queue
      invariant f.done == 0 && f.depth == 0
      invariant QueuedExactly(l, f, 0, todo)
    {
      var c :| c in todo;
      var child := nodes[0].transitions[c];
      PushRootChild(nodes, l, f, todo, c);
      queue, f := queue + [child], Push(f, child);
      todo := todo - {c};
    }
  }

  lemma PushRootChild(nodes: seq<Node>, l: Labels, f: Frontier, todo: set<char>, c: char)
    requires Trie(nodes, l) && ValidFrontier(l, f) && FailuresDone(nodes, l, f)
    requires f.depth == 0 && QueuedExactly(l, f, 0, todo)
    requires c in todo && c in nodes[0].transitions
    requires nodes[0].transitions[c] < |nodes| ==> nodes[nodes[0].transitions[c]].failure == 0
    ensures var f' := Push(f, nodes[0].transitions[c]);
            ValidFrontier(l, f') && FailuresDone(nodes, l, f') && QueuedExactly(l, f', 0, todo - {c})
  {
    var child := nodes[0].transitions[c];
    ChildWord(nodes, l, 0, c);
    PushKeepsFrontier(l, f, 0, todo, c, child);
    PushKeepsQueued(l, f, 0, todo, c, child);
    assert LongestWord(l, l.words[0], l.words[child][..0]);
    LinkKeepsFailures(nodes, l, f, child, 0);
    assert nodes[child := nodes[child].(failure := 0)] == nodes;
  }

  lemma NothingQueued(nodes: seq<Node>, l: Labels)
    requires Trie(nodes, l)
    requires forall t :: 0 <= t < |nodes| ==> nodes[t].failure == 0
    ensures var f := Frontier([], map[], 0, 0, 0);
            && ValidFrontier(l, f) && FailuresDone(nodes, l, f)
            && QueuedExactly(l, f, 0, nodes[0].transitions.Keys)
  {
    forall t | 0 < t < |nodes|
      ensures l.words[t] != "" && l.words[t][1..] in l.index
      ensures Up(l, t) == 0 ==> l.words[t][0] in nodes[0].transitions.Keys
    {
      assert l.index[l.words[t]] == t && l.index[l.words[0]] == 0;
      assert l.words[t] == Cons(l.words[t][0], l.words[t][1..]);
    }
  }

  lemma NextDepthIsQueued(l: Labels, f: Frontier, t: nat)
    requires Labelled(l) && ValidFrontier(l, f) && f.done == f.split
    requires |l.words| > 0 && l.words[0] == "" && QueuedExactly(l, f, |l.words|, {})
    requires 0 < t < |l.words| && |l.words[t]| <= f.depth + 1
    ensures t in f.place
  {
    var u := Up(l, t);
    assert l.words[u] == l.words[t][1..];
    assert u == 0 || (u in f.place && f.place[u] < f.split);
  }

  /** All states of this depth are dequeued: what waits is exactly the next depth. */
  lemma NextDepth(l: Labels, f: Frontier)
    requires ValidFrontier(l, f) && f.done == f.split
    requires forall t :: 0 < t < |l.words| && |l.words[t]| <= f.depth + 1 ==> t in f.place
    ensures ValidFrontier(l, f.(depth := f.depth + 1, split := |f.queue|))
  {
  }

  lemma EnterState(nodes: seq<Node>, l: Labels, f: Frontier)
    requires Trie(nodes, l) && ValidFrontier(l, f) && f.done < f.split
    requires QueuedExactly(l, f, |l.words|, {})
    ensures QueuedExactly(l, f, f.queue[f.done], nodes[f.queue[f.done]].transitions.Keys)
  {
    var state := f.queue[f.done];
    forall t | 0 < t < |l.words| && Up(l, t) == state
      ensures l.words[t][0] in nodes[state].transitions.Keys
    {
      assert l.words[state] == l.words[t][1..];
      assert l.words[t] == Cons(l.words[t][0], l.words[state]) && l.words[t] in l.index;
    }
  }

  lemma LeaveKeepsFrontier(l: Labels, f: Frontier)
    requires ValidFrontier(l, f) && f.done < f.split
    ensures ValidFrontier(l, f.(done := f.done + 1))
  {
  }

  lemma LeaveKeepsQueued(l: Labels, f: Frontier)
    requires ValidFrontier(l, f) && f.done < f.split
    requires QueuedExactly(l, f, f.queue[f.done], {})
    requires forall u :: u in l.index ==> l.index[u] < |l.words|
    ensures QueuedExactly(l, f.(done := f.done + 1), |l.words|, {})
  {
    var state, f' := f.queue[f.done], f.(done := f.done + 1);
    DequeueAddsOne(l, f);
    forall t | 0 < t < |l.words|
      ensures l.words[t] != "" && l.words[t][1..] in l.index
      ensures t in f'.place <==> Dequeued(f', Up(l, t))
    {
      assert t in f.place <==> Up(l, t) == state || Dequeued(f, Up(l, t));
    }
  }

  lemma DequeueAddsOne(l: Labels, f: Frontier)
    requires ValidFrontier(l, f) && f.done < f.split
    ensures forall t: nat :: t < |l.words| ==>
              (Dequeued(f.(done := f.done + 1), t) <==> Dequeued(f, t) || t == f.queue[f.done])
    ensures !Dequeued(f, f.queue[f.done])
  {
  }

  /** The states not dequeued yet, which only grow fewer. */
  ghost function Waiting(n: nat, place: map<nat, nat>, done: nat): set<nat> {
    set t: nat | t < n && !(t in place && place[t] < done)
  }

  lemma DequeueShrinksWaiting(l: Labels, f: Frontier, f': Frontier)
    requires ValidFrontier(l, f) && ValidFrontier(l, f') && f.done < |f.queue| && f.queue <= f'.queue
    ensures Waiting(|l.words|, f'.place, f.done + 1) < Waiting(|l.words|, f.place, f.done)
  {
    var n, state := |l.words|, f.queue[f.done];
    forall t | t in f.place ensures t in f'.place && f'.place[t] == f.place[t] {
      assert f'.queue[f.place[t]] == t;
    }
    assert state in Waiting(n, f.place, f.done) && state !in Waiting(n, f'.place, f.done + 1);
  }

  /** The dequeued state's output becomes final, its failure's output being final. */
  lemma OutputBecomesFinal(nodes: seq<Node>, l: Labels, secrets: seq<string>, state: nat)
    requires |nodes| == |l.words| && state < |nodes| && l.words[state] != "" && FailureDone(nodes, l, state)
    requires OutputDone(nodes, l, secrets, nodes[state].failure)
    requires OutputRaw(nodes, l, secrets, state)
    requires forall s :: s in secrets ==> s in l.index
    ensures Max(nodes[state].maxOutputLength, nodes[nodes[state].failure].maxOutputLength)
         == LongestSecretAt(secrets, l.words[state])
  {
    OutputPropagates(l, secrets, l.words[state], l.words[nodes[state].failure]);
  }

  /** When a state is dequeued, its failure is shallower and has been dequeued before. */
  lemma FailureIsFinal(nodes: seq<Node>, l: Labels, secrets: seq<string>, f: Frontier)
    requires Trie(nodes, l) && ValidFrontier(l, f) && FailuresDone(nodes, l, f) && f.done < f.split
    requires OutputsDone(nodes, l, secrets, f) && l.words[f.queue[f.done]] != ""
    ensures FailureDone(nodes, l, f.queue[f.done])
    ensures OutputDone(nodes, l, secrets, nodes[f.queue[f.done]].failure)
    ensures OutputRaw(nodes, l, secrets, f.queue[f.done])
  {
    var state := f.queue[f.done];
    OwnFailure(nodes, l, f, state);
    assert Dequeued(f, nodes[state].failure);
    assert !Dequeued(f, state);
  }

  lemma RaiseOutput(nodes: seq<Node>, l: Labels, secrets: seq<string>, f: Frontier, output: nat)
    requires Trie(nodes, l) && ValidFrontier(l, f) && f.done < f.split
    requires OutputsDone(nodes, l, secrets, f)
    requires output == LongestSecretAt(secrets, l.words[f.queue[f.done]])
    ensures var state := f.queue[f.done];
            OutputsDone(nodes[state := nodes[state].(maxOutputLength := output)], l, secrets, f.(done := f.done + 1))
  {
    var state := f.queue[f.done];
    var nodes' := nodes[state := nodes[state].(maxOutputLength := output)];
    var f' := f.(done := f.done + 1);
    DequeueAddsOne(l, f);
    forall t | 0 <= t < |nodes'|
      ensures if Dequeued(f', t) then OutputDone(nodes', l, secrets, t) else OutputRaw(nodes', l, secrets, t)
    {
      assert Dequeued(f', t) <==> Dequeued(f, t) || t == state;
      if t == state {
        assert OutputDone(nodes', l, secrets, t);
      } else {
        assert nodes'[t] == nodes[t];
      }
    }
  }

  lemma RaiseKeepsLinks(nodes: seq<Node>, l: Labels, f: Frontier, state: nat, output: nat)
    requires Trie(nodes, l) && FailuresDone(nodes, l, f) && state < |nodes|
    ensures var nodes' := nodes[state := nodes[state].(maxOutputLength := output)];
            Trie(nodes', l) && FailuresDone(nodes', l, f)
  {
    var nodes' := nodes[state := nodes[state].(maxOutputLength := output)];
    TrieIgnoresLinks(nodes, nodes', l);
    forall t | 0 <= t < |nodes| && (t == 0 || t in f.place) ensures FailureDone(nodes', l, t) {
      assert FailureDone(nodes, l, t);
    }
  }

  lemma OutputsIgnoreLinks(nodes: seq<Node>, nodes': seq<Node>, l: Labels, secrets: seq<string>,
                           f: Frontier, f': Frontier, done: nat)
    requires |nodes| == |l.words| && SameButLinks(nodes, nodes')
    requires ValidFrontier(l, f) && ValidFrontier(l, f') && f.queue <= f'.queue && done <= |f.queue|
    requires OutputsDone(nodes, l, secrets, f.(done := done))
    ensures OutputsDone(nodes', l, secrets, f'.(done := done))
  {
    forall t | 0 <= t < |nodes| ensures Dequeued(f.(done := done), t) <==> Dequeued(f'.(done := done), t) {
      if t in f.place { assert f'.queue[f.place[t]] == t; }
      if t in f'.place && f'.place[t] < done { assert f.queue[f'.place[t]] == t; }
    }
  }

  lemma RootOutput(nodes: seq<Node>, l: Labels, secrets: seq<string>, f: Frontier)
    requires Trie(nodes, l) && ValidFrontier(l, f) && f.done == 0
    requires forall t :: 0 <= t < |nodes| ==> OutputRaw(nodes, l, secrets, t)
    ensures OutputsDone(nodes, l, secrets, f)
  {
    assert OutputRaw(nodes, l, secrets, 0);
    LongestSecretIsAttained(secrets, "");
  }

  lemma {:induction false} EveryStateIsQueued(l: Labels, f: Frontier, t: nat)
    requires Labelled(l) && ValidFrontier(l, f) && f.done == |f.queue|
    requires QueuedExactly(l, f, |l.words|, {})
    requires t < |l.words| && l.words[0] == ""
    ensures Dequeued(f, t)
    decreases |l.words[t]|
  {
    if t != 0 {
      var u := Up(l, t);
      assert l.words[u] == l.words[t][1..];
      EveryStateIsQueued(l, f, u);
    }
  }

  /** The dequeued state before its children are linked: its output is final. */
  lemma BeginState(nodes: seq<Node>, l: Labels, secrets: seq<string>, f: Frontier)
    requires Trie(nodes, l) && ValidFrontier(l, f) && FailuresDone(nodes, l, f) && f.done < f.split
    requires forall s :: s in secrets ==> s in l.index
    requires QueuedExactly(l, f, |l.words|, {})
    requires OutputsDone(nodes, l, secrets, f)
    ensures var state := f.queue[f.done];
            && nodes[state].failure < |nodes|
            && var output := Max(nodes[state].maxOutputLength, nodes[nodes[state].failure].maxOutputLength);
            && var raised := nodes[state := nodes[state].(maxOutputLength := output)];
            && l.words[state] != ""
            && Trie(raised, l) && FailuresDone(raised, l, f)
            && OutputsDone(raised, l, secrets, f.(done := f.done + 1))
            && QueuedExactly(l, f, state, raised[state].transitions.Keys)
  {
    var state := f.queue[f.done];
    assert l.words[state] != "";
    FailureIsFinal(nodes, l, secrets, f);
    OutputBecomesFinal(nodes, l, secrets, state);
    var output := Max(nodes[state].maxOutputLength, nodes[nodes[state].failure].maxOutputLength);
    RaiseOutput(nodes, l, secrets, f, output);
    RaiseKeepsLinks(nodes, l, f, state, output);
    EnterState(nodes, l, f);
  }

  /** The dequeued state after its children were linked: one less is waiting. */
  lemma LeaveState(nodes: seq<Node>, l: Labels, f: Frontier, f': Frontier)
    requires Trie(nodes, l)
    requires ValidFrontier(l, f) && ValidFrontier(l, f') && f.done < f.split
    requires f'.done == f.done && f'.split == f.split && f.queue <= f'.queue
    requires QueuedExactly(l, f', f.queue[f.done], {})
    requires FailuresDone(nodes, l, f')
    ensures var left := f'.(done := f'.done + 1);
            && ValidFrontier(l, left) && FailuresDone(nodes, l, left) && QueuedExactly(l, left, |l.words|, {})
            && Waiting(|l.words|, left.place, left.done) < Waiting(|l.words|, f.place, f.done)
  {
    LeaveKeepsFrontier(l, f');
    LeaveKeepsQueued(l, f');
    DequeueShrinksWaiting(l, f, f');
  }

  /** The body of the breadth-first loop: the output first, then the children. */
  method DequeueState(nodes: seq<Node>, ghost l: Labels, ghost secrets: seq<string>, ghost f: Frontier,
                      queue: seq<nat>, queueIndex: nat)
    returns (nodes': seq<Node>, ghost f': Frontier, queue': seq<nat>)
    requires Trie(nodes, l) && ValidFrontier(l, f) && FailuresDone(nodes, l, f)
    requires forall s :: s in secrets ==> s in l.index
    requires queue == f.queue && queueIndex == f.done < f.split
    requires QueuedExactly(l, f, |l.words|, {})
    requires OutputsDone(nodes, l, secrets, f)
    ensures Trie(nodes', l) && ValidFrontier(l, f') && FailuresDone(nodes', l, f')
    ensures queue' == f'.queue && f'.done == f.done + 1
    ensures QueuedExactly(l, f', |l.words|, {})
    ensures OutputsDone(nodes', l, secrets, f')
    ensures Waiting(|l.words|, f'.place, f'.done) < Waiting(|l.words|, f.place, f.done)
  {
    var state := queue[queueIndex];
    var node := nodes[state];
    BeginState(nodes, l, secrets, f);
    var raised := nodes[state := node.(maxOutputLength :=
                                         Max(node.maxOutputLength, nodes[node.failure].maxOutputLength))];
    nodes', f', queue' := LinkChildren(raised, l, f, queue, state);
    OutputsIgnoreLinks(raised, nodes', l, secrets, f, f', f.done + 1);
    LeaveState(nodes', l, f, f');
    f' := f'.(done := f'.done + 1);
  }

  /** The breadth-first pass over the trie. */
  method LinkStates(nodes: seq<Node>, ghost l: Labels, ghost secrets: seq<string>) returns (nodes': seq<Node>)
    requires Trie(nodes, l)
    requires forall s :: s in secrets ==> s in l.index
    requires forall t :: 0 <= t < |nodes| ==> OutputRaw(nodes, l, secrets, t) && nodes[t].failure == 0
    ensures MatcherWith(nodes', l, secrets)
  {
    nodes' := nodes;
    ghost var f;
    var queue;
    queue, f := QueueRootChildren(nodes', l);
    var queueIndex := 0;
    RootOutput(nodes', l, secrets, f);
    while queueIndex < |queue|
      invariant Trie(nodes', l) && ValidFrontier(l, f) && FailuresDone(nodes', l, f)
      invariant queue == f.queue && queueIndex == f.done
      invariant QueuedExactly(l, f, |l.words|, {})
      invariant OutputsDone(nodes', l, secrets, f)
      decreases Waiting(|l.words|, f.place, f.done)
    {
      if f.done == f.split {
        forall t | 0 < t < |l.words| && |l.words[t]| <= f.depth + 1 ensures t in f.place {
          NextDepthIsQueued(l, f, t);
        }
        NextDepth(l, f);
        f := f.(depth := f.depth + 1, split := |f.queue|);
      }
      nodes', f, queue := DequeueState(nodes', l, secrets, f, queue, queueIndex);
      queueIndex := queueIndex + 1;
    }
    forall t | 0 <= t < |nodes'| ensures FailureDone(nodes', l, t) && OutputDone(nodes', l, secrets, t) {
      EveryStateIsQueued(l, f, t);
    }
  }

  /** createLiteralSecretMatcher. */
  method CreateLiteralSecretMatcher(secretValues: seq<string>) returns (nodes: seq<Node>)
    ensures IsMatcherFor(nodes, secretValues)
  {
    nodes := [Node(0, 0, map[])];
    ghost var l := Labels([""], map["" := 0]);
    var n := 0;
    assert secretValues[..0] == [];
    while n < |secretValues|
      invariant 0 <= n <= |secretValues|
      invariant Trie(nodes, l)
      invariant forall s :: s in secretValues[..n] ==> s in l.index
      invariant forall t :: 0 <= t < |nodes| ==> OutputRaw(nodes, l, secretValues[..n], t) && nodes[t].failure == 0
    {
      assert secretValues[..n + 1] == secretValues[..n] + [secretValues[n]];
      nodes, l := InsertSecret(nodes, l, secretValues[..n], secretValues[n]);
      n := n + 1;
    }
    assert secretValues[..n] == secretValues;
    nodes := LinkStates(nodes, l, secretValues);
    assert MatcherWith(nodes, l, secretValues);
  }
}
