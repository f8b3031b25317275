/** Cutting a stream of chunks into lines as they arrive (agent/src/build-logs.ts). */
module LineSplitting {

  // ----- Lines

  function WithoutReturn(line: string): string {
    if line != "" && line[|line| - 1] == '\r' then line[..|line| - 1] else line
  }

  /** One carriage return at the end goes, and nothing else. */
  lemma WithoutReturnIs(line: string)
    ensures WithoutReturn(line + "\r") == line
    ensures (forall start :: line != start + "\r") ==> WithoutReturn(line) == line
  {
    assert (line + "\r")[..|line|] == line;
    if line != "" && line[|line| - 1] == '\r' {
      assert line == line[..|line| - 1] + "\r";
    }
  }

  /** Where the first newline is, or the end. */
  function LineEnd(text: string): (i: nat)
    ensures i <= |text| && (i < |text| ==> text[i] == '\n') && forall k :: 0 <= k < i ==> text[k] != '\n'
  {
    if text == "" || text[0] == '\n' then 0 else LineEnd(text[1..]) + 1
  }

  /** The lines that end, and what follows the last of them. */
  function Lines(text: string): (seq<string>, string) {
    var end := LineEnd(text);
    if end == |text| then ([], text)
    else
      var rest := Lines(text[end + 1..]);
      ([WithoutReturn(text[..end])] + rest.0, rest.1)
  }

  /** Splitting the whole text: the last fragment counts when it is not empty. */
  function Split(text: string): seq<string> {
    Lines(text).0 + if Lines(text).1 == "" then [] else [WithoutReturn(Lines(text).1)]
  }

  lemma LinesOfFirst(line: string, rest: string)
    requires forall k :: 0 <= k < |line| ==> line[k] != '\n'
    ensures Lines(line + "\n" + rest) == ([WithoutReturn(line)] + Lines(rest).0, Lines(rest).1)
  {
    var text := line + "\n" + rest;
    var end := LineEnd(text);
    assert text[|line|] == '\n' && forall k :: 0 <= k < |line| ==> text[k] == line[k];
    assert end == |line|;
    assert text[..end] == line && text[end + 1..] == rest;
  }

  /** Lines already found, with those of what was left over and what is added. */
  function Continued(found: seq<string>, pending: string): (seq<string>, string) {
    (found + Lines(pending).0, Lines(pending).1)
  }

  lemma ContinuedBehind(line: string, found: seq<string>, pending: string)
    ensures Continued([line] + found, pending) == ([line] + Continued(found, pending).0, Continued(found, pending).1)
    ensures Continued([], pending) == Lines(pending)
  {
    assert [line] + found + Lines(pending).0 == [line] + (found + Lines(pending).0);
    assert [] + Lines(pending).0 == Lines(pending).0;
  }

  lemma CutAt(text: string, end: nat, more: string)
    requires end < |text| && text[end] == '\n'
    ensures text + more == text[..end] + "\n" + (text[end + 1..] + more)
    ensures text == text[..end] + "\n" + text[end + 1..]
  {
  }

  lemma {:induction false} LinesOfMore(text: string, more: string)
    ensures Lines(text + more) == Continued(Lines(text).0, Lines(text).1 + more)
    decreases |text|
  {
    var end := LineEnd(text);
    if end < |text| {
      var line, rest := text[..end], text[end + 1..];
      LinesOfMore(rest, more);
      LinesOfFirst(line, rest + more);
      CutAt(text, end, more);
      ContinuedBehind(WithoutReturn(line), Lines(rest).0, Lines(rest).1 + more);
    } else {
      ContinuedBehind("", [], text + more);
    }
  }

  lemma FirstLineOut(found: seq<string>, line: string, rest: string)
    requires forall k :: 0 <= k < |line| ==> line[k] != '\n'
    ensures Continued(found, line + "\n" + rest) == Continued(found + [WithoutReturn(line)], rest)
  {
    LinesOfFirst(line, rest);
    Regrouped(found, WithoutReturn(line), Lines(rest).0);
  }

  lemma Regrouped(found: seq<string>, line: string, rest: seq<string>)
    ensures found + ([line] + rest) == found + [line] + rest
  {
  }

  class LineSplitter {
    var pending: string
    var lines: seq<string>                                // handed to onLine so far

    constructor ()
      ensures pending == "" && lines == []
    {
      pending, lines := "", [];
    }

    method Push(chunk: string)
      modifies this
      ensures lines == old(lines) + Lines(old(pending) + chunk).0 && pending == Lines(old(pending) + chunk).1
    {
      pending := pending + chunk;
      ghost var text := pending;
      var end := LineEnd(pending);
      while end < |pending|
        invariant end == LineEnd(pending)
        invariant Continued(lines, pending) == Continued(old(lines), text)
        decreases |pending|
      {
        CutAt(pending, end, chunk);
        FirstLineOut(lines, pending[..end], pending[end + 1..]);
        lines := lines + [WithoutReturn(pending[..end])];
        pending := pending[end + 1..];
        end := LineEnd(pending);
      }
      assert lines + [] == lines;
    }

    method Flush()
      modifies this
      ensures pending == ""
      ensures lines == old(lines) + if old(pending) == "" then [] else [WithoutReturn(old(pending))]
    {
      if pending != "" {
        lines := lines + [WithoutReturn(pending)];
        pending := "";
      }
    }
  }

  function Joined(chunks: seq<string>): string {
    if chunks == [] then "" else Joined(chunks[..|chunks| - 1]) + chunks[|chunks| - 1]
  }

  /** However the text is cut into chunks, the lines are those of the whole text. */
  method SplitChunks(chunks: seq<string>) returns (lines: seq<string>)
    ensures lines == Split(Joined(chunks))
  {
    var splitter := new LineSplitter();
    for i := 0 to |chunks|
      invariant (splitter.lines, splitter.pending) == Lines(Joined(chunks[..i]))
      invariant fresh(splitter)
    {
      LinesOfMore(Joined(chunks[..i]), chunks[i]);
      assert chunks[..i + 1][..i] == chunks[..i];
      splitter.Push(chunks[i]);
    }
    assert chunks[..|chunks|] == chunks;
    splitter.Flush();
    lines := splitter.lines;
  }
}
