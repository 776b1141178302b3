/** Splitting a SQL script into statements, one line at a time: comment
    lines are skipped, other lines are joined with no separator, and a line
    ending in ';' closes a statement. The script is given as its sequence of
    lines. */
module SqlStreamReader {
  import opened JavaText

  /** A line starting with "--" is a comment. */
  predicate IsComment(line: string) {
    |line| >= 2 && line[0] == '-' && line[1] == '-'
  }

  /** A line ending in ';' closes the statement. */
  predicate IsTerminator(line: string) {
    |line| >= 1 && line[|line| - 1] == ';'
  }

  /** The two tests are `String.startsWith("--")` and `String.endsWith(";")`. */
  lemma LineTests(line: string)
    ensures IsComment(line) <==> StartsWith(line, "--")
    ensures IsTerminator(line) <==> EndsWith(line, ";")
  {
    if StartsWith(line, "--") {
      assert line[..2][0] == line[0] && line[..2][1] == line[1];
    }
    if EndsWith(line, ";") {
      assert line[|line| - 1..][0] == line[|line| - 1];
    }
  }

  /** The number of non-comment lines that close a statement. */
  function TerminatorCount(lines: seq<string>): nat {
    if lines == [] then 0
    else (if !IsComment(lines[0]) && IsTerminator(lines[0]) then 1 else 0) + TerminatorCount(lines[1..])
  }

  /** What a closed statement yields: its text without the final char (the
      ';'), trimmed, and nothing at all if that is empty. */
  function Emit(text: string): (r: seq<string>)
    requires text != []
    ensures |r| <= 1
  {
    var q := Trim(text[..|text| - 1]);
    if q == "" then [] else [q]
  }

  /** A query the parser may return: non-empty and trimmed. */
  predicate IsQuery(q: string) {
    q != "" && IsTrimmed(q)
  }

  /** The text gathered after reading `line` with `pending` gathered
      before: unchanged by a comment, emptied by a closing line, otherwise
      extended by the line with no separator. */
  function NextPending(line: string, pending: string): (r: string)
    ensures r == pending || r == pending + line || r == ""
    ensures !IsTerminator(pending) ==> !IsTerminator(r)
  {
    if IsComment(line) then pending
    else if IsTerminator(line) then ""
    else pending + line
  }

  /** The queries emitted while reading `line`: at most one, and only for
      a closing line that is not a comment. */
  function StepQueries(line: string, pending: string): (r: seq<string>)
    ensures |r| <= (if !IsComment(line) && IsTerminator(line) then 1 else 0)
  {
    if !IsComment(line) && IsTerminator(line) then Emit(pending + line) else []
  }

  /** The queries read from `lines` when `pending` holds the text gathered
      since the last closed statement. */
  function ParseFrom(lines: seq<string>, pending: string): (r: seq<string>)
    ensures |r| <= TerminatorCount(lines)
  {
    if lines == [] then []
    else StepQueries(lines[0], pending) + ParseFrom(lines[1..], NextPending(lines[0], pending))
  }

  /** Whatever is pending, every query read is non-empty and trimmed, and
      each closing line yields at most one. */
  lemma {:induction false} ParseFromWellFormed(lines: seq<string>, pending: string)
    ensures forall i :: 0 <= i < |ParseFrom(lines, pending)| ==> IsQuery(ParseFrom(lines, pending)[i])
    ensures |ParseFrom(lines, pending)| <= TerminatorCount(lines)
  {
    if lines != [] {
      var step := StepQueries(lines[0], pending);
      var rest := ParseFrom(lines[1..], NextPending(lines[0], pending));
      StepQueriesAreQueries(lines[0], pending);
      ParseFromWellFormed(lines[1..], NextPending(lines[0], pending));
      QueriesAppend(step, rest);
    }
  }

  /** Joining two lists of queries gives a list of queries. */
  lemma QueriesAppend(a: seq<string>, b: seq<string>)
    requires forall i :: 0 <= i < |a| ==> IsQuery(a[i])
    requires forall i :: 0 <= i < |b| ==> IsQuery(b[i])
    ensures forall i :: 0 <= i < |a + b| ==> IsQuery((a + b)[i])
  {
    forall i | 0 <= i < |a + b|
      ensures IsQuery((a + b)[i])
    {
      if i >= |a| {
        assert (a + b)[i] == b[i - |a|];
      }
    }
  }

  /** A query emitted while reading one line is non-empty and trimmed. */
  lemma StepQueriesAreQueries(line: string, pending: string)
    ensures forall i :: 0 <= i < |StepQueries(line, pending)| ==> IsQuery(StepQueries(line, pending)[i])
  {
  }

  /** `parseQueries`: every returned query is non-empty and trimmed, and
      there are at most as many as there are closing lines. */
  function ParseQueries(lines: seq<string>): (r: seq<string>)
    ensures forall i :: 0 <= i < |r| ==> IsQuery(r[i])
    ensures |r| <= TerminatorCount(lines)
  {
    ParseFromWellFormed(lines, "");
    ParseFrom(lines, "")
  }

  /** The text gathered but not yet closed after reading `lines`. */
  function Pending(lines: seq<string>, pending: string): string {
    if lines == [] then pending else Pending(lines[1..], NextPending(lines[0], pending))
  }

  /** Reading from line `n` on is one step followed by the rest. */
  lemma ParseFromAt(lines: seq<string>, n: nat, pending: string)
    requires n < |lines|
    ensures ParseFrom(lines[n..], pending)
            == StepQueries(lines[n], pending) + ParseFrom(lines[n + 1..], NextPending(lines[n], pending))
  {
    assert lines[n..][1..] == lines[n + 1..];
  }

  /** One pass of the reading loop: a comment line is skipped; any other
      line is appended to the buffer, and a closing line then emits the
      buffer's statement and clears the buffer. */
  method ReadLine(line: string, buffer: string, queries: seq<string>) returns (buffer': string, queries': seq<string>)
    ensures buffer' == NextPending(line, buffer)
    ensures queries' == queries + StepQueries(line, buffer)
  {
    buffer', queries' := buffer, queries;
    if !IsComment(line) {
      buffer' := buffer' + line;
      if IsTerminator(line) {
        queries' := queries' + Emit(buffer');
        buffer' := "";
      }
    }
  }

  /** The reading loop of `parseQueries`, line by line with a growing
      buffer, computes `ParseQueries`. */
  method ParseQueriesLoop(lines: seq<string>) returns (queries: seq<string>)
    ensures queries == ParseQueries(lines)
    ensures forall i :: 0 <= i < |queries| ==> IsQuery(queries[i])
  {
    queries := [];
    var buffer := "";
    var n := 0;
    assert lines[0..] == lines;
    while n < |lines|
      invariant 0 <= n <= |lines|
      invariant queries + ParseFrom(lines[n..], buffer) == ParseFrom(lines, "")
    {
      ParseFromAt(lines, n, buffer);
      ghost var before := queries;
      ghost var emitted := StepQueries(lines[n], buffer);
      buffer, queries := ReadLine(lines[n], buffer, queries);
      AppendAssociative(before, emitted, ParseFrom(lines[n + 1..], buffer));
      n := n + 1;
    }
    assert lines[n..] == [];
  }

  /** Sequence concatenation regroups; stated once so that the extensional
      proof runs in a small context of its own. */
  lemma AppendAssociative<T>(a: seq<T>, b: seq<T>, c: seq<T>)
    ensures (a + b) + c == a + (b + c)
  {
  }

  // ---------------------------------------------------------------------
  // A reference definition: statements cut at closing lines
  // ---------------------------------------------------------------------

  /** The lines that are not comments, in order. */
  function Code(lines: seq<string>): (r: seq<string>)
    ensures CommentFree(r)
  {
    if lines == [] then []
    else if IsComment(lines[0]) then Code(lines[1..])
    else [lines[0]] + Code(lines[1..])
  }

  /** No line is a comment. */
  predicate CommentFree(code: seq<string>) {
    code == [] || (!IsComment(code[0]) && CommentFree(code[1..]))
  }

  /** Every suffix of comment-free code is comment-free. */
  lemma {:induction false} CommentFreeSuffix(code: seq<string>, k: nat)
    requires CommentFree(code) && k <= |code|
    ensures CommentFree(code[k..])
  {
    if k > 0 {
      CommentFreeSuffix(code[1..], k - 1);
      assert code[1..][k - 1..] == code[k..];
    }
  }

  /** The lines joined with no separator. */
  function Concat(lines: seq<string>): string {
    if lines == [] then "" else lines[0] + Concat(lines[1..])
  }

  /** The index of the first closing line, or `|code|` if there is none. */
  function FirstTerminator(code: seq<string>): (i: nat)
    ensures i <= |code|
    ensures i < |code| ==> IsTerminator(code[i])
  {
    if code == [] || IsTerminator(code[0]) then 0 else 1 + FirstTerminator(code[1..])
  }

  /** The text of each closed statement of comment-free `code`: the lines
      up to and including its closing line, joined, without the final ';'. */
  function Statements(code: seq<string>): seq<string>
    decreases |code|
  {
    var i := FirstTerminator(code);
    if i == |code| then []
    else
      var text := ClosedText(code, "");
      [text[..|text| - 1]] + Statements(code[i + 1..])
  }

  /** Joined lines end with the last line. */
  lemma {:induction false} ConcatEndsWithLast(lines: seq<string>)
    requires lines != []
    ensures |Concat(lines)| >= |lines[|lines| - 1]|
    ensures Concat(lines)[|Concat(lines)| - |lines[|lines| - 1]|..] == lines[|lines| - 1]
  {
    if |lines| > 1 {
      ConcatEndsWithLast(lines[1..]);
    }
  }

  /** Each text trimmed, the empty results dropped. */
  function TrimAll(texts: seq<string>): seq<string> {
    if texts == [] then []
    else (if Trim(texts[0]) == "" then [] else [Trim(texts[0])]) + TrimAll(texts[1..])
  }

  // ---------------------------------------------------------------------
  // Properties
  // ---------------------------------------------------------------------

  /** Comment lines contribute nothing: dropping them changes neither the
      queries nor the pending text. */
  lemma {:induction false} CommentsIgnored(lines: seq<string>, pending: string)
    ensures ParseFrom(lines, pending) == ParseFrom(Code(lines), pending)
    ensures Pending(lines, pending) == Pending(Code(lines), pending)
  {
    if lines != [] {
      CommentsIgnored(lines[1..], NextPending(lines[0], pending));
      if !IsComment(lines[0]) {
        assert ([lines[0]] + Code(lines[1..]))[1..] == Code(lines[1..]);
      }
    }
  }

  /** The untrimmed statement text a line closes, if it closes one. */
  function StepStatements(line: string, pending: string): seq<string> {
    if !IsComment(line) && IsTerminator(line) then
      var text := pending + line;
      [text[..|text| - 1]]
    else []
  }

  /** The untrimmed statement texts closed while reading `lines`: the same
      fold as `ParseFrom`, before trimming. */
  function StatementsFrom(lines: seq<string>, pending: string): seq<string> {
    if lines == [] then []
    else StepStatements(lines[0], pending) + StatementsFrom(lines[1..], NextPending(lines[0], pending))
  }

  /** Trimming distributes over joined runs of texts. */
  lemma {:induction false} TrimAllAppend(a: seq<string>, b: seq<string>)
    ensures TrimAll(a + b) == TrimAll(a) + TrimAll(b)
  {
    if a == [] {
      assert a + b == b;
    } else {
      assert (a + b)[0] == a[0];
      assert (a + b)[1..] == a[1..] + b;
      TrimAllAppend(a[1..], b);
      var first := if Trim(a[0]) == "" then [] else [Trim(a[0])];
      AppendAssociative(first, TrimAll(a[1..]), TrimAll(b));
    }
  }

  /** Reading trims each closed statement as it goes. */
  lemma {:induction false} ParseFromTrimsStatements(lines: seq<string>, pending: string)
    ensures ParseFrom(lines, pending) == TrimAll(StatementsFrom(lines, pending))
  {
    if lines != [] {
      var next := NextPending(lines[0], pending);
      var step := StepStatements(lines[0], pending);
      ParseFromTrimsStatements(lines[1..], next);
      TrimAllAppend(step, StatementsFrom(lines[1..], next));
      assert StepQueries(lines[0], pending) == TrimAll(step) by {
        if step != [] {
          assert step[1..] == [];
        }
      }
    }
  }

  /** The lines up to index `i` joined are the first line followed by the
      rest of them joined. */
  lemma ConcatHead(code: seq<string>, i: nat)
    requires i < |code|
    ensures Concat(code[..i + 1]) == code[0] + Concat(code[1..][..i])
  {
    assert Concat(code[..i + 1]) == code[..i + 1][0] + Concat(code[..i + 1][1..]);
    assert code[..i + 1][1..] == code[1..][..i];
  }

  /** A code line that closes nothing is appended to the pending text. */
  lemma StatementsSkipLine(code: seq<string>, pending: string)
    requires code != [] && !IsComment(code[0]) && !IsTerminator(code[0])
    ensures StatementsFrom(code, pending) == StatementsFrom(code[1..], pending + code[0])
  {
    assert StepStatements(code[0], pending) == [];
  }

  /** A closing code line closes the pending text and itself, without the
      final ';', and starts afresh. */
  lemma StatementsAtTerminator(code: seq<string>, pending: string)
    requires code != [] && !IsComment(code[0]) && IsTerminator(code[0])
    ensures var text := pending + code[0];
            StatementsFrom(code, pending) == [text[..|text| - 1]] + StatementsFrom(code[1..], "")
  {
  }

  /** The pending text and the lines up to the first closing line, joined. */
  function ClosedText(code: seq<string>, pending: string): (r: string)
    requires FirstTerminator(code) < |code|
    ensures r != []
  {
    var i := FirstTerminator(code);
    ConcatEndsWithLast(code[..i + 1]);
    pending + Concat(code[..i + 1])
  }

  /** When the first line closes, the closed text is the pending text and
      that line. */
  lemma ClosedTextAtTerminator(code: seq<string>, pending: string)
    requires code != [] && FirstTerminator(code) == 0
    ensures ClosedText(code, pending) == pending + code[0]
  {
    ConcatHead(code, 0);
    assert code[1..][..0] == [];
  }

  /** Skipping a line that closes nothing moves it into the pending text
      and leaves the closed text the same. */
  lemma ClosedTextSkipLine(code: seq<string>, pending: string)
    requires FirstTerminator(code) < |code| && FirstTerminator(code) > 0
    ensures FirstTerminator(code[1..]) == FirstTerminator(code) - 1
    ensures ClosedText(code[1..], pending + code[0]) == ClosedText(code, pending)
    ensures code[1..][FirstTerminator(code[1..]) + 1..] == code[FirstTerminator(code) + 1..]
  {
    var i := FirstTerminator(code);
    ConcatHead(code, i);
    assert code[1..][..i - 1 + 1] == code[1..][..i];
    assert code[1..][i - 1 + 1..] == code[i + 1..];
    AppendAssociative(pending, code[0], Concat(code[1..][..i]));
  }

  /** Reading `code` from `pending` closes, at the first closing line, the
      closed text without its final ';' and then starts afresh. */
  predicate ClosesFirstStatement(code: seq<string>, pending: string)
    requires FirstTerminator(code) < |code|
  {
    var text := ClosedText(code, pending);
    StatementsFrom(code, pending) == [text[..|text| - 1]] + StatementsFrom(code[FirstTerminator(code) + 1..], "")
  }

  /** The base case: the first line closes. */
  lemma ClosesAtFirstLine(code: seq<string>, pending: string)
    requires CommentFree(code) && code != [] && FirstTerminator(code) == 0
    ensures ClosesFirstStatement(code, pending)
  {
    StatementsAtTerminator(code, pending);
    ClosedTextAtTerminator(code, pending);
  }

  /** The step: a first line that does not close moves into the pending
      text, and the rest closes the same statement. */
  lemma ClosesAfterSkippedLine(code: seq<string>, pending: string)
    requires CommentFree(code) && 0 < FirstTerminator(code) < |code|
    requires FirstTerminator(code[1..]) < |code[1..]| && ClosesFirstStatement(code[1..], pending + code[0])
    ensures ClosesFirstStatement(code, pending)
  {
    StatementsSkipLine(code, pending);
    ClosedTextSkipLine(code, pending);
  }

  /** Reading comment-free code up to its first closing line closes exactly
      one statement: the pending text and those lines joined, without the
      final ';'. */
  lemma {:induction false} StatementsUpToTerminator(code: seq<string>, pending: string)
    requires CommentFree(code)
    requires FirstTerminator(code) < |code|
    ensures ClosesFirstStatement(code, pending)
  {
    if FirstTerminator(code) == 0 {
      ClosesAtFirstLine(code, pending);
    } else {
      CommentFreeSuffix(code, 1);
      StatementsUpToTerminator(code[1..], pending + code[0]);
      ClosesAfterSkippedLine(code, pending);
    }
  }

  /** Comment-free code with no closing line closes no statement. */
  lemma {:induction false} NoTerminatorNoStatements(code: seq<string>, pending: string)
    requires CommentFree(code)
    requires FirstTerminator(code) == |code|
    ensures StatementsFrom(code, pending) == []
  {
    if code != [] {
      NoTerminatorNoStatements(code[1..], pending + code[0]);
    }
  }

  /** On comment-free code the fold closes the statements cut at the
      closing lines, in order. */
  lemma {:induction false} StatementsFromCode(code: seq<string>)
    requires CommentFree(code)
    ensures StatementsFrom(code, "") == Statements(code)
    decreases |code|
  {
    var i := FirstTerminator(code);
    if i == |code| {
      NoTerminatorNoStatements(code, "");
    } else {
      CommentFreeSuffix(code, i + 1);
      StatementsFromCode(code[i + 1..]);
      StatementsFromCodeStep(code);
    }
  }

  /** The step of `StatementsFromCode`: once the code after the first
      closing line agrees with the reference, so does the whole code. */
  lemma StatementsFromCodeStep(code: seq<string>)
    requires CommentFree(code)
    requires FirstTerminator(code) < |code|
    requires StatementsFrom(code[FirstTerminator(code) + 1..], "") == Statements(code[FirstTerminator(code) + 1..])
    ensures StatementsFrom(code, "") == Statements(code)
  {
    StatementsUpToTerminator(code, "");
  }

  /** The queries of a script are its statements, trimmed, the empty ones
      dropped, where a statement is the non-comment lines up to a closing
      line joined with no separator and with that line's ';' removed. */
  lemma QueriesAreStatements(lines: seq<string>)
    ensures ParseQueries(lines) == TrimAll(Statements(Code(lines)))
  {
    CommentsIgnored(lines, "");
    ParseFromTrimsStatements(Code(lines), "");
    StatementsFromCode(Code(lines));
  }

  /** Reading is a left-to-right fold: the queries of `a + b` are those of
      `a` followed by those of `b` read with `a`'s leftover text. */
  lemma {:induction false} ParseAppend(a: seq<string>, b: seq<string>, pending: string)
    ensures ParseFrom(a + b, pending) == ParseFrom(a, pending) + ParseFrom(b, Pending(a, pending))
  {
    if a == [] {
      assert a + b == b;
    } else {
      var next := NextPending(a[0], pending);
      assert (a + b)[0] == a[0];
      assert (a + b)[1..] == a[1..] + b;
      ParseAppend(a[1..], b, next);
      AppendAssociative(StepQueries(a[0], pending), ParseFrom(a[1..], next), ParseFrom(b, Pending(a[1..], next)));
    }
  }

  /** Lines that close no statement emit nothing, whatever is pending. */
  lemma {:induction false} UnterminatedEmitsNothing(lines: seq<string>, pending: string)
    requires TerminatorCount(lines) == 0
    ensures ParseFrom(lines, pending) == []
  {
    if lines != [] {
      UnterminatedEmitsNothing(lines[1..], NextPending(lines[0], pending));
    }
  }

  /** An unterminated tail is dropped: appending lines that close no
      statement leaves the queries unchanged. */
  lemma TailDropped(lines: seq<string>, tail: seq<string>)
    requires TerminatorCount(tail) == 0
    ensures ParseQueries(lines + tail) == ParseQueries(lines)
  {
    ParseAppend(lines, tail, "");
    UnterminatedEmitsNothing(tail, Pending(lines, ""));
  }

  /** Queries keep the input order: when `a` ends on a statement boundary,
      the queries of `a + b` are those of `a` followed by those of `b`. */
  lemma QueriesInOrder(a: seq<string>, b: seq<string>)
    requires Pending(a, "") == ""
    ensures ParseQueries(a + b) == ParseQueries(a) + ParseQueries(b)
  {
    ParseAppend(a, b, "");
  }

  /** A blank statement and an unterminated line yield nothing. */
  lemma BlankAndUnterminatedYieldNothing()
    ensures ParseFrom([" ;", "DROP"], "") == []
  {
    var lines := [" ;", "DROP"];
    assert ParseFrom(lines[1..], "") == [] by {
      assert lines[1..][1..] == [];
    }
    assert " ;"[..1] == " ";
    TrimEmptyIffBlank(" ");
  }

  /** A worked script: a comment, a statement over two lines, a blank
      statement and an unterminated tail. */
  lemma Example()
    ensures ParseQueries(["-- a", "SELECT", " 1;", " ;", "DROP"]) == ["SELECT 1"]
  {
    var lines := ["-- a", "SELECT", " 1;", " ;", "DROP"];
    var tail := [" 1;", " ;", "DROP"];
    ExampleClosesSelect();
    assert ParseFrom(lines[1..], "") == ["SELECT 1"] by {
      assert lines[1..][1..] == tail;
      assert StepQueries("SELECT", "") == [];
      assert NextPending("SELECT", "") == "SELECT";
    }
    assert StepQueries(lines[0], "") == [] && NextPending(lines[0], "") == "";
  }

  /** The worked script's closing line " 1;" closes "SELECT 1". */
  lemma ExampleClosesSelect()
    ensures ParseFrom([" 1;", " ;", "DROP"], "SELECT") == ["SELECT 1"]
  {
    var lines := [" 1;", " ;", "DROP"];
    var query := "SELECT 1";
    var text := "SELECT" + " 1;";
    assert text[..|text| - 1] == query;
    TrimTrimmed(query);
    assert StepQueries(lines[0], "SELECT") == [query];
    assert NextPending(lines[0], "SELECT") == "";
    assert lines[1..] == [" ;", "DROP"];
    BlankAndUnterminatedYieldNothing();
    assert ParseFrom(lines, "SELECT") == [query] + ParseFrom(lines[1..], "");
  }
}
