/**
 * `gptcli/shell.py`: one-shot prompting. `simple_response` streams the reply
 * to standard output; `execute` asks for a shell command, lets the user edit
 * it in a temporary file under two `#` header lines and runs what is left.
 * Standard output, the editor and the shell are outside the model: the reply
 * is a given sequence of chunks and the editor a given function on the
 * file's text.
 */
module Shell {
  import opened Base
  import opened NamedConfigs
  import opened WrapperInterface
  import Citations

  /** The message list both entry points send: the seed messages, then the prompt as one user message. */
  function UserTurn(seed: seq<Message>, prompt: string): (r: seq<Message>)
    ensures |r| == |seed| + 1 && r[..|seed|] == seed
    ensures r[|r| - 1] == Message("user", prompt)
  {
    seed + [Message("user", prompt)]
  }

  // ---------------------------------------------------------------------------
  // simple_response
  // ---------------------------------------------------------------------------

  /**
   * How many chunks arrive before the loop stops: all of them, or fewer when
   * a keyboard interrupt comes while waiting for chunk number `interruptAt`.
   */
  function Received(chunks: seq<string>, interruptAt: Option<nat>): (n: nat)
    ensures n <= |chunks|
    ensures interruptAt.None? ==> n == |chunks|
  {
    if interruptAt.Some? && interruptAt.value < |chunks| then interruptAt.value else |chunks|
  }

  /** What `simple_response` sent, wrote to standard output and logged as the reply. */
  datatype Streamed = Streamed(sent: seq<Message>, request: Request, written: seq<string>, result: string)

  /**
   * `simple_response`: appends each chunk to `result` and writes it out, in
   * order; an interrupt ends the loop and keeps what was received so far.
   * The wrapper itself is not changed.
   */
  method SimpleResponse(wrapper: Wrapper, prompt: string, chunks: seq<string>, interruptAt: Option<nat>) returns (r: Result<Streamed>)
    ensures wrapper.InitMessages().Err? ==> r == Err(wrapper.InitMessages().error)
    ensures wrapper.InitMessages().Ok? && wrapper.CompleteChat(map[]).Err? ==> r == Err(wrapper.CompleteChat(map[]).error)
    ensures r.Ok? ==> && wrapper.InitMessages().Ok? && wrapper.CompleteChat(map[]).Ok?
                      && r.value.sent == UserTurn(wrapper.InitMessages().value, prompt)
                      && r.value.request == wrapper.CompleteChat(map[]).value
    ensures r.Ok? ==> var n := Received(chunks, interruptAt);
                      r.value.written == chunks[..n] && r.value.result == Concat(chunks[..n])
  {
    var seed := wrapper.InitMessages();
    if seed.Err? {
      return Err(seed.error);
    }
    var messages := UserTurn(seed.value, prompt);
    var request := wrapper.CompleteChat(map[]);
    if request.Err? {
      return Err(request.error);
    }
    var n := Received(chunks, interruptAt);
    var result := "";
    var written: seq<string> := [];
    var i := 0;
    while i < n
      invariant 0 <= i <= n
      invariant written == chunks[..i]
      invariant result == Concat(chunks[..i])
    {
      assert chunks[..i + 1] == chunks[..i] + [chunks[i]];
      ConcatAppend(chunks[..i], [chunks[i]]);
      assert Concat([chunks[i]]) == chunks[i] + Concat([]);
      result := result + chunks[i];
      written := written + [chunks[i]];
      i := i + 1;
    }
    r := Ok(Streamed(messages, request.value, written, result));
  }

  // ---------------------------------------------------------------------------
  // execute: the edited file back to a command
  // ---------------------------------------------------------------------------

  /** The two header lines `execute` writes above the suggested command. */
  // The first line is one string; it is written in three pieces so that proofs about it stay small.
  const HeaderLine1 := "# Edit the command " + "to execute below. " + "Save and exit to execute it.\n"
  const HeaderLine2 := "# Delete the contents to cancel.\n"

  /** One line as `readlines` returns it: ends in its only `\n`, and holds no `\r`. */
  predicate IsLine(line: string)
  {
    line != [] && line[|line| - 1] == '\n' && '\n' !in line[..|line| - 1] && '\r' !in line
  }

  /** A piece of text with neither line break, followed by more text, keeps the break-free part in front. */
  lemma NoBreakPrefix(a: string, b: string)
    requires '\n' !in a && '\r' !in a
    requires b != [] && b[|b| - 1] == '\n' && '\n' !in b[..|b| - 1] && '\r' !in b
    ensures IsLine(a + b)
  {
    assert (a + b)[..|a + b| - 1] == a + b[..|b| - 1];
  }

  /** The first header line is a single comment line. */
  lemma HeaderLine1IsComment()
    ensures IsLine(HeaderLine1) && StartsWith(HeaderLine1, "#")
  {
    var a, b, c := "# Edit the command ", "to execute below. ", "Save and exit to execute it.\n";
    assert '\n' !in c[..|c| - 1] && '\r' !in c;
    NoBreakPrefix(b, c);
    assert '\n' !in a && '\r' !in a;
    NoBreakPrefix(a, b + c);
    assert a + b + c == a + (b + c);
    assert HeaderLine1[0] == '#';
  }

  /** The second header line is a single comment line. */
  lemma HeaderLine2IsComment()
    ensures IsLine(HeaderLine2) && StartsWith(HeaderLine2, "#")
  {
  }

  /** Reading a file in text mode: `\r\n` and a lone `\r` both become `\n`. */
  function UniversalNewlines(s: string): (r: string)
    ensures '\r' !in r
    decreases |s|
  {
    if s == [] then []
    else if s[0] == '\r' then
      "\n" + UniversalNewlines(if |s| > 1 && s[1] == '\n' then s[2..] else s[1..])
    else [s[0]] + UniversalNewlines(s[1..])
  }

  /** A character other than the pattern's first is copied as it is, and the scan goes on after it. */
  lemma ReplaceSkips(c: char, x: string, pat: string, rep: string)
    requires pat != [] && pat[0] != c
    ensures Citations.ReplaceAll([c] + x, pat, rep) == [c] + Citations.ReplaceAll(x, pat, rep)
  {
    assert ([c] + x)[0] == c && ([c] + x)[1..] == x;
  }

  /** The pattern at the front is replaced, and the scan goes on right after it. */
  lemma ReplaceFront(x: string, pat: string, rep: string)
    requires pat != []
    ensures Citations.ReplaceAll(pat + x, pat, rep) == rep + Citations.ReplaceAll(x, pat, rep)
  {
    Citations.ReplaceLeftmost([], pat, x, rep);
    assert [] + pat + x == pat + x;
  }

  /**
   * Universal newlines as two `str.replace` passes: every `\r\n` becomes
   * `\n`, then every remaining `\r` becomes `\n`.
   */
  lemma {:induction false} UniversalNewlinesIsReplace(s: string)
    ensures UniversalNewlines(s) == Citations.ReplaceAll(Citations.ReplaceAll(s, "\r\n", "\n"), "\r", "\n")
    decreases |s|
  {
    if s != [] {
      if s[0] == '\r' && |s| > 1 && s[1] == '\n' {
        assert s == "\r\n" + s[2..];
        ReplaceFront(s[2..], "\r\n", "\n");
        ReplaceSkips('\n', Citations.ReplaceAll(s[2..], "\r\n", "\n"), "\r", "\n");
        UniversalNewlinesIsReplace(s[2..]);
      } else if s[0] == '\r' {
        assert s == "\r" + s[1..];
        assert !StartsWith(s, "\r\n");
        assert Citations.ReplaceAll(s, "\r\n", "\n") == "\r" + Citations.ReplaceAll(s[1..], "\r\n", "\n");
        ReplaceFront(Citations.ReplaceAll(s[1..], "\r\n", "\n"), "\r", "\n");
        UniversalNewlinesIsReplace(s[1..]);
      } else {
        assert s == [s[0]] + s[1..];
        ReplaceSkips(s[0], s[1..], "\r\n", "\n");
        ReplaceSkips(s[0], Citations.ReplaceAll(s[1..], "\r\n", "\n"), "\r", "\n");
        UniversalNewlinesIsReplace(s[1..]);
      }
    }
  }

  /** `\r\n` at the front reads as one `\n`. */
  lemma UniversalNewlinesCRLF(s: string)
    ensures UniversalNewlines("\r\n" + s) == "\n" + UniversalNewlines(s)
  {
    assert ("\r\n" + s)[2..] == s;
  }

  /** A lone `\r` at the front reads as `\n`. */
  lemma UniversalNewlinesCR(s: string)
    requires s == [] || s[0] != '\n'
    ensures UniversalNewlines("\r" + s) == "\n" + UniversalNewlines(s)
  {
    assert ("\r" + s)[1..] == s;
  }

  /** Text without carriage returns reads back as written. */
  lemma {:induction false} UniversalNewlinesNoCR(s: string)
    requires '\r' !in s
    ensures UniversalNewlines(s) == s
  {
    if s != [] {
      assert s[0] in s;
      assert forall c :: c in s[1..] ==> c in s;
      UniversalNewlinesNoCR(s[1..]);
    }
  }

  /** Text that does not end in `\r` reads back independently of what follows it. */
  lemma {:induction false} UniversalNewlinesAppend(a: string, b: string)
    requires a == [] || a[|a| - 1] != '\r'
    ensures UniversalNewlines(a + b) == UniversalNewlines(a) + UniversalNewlines(b)
    decreases |a|
  {
    if a == [] {
      assert a + b == b;
    } else if a[0] == '\r' {
      assert |a| > 1;
      assert (a + b)[1] == a[1];
      var k := if a[1] == '\n' then 2 else 1;
      assert (a + b)[k..] == a[k..] + b;
      UniversalNewlinesAppend(a[k..], b);
    } else {
      assert (a + b)[1..] == a[1..] + b;
      UniversalNewlinesAppend(a[1..], b);
    }
  }

  /** Length of the first line of `s`, its `\n` included. */
  function LineLen(s: string): (n: nat)
    ensures n <= |s|
    ensures s != [] ==> n > 0
    ensures forall i :: 0 <= i < n - 1 ==> s[i] != '\n'
    ensures n < |s| ==> n > 0 && s[n - 1] == '\n'
  {
    if s == [] then 0
    else if s[0] == '\n' then 1
    else 1 + LineLen(s[1..])
  }

  /** `f.readlines()` on text already read in text mode: lines split after each `\n`. */
  function ReadLines(s: string): (lines: seq<string>)
    ensures forall i :: 0 <= i < |lines| ==> lines[i] != [] && '\n' !in lines[i][..|lines[i]| - 1]
    ensures forall i :: 0 <= i < |lines| - 1 ==> lines[i][|lines[i]| - 1] == '\n'
    decreases |s|
  {
    if s == [] then [] else [s[..LineLen(s)]] + ReadLines(s[LineLen(s)..])
  }

  /** Joining the lines gives the text back. */
  lemma {:induction false} ReadLinesConcat(s: string)
    ensures Concat(ReadLines(s)) == s
    decreases |s|
  {
    if s != [] {
      ReadLinesConcat(s[LineLen(s)..]);
      assert s[..LineLen(s)] + s[LineLen(s)..] == s;
    }
  }

  /** A single line in front of a text is read as a line of its own. */
  lemma ReadLinesAfterLine(line: string, s: string)
    requires IsLine(line)
    ensures ReadLines(line + s) == [line] + ReadLines(s)
  {
    forall i | 0 <= i < |line| - 1
      ensures line[i] != '\n'
    {
      assert line[i] == line[..|line| - 1][i];
    }
    LineLenOfLine(line, s);
    assert (line + s)[..|line|] == line;
    assert (line + s)[|line|..] == s;
  }

  lemma {:induction false} LineLenOfLine(line: string, s: string)
    requires line != [] && line[|line| - 1] == '\n'
    requires forall i :: 0 <= i < |line| - 1 ==> line[i] != '\n'
    ensures LineLen(line + s) == |line|
  {
    if |line| > 1 {
      assert (line + s)[1..] == line[1..] + s;
      LineLenOfLine(line[1..], s);
    }
  }

  /** `[line for line in lines if not line.startswith("#")]` */
  function KeptLines(lines: seq<string>): (kept: seq<string>)
    ensures |kept| <= |lines|
    ensures forall i :: 0 <= i < |kept| ==> !StartsWith(kept[i], "#")
    ensures forall i :: 0 <= i < |kept| ==> kept[i] in lines
    ensures forall i :: 0 <= i < |lines| && !StartsWith(lines[i], "#") ==> lines[i] in kept
  {
    if lines == [] then []
    else if StartsWith(lines[0], "#") then KeptLines(lines[1..])
    else [lines[0]] + KeptLines(lines[1..])
  }

  /** One line is kept exactly when it is not a comment. */
  lemma KeptLine(line: string)
    ensures StartsWith(line, "#") ==> KeptLines([line]) == []
    ensures !StartsWith(line, "#") ==> KeptLines([line]) == [line]
  {
    assert [line][1..] == [];
  }

  /** The filter works line by line: the kept lines of a text are those of its parts, in order. */
  lemma {:induction false} KeptLinesAppend(a: seq<string>, b: seq<string>)
    ensures KeptLines(a + b) == KeptLines(a) + KeptLines(b)
  {
    if a == [] {
      assert a + b == b;
    } else {
      assert (a + b)[0] == a[0];
      assert (a + b)[1..] == a[1..] + b;
      KeptLinesAppend(a[1..], b);
    }
  }

  /** No line of the text starts with `#`. */
  predicate NoCommentLine(s: string)
  {
    forall i :: 0 <= i < |ReadLines(s)| ==> !StartsWith(ReadLines(s)[i], "#")
  }

  lemma {:induction false} KeptLinesAll(lines: seq<string>)
    requires forall i :: 0 <= i < |lines| ==> !StartsWith(lines[i], "#")
    ensures KeptLines(lines) == lines
  {
    if lines != [] {
      KeptLinesAll(lines[1..]);
    }
  }

  /**
   * The edited file read in text mode, its comment lines dropped and the
   * rest joined. A file with no comment line and no carriage return is kept
   * as it is.
   */
  function Uncommented(fileText: string): (r: string)
    ensures '\r' !in fileText && NoCommentLine(fileText) ==> r == fileText
  {
    if '\r' !in fileText && NoCommentLine(fileText) then
      UniversalNewlinesNoCR(fileText);
      KeptLinesAll(ReadLines(fileText));
      ReadLinesConcat(fileText);
      Concat(KeptLines(ReadLines(UniversalNewlines(fileText))))
    else Concat(KeptLines(ReadLines(UniversalNewlines(fileText))))
  }

  /**
   * The command `execute` reads back from the edited file: comment lines
   * dropped, the rest joined and stripped. It is empty exactly when what is
   * left is all whitespace.
   */
  function ExtractCommand(fileText: string): (r: string)
    ensures r == [] <==> forall i :: 0 <= i < |Uncommented(fileText)| ==> IsSpace(Uncommented(fileText)[i])
    ensures '\r' !in fileText && NoCommentLine(fileText) ==> r == Strip(fileText)
  {
    Strip(Uncommented(fileText))
  }

  /** The file `execute` hands to the editor. */
  function Draft(result: string): string
  {
    HeaderLine1 + HeaderLine2 + result
  }

  /**
   * Both header lines are comment lines, so an unedited file gives back the
   * suggested command minus its own comment lines, read in text mode and stripped.
   */
  lemma ExtractFromDraft(result: string)
    ensures Uncommented(Draft(result)) == Uncommented(result)
  {
    HeaderLine1IsComment();
    HeaderLine2IsComment();
    CommentLinesDropped(HeaderLine1, HeaderLine2, result);
  }

  /** Two comment lines in front of a text leave nothing of themselves in the command. */
  lemma CommentLinesDropped(l1: string, l2: string, s: string)
    requires IsLine(l1) && StartsWith(l1, "#")
    requires IsLine(l2) && StartsWith(l2, "#")
    ensures Uncommented(l1 + l2 + s) == Uncommented(s)
  {
    CommentLineDropped(l2, s);
    CommentLineDropped(l1, l2 + s);
    assert l1 + l2 + s == l1 + (l2 + s);
  }

  /** A comment line in front of a text leaves nothing of itself in the command. */
  lemma CommentLineDropped(line: string, s: string)
    requires IsLine(line) && StartsWith(line, "#")
    ensures Uncommented(line + s) == Uncommented(s)
  {
    UniversalNewlinesNoCR(line);
    UniversalNewlinesAppend(line, s);
    ReadLinesAfterLine(line, UniversalNewlines(s));
    var lines := [line] + ReadLines(UniversalNewlines(s));
    assert lines[1..] == ReadLines(UniversalNewlines(s));
  }

  /**
   * The round trip: a suggested command without carriage returns and without
   * `#` lines comes back from the unedited file exactly, up to surrounding
   * whitespace.
   */
  lemma ExtractRoundTrip(result: string)
    requires '\r' !in result
    requires NoCommentLine(result)
    ensures ExtractCommand(Draft(result)) == Strip(result)
  {
    ExtractFromDraft(result);
  }

  /** What `execute` ran: the shell (from `$SHELL`, `/bin/bash` by default) on the edited file. */
  datatype ShellRun = ShellRun(shell: string, script: string)

  /** What `execute` sent, offered for editing, read back, and ran. */
  datatype Execution = Execution(sent: seq<Message>, request: Request, draft: string, command: string, run: Option<ShellRun>)

  /**
   * `execute`: only the first chunk of the non-streamed reply is used; an
   * empty command prints "No command to execute." and runs nothing;
   * otherwise the shell runs the whole edited file.
   */
  method Execute(wrapper: Wrapper, prompt: string, chunks: seq<string>, edit: string -> string, shellVar: Option<string>)
    returns (r: Result<Execution>)
    ensures wrapper.InitMessages().Err? ==> r == Err(wrapper.InitMessages().error)
    ensures wrapper.InitMessages().Ok? && wrapper.CompleteChat(map[]).Err? ==> r == Err(wrapper.CompleteChat(map[]).error)
    ensures wrapper.InitMessages().Ok? && wrapper.CompleteChat(map[]).Ok? && chunks == [] ==> r == Err(StopIteration)
    ensures r.Ok? ==> && wrapper.InitMessages().Ok? && wrapper.CompleteChat(map[]).Ok? && chunks != []
                      && r.value.sent == UserTurn(wrapper.InitMessages().value, prompt)
                      && r.value.draft == Draft(chunks[0])
                      && r.value.command == ExtractCommand(edit(Draft(chunks[0])))
    ensures r.Ok? ==> (r.value.run.None? <==> r.value.command == "")
    ensures r.Ok? && r.value.run.Some? ==>
              r.value.run.value == ShellRun(if shellVar.Some? then shellVar.value else "/bin/bash", edit(Draft(chunks[0])))
  {
    var seed := wrapper.InitMessages();
    if seed.Err? {
      return Err(seed.error);
    }
    var messages := UserTurn(seed.value, prompt);
    var request := wrapper.CompleteChat(map[]);
    if request.Err? {
      return Err(request.error);
    }
    if chunks == [] {
      return Err(StopIteration);
    }
    var result := chunks[0];
    var draft := HeaderLine1 + HeaderLine2 + result;
    var edited := edit(draft);
    var command := ExtractCommand(edited);
    if command == "" {
      return Ok(Execution(messages, request.value, draft, command, None));
    }
    var shell := if shellVar.Some? then shellVar.value else "/bin/bash";
    r := Ok(Execution(messages, request.value, draft, command, Some(ShellRun(shell, edited))));
  }
}
