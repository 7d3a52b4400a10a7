/**
 * The text side of `AssistantThread.add_citations_to_messages`: Python's
 * `str.replace` and `str.split`, the six-word search excerpt, the numbered
 * footnote markers and the reference list appended to each message.
 */
module Citations {
  import opened Base

  // ---------------------------------------------------------------------------
  // str.replace(old, new): every non-overlapping occurrence, left to right
  // ---------------------------------------------------------------------------

  /** `pat` occurs in `s` starting at position `i`. */
  predicate OccursAt(s: string, pat: string, i: nat)
  {
    i + |pat| <= |s| && s[i..i + |pat|] == pat
  }

  /**
   * `s.replace(pat, rep)`. An empty `pat` matches before every character and
   * at the end, as in Python (`"ab".replace("", "-") == "-a-b-"`).
   */
  function ReplaceAll(s: string, pat: string, rep: string): string
    decreases |s|
  {
    if pat == [] then
      (if s == [] then rep else rep + [s[0]] + ReplaceAll(s[1..], pat, rep))
    else if StartsWith(s, pat) then rep + ReplaceAll(s[|pat|..], pat, rep)
    else if s == [] then []
    else [s[0]] + ReplaceAll(s[1..], pat, rep)
  }

  /** Text without an occurrence of the pattern is left as it is. */
  lemma {:induction false} ReplaceAbsent(s: string, pat: string, rep: string)
    requires pat != []
    requires forall i: nat :: !OccursAt(s, pat, i)
    ensures ReplaceAll(s, pat, rep) == s
  {
    if s != [] {
      assert !OccursAt(s, pat, 0);
      assert !StartsWith(s, pat);
      forall i: nat ensures !OccursAt(s[1..], pat, i) {
        OccursAtTail(s, pat, i);
      }
      ReplaceAbsent(s[1..], pat, rep);
    }
  }

  /** An occurrence in the tail of `s` is an occurrence in `s`, one position further on. */
  lemma OccursAtTail(s: string, pat: string, i: nat)
    requires s != []
    ensures OccursAt(s[1..], pat, i) <==> OccursAt(s, pat, i + 1)
  {
    if i + 1 + |pat| <= |s| {
      assert s[1..][i..i + |pat|] == s[i + 1..i + 1 + |pat|];
    }
  }

  lemma Assoc(a: string, b: string, c: string)
    ensures a + b + c == a + (b + c)
  {
  }

  /** No occurrence at the front: the first character is copied and the scan moves on by one. */
  lemma ReplaceCopiesHead(s: string, pat: string, rep: string)
    requires pat != [] && s != [] && !OccursAt(s, pat, 0)
    ensures ReplaceAll(s, pat, rep) == [s[0]] + ReplaceAll(s[1..], pat, rep)
  {
    assert !StartsWith(s, pat);
  }

  /** Dropping the first character moves every occurrence one position to the left. */
  lemma FirstOccurrenceInTail(s: string, pat: string, k: nat)
    requires k > 0 && OccursAt(s, pat, k)
    requires forall i: nat :: i < k ==> !OccursAt(s, pat, i)
    ensures OccursAt(s[1..], pat, k - 1)
    ensures forall i: nat :: i < k - 1 ==> !OccursAt(s[1..], pat, i)
  {
    OccursAtTail(s, pat, k - 1);
    forall i: nat | i < k - 1
      ensures !OccursAt(s[1..], pat, i)
    {
      OccursAtTail(s, pat, i);
    }
  }

  /** One step of the scan, put back together: the copied head, then the tail's result. */
  lemma ReplaceStep(s: string, pat: string, rep: string, k: nat, t: string, j: nat)
    requires pat != [] && 0 < k && k + |pat| <= |s| && !OccursAt(s, pat, 0)
    requires t == s[1..] && j == k - 1
    requires ReplaceAll(t, pat, rep) == t[..j] + (rep + ReplaceAll(t[j + |pat|..], pat, rep))
    ensures ReplaceAll(s, pat, rep) == s[..k] + (rep + ReplaceAll(s[k + |pat|..], pat, rep))
  {
    ReplaceCopiesHead(s, pat, rep);
    var y := rep + ReplaceAll(s[k + |pat|..], pat, rep);
    assert t[j + |pat|..] == s[k + |pat|..];
    Assoc([s[0]], t[..j], y);
    assert t[..j] == s[1..k];
    assert [s[0]] + s[1..k] == s[..k];
  }

  /** An occurrence at the front is replaced and the scan resumes right after it. */
  lemma ReplaceAtFront(s: string, pat: string, rep: string)
    requires pat != [] && OccursAt(s, pat, 0)
    ensures ReplaceAll(s, pat, rep) == rep + ReplaceAll(s[|pat|..], pat, rep)
  {
    assert StartsWith(s, pat);
  }

  /** `pat` occurs first at `k`: everything before it is copied and the scan resumes right after it. */
  lemma {:induction false} ReplaceAtFirst(s: string, pat: string, rep: string, k: nat)
    requires pat != [] && OccursAt(s, pat, k)
    requires forall i: nat :: i < k ==> !OccursAt(s, pat, i)
    ensures ReplaceAll(s, pat, rep) == s[..k] + (rep + ReplaceAll(s[k + |pat|..], pat, rep))
    decreases k
  {
    if k == 0 {
      ReplaceAtFront(s, pat, rep);
      assert s[..k] + (rep + ReplaceAll(s[k + |pat|..], pat, rep)) == rep + ReplaceAll(s[|pat|..], pat, rep);
    } else {
      FirstOccurrenceInTail(s, pat, k);
      var t, j := s[1..], k - 1;
      ReplaceAtFirst(t, pat, rep, j);
      ReplaceStep(s, pat, rep, k, t, j);
    }
  }

  /**
   * The leftmost occurrence is replaced and the scan resumes right after it:
   * with `ReplaceAbsent`, this says that every occurrence is replaced, not only
   * the first one.
   */
  lemma ReplaceLeftmost(a: string, pat: string, b: string, rep: string)
    requires pat != []
    requires forall i: nat :: i < |a| ==> !OccursAt(a + pat + b, pat, i)
    ensures ReplaceAll(a + pat + b, pat, rep) == a + rep + ReplaceAll(b, pat, rep)
  {
    var s := a + pat + b;
    assert s[|a|..|a| + |pat|] == pat;
    ReplaceAtFirst(s, pat, rep, |a|);
    assert s[..|a|] == a;
    assert s[|a| + |pat|..] == b;
    Assoc(a, rep, ReplaceAll(b, pat, rep));
  }

  // ---------------------------------------------------------------------------
  // str.split() with no separator, and the six-word excerpt
  // ---------------------------------------------------------------------------

  /** A piece `str.split()` can return: non-empty, no whitespace inside. */
  predicate IsWord(w: string)
  {
    w != [] && forall i :: 0 <= i < |w| ==> !IsSpace(w[i])
  }

  /** Length of the longest prefix of `s` without whitespace. */
  function WordLen(s: string): (n: nat)
    ensures n <= |s|
    ensures forall i :: 0 <= i < n ==> !IsSpace(s[i])
    ensures n < |s| ==> IsSpace(s[n])
  {
    if s == [] || IsSpace(s[0]) then 0 else 1 + WordLen(s[1..])
  }

  /** `s.split()`: the maximal whitespace-free runs of `s`, in order. */
  function Split(s: string): (ws: seq<string>)
    ensures forall i :: 0 <= i < |ws| ==> IsWord(ws[i])
    decreases |s|
  {
    if s == [] then []
    else if IsSpace(s[0]) then Split(s[1..])
    else
      var n := WordLen(s);
      [s[..n]] + Split(s[n..])
  }

  lemma {:induction false} WordLenOfWord(w: string, t: string)
    requires forall i :: 0 <= i < |w| ==> !IsSpace(w[i])
    requires t == [] || IsSpace(t[0])
    ensures WordLen(w + t) == |w|
  {
    if w != [] {
      assert (w + t)[1..] == w[1..] + t;
      WordLenOfWord(w[1..], t);
    } else {
      assert w + t == t;
    }
  }

  /** A word cut short by whitespace keeps its length whatever follows the whitespace. */
  lemma {:induction false} WordLenPrefix(a: string, t: string)
    requires WordLen(a) < |a|
    ensures WordLen(a + t) == WordLen(a)
  {
    if !IsSpace(a[0]) {
      assert (a + t)[1..] == a[1..] + t;
      WordLenPrefix(a[1..], t);
    }
  }

  /** A single word splits into itself. */
  lemma SplitWord(w: string)
    requires IsWord(w)
    ensures Split(w) == [w]
  {
    WordLenOfWord(w, []);
    assert w + [] == w;
    assert w[..|w|] == w && w[|w|..] == [];
  }

  /**
   * Whitespace always separates: splitting around one whitespace character
   * splits each side on its own, so no word runs across it and no word is
   * lost on either side.
   */
  lemma {:induction false} SplitAroundSpace(a: string, c: char, b: string)
    requires IsSpace(c)
    ensures Split(a + [c] + b) == Split(a) + Split(b)
    decreases |a|
  {
    var s := a + [c] + b;
    if a == [] {
      assert s[1..] == b;
    } else if IsSpace(a[0]) {
      assert s[1..] == a[1..] + [c] + b;
      SplitAroundSpace(a[1..], c, b);
    } else {
      var n := WordLen(a);
      assert s == a + ([c] + b);
      if n < |a| {
        WordLenPrefix(a, [c] + b);
        assert s[..n] == a[..n];
        assert s[n..] == a[n..] + [c] + b;
        SplitAroundSpace(a[n..], c, b);
      } else {
        WordLenOfWord(a, [c] + b);
        assert s[..n] == a;
        assert s[n..] == [c] + b;
        assert ([c] + b)[0] == c && ([c] + b)[1..] == b;
        assert Split([c] + b) == Split(b);
        assert a[..n] == a && a[n..] == [];
        assert Split(a) == [a];
      }
    }
  }

  /** Joining words with single spaces and splitting again gives the words back. */
  lemma {:induction false} SplitJoin(ws: seq<string>)
    requires forall i :: 0 <= i < |ws| ==> IsWord(ws[i])
    ensures Split(Join(ws, " ")) == ws
  {
    if ws == [] {
    } else if |ws| == 1 {
      var w := ws[0];
      WordLenOfWord(w, []);
      assert w + [] == w;
      assert w[|w|..] == [];
    } else {
      var w, rest := ws[0], Join(ws[1..], " ");
      var s := w + " " + rest;
      assert Join(ws, " ") == s;
      WordLenOfWord(w, " " + rest);
      assert s == w + (" " + rest);
      assert s[..|w|] == w;
      assert s[|w|..] == " " + rest;
      assert (" " + rest)[1..] == rest;
      SplitJoin(ws[1..]);
      assert ws == [w] + ws[1..];
    }
  }

  /** Every whitespace character is a single `' '` between two non-whitespace characters. */
  predicate SingleSpaced(s: string)
  {
    forall i :: 0 <= i < |s| && IsSpace(s[i]) ==>
      s[i] == ' ' && 0 < i < |s| - 1 && !IsSpace(s[i - 1]) && !IsSpace(s[i + 1])
  }

  /** Words joined by single spaces: no padding at either end and no run of spaces. */
  lemma {:induction false} JoinSingleSpaced(ws: seq<string>)
    requires forall i :: 0 <= i < |ws| ==> IsWord(ws[i])
    ensures SingleSpaced(Join(ws, " "))
    ensures ws != [] ==> var s := Join(ws, " "); s != [] && !IsSpace(s[0]) && !IsSpace(s[|s| - 1])
  {
    if |ws| == 1 {
      assert Join(ws, " ") == ws[0];
    } else if |ws| > 1 {
      var w, rest := ws[0], Join(ws[1..], " ");
      JoinSingleSpaced(ws[1..]);
      var s := w + " " + rest;
      assert Join(ws, " ") == s;
      forall i | 0 <= i < |s| && IsSpace(s[i])
        ensures s[i] == ' ' && 0 < i < |s| - 1 && !IsSpace(s[i - 1]) && !IsSpace(s[i + 1])
      {
        if i == |w| {
          assert s[i - 1] == w[|w| - 1] && s[i + 1] == rest[0];
        } else if i > |w| {
          var j := i - |w| - 1;
          assert s[i] == rest[j];
          assert s[i - 1] == rest[j - 1] && s[i + 1] == rest[j + 1];
        }
      }
      assert s[0] == w[0] && s[|s| - 1] == rest[|rest| - 1];
    }
  }

  /** How many words the search excerpt keeps. */
  const ExcerptWords := 6

  /**
   * `' '.join(quote.split()[:6])`: split again, the excerpt gives back the
   * first six words of the quote (all of them when there are fewer), in order.
   */
  function Excerpt(quote: string): (r: string)
    ensures var ws := Split(quote);
            Split(r) == ws[..if |ws| < ExcerptWords then |ws| else ExcerptWords]
    ensures SingleSpaced(r)
  {
    var ws := Split(quote);
    SplitJoin(ws[..if |ws| < ExcerptWords then |ws| else ExcerptWords]);
    JoinSingleSpaced(ws[..if |ws| < ExcerptWords then |ws| else ExcerptWords]);
    Join(ws[..if |ws| < ExcerptWords then |ws| else ExcerptWords], " ")
  }

  // ---------------------------------------------------------------------------
  // Annotations, content blocks and thread messages
  // ---------------------------------------------------------------------------

  datatype FileCitation = FileCitation(fileId: string, quote: string)
  datatype FilePath = FilePath(fileId: string)

  /**
   * A text annotation: the substring it marks and at most one of the two
   * attributes the code looks for with `getattr(annotation, ..., None)`.
   */
  datatype Annotation = Annotation(text: string, fileCitation: Option<FileCitation>, filePath: Option<FilePath>)

  datatype TextContent = TextContent(value: string, annotations: seq<Annotation>)

  /** A content block: `type == "text"` with its `text`, or a block of another type, which has no `text`. */
  datatype ContentBlock = TextBlock(text: TextContent) | ImageFileBlock(fileId: string)

  datatype ThreadMessage = ThreadMessage(id: string, role: string, content: seq<ContentBlock>)

  /** The footnote marker that replaces the text of annotation `i`. */
  function Marker(i: nat): string
  {
    " [" + NatToString(i) + "]"
  }

  /** The file id whose name the reference line for `a` needs, if `a` gets a reference line at all. */
  function ReferencedFile(a: Annotation): Option<string>
  {
    if a.fileCitation.Some? then Some(a.fileCitation.value.fileId)
    else if a.filePath.Some? then Some(a.filePath.value.fileId)
    else None
  }

  /** The label every reference line of annotation `i` starts with. */
  function Tag(i: nat): string
  {
    "[" + NatToString(i) + "] "
  }

  /** The reference line of a file citation: the file name and the six-word search excerpt. */
  function CitationLine(i: nat, name: string, quote: string): string
  {
    Tag(i) + name + " - (Search: \"" + Excerpt(quote) + "\")"
  }

  /** The reference line of a file path: a download prompt naming the file. */
  function PathLine(i: nat, name: string): string
  {
    Tag(i) + "Click <here> to download " + name
  }

  /**
   * The reference line for annotation `i`, given the remote file listing
   * `files` (file id to file name); an unknown id is the lookup failure.
   * A file citation takes precedence over a file path.
   */
  function ReferenceLine(a: Annotation, i: nat, files: map<string, string>): (r: Result<Option<string>>)
    ensures r.Err? <==> ReferencedFile(a).Some? && ReferencedFile(a).value !in files
    ensures r.Err? ==> r.error == NotFound(ReferencedFile(a).value)
    ensures r.Ok? ==> (r.value.Some? <==> ReferencedFile(a).Some?)
    ensures a.fileCitation.Some? && a.fileCitation.value.fileId in files ==>
              r == Ok(Some(CitationLine(i, files[a.fileCitation.value.fileId], a.fileCitation.value.quote)))
    ensures a.fileCitation.None? && a.filePath.Some? && a.filePath.value.fileId in files ==>
              r == Ok(Some(PathLine(i, files[a.filePath.value.fileId])))
  {
    if a.fileCitation.Some? then
      var c := a.fileCitation.value;
      if c.fileId !in files then Err(NotFound(c.fileId))
      else Ok(Some(CitationLine(i, files[c.fileId], c.quote)))
    else if a.filePath.Some? then
      var p := a.filePath.value;
      if p.fileId !in files then Err(NotFound(p.fileId))
      else Ok(Some(PathLine(i, files[p.fileId])))
    else Ok(None)
  }

  /** The text after annotations `i..` have replaced their substrings, starting from `value`. */
  function RewriteFrom(value: string, anns: seq<Annotation>, i: nat): string
    requires i <= |anns|
    decreases |anns| - i
  {
    if i == |anns| then value
    else RewriteFrom(ReplaceAll(value, anns[i].text, Marker(i)), anns, i + 1)
  }

  /** The reference lines of annotations `i..`, appended to `acc` in annotation order. */
  function ReferencesFrom(anns: seq<Annotation>, files: map<string, string>, i: nat, acc: seq<string>): Result<seq<string>>
    requires i <= |anns|
    decreases |anns| - i
  {
    if i == |anns| then Ok(acc)
    else match ReferenceLine(anns[i], i, files)
      case Err(e) => Err(e)
      case Ok(None) => ReferencesFrom(anns, files, i + 1, acc)
      case Ok(Some(line)) => ReferencesFrom(anns, files, i + 1, acc + [line])
  }

  /** Number of annotations among `anns[i..]` that get a reference line. */
  function CountReferenced(anns: seq<Annotation>, i: nat): nat
    requires i <= |anns|
    decreases |anns| - i
  {
    if i == |anns| then 0
    else (if ReferencedFile(anns[i]).Some? then 1 else 0) + CountReferenced(anns, i + 1)
  }

  /**
   * The reference list is built exactly when every file an annotation refers
   * to can be looked up; it then keeps what was accumulated and adds one line
   * per referencing annotation.
   */
  lemma {:induction false} ReferencesFromShape(anns: seq<Annotation>, files: map<string, string>, i: nat, acc: seq<string>)
    requires i <= |anns|
    ensures var r := ReferencesFrom(anns, files, i, acc);
            && (r.Ok? <==> forall j :: i <= j < |anns| && ReferencedFile(anns[j]).Some? ==> ReferencedFile(anns[j]).value in files)
            && (r.Ok? ==> |r.value| == |acc| + CountReferenced(anns, i) && r.value[..|acc|] == acc)
            && (r.Err? ==> r.error.NotFound? && r.error.id !in files)
    decreases |anns| - i
  {
    if i < |anns| {
      var line := ReferenceLine(anns[i], i, files);
      if line.Ok? {
        var acc' := if line.value.Some? then acc + [line.value.value] else acc;
        assert ReferencesFrom(anns, files, i, acc) == ReferencesFrom(anns, files, i + 1, acc');
        ReferencesFromShape(anns, files, i + 1, acc');
        var r := ReferencesFrom(anns, files, i + 1, acc');
        if r.Ok? {
          assert r.value[..|acc|] == r.value[..|acc'|][..|acc|];
        }
      } else {
        assert ReferencesFrom(anns, files, i, acc) == Err(line.error);
      }
    }
  }

  /** Every file an annotation among `anns` refers to can be looked up. */
  predicate FilesKnown(anns: seq<Annotation>, files: map<string, string>)
  {
    forall j :: 0 <= j < |anns| && ReferencedFile(anns[j]).Some? ==> ReferencedFile(anns[j]).value in files
  }

  /** The reference line annotation `i` contributes: one line for a citation or a path, none otherwise. */
  function LineOf(a: Annotation, i: nat, files: map<string, string>): seq<string>
    requires ReferencedFile(a).Some? ==> ReferencedFile(a).value in files
  {
    if a.fileCitation.Some? then [CitationLine(i, files[a.fileCitation.value.fileId], a.fileCitation.value.quote)]
    else if a.filePath.Some? then [PathLine(i, files[a.filePath.value.fileId])]
    else []
  }

  /** The reference lines of the first `n` annotations, in annotation order. */
  function RefLines(anns: seq<Annotation>, files: map<string, string>, n: nat): seq<string>
    requires n <= |anns| && FilesKnown(anns, files)
  {
    if n == 0 then [] else RefLines(anns, files, n - 1) + LineOf(anns[n - 1], n - 1, files)
  }

  /** The accumulating scan collects exactly the lines of `RefLines`, in the same order. */
  lemma {:induction false} ReferencesFromRefLines(anns: seq<Annotation>, files: map<string, string>, i: nat)
    requires i <= |anns| && FilesKnown(anns, files)
    ensures ReferencesFrom(anns, files, i, RefLines(anns, files, i)) == Ok(RefLines(anns, files, |anns|))
    decreases |anns| - i
  {
    if i < |anns| {
      var acc := RefLines(anns, files, i);
      assert RefLines(anns, files, i + 1) == acc + LineOf(anns[i], i, files);
      if ReferencedFile(anns[i]).None? {
        assert acc + [] == acc;
      }
      ReferencesFromRefLines(anns, files, i + 1);
    }
  }

  /**
   * The whole reference list of a message: it is built exactly when every
   * referenced file can be looked up, and it is then `RefLines`, the line
   * of each referencing annotation in annotation order.
   */
  lemma ReferencesInOrder(anns: seq<Annotation>, files: map<string, string>)
    ensures ReferencesFrom(anns, files, 0, []).Ok? <==> FilesKnown(anns, files)
    ensures ReferencesFrom(anns, files, 0, []).Err? ==>
              ReferencesFrom(anns, files, 0, []).error.NotFound? && ReferencesFrom(anns, files, 0, []).error.id !in files
    ensures FilesKnown(anns, files) ==> ReferencesFrom(anns, files, 0, []) == Ok(RefLines(anns, files, |anns|))
  {
    ReferencesFromShape(anns, files, 0, []);
    if FilesKnown(anns, files) {
      ReferencesFromRefLines(anns, files, 0);
    }
  }

  /**
   * The annotated value of one text block: all replacements, then a blank
   * line and the newline-joined reference list (`value += '\n\n' + ...`).
   * It fails, with the lookup failure of an unknown file, exactly when some
   * annotation refers to a file that cannot be looked up.
   */
  function Annotated(t: TextContent, files: map<string, string>): (r: Result<string>)
    ensures r.Ok? <==> FilesKnown(t.annotations, files)
    ensures r.Err? ==> r.error.NotFound? && r.error.id !in files
    ensures r.Ok? ==> r.value == RewriteFrom(t.value, t.annotations, 0) + "\n\n" + Join(RefLines(t.annotations, files, |t.annotations|), "\n")
  {
    ReferencesInOrder(t.annotations, files);
    match ReferencesFrom(t.annotations, files, 0, [])
    case Err(e) => Err(e)
    case Ok(refs) => Ok(RewriteFrom(t.value, t.annotations, 0) + "\n\n" + Join(refs, "\n"))
  }

  /** Text without annotations only gains the trailing blank line. */
  lemma AnnotatedWithoutAnnotations(value: string, files: map<string, string>)
    ensures Annotated(TextContent(value, []), files) == Ok(value + "\n\n")
  {
    assert Join([], "\n") == [];
    assert value + "\n\n" + [] == value + "\n\n";
  }

  /**
   * The reference list follows annotation order and each kind keeps its own
   * format: a citation at index 0 and a path at index 1 give the citation
   * line first, then the download line.
   */
  lemma CitationThenPath(v: string, x: string, c: FileCitation, y: string, p: FilePath, files: map<string, string>)
    requires c.fileId in files && p.fileId in files
    ensures var anns := [Annotation(x, Some(c), None), Annotation(y, None, Some(p))];
            Annotated(TextContent(v, anns), files)
            == Ok(RewriteFrom(v, anns, 0) + "\n\n" + CitationLine(0, files[c.fileId], c.quote) + "\n" + PathLine(1, files[p.fileId]))
  {
    var anns := [Annotation(x, Some(c), None), Annotation(y, None, Some(p))];
    var l0, l1 := CitationLine(0, files[c.fileId], c.quote), PathLine(1, files[p.fileId]);
    assert FilesKnown(anns, files);
    assert RefLines(anns, files, 1) == [] + [l0];
    assert RefLines(anns, files, 2) == [l0, l1];
    assert [l0, l1][1..] == [l1];
    assert Join([l0, l1], "\n") == l0 + "\n" + l1;
    var r := Annotated(TextContent(v, anns), files);
    assert r.Ok?;
    assert r.value == RewriteFrom(v, anns, 0) + "\n\n" + Join(RefLines(anns, files, 2), "\n");
    assert r.value == RewriteFrom(v, anns, 0) + "\n\n" + l0 + "\n" + l1;
  }

  /**
   * One file citation whose text occurs exactly once: the text is cut out
   * and the marker put in its place, so the space in front of the marker
   * comes on top of any space already before the cited text, and a single
   * reference line follows the blank line.
   */
  lemma SingleCitation(a: string, pat: string, b: string, fileId: string, quote: string, files: map<string, string>)
    requires pat != [] && fileId in files
    requires forall i: nat :: i < |a| ==> !OccursAt(a + pat + b, pat, i)
    requires forall i: nat :: !OccursAt(b, pat, i)
    ensures Annotated(TextContent(a + pat + b, [Annotation(pat, Some(FileCitation(fileId, quote)), None)]), files)
         == Ok(a + " [0]" + b + "\n\n" + "[0] " + files[fileId] + " - (Search: \"" + Excerpt(quote) + "\")")
  {
    var anns := [Annotation(pat, Some(FileCitation(fileId, quote)), None)];
    assert NatToString(0) == "0";
    assert Marker(0) == " [0]";
    ReplaceLeftmost(a, pat, b, " [0]");
    ReplaceAbsent(b, pat, " [0]");
    var line := "[0] " + files[fileId] + " - (Search: \"" + Excerpt(quote) + "\")";
    assert "[" + NatToString(0) + "] " == "[0] ";
    assert ReferenceLine(anns[0], 0, files) == Ok(Some(line));
    assert ReferencesFrom(anns, files, 1, [line]) == Ok([line]);
    assert [] + [line] == [line];
    assert ReferencesFrom(anns, files, 0, []) == Ok([line]);
    assert RewriteFrom(a + pat + b, anns, 0) == a + " [0]" + b;
    assert Join([line], "\n") == line;
    assert a + " [0]" + b + "\n\n" + line == a + " [0]" + b + "\n\n" + "[0] " + files[fileId] + " - (Search: \"" + Excerpt(quote) + "\")";
  }

  /**
   * The per-message loop body of `add_citations_to_messages`: rewrites the
   * annotation texts into markers one annotation at a time and collects the
   * reference lines, then appends them.
   */
  method AnnotateText(t: TextContent, files: map<string, string>) returns (r: Result<string>)
    ensures r == Annotated(t, files)
  {
    var value := t.value;
    var citations: seq<string> := [];
    var i := 0;
    while i < |t.annotations|
      invariant 0 <= i <= |t.annotations|
      invariant RewriteFrom(value, t.annotations, i) == RewriteFrom(t.value, t.annotations, 0)
      invariant ReferencesFrom(t.annotations, files, i, citations) == ReferencesFrom(t.annotations, files, 0, [])
    {
      var annotation := t.annotations[i];
      value := ReplaceAll(value, annotation.text, Marker(i));
      var line := ReferenceLine(annotation, i, files);
      if line.Err? {
        return Err(line.error);
      }
      if line.value.Some? {
        citations := citations + [line.value.value];
      }
      i := i + 1;
    }
    value := value + "\n\n" + Join(citations, "\n");
    r := Ok(value);
  }

  /**
   * One message of `add_citations_to_messages`: more than one content block
   * is refused with `ValueError`; an empty content list fails on
   * `content[0]` and a non-text block on `.text`.
   */
  function WithCitation(m: ThreadMessage, files: map<string, string>): (r: Result<ThreadMessage>)
    ensures |m.content| > 1 ==> r == Err(ValueError("Unimplemented: More than one text message per message"))
    ensures |m.content| == 0 ==> r == Err(IndexError)
    ensures |m.content| == 1 && !m.content[0].TextBlock? ==> r == Err(AttributeError)
    ensures |m.content| == 1 && m.content[0].TextBlock? && Annotated(m.content[0].text, files).Err? ==>
              r == Err(Annotated(m.content[0].text, files).error)
    ensures r.Ok? <==> |m.content| == 1 && m.content[0].TextBlock? && Annotated(m.content[0].text, files).Ok?
    ensures r.Ok? ==> r.value.id == m.id && r.value.role == m.role
    ensures r.Ok? ==> && |m.content| == 1 && m.content[0].TextBlock?
                      && Annotated(m.content[0].text, files).Ok?
                      && r.value.content == [TextBlock(TextContent(Annotated(m.content[0].text, files).value, m.content[0].text.annotations))]
  {
    if |m.content| > 1 then Err(ValueError("Unimplemented: More than one text message per message"))
    else if |m.content| == 0 then Err(IndexError)
    else if !m.content[0].TextBlock? then Err(AttributeError)
    else
      var t := m.content[0].text;
      match Annotated(t, files)
      case Err(e) => Err(e)
      case Ok(v) => Ok(m.(content := [TextBlock(t.(value := v))]))
  }

  /** `add_citations_to_messages` on a whole listing: the first failing message, in order, decides the error. */
  function WithCitations(ms: seq<ThreadMessage>, files: map<string, string>): (r: Result<seq<ThreadMessage>>)
    ensures r.Ok? ==> |r.value| == |ms|
  {
    if ms == [] then Ok([])
    else match WithCitation(ms[0], files)
      case Err(e) => Err(e)
      case Ok(m) =>
        match WithCitations(ms[1..], files)
        case Err(e) => Err(e)
        case Ok(rest) => Ok([m] + rest)
  }

  /** The messages come back in the same number and order, each rewritten on its own. */
  lemma {:induction false} WithCitationsPointwise(ms: seq<ThreadMessage>, files: map<string, string>)
    ensures WithCitations(ms, files).Ok? <==> forall i :: 0 <= i < |ms| ==> WithCitation(ms[i], files).Ok?
    ensures WithCitations(ms, files).Ok? ==>
            |WithCitations(ms, files).value| == |ms| &&
            forall i :: 0 <= i < |ms| ==> WithCitations(ms, files).value[i] == WithCitation(ms[i], files).value
  {
    if ms != [] {
      WithCitationsPointwise(ms[1..], files);
      assert forall i :: 1 <= i < |ms| ==> ms[1..][i - 1] == ms[i];
      var h, t := WithCitation(ms[0], files), WithCitations(ms[1..], files);
      if h.Ok? && t.Ok? {
        assert WithCitations(ms, files).value == [h.value] + t.value;
      }
    }
  }

  lemma {:induction false} WithCitationsSnoc(ms: seq<ThreadMessage>, m: ThreadMessage, files: map<string, string>)
    ensures WithCitations(ms + [m], files) ==
            match WithCitations(ms, files)
            case Err(e) => Err(e)
            case Ok(done) =>
              match WithCitation(m, files)
              case Err(e) => Err(e)
              case Ok(m') => Ok(done + [m'])
  {
    if ms == [] {
      assert ms + [m] == [m];
      assert [m][1..] == [];
      if WithCitation(m, files).Ok? {
        assert [WithCitation(m, files).value] + [] == [] + [WithCitation(m, files).value];
      }
    } else {
      assert (ms + [m])[1..] == ms[1..] + [m];
      WithCitationsSnoc(ms[1..], m, files);
      match WithCitation(ms[0], files)
      case Err(_) =>
      case Ok(h) =>
        match WithCitations(ms[1..], files)
        case Err(_) =>
        case Ok(rest) =>
          if WithCitation(m, files).Ok? {
            assert [h] + (rest + [WithCitation(m, files).value]) == ([h] + rest) + [WithCitation(m, files).value];
          }
    }
  }

  /**
   * `add_citations_to_messages`: every message in turn gets its text block
   * rewritten; the same messages are returned, in the same order.
   */
  method AddCitationsToMessages(messages: seq<ThreadMessage>, files: map<string, string>) returns (r: Result<seq<ThreadMessage>>)
    ensures r == WithCitations(messages, files)
  {
    var done: seq<ThreadMessage> := [];
    var i := 0;
    while i < |messages|
      invariant 0 <= i <= |messages|
      invariant WithCitations(messages[..i], files) == Ok(done)
    {
      var rewritten := WithCitation(messages[i], files);
      CitationStep(messages, i, files);
      if rewritten.Err? {
        return Err(rewritten.error);
      }
      done := done + [rewritten.value];
      i := i + 1;
    }
    assert messages[..i] == messages;
    r := Ok(done);
  }

  /** One more message: its error ends the whole call, otherwise its rewrite is appended. */
  lemma CitationStep(ms: seq<ThreadMessage>, i: nat, files: map<string, string>)
    requires i < |ms| && WithCitations(ms[..i], files).Ok?
    ensures WithCitation(ms[i], files).Err? ==> WithCitations(ms, files) == Err(WithCitation(ms[i], files).error)
    ensures WithCitation(ms[i], files).Ok? ==>
              WithCitations(ms[..i + 1], files) == Ok(WithCitations(ms[..i], files).value + [WithCitation(ms[i], files).value])
  {
    var m := WithCitation(ms[i], files);
    WithCitationsSnoc(ms[..i], ms[i], files);
    TakeOneMore(ms, i);
    if m.Err? {
      assert WithCitations(ms[..i + 1], files) == Err(m.error);
      PrefixErrIsErr(ms, i + 1, files);
    }
  }

  /** A prefix one element longer is the prefix followed by that element. */
  lemma TakeOneMore<T>(s: seq<T>, i: nat)
    requires i < |s|
    ensures s[..i + 1] == s[..i] + [s[i]]
  {
  }

  /** An error raised on some message is the error of the whole call. */
  lemma {:induction false} PrefixErrIsErr(ms: seq<ThreadMessage>, k: nat, files: map<string, string>)
    requires k <= |ms|
    requires WithCitations(ms[..k], files).Err?
    ensures WithCitations(ms, files) == WithCitations(ms[..k], files)
  {
    assert k > 0;
    assert ms[..k][0] == ms[0];
    assert ms[..k][1..] == ms[1..][..k - 1];
    if WithCitation(ms[0], files).Ok? {
      PrefixErrIsErr(ms[1..], k - 1, files);
    }
  }
}
