/**
 * internal/track/update/recount_patch.go: re-anchoring a patch on an
 * ancestor text. Each hunk is rebuilt from its lines, the text it looks for
 * (context and deleted lines) is looked up in the ancestor, and the hunk
 * header is rewritten so that its old start is the line where that text was
 * found. Hunk headers follow the unified diff format ("@@ -a,b +c,d @@"),
 * as the "Diff -u or -U Output Format" of POSIX.1-2017 diff describes it.
 * Bytes are modelled as characters.
 */
module RecountPatch {
  import opened Wrappers
  import opened Text
  import opened Numbers

  /** The origin of a diff line. Other stands for the end-of-file newline markers, which carry no marker character. */
  datatype Origin = Context | Addition | Deletion | Other

  datatype DiffLine = DiffLine(origin: Origin, content: string)

  /** A hunk: its header text, as the diff library gives it, and its lines. */
  datatype Hunk = Hunk(header: string, lines: seq<DiffLine>)

  /** A patch: its full text and its hunks. */
  datatype Patch = Patch(text: string, hunks: seq<Hunk>)

  /** The character written in front of a line of the given origin. */
  function OriginMarker(o: Origin): string {
    match o
    case Context => " "
    case Addition => "+"
    case Deletion => "-"
    case Other => ""
  }

  /** Lines of the old side of a hunk: the text the hunk looks for. */
  predicate OldSide(o: Origin) {
    o == Context || o == Deletion
  }

  /** The rebuilt hunk body: every line as its marker followed by its content. */
  function Rebuilt(lines: seq<DiffLine>): string {
    if lines == [] then ""
    else Rebuilt(lines[..|lines| - 1]) + OriginMarker(lines[|lines| - 1].origin) + lines[|lines| - 1].content
  }

  /** The search text: the contents of the context and deleted lines, in order; additions are left out. */
  function SearchText(lines: seq<DiffLine>): string {
    if lines == [] then ""
    else
      var l := lines[|lines| - 1];
      SearchText(lines[..|lines| - 1]) + (if OldSide(l.origin) then l.content else "")
  }

  /** The inner loop of recountPatch: the hunk body and its search text. */
  method HunkText(lines: seq<DiffLine>) returns (hunk: string, search: string)
    ensures hunk == Rebuilt(lines)
    ensures search == SearchText(lines)
  {
    hunk := "";
    search := "";
    for j := 0 to |lines|
      invariant hunk == Rebuilt(lines[..j])
      invariant search == SearchText(lines[..j])
    {
      assert lines[..j + 1][..j] == lines[..j];
      var line := lines[j];
      match line.origin {
        case Context => hunk := hunk + " ";
        case Addition => hunk := hunk + "+";
        case Deletion => hunk := hunk + "-";
        case Other =>
      }
      hunk := hunk + line.content;
      if line.origin == Context || line.origin == Deletion {
        search := search + line.content;
      }
    }
    assert lines[..|lines|] == lines;
  }

  lemma {:induction false} RebuiltFront(l: DiffLine, rest: seq<DiffLine>)
    ensures Rebuilt([l] + rest) == OriginMarker(l.origin) + l.content + Rebuilt(rest)
    decreases |rest|
  {
    if rest != [] {
      var s := [l] + rest;
      assert s[..|s| - 1] == [l] + rest[..|rest| - 1];
      RebuiltFront(l, rest[..|rest| - 1]);
    }
  }

  lemma {:induction false} SearchTextAppend(a: seq<DiffLine>, b: seq<DiffLine>)
    ensures SearchText(a + b) == SearchText(a) + SearchText(b)
    decreases |b|
  {
    if b == [] {
      assert a + b == a;
    } else {
      assert (a + b)[..|a + b| - 1] == a + b[..|b| - 1];
      SearchTextAppend(a, b[..|b| - 1]);
    }
  }

  /** Additions do not take part in the search: inserting one anywhere leaves the search text as it was. */
  lemma SearchTextSkipsAdditions(a: seq<DiffLine>, content: string, b: seq<DiffLine>)
    ensures SearchText(a + [DiffLine(Addition, content)] + b) == SearchText(a + b)
  {
    SearchTextAppend(a + [DiffLine(Addition, content)], b);
    SearchTextAppend(a, [DiffLine(Addition, content)]);
    assert [DiffLine(Addition, content)][..0] == [];
    SearchTextAppend(a, b);
  }

  /** A hunk line as a diff library produces it: one of the three markers, and content that is one line ending in a newline. */
  predicate WholeLine(l: DiffLine) {
    l.origin != Other && |l.content| >= 1 && l.content[|l.content| - 1] == '\n'
    && '\n' !in l.content[..|l.content| - 1]
  }

  /** The position of the first newline in s, or |s| when there is none. */
  function LineEnd(s: string): (k: nat)
    ensures k <= |s| && (k < |s| ==> s[k] == '\n')
    ensures forall j :: 0 <= j < k ==> s[j] != '\n'
  {
    if s == [] || s[0] == '\n' then 0 else 1 + LineEnd(s[1..])
  }

  /** Reads a rebuilt hunk body back into its lines; None when a line has no marker or no newline. */
  function ParseHunk(text: string): Option<seq<DiffLine>>
    decreases |text|
  {
    if text == [] then Some([])
    else
      var origin := if text[0] == ' ' then Some(Context)
                    else if text[0] == '+' then Some(Addition)
                    else if text[0] == '-' then Some(Deletion)
                    else None;
      var k := LineEnd(text[1..]);
      if origin.None? || k == |text| - 1 then None
      else
        match ParseHunk(text[k + 2..])
        case None => None
        case Some(rest) => Some([DiffLine(origin.value, text[1..k + 2])] + rest)
  }

  lemma LineEndOfLine(c: string, r: string)
    requires |c| >= 1 && c[|c| - 1] == '\n' && '\n' !in c[..|c| - 1]
    ensures LineEnd(c + r) == |c| - 1
  {
    var k := LineEnd(c + r);
    assert (c + r)[|c| - 1] == '\n';
  }

  /** One whole line in front of a text reads back as that line in front of what the text reads as. */
  lemma ParseHunkStep(l: DiffLine, t: string)
    requires WholeLine(l)
    ensures ParseHunk(OriginMarker(l.origin) + l.content + t)
         == (match ParseHunk(t) case None => None case Some(rest) => Some([l] + rest))
  {
    var text := OriginMarker(l.origin) + l.content + t;
    assert text[1..] == l.content + t;
    LineEndOfLine(l.content, t);
    var k := |l.content| - 1;
    assert text[1..k + 2] == l.content;
    assert text[k + 2..] == t;
  }

  /** The rebuilt body of whole lines reads back as the same lines. */
  lemma {:induction false} ParseRebuilt(lines: seq<DiffLine>)
    requires forall i :: 0 <= i < |lines| ==> WholeLine(lines[i])
    ensures ParseHunk(Rebuilt(lines)) == Some(lines)
    decreases |lines|
  {
    if lines != [] {
      var l := lines[0];
      var rest := lines[1..];
      assert lines == [l] + rest;
      RebuiltFront(l, rest);
      ParseRebuilt(rest);
      ParseHunkStep(l, Rebuilt(rest));
    }
  }

  // The line a match starts on.

  /** The number of newline characters in s. */
  function CountNewlines(s: string): nat {
    if s == [] then 0
    else CountNewlines(s[..|s| - 1]) + (if s[|s| - 1] == '\n' then 1 else 0)
  }

  /** The 1-based line of position index: one more than the newlines before it. A CRLF ending counts once. */
  function LineAt(buffer: string, index: nat): nat
    requires index <= |buffer|
  {
    1 + CountNewlines(buffer[..index])
  }

  /**
   * The count as written: a position counts when it holds a newline, and also
   * when it holds a carriage return followed by a newline, so a CRLF ending
   * counts twice.
   */
  function BreaksAsWritten(buffer: string, index: nat): nat
    requires index == 0 || index < |buffer|
  {
    if index == 0 then 0
    else
      var j := index - 1;
      BreaksAsWritten(buffer, j) + (if buffer[j] == '\n' || (buffer[j] == '\r' && buffer[j + 1] == '\n') then 1 else 0)
  }

  function LineAtAsWritten(buffer: string, index: nat): nat
    requires index == 0 || index < |buffer|
  {
    1 + BreaksAsWritten(buffer, index)
  }

  /** The number of carriage returns immediately followed by a newline, starting before index. */
  function CountCRLF(buffer: string, index: nat): nat
    requires index == 0 || index < |buffer|
  {
    if index == 0 then 0
    else CountCRLF(buffer, index - 1) + (if buffer[index - 1] == '\r' && buffer[index] == '\n' then 1 else 0)
  }

  /** The count as written is the line number plus one for every CRLF before the match. */
  lemma {:induction false} LineAtAsWrittenCountsCRLFTwice(buffer: string, index: nat)
    requires index == 0 || index < |buffer|
    ensures LineAtAsWritten(buffer, index) == LineAt(buffer, index) + CountCRLF(buffer, index)
  {
    if index > 0 {
      LineAtAsWrittenCountsCRLFTwice(buffer, index - 1);
      assert buffer[..index][..index - 1] == buffer[..index - 1];
    }
  }

  /** With CRLF line endings, "y" after one line "x" is on line 2; the count as written says 3. */
  lemma LineAtCRLFExample()
    ensures IndexOf("x\r\ny\r\n", "y\r\n") == 3
    ensures LineAt("x\r\ny\r\n", 3) == 2
    ensures LineAtAsWritten("x\r\ny\r\n", 3) == 3
  {
    var b := "x\r\ny\r\n";
    assert OccursAt(b, "y\r\n", 3);
    assert b[0..3][0] != 'y' && b[1..4][0] != 'y' && b[2..5][0] != 'y';
    assert b[..3] == "x\r\n";
    assert b[..3][..2] == "x\r";
    assert b[..3][..2][..1] == "x";
    LineAtAsWrittenCountsCRLFTwice(b, 3);
    assert CountCRLF(b, 3) == 1;
  }

  /** Text made of whole lines: each line followed by a newline. */
  function Lines(ls: seq<string>): string {
    if ls == [] then "" else Lines(ls[..|ls| - 1]) + ls[|ls| - 1] + "\n"
  }

  lemma {:induction false} CountNewlinesAppend(a: string, b: string)
    ensures CountNewlines(a + b) == CountNewlines(a) + CountNewlines(b)
    decreases |b|
  {
    if b == [] {
      assert a + b == a;
    } else {
      assert (a + b)[..|a + b| - 1] == a + b[..|b| - 1];
      CountNewlinesAppend(a, b[..|b| - 1]);
    }
  }

  lemma {:induction false} CountNewlinesNone(s: string)
    requires '\n' !in s
    ensures CountNewlines(s) == 0
    decreases |s|
  {
    if s != [] {
      assert s[|s| - 1] in s;
      assert forall c :: c in s[..|s| - 1] ==> c in s;
      CountNewlinesNone(s[..|s| - 1]);
    }
  }

  /** Text that follows n whole lines starts on line n + 1. */
  lemma {:induction false} LineAtAfterLines(ls: seq<string>, rest: string)
    requires forall i :: 0 <= i < |ls| ==> '\n' !in ls[i]
    ensures LineAt(Lines(ls) + rest, |Lines(ls)|) == |ls| + 1
    decreases |ls|
  {
    assert (Lines(ls) + rest)[..|Lines(ls)|] == Lines(ls);
    if ls != [] {
      var init := ls[..|ls| - 1];
      LineAtAfterLines(init, "");
      assert (Lines(init) + "")[..|Lines(init)|] == Lines(init);
      CountNewlinesAppend(Lines(init), ls[|ls| - 1]);
      CountNewlinesAppend(Lines(init) + ls[|ls| - 1], "\n");
      CountNewlinesNone(ls[|ls| - 1]);
      assert CountNewlines("\n") == 1 by {
        assert "\n"[..0] == "";
      }
    }
  }

  /** The counting loop of recountPatch, with each CRLF ending counted once. */
  method LineNumber(buffer: string, index: nat) returns (line: nat)
    requires index <= |buffer|
    ensures line == LineAt(buffer, index)
  {
    line := 1;
    for j := 0 to index
      invariant line == 1 + CountNewlines(buffer[..j])
    {
      assert buffer[..j + 1][..j] == buffer[..j];
      if buffer[j] == '\n' {
        line := line + 1;
      }
    }
  }

  // Reading the numbers of a hunk header.

  /** Where a scan from position i for the stop character ends: the first stop at or after i, or the end. */
  function ScanTo(header: string, i: nat, stop: char): (k: nat)
    ensures k >= i && (i <= |header| ==> k <= |header|)
    ensures k < |header| ==> header[k] == stop
    decreases |header| - i
  {
    if i >= |header| || header[i] == stop then i else ScanTo(header, i + 1, stop)
  }

  /** The scan stops at the first stop character: none lies between i and where it ends. */
  lemma {:induction false} ScanToFirst(header: string, i: nat, stop: char)
    ensures forall j :: i <= j < ScanTo(header, i, stop) ==> j < |header| && header[j] != stop
    decreases |header| - i
  {
    if i < |header| && header[i] != stop {
      ScanToFirst(header, i + 1, stop);
      assert ScanTo(header, i, stop) == ScanTo(header, i + 1, stop);
    } else {
      assert ScanTo(header, i, stop) == i;
    }
  }

  /** The text readNumber collects: the characters from i up to the stop character or the end. */
  function NumberText(header: string, i: nat, stop: char): string
    decreases |header| - i
  {
    if i >= |header| || header[i] == stop then "" else [header[i]] + NumberText(header, i + 1, stop)
  }

  /**
   * readNumber with the bound checked before each access: the collected text
   * read as a number, and the position one past where the scan ended.
   */
  function ReadNumberSpec(header: string, i: nat, stop: char): (Result<int>, nat) {
    (Atoi(NumberText(header, i, stop)), ScanTo(header, i, stop) + 1)
  }

  /**
   * readNumber as written: the access comes before the bound check, so a scan
   * that reaches the end of the header without meeting the stop character is
   * an index-out-of-range panic.
   */
  function ReadNumberAsWritten(header: string, i: nat, stop: char): Result<(Result<int>, nat)> {
    var k := ScanTo(header, i, stop);
    if k >= |header| then Err(Panic("index out of range"))
    else Ok((Atoi(NumberText(header, i, stop)), k + 1))
  }

  /** readNumber as written panics exactly when no stop character lies at or after i; otherwise it agrees with the bounded reading. */
  lemma ReadNumberAgrees(header: string, i: nat, stop: char)
    ensures ReadNumberAsWritten(header, i, stop).Ok? <==> exists j :: i <= j < |header| && header[j] == stop
    ensures ReadNumberAsWritten(header, i, stop).Ok? ==> ReadNumberAsWritten(header, i, stop).value == ReadNumberSpec(header, i, stop)
  {
    ScanToFirst(header, i, stop);
  }

  /** readNumber: the characters up to the stop read as a number, and the cursor one past the stop. */
  method ReadNumber(header: string, i: nat, stop: char) returns (n: Result<int>, next: nat)
    ensures (n, next) == ReadNumberSpec(header, i, stop)
  {
    var number, k := ScanNumber(header, i, stop);
    n := Atoi(number);
    next := k + 1;
  }

  /** The loop of readNumber: the cursor moves through the header one character at a time. */
  method ScanNumber(header: string, i: nat, stop: char) returns (number: string, k: nat)
    ensures number == NumberText(header, i, stop) && k == ScanTo(header, i, stop)
  {
    number := "";
    k := i;
    while k < |header| && header[k] != stop
      invariant i <= k && (i <= |header| ==> k <= |header|)
      invariant number + NumberText(header, k, stop) == NumberText(header, i, stop)
      invariant ScanTo(header, k, stop) == ScanTo(header, i, stop)
      decreases |header| - k
    {
      number := number + [header[k]];
      k := k + 1;
    }
    assert number + "" == number;
  }

  /** A number followed by its stop character is read up to the stop, and the cursor lands right after it. */
  lemma {:induction false} ReadSuffix(h: string, i: nat, x: string, stop: char, post: string)
    requires i <= |h| && h[i..] == x + [stop] + post && stop !in x
    ensures NumberText(h, i, stop) == x && ScanTo(h, i, stop) == i + |x|
    ensures h[i + |x| + 1..] == post
    decreases |x|
  {
    assert h[i] == (x + [stop] + post)[0];
    if x != [] {
      assert h[i + 1..] == x[1..] + [stop] + post by {
        assert h[i + 1..] == h[i..][1..];
      }
      ReadSuffix(h, i + 1, x[1..], stop, post);
      assert [x[0]] + x[1..] == x;
    } else {
      assert h[i + 1..] == h[i..][1..];
    }
  }

  // Hunk headers.

  /** The numbers and the section text of a hunk header "@@ -oldStart,oldLines +newStart,newLines @@ section". */
  datatype HeaderFields = HeaderFields(oldStart: int, oldLines: int, newStart: int, newLines: int, section: string)

  /** "@@ -a,b +c,d " followed by rest, with the four numbers given as text. */
  function HeaderText(a: string, b: string, c: string, d: string, rest: string): string {
    "@@ -" + a + [','] + b + [' '] + ['+'] + c + [','] + d + [' '] + rest
  }

  /** The header fmt prints for "@@ -%d,%d +%d,%d @@ %s". */
  function FormatHeader(f: HeaderFields): string {
    HeaderText(Itoa(f.oldStart), Itoa(f.oldLines), Itoa(f.newStart), Itoa(f.newLines), "@@ " + f.section)
  }

  /**
   * The fields re-anchored at line: the old start becomes line, the new start
   * moves by as much (in 64-bit arithmetic), the lengths and the section stay.
   */
  function Moved(f: HeaderFields, line: int): HeaderFields {
    HeaderFields(line, f.oldLines, Wrap64(line + Wrap64(f.newStart - f.oldStart)), f.newLines, f.section)
  }

  /** The header opens with "@@ ". */
  predicate HunkPrefix(header: string) {
    |header| >= 3 && header[0] == '@' && header[1] == '@' && header[2] == ' '
  }

  /** The separators of "-a,b +c,d ", in reading order. */
  const Stops: seq<char> := [',', ' ', ',', ' ']

  /**
   * What rewriteDiffHunkHeader reads from a header, with every access
   * bounded: nothing unless the header opens with "@@ ", its four numbers
   * parse and "@@ " follows them.
   */
  function ParseHeader(header: string): Option<HeaderFields> {
    if !HunkPrefix(header) then None else ParseNumbers(header, 4, [])
  }

  /** Reads the numbers still missing from nums, starting at i, then the closing "@@ ". */
  function ParseNumbers(header: string, i: nat, nums: seq<int>): Option<HeaderFields>
    requires |nums| <= 4
    decreases 4 - |nums|
  {
    if |nums| == 4 then
      match Closing(header, i)
      case None => None
      case Some(section) => Some(HeaderFields(nums[0], nums[1], nums[2], nums[3], section))
    else
      var (n, next) := ReadNumberSpec(header, i, Stops[|nums|]);
      if n.Err? then None else ParseNumbers(header, next, nums + [n.value])
  }

  /** The section text after the closing "@@ " that starts at i, if it is there. */
  function Closing(header: string, i: nat): Option<string> {
    if i + 3 > |header| || header[i] != '@' || header[i + 1] != '@' || header[i + 2] != ' ' then None
    else Some(header[i + 3..])
  }

  /** rewriteDiffHunkHeader with every access bounded: "" for a header it cannot read, otherwise the header re-anchored at line. */
  function RewriteHeader(header: string, line: int): string {
    match ParseHeader(header)
    case None => ""
    case Some(f) => FormatHeader(Moved(f, line))
  }

  /**
   * rewriteDiffHunkHeader as written: every access comes before its bound
   * check, so reading past the end of the header is a panic.
   */
  function RewriteHeaderAsWritten(header: string, line: int): Result<string> {
    match ParseHeaderAsWritten(header)
    case Err(e) => Err(e)
    case Ok(None) => Ok("")
    case Ok(Some(f)) => Ok(FormatHeader(Moved(f, line)))
  }

  function ParseHeaderAsWritten(header: string): Result<Option<HeaderFields>> {
    if |header| == 0 then Err(Panic("index out of range"))
    else if header[0] != '@' then Ok(None)
    else if |header| == 1 then Err(Panic("index out of range"))
    else if header[1] != '@' then Ok(None)
    else if |header| == 2 then Err(Panic("index out of range"))
    else if header[2] != ' ' then Ok(None)
    else ParseNumbersAsWritten(header, 4, [])
  }

  /** ParseNumbers with readNumber and the closing check as written. */
  function ParseNumbersAsWritten(header: string, i: nat, nums: seq<int>): Result<Option<HeaderFields>>
    requires |nums| <= 4
    decreases 4 - |nums|
  {
    if |nums| == 4 then
      match ClosingAsWritten(header, i)
      case Err(e) => Err(e)
      case Ok(None) => Ok(None)
      case Ok(Some(section)) => Ok(Some(HeaderFields(nums[0], nums[1], nums[2], nums[3], section)))
    else
      match ReadNumberAsWritten(header, i, Stops[|nums|])
      case Err(e) => Err(e)
      case Ok((n, next)) =>
        if n.Err? then Ok(None) else ParseNumbersAsWritten(header, next, nums + [n.value])
  }

  /** The closing check as written: each of the three characters is read before its bound is known. */
  function ClosingAsWritten(header: string, i: nat): Result<Option<string>> {
    if i >= |header| then Err(Panic("index out of range"))
    else if header[i] != '@' then Ok(None)
    else if i + 1 >= |header| then Err(Panic("index out of range"))
    else if header[i + 1] != '@' then Ok(None)
    else if i + 2 >= |header| then Err(Panic("index out of range"))
    else if header[i + 2] != ' ' then Ok(None)
    else Ok(Some(header[i + 3..]))
  }

  lemma ClosingAgrees(header: string, i: nat)
    ensures ClosingAsWritten(header, i).Ok? ==> ClosingAsWritten(header, i).value == Closing(header, i)
  {
  }

  lemma {:induction false} NumbersAgree(header: string, i: nat, nums: seq<int>)
    requires |nums| <= 4
    ensures ParseNumbersAsWritten(header, i, nums).Ok? ==>
              ParseNumbersAsWritten(header, i, nums).value == ParseNumbers(header, i, nums)
    decreases 4 - |nums|
  {
    if |nums| == 4 {
      ClosingAgrees(header, i);
    } else {
      ReadNumberAgrees(header, i, Stops[|nums|]);
      var (n, next) := ReadNumberSpec(header, i, Stops[|nums|]);
      if n.Ok? {
        NumbersAgree(header, next, nums + [n.value]);
      }
    }
  }

  /** Where rewriteDiffHunkHeader as written returns, it returns what the bounded rewrite does. */
  lemma RewriteHeaderAgrees(header: string, line: int)
    ensures RewriteHeaderAsWritten(header, line).Ok? ==> RewriteHeaderAsWritten(header, line).value == RewriteHeader(header, line)
  {
    NumbersAgree(header, 4, []);
  }

  /**
   * A header with no ',' after "@@ -" -- as git writes the old side of a
   * one-line hunk, "@@ -3 +3 @@" -- makes readNumber as written run off the
   * end; the bounded rewrite gives "" for it.
   */
  lemma ShortHeaderPanics(x: string, line: int)
    requires ',' !in x
    ensures RewriteHeaderAsWritten("@@ -" + x, line).Err?
    ensures RewriteHeader("@@ -" + x, line) == ""
  {
    var h := "@@ -" + x;
    assert ScanTo(h, 4, ',') >= |h|;
    assert NumberText(h, |h| + 1, ' ') == "";
    if Atoi(NumberText(h, 4, ',')).Ok? {
      var n1 := [Atoi(NumberText(h, 4, ',')).value];
      assert [] + n1 == n1;
      assert ParseNumbers(h, 4, []) == ParseNumbers(h, |h| + 1, n1);
    }
  }

  lemma ShortHeaderExample(line: int)
    ensures RewriteHeaderAsWritten("@@ -3 +3 @@\n", line).Err?
    ensures RewriteHeader("@@ -3 +3 @@\n", line) == ""
  {
    assert "@@ -3 +3 @@\n" == "@@ -" + "3 +3 @@\n";
    ShortHeaderPanics("3 +3 @@\n", line);
  }

  /** A header opens with "@@ -", and after that come the first number and everything behind it. */
  lemma HeaderSplit(a: string, b: string, c: string, d: string, rest: string)
    ensures HunkPrefix(HeaderText(a, b, c, d, rest))
    ensures HeaderText(a, b, c, d, rest)[4..] == a + [','] + (b + [' '] + (['+'] + c + [','] + (d + [' '] + rest)))
  {
    var t3 := d + [' '] + rest;
    var t2 := ['+'] + c + [','] + t3;
    var t1 := b + [' '] + t2;
    var h := HeaderText(a, b, c, d, rest);
    assert h == "@@ -" + a + [','] + b + [' '] + ['+'] + c + [','] + t3;
    assert h == "@@ -" + a + [','] + b + [' '] + t2;
    assert h == "@@ -" + a + [','] + t1;
    assert h == "@@ -" + (a + [','] + t1);
  }

  /** One reading of ParseNumbers: nothing if the number does not parse, otherwise the rest with it recorded. */
  lemma ReadStep(h: string, i: nat, nums: seq<int>, n: Result<int>, next: nat)
    requires |nums| < 4
    requires ReadNumberSpec(h, i, Stops[|nums|]) == (n, next)
    ensures ParseNumbers(h, i, nums) == if n.Err? then None else ParseNumbers(h, next, nums + [n.value])
  {
  }

  /** What ParseHeader gives for the four readings of a header and what the closing check finds. */
  function ParseResult(r1: Result<int>, r2: Result<int>, r3: Result<int>, r4: Result<int>,
                       closing: Option<string>): Option<HeaderFields> {
    if r1.Err? || r2.Err? || r3.Err? || r4.Err? || closing.None? then None
    else Some(HeaderFields(r1.value, r2.value, r3.value, r4.value, closing.value))
  }

  /**
   * Reading a header laid out as "@@ -a,b +c,d " and rest takes the four
   * texts as its numbers and closes on rest as it would on rest alone.
   */
  lemma ParseHeaderText(a: string, b: string, c: string, d: string, rest: string)
    requires ',' !in a && ' ' !in b && ',' !in c && ' ' !in d
    ensures ParseHeader(HeaderText(a, b, c, d, rest))
         == ParseResult(Atoi(a), Atoi(b), Atoi(['+'] + c), Atoi(d), Closing(rest, 0))
  {
    var h := HeaderText(a, b, c, d, rest);
    HeaderSplit(a, b, c, d, rest);
    ParseShift(h, 4, 0, []);
    ParseFront(a, b, ['+'] + c, d, rest);
  }

  /** Reading from i + j of a text is reading from j of its suffix from i, with the cursor offset by i. */
  lemma {:induction false} ScanShift(h: string, i: nat, j: nat, stop: char)
    requires i <= |h|
    ensures ScanTo(h, i + j, stop) == i + ScanTo(h[i..], j, stop)
    ensures NumberText(h, i + j, stop) == NumberText(h[i..], j, stop)
    decreases |h| - (i + j)
  {
    if i + j < |h| {
      assert h[i..][j] == h[i + j];
      if h[i + j] != stop {
        ScanShift(h, i, j + 1, stop);
      }
    }
  }

  /** A reading from i + j of a text is the reading from j of its suffix from i, the cursor offset by i. */
  lemma ReadShift(h: string, i: nat, j: nat, stop: char)
    requires i <= |h|
    ensures ReadNumberSpec(h, i + j, stop)
         == (ReadNumberSpec(h[i..], j, stop).0, i + ReadNumberSpec(h[i..], j, stop).1)
  {
    ScanShift(h, i, j, stop);
  }

  /** The closing check at i + j of a text is the one at j of its suffix from i. */
  lemma ClosingShift(h: string, i: nat, j: nat)
    requires i <= |h|
    ensures Closing(h, i + j) == Closing(h[i..], j)
  {
    if i + j + 3 <= |h| {
      assert h[i + j + 3..] == h[i..][j + 3..];
    }
  }

  /** ParseNumbers from i + j of a text is ParseNumbers from j of its suffix from i. */
  lemma {:induction false} ParseShift(h: string, i: nat, j: nat, nums: seq<int>)
    requires i <= |h| && |nums| <= 4
    ensures ParseNumbers(h, i + j, nums) == ParseNumbers(h[i..], j, nums)
    decreases 4 - |nums|
  {
    if |nums| == 4 {
      ClosingShift(h, i, j);
    } else {
      var stop := Stops[|nums|];
      ReadShift(h, i, j, stop);
      var (n, next) := ReadNumberSpec(h[i..], j, stop);
      ReadStep(h, i + j, nums, n, i + next);
      ReadStep(h[i..], j, nums, n, next);
      if n.Ok? {
        ParseShift(h, i, next, nums + [n.value]);
      }
    }
  }

  /** One reading from the front: a number, its stop character, and the text the rest is parsed from. */
  lemma StepFront(x: string, stop: char, post: string, nums: seq<int>)
    requires |nums| < 4 && stop == Stops[|nums|] && stop !in x
    ensures ParseNumbers(x + [stop] + post, 0, nums)
         == if Atoi(x).Err? then None else ParseNumbers(post, 0, nums + [Atoi(x).value])
  {
    var s := x + [stop] + post;
    assert s[0..] == s;
    ReadSuffix(s, 0, x, stop, post);
    ReadStep(s, 0, nums, Atoi(x), |x| + 1);
    if Atoi(x).Ok? {
      ParseShift(s, |x| + 1, 0, nums + [Atoi(x).value]);
    }
  }

  /** ParseNumbers over "a,b c,d " and rest: the four texts as numbers, closed on rest. */
  lemma ParseFront(a: string, b: string, c: string, d: string, rest: string)
    requires ',' !in a && ' ' !in b && ',' !in c && ' ' !in d
    ensures ParseNumbers(a + [','] + (b + [' '] + (c + [','] + (d + [' '] + rest))), 0, [])
         == ParseResult(Atoi(a), Atoi(b), Atoi(c), Atoi(d), Closing(rest, 0))
  {
    StepFront(a, ',', b + [' '] + (c + [','] + (d + [' '] + rest)), []);
    if Atoi(a).Ok? {
      assert [] + [Atoi(a).value] == [Atoi(a).value];
      FrontOldLines(Atoi(a).value, b, c, d, rest);
    }
  }

  lemma FrontOldLines(v1: int, b: string, c: string, d: string, rest: string)
    requires ' ' !in b && ',' !in c && ' ' !in d
    ensures ParseNumbers(b + [' '] + (c + [','] + (d + [' '] + rest)), 0, [v1])
         == ParseResult(Ok(v1), Atoi(b), Atoi(c), Atoi(d), Closing(rest, 0))
  {
    StepFront(b, ' ', c + [','] + (d + [' '] + rest), [v1]);
    if Atoi(b).Ok? {
      assert [v1] + [Atoi(b).value] == [v1, Atoi(b).value];
      FrontNewStart(v1, Atoi(b).value, c, d, rest);
    }
  }

  lemma FrontNewStart(v1: int, v2: int, c: string, d: string, rest: string)
    requires ',' !in c && ' ' !in d
    ensures ParseNumbers(c + [','] + (d + [' '] + rest), 0, [v1, v2])
         == ParseResult(Ok(v1), Ok(v2), Atoi(c), Atoi(d), Closing(rest, 0))
  {
    StepFront(c, ',', d + [' '] + rest, [v1, v2]);
    if Atoi(c).Ok? {
      assert [v1, v2] + [Atoi(c).value] == [v1, v2, Atoi(c).value];
      FrontNewLines(v1, v2, Atoi(c).value, d, rest);
    }
  }

  lemma FrontNewLines(v1: int, v2: int, v3: int, d: string, rest: string)
    requires ' ' !in d
    ensures ParseNumbers(d + [' '] + rest, 0, [v1, v2, v3])
         == ParseResult(Ok(v1), Ok(v2), Ok(v3), Atoi(d), Closing(rest, 0))
  {
    StepFront(d, ' ', rest, [v1, v2, v3]);
    if Atoi(d).Ok? {
      assert [v1, v2, v3] + [Atoi(d).value] == [v1, v2, v3, Atoi(d).value];
    }
  }

  /** The four numbers as the format prints them hold no separator and parse back. */
  lemma NumbersReadBack(f: HeaderFields)
    requires IsInt64(f.oldStart) && IsInt64(f.oldLines) && 0 <= f.newStart <= MaxInt64 && IsInt64(f.newLines)
    ensures ',' !in Itoa(f.oldStart) && ' ' !in Itoa(f.oldLines) && ',' !in Itoa(f.newStart) && ' ' !in Itoa(f.newLines)
    ensures Atoi(Itoa(f.oldStart)) == Ok(f.oldStart) && Atoi(Itoa(f.oldLines)) == Ok(f.oldLines)
    ensures Atoi(['+'] + Itoa(f.newStart)) == Ok(f.newStart) && Atoi(Itoa(f.newLines)) == Ok(f.newLines)
  {
    ItoaNoSeparator(f.oldStart);
    ItoaNoSeparator(f.oldLines);
    ItoaNoSeparator(f.newStart);
    ItoaNoSeparator(f.newLines);
    AtoiItoa(f.oldStart);
    AtoiItoa(f.oldLines);
    AtoiPlusItoa(f.newStart);
    AtoiItoa(f.newLines);
  }

  /**
   * Reading back a header the format printed gives the fields it was printed
   * from, when they are 64-bit ints and the new start is not negative (a
   * negative one prints as "+-n", which does not parse).
   */
  lemma ParseFormatHeader(f: HeaderFields)
    requires IsInt64(f.oldStart) && IsInt64(f.oldLines) && 0 <= f.newStart <= MaxInt64 && IsInt64(f.newLines)
    ensures ParseHeader(FormatHeader(f)) == Some(f)
  {
    NumbersReadBack(f);
    assert Closing("@@ " + f.section, 0) == Some(f.section) by {
      assert ("@@ " + f.section)[0..3] == "@@ ";
    }
    ParseHeaderText(Itoa(f.oldStart), Itoa(f.oldLines), Itoa(f.newStart), Itoa(f.newLines), "@@ " + f.section);
  }

  /** A header the format printed is rewritten to the same fields re-anchored at line. */
  lemma RewriteFormatHeader(f: HeaderFields, line: int)
    requires IsInt64(f.oldStart) && IsInt64(f.oldLines) && 0 <= f.newStart <= MaxInt64 && IsInt64(f.newLines)
    ensures RewriteHeader(FormatHeader(f), line) == FormatHeader(Moved(f, line))
  {
    ParseFormatHeader(f);
  }

  /** Without overflow, re-anchoring keeps the distance between the new and the old start. */
  lemma MovedKeepsOffset(f: HeaderFields, line: int)
    requires IsInt64(f.newStart - f.oldStart) && IsInt64(line + (f.newStart - f.oldStart))
    ensures Moved(f, line).newStart - Moved(f, line).oldStart == f.newStart - f.oldStart
    ensures Moved(f, line).oldLines == f.oldLines && Moved(f, line).newLines == f.newLines
  {
  }

  /** A hunk found where its header already says is left with the same header. */
  lemma RewriteInPlace(f: HeaderFields)
    requires IsInt64(f.oldStart) && IsInt64(f.oldLines) && 0 <= f.newStart <= MaxInt64 && IsInt64(f.newLines)
    requires IsInt64(f.newStart - f.oldStart)
    ensures RewriteHeader(FormatHeader(f), f.oldStart) == FormatHeader(f)
  {
    RewriteFormatHeader(f, f.oldStart);
    assert Moved(f, f.oldStart) == f;
  }

  /** Rewriting a rewritten header for the same line changes nothing more. */
  lemma RewriteIdempotent(f: HeaderFields, line: int)
    requires IsInt64(f.oldStart) && IsInt64(f.oldLines) && 0 <= f.newStart <= MaxInt64 && IsInt64(f.newLines)
    requires IsInt64(line) && IsInt64(f.newStart - f.oldStart) && 0 <= line + (f.newStart - f.oldStart) <= MaxInt64
    ensures RewriteHeader(RewriteHeader(FormatHeader(f), line), line) == RewriteHeader(FormatHeader(f), line)
  {
    RewriteFormatHeader(f, line);
    RewriteInPlace(Moved(f, line));
  }

  /**
   * A header whose numbers are followed by "@@" and the end of the line, with
   * no section text, has no "@@ " after its numbers and is rewritten to "".
   */
  lemma RewriteHeaderWithoutSection(oldStart: int, oldLines: int, newStart: int, newLines: int, line: int)
    ensures RewriteHeader(HeaderText(Itoa(oldStart), Itoa(oldLines), Itoa(newStart), Itoa(newLines), "@@\n"), line) == ""
  {
    ItoaNoSeparator(oldStart);
    ItoaNoSeparator(oldLines);
    ItoaNoSeparator(newStart);
    ItoaNoSeparator(newLines);
    ParseHeaderText(Itoa(oldStart), Itoa(oldLines), Itoa(newStart), Itoa(newLines), "@@\n");
  }

  /** After the first reading succeeds, parsing goes on from where it stopped. */
  lemma AfterOne(h: string, v1: int, i1: nat)
    requires HunkPrefix(h) && ReadNumberSpec(h, 4, ',') == (Ok(v1), i1)
    ensures ParseHeader(h) == ParseNumbers(h, i1, [v1])
  {
    assert [] + [v1] == [v1];
  }

  /** After the second reading succeeds. */
  lemma AfterTwo(h: string, v1: int, i1: nat, v2: int, i2: nat)
    requires HunkPrefix(h) && ReadNumberSpec(h, 4, ',') == (Ok(v1), i1)
    requires ReadNumberSpec(h, i1, ' ') == (Ok(v2), i2)
    ensures ParseHeader(h) == ParseNumbers(h, i2, [v1, v2])
  {
    AfterOne(h, v1, i1);
    assert [v1] + [v2] == [v1, v2];
  }

  /** After the third reading succeeds. */
  lemma AfterThree(h: string, v1: int, i1: nat, v2: int, i2: nat, v3: int, i3: nat)
    requires HunkPrefix(h) && ReadNumberSpec(h, 4, ',') == (Ok(v1), i1)
    requires ReadNumberSpec(h, i1, ' ') == (Ok(v2), i2)
    requires ReadNumberSpec(h, i2, ',') == (Ok(v3), i3)
    ensures ParseHeader(h) == ParseNumbers(h, i3, [v1, v2, v3])
  {
    AfterTwo(h, v1, i1, v2, i2);
    assert [v1, v2] + [v3] == [v1, v2, v3];
  }

  /** After all four readings succeed, only the closing "@@ " is left to check. */
  lemma AfterFour(h: string, v1: int, i1: nat, v2: int, i2: nat, v3: int, i3: nat, v4: int, i4: nat)
    requires HunkPrefix(h) && ReadNumberSpec(h, 4, ',') == (Ok(v1), i1)
    requires ReadNumberSpec(h, i1, ' ') == (Ok(v2), i2)
    requires ReadNumberSpec(h, i2, ',') == (Ok(v3), i3)
    requires ReadNumberSpec(h, i3, ' ') == (Ok(v4), i4)
    ensures ParseHeader(h)
            == (if i4 + 3 > |h| || h[i4] != '@' || h[i4 + 1] != '@' || h[i4 + 2] != ' ' then None
                else Some(HeaderFields(v1, v2, v3, v4, h[i4 + 3..])))
  {
    AfterThree(h, v1, i1, v2, i2, v3, i3);
    assert [v1, v2, v3] + [v4] == [v1, v2, v3, v4];
  }

  /** The reading half of rewriteDiffHunkHeader: the cursor threaded through the four readNumber calls. */
  method ReadDiffHunkHeader(header: string) returns (f: Option<HeaderFields>)
    ensures f == ParseHeader(header)
  {
    if |header| < 3 || header[0] != '@' || header[1] != '@' || header[2] != ' ' {
      return None;
    }
    var i := 4;
    var oldStart: Result<int>, oldLines: Result<int>, newStart: Result<int>, newLines: Result<int>;
    oldStart, i := ReadNumber(header, i, ',');
    if oldStart.Err? {
      ReadStep(header, 4, [], oldStart, i);
      return None;
    }
    ghost var i1 := i;
    oldLines, i := ReadNumber(header, i, ' ');
    if oldLines.Err? {
      AfterOne(header, oldStart.value, i1);
      ReadStep(header, i1, [oldStart.value], oldLines, i);
      return None;
    }
    ghost var i2 := i;
    newStart, i := ReadNumber(header, i, ',');
    if newStart.Err? {
      AfterTwo(header, oldStart.value, i1, oldLines.value, i2);
      ReadStep(header, i2, [oldStart.value, oldLines.value], newStart, i);
      return None;
    }
    ghost var i3 := i;
    newLines, i := ReadNumber(header, i, ' ');
    if newLines.Err? {
      AfterThree(header, oldStart.value, i1, oldLines.value, i2, newStart.value, i3);
      ReadStep(header, i3, [oldStart.value, oldLines.value, newStart.value], newLines, i);
      return None;
    }
    AfterFour(header, oldStart.value, i1, oldLines.value, i2, newStart.value, i3, newLines.value, i);
    if i + 3 > |header| || header[i] != '@' || header[i + 1] != '@' || header[i + 2] != ' ' {
      return None;
    }
    f := Some(HeaderFields(oldStart.value, oldLines.value, newStart.value, newLines.value, header[i + 3..]));
  }

  /** rewriteDiffHunkHeader: the fields read from the header, re-anchored at line and printed. */
  method RewriteDiffHunkHeader(header: string, line: int) returns (r: string)
    ensures r == RewriteHeader(header, line)
  {
    var f := ReadDiffHunkHeader(header);
    if f.None? {
      return "";
    }
    r := FormatHeader(Moved(f.value, line));
  }

  /** The search text of a hunk occurs in the ancestor. */
  predicate Found(ancestor: string, h: Hunk) {
    IndexOf(ancestor, SearchText(h.lines)) != -1
  }

  /** The line the first occurrence of a found hunk's search text starts on. */
  function Anchor(ancestor: string, h: Hunk): nat
    requires Found(ancestor, h)
  {
    LineAt(ancestor, IndexOf(ancestor, SearchText(h.lines)))
  }

  /** A found hunk re-anchored: the rewritten header followed by the rebuilt body. */
  function Block(ancestor: string, h: Hunk): string
    requires Found(ancestor, h)
  {
    RewriteHeader(h.header, Anchor(ancestor, h)) + Rebuilt(h.lines)
  }

  /** The hunks re-anchored in order; a patch conflict at the first hunk that is not found. */
  function RecountHunks(ancestor: string, hunks: seq<Hunk>): Result<string> {
    if hunks == [] then Ok("")
    else
      match RecountHunks(ancestor, hunks[..|hunks| - 1])
      case Err(e) => Err(e)
      case Ok(body) =>
        var h := hunks[|hunks| - 1];
        if !Found(ancestor, h) then Err(PatchConflict) else Ok(body + Block(ancestor, h))
  }

  /**
   * recountPatch on a patch already rendered and split into hunks: the patch
   * text before its first '@' (a slice panic when there is none) followed by
   * the re-anchored hunks.
   */
  function Recount(ancestor: string, p: Patch): Result<string> {
    var at := IndexOf(p.text, "@");
    if at == -1 then Err(Panic("slice bounds out of range"))
    else
      match RecountHunks(ancestor, p.hunks)
      case Err(e) => Err(e)
      case Ok(body) => Ok(p.text[..at] + body)
  }

  /** An error on a prefix of the hunks is the error of all of them. */
  lemma {:induction false} RecountHunksErrPersists(ancestor: string, hunks: seq<Hunk>, k: nat)
    requires k <= |hunks| && RecountHunks(ancestor, hunks[..k]).Err?
    ensures RecountHunks(ancestor, hunks) == RecountHunks(ancestor, hunks[..k])
    decreases |hunks| - k
  {
    if k < |hunks| {
      assert hunks[..|hunks| - 1][..k] == hunks[..k];
      RecountHunksErrPersists(ancestor, hunks[..|hunks| - 1], k);
    } else {
      assert hunks[..k] == hunks;
    }
  }

  /** The hunks up to i + 1 re-anchor as those up to i followed by hunk i's block. */
  lemma RecountHunksNext(ancestor: string, hunks: seq<Hunk>, i: nat)
    requires i < |hunks| && RecountHunks(ancestor, hunks[..i]).Ok? && Found(ancestor, hunks[i])
    ensures RecountHunks(ancestor, hunks[..i + 1]) == Ok(RecountHunks(ancestor, hunks[..i]).value + Block(ancestor, hunks[i]))
  {
    assert hunks[..i + 1][..i] == hunks[..i];
  }

  /** A hunk that is not found, after hunks that all were, is the patch conflict of the whole recount. */
  lemma RecountHunksStop(ancestor: string, hunks: seq<Hunk>, i: nat)
    requires i < |hunks| && RecountHunks(ancestor, hunks[..i]).Ok? && !Found(ancestor, hunks[i])
    ensures RecountHunks(ancestor, hunks) == Err(PatchConflict)
  {
    assert hunks[..i + 1][..i] == hunks[..i];
    RecountHunksErrPersists(ancestor, hunks, i + 1);
  }

  /** One turn of recountPatch's loop: the hunk's block, or a conflict when its search text is not in the ancestor. */
  method RecountHunk(ancestor: string, h: Hunk) returns (r: Result<string>)
    ensures r == if Found(ancestor, h) then Ok(Block(ancestor, h)) else Err(PatchConflict)
  {
    var hunk, search := HunkText(h.lines);
    var index := IndexOf(ancestor, search);
    if index == -1 {
      return Err(PatchConflict);
    }
    var line := LineNumber(ancestor, index);
    var header := RewriteDiffHunkHeader(h.header, line);
    r := Ok(header + hunk);
  }

  /** The loop of recountPatch over the hunks: the re-anchored blocks in order, or the first conflict. */
  method RecountHunksText(ancestor: string, hunks: seq<Hunk>) returns (r: Result<string>)
    ensures r == RecountHunks(ancestor, hunks)
  {
    var body := "";
    for i := 0 to |hunks|
      invariant RecountHunks(ancestor, hunks[..i]) == Ok(body)
    {
      var block := RecountHunk(ancestor, hunks[i]);
      if block.Err? {
        RecountHunksStop(ancestor, hunks, i);
        return block;
      }
      RecountHunksNext(ancestor, hunks, i);
      body := body + block.value;
    }
    assert hunks[..|hunks|] == hunks;
    r := Ok(body);
  }

  /** recountPatch: the patch text before its first '@', followed by the re-anchored hunks. */
  method RecountPatchText(ancestor: string, p: Patch) returns (r: Result<string>)
    ensures r == Recount(ancestor, p)
  {
    var at := IndexOf(p.text, "@");
    if at == -1 {
      return Err(Panic("slice bounds out of range"));
    }
    var body := RecountHunksText(ancestor, p.hunks);
    if body.Err? {
      return body;
    }
    r := Ok(p.text[..at] + body.value);
  }

  /** The hunks re-anchor exactly when every one of them is found. */
  lemma {:induction false} RecountHunksOk(ancestor: string, hunks: seq<Hunk>)
    ensures RecountHunks(ancestor, hunks).Ok? <==> forall i :: 0 <= i < |hunks| ==> Found(ancestor, hunks[i])
    decreases |hunks|
  {
    if hunks != [] {
      var init := hunks[..|hunks| - 1];
      RecountHunksOk(ancestor, init);
      assert forall i :: 0 <= i < |init| ==> init[i] == hunks[i];
    }
  }

  /** A failing recount is a slice panic when the patch text has no '@', and otherwise a patch conflict. */
  lemma RecountOutcome(ancestor: string, p: Patch)
    ensures Recount(ancestor, p).Ok? <==>
              IndexOf(p.text, "@") != -1 && forall i :: 0 <= i < |p.hunks| ==> Found(ancestor, p.hunks[i])
    ensures IndexOf(p.text, "@") == -1 ==> Recount(ancestor, p) == Err(Panic("slice bounds out of range"))
    ensures IndexOf(p.text, "@") != -1 && Recount(ancestor, p).Err? ==> Recount(ancestor, p) == Err(PatchConflict)
  {
    RecountHunksOk(ancestor, p.hunks);
    RecountHunksErrIsConflict(ancestor, p.hunks);
  }

  lemma {:induction false} RecountHunksErrIsConflict(ancestor: string, hunks: seq<Hunk>)
    ensures RecountHunks(ancestor, hunks).Err? ==> RecountHunks(ancestor, hunks) == Err(PatchConflict)
    decreases |hunks|
  {
    if hunks != [] {
      RecountHunksErrIsConflict(ancestor, hunks[..|hunks| - 1]);
    }
  }


  /** A hunk with only added lines searches for the empty text, which is found at the start: it anchors at line 1. */
  lemma AdditionsAnchorAtLineOne(ancestor: string, h: Hunk)
    requires forall i :: 0 <= i < |h.lines| ==> h.lines[i].origin == Addition
    ensures Found(ancestor, h) && Anchor(ancestor, h) == 1
  {
    AdditionsSearchNothing(h.lines);
    assert OccursAt(ancestor, "", 0);
    assert ancestor[..0] == "";
  }

  lemma {:induction false} AdditionsSearchNothing(lines: seq<DiffLine>)
    requires forall i :: 0 <= i < |lines| ==> lines[i].origin == Addition
    ensures SearchText(lines) == ""
    decreases |lines|
  {
    if lines != [] {
      AdditionsSearchNothing(lines[..|lines| - 1]);
    }
  }

  /**
   * A hunk whose search text first occurs right after n whole lines of the
   * ancestor is anchored at line n + 1.
   */
  lemma AnchorAfterLines(ls: seq<string>, h: Hunk, rest: string)
    requires forall i :: 0 <= i < |ls| ==> '\n' !in ls[i]
    requires forall i :: 0 <= i < |Lines(ls)| ==> !OccursAt(Lines(ls) + SearchText(h.lines) + rest, SearchText(h.lines), i)
    ensures Found(Lines(ls) + SearchText(h.lines) + rest, h)
    ensures Anchor(Lines(ls) + SearchText(h.lines) + rest, h) == |ls| + 1
  {
    var s := SearchText(h.lines);
    var anc := Lines(ls) + s + rest;
    assert anc[|Lines(ls)|..|Lines(ls)| + |s|] == s;
    assert OccursAt(anc, s, |Lines(ls)|);
    assert IndexOf(anc, s) == |Lines(ls)|;
    assert anc == Lines(ls) + (s + rest);
    LineAtAfterLines(ls, s + rest);
  }

  /**
   * Re-anchoring a hunk whose header was printed in the unified format moves
   * the old start to the line its text was found on, keeps both lengths and
   * the section text, and moves the new start by the same amount.
   */
  lemma BlockOfFormattedHunk(ancestor: string, f: HeaderFields, lines: seq<DiffLine>)
    requires IsInt64(f.oldStart) && IsInt64(f.oldLines) && 0 <= f.newStart <= MaxInt64 && IsInt64(f.newLines)
    requires Found(ancestor, Hunk(FormatHeader(f), lines))
    ensures var h := Hunk(FormatHeader(f), lines);
      Block(ancestor, h) == FormatHeader(Moved(f, Anchor(ancestor, h))) + Rebuilt(lines)
  {
    RewriteFormatHeader(f, Anchor(ancestor, Hunk(FormatHeader(f), lines)));
  }
}
