/** The PDF parser service: reading and parsing a PDF (the `pdf-parse`
    library and the file system are the oracles `read` and `parse`), with
    every failure wrapped in a `TemplateError`, and `extractSections`, the
    scan of a template's text for the Markdown headings
    `/^#{1,3}\s+(.+)$/gm` matches. */
module PdfParser {
  import opened Wrappers
  import opened Strings
  import opened Errors

  type Bytes = seq<bv8>

  /** What `parseFile` and `parseBuffer` return. The `info` object is not
      part of this model. */
  datatype ParsedPdf = ParsedPdf(text: string, pageCount: nat)

  const ParseFailurePrefix := "Failed to parse PDF: "

  function ParseFailure(t: Thrown): (e: AppError)
    ensures e.TemplateError? && e.StatusCode() == 400
    ensures |e.message| >= |ParseFailurePrefix| && e.message[..|ParseFailurePrefix|] == ParseFailurePrefix
    ensures e.message[|ParseFailurePrefix|..] == t.message
  {
    TemplateError(ParseFailurePrefix + t.message)
  }

  /** `parseBuffer`: the library's result, or its failure wrapped. */
  function ParseBuffer(buffer: Bytes, parse: Bytes -> Result<ParsedPdf, Thrown>): (r: Result<ParsedPdf, AppError>)
    ensures r.Success? <==> parse(buffer).Success?
    ensures r.Success? ==> r.value == parse(buffer).value
    ensures r.Failure? ==> r.error == ParseFailure(parse(buffer).error)
  {
    match parse(buffer)
    case Success(p) => Success(p)
    case Failure(t) => Failure(ParseFailure(t))
  }

  /** `parseFile`: reading the file and parsing it sit in one guard, so a
      read failure is wrapped the same way as a parse failure. */
  function ParseFile(path: string, read: string -> Result<Bytes, Thrown>, parse: Bytes -> Result<ParsedPdf, Thrown>)
    : (r: Result<ParsedPdf, AppError>)
    ensures r.Success? <==> read(path).Success? && parse(read(path).value).Success?
    ensures r.Success? ==> r.value == parse(read(path).value).value
    ensures r.Failure? ==> r.error.TemplateError?
    ensures read(path).Failure? ==> r == Failure(ParseFailure(read(path).error))
  {
    match read(path)
    case Failure(t) => Failure(ParseFailure(t))
    case Success(bytes) =>
      match parse(bytes)
      case Success(p) => Success(p)
      case Failure(t) => Failure(ParseFailure(t))
  }

  /** Parsing a file is parsing the buffer read from it. */
  lemma ParseFileReadsThenParses(path: string, read: string -> Result<Bytes, Thrown>, parse: Bytes -> Result<ParsedPdf, Thrown>)
    requires read(path).Success?
    ensures ParseFile(path, read, parse) == ParseBuffer(read(path).value, parse)
  {
  }

  // ---------------------------------------------------------------------
  // extractSections: /^#{1,3}\s+(.+)$/gm

  function Min(a: nat, b: nat): nat { if a <= b then a else b }

  predicate IsHash(c: char) { c == '#' }

  predicate InLine(c: char) { !IsLineTerminator(c) }

  /** Where the run of `inClass` characters that starts at `i` ends. */
  function RunEnd(s: string, i: nat, inClass: char -> bool): (e: nat)
    requires i <= |s|
    ensures i <= e <= |s|
    ensures e < |s| ==> !inClass(s[e])
    decreases |s| - i
  {
    if i < |s| && inClass(s[i]) then RunEnd(s, i + 1, inClass) else i
  }

  /** Every character of the run is in the class. */
  lemma {:induction false} RunEndAll(s: string, i: nat, inClass: char -> bool)
    requires i <= |s|
    ensures forall j :: i <= j < RunEnd(s, i, inClass) ==> inClass(s[j])
    decreases |s| - i
  {
    if i < |s| && inClass(s[i]) {
      RunEndAll(s, i + 1, inClass);
    }
  }

  /** `s` holds `line` from `p` on. */
  predicate HoldsAt(s: string, p: nat, line: string) {
    p + |line| <= |s| && forall j :: 0 <= j < |line| ==> s[p + j] == line[j]
  }

  /** A run in `line` that stops inside it, or at its end where `s` has no
      more of the class, stops at the same place in `s`. */
  lemma {:induction false} RunEndIn(s: string, p: nat, line: string, k: nat, inClass: char -> bool)
    requires HoldsAt(s, p, line) && k <= |line|
    requires RunEnd(line, k, inClass) < |line| || p + |line| == |s| || !inClass(s[p + |line|])
    ensures RunEnd(s, p + k, inClass) == p + RunEnd(line, k, inClass)
    decreases |line| - k
  {
    if k < |line| {
      assert s[p + k] == line[k];
      if inClass(line[k]) {
        RunEndIn(s, p, line, k + 1, inClass);
      }
    }
  }

  /** The last position in `[lo, hi)` that holds no line terminator. */
  function LastInLine(s: string, lo: nat, hi: nat): (r: Option<nat>)
    requires lo <= hi <= |s|
    ensures r.Some? ==> lo <= r.value < hi && InLine(s[r.value])
    decreases hi
  {
    if hi == lo then None
    else if InLine(s[hi - 1]) then Some(hi - 1)
    else LastInLine(s, lo, hi - 1)
  }

  /** The `#` run `#{1,3}` takes at `p`: as many as it can, since with
      fewer a `#` would be left where `\s` is needed. */
  function Hashes(s: string, p: nat): (h: nat)
    requires p <= |s|
    ensures h <= 3 && p + h <= |s|
  {
    Min(3, RunEnd(s, p, IsHash) - p)
  }

  /** `^` in multiline mode: the start of the text or just after a line
      terminator. */
  predicate LineStart(s: string, p: nat) {
    p == 0 || (0 < p <= |s| && IsLineTerminator(s[p - 1]))
  }

  /** A match found in the text: where it starts, where its group starts,
      where it ends. */
  datatype Match = Match(start: nat, content: nat, end: nat)

  /** A match of `^#{1,3}\s+(.+)$` at `p`, with the engine's backtracking
      worked out. `\s+` first takes the whole whitespace run, line breaks
      included, up to `c`; when a character follows, `.+` runs from it to
      the end of its line. When the run reaches the end of the text, `\s+`
      gives characters back until the one left for `.+` is not a line
      terminator, and `.+` takes that one character. */
  function MatchAt(s: string, p: nat): (r: Option<Match>)
    requires p <= |s|
    ensures r.Some? ==> r.value.start == p < r.value.content < r.value.end <= |s|
  {
    var h := p + Hashes(s, p);
    var c := RunEnd(s, h, IsWhite);
    if !LineStart(s, p) || h == p || c == h then None
    else if c < |s| then Some(Match(p, c, RunEnd(s, c, InLine)))
    else
      match LastInLine(s, h + 1, c)
      case None => None
      case Some(k) => Some(Match(p, k, k + 1))
  }

  /** `headerPattern.exec(text)` with `lastIndex == i`: the first match
      starting at `i` or later. */
  function Exec(s: string, i: nat): (r: Option<Match>)
    requires i <= |s|
    ensures r.Some? ==> i <= r.value.start < r.value.content < r.value.end <= |s|
    decreases |s| - i
  {
    if MatchAt(s, i).Some? then MatchAt(s, i)
    else if i == |s| then None
    else Exec(s, i + 1)
  }

  /** The captured groups of the matches from `lastIndex == i` on. */
  function GroupsFrom(s: string, i: nat): seq<string>
    requires i <= |s|
    decreases |s| - i
  {
    match Exec(s, i)
    case None => []
    case Some(m) => [s[m.content..m.end]] + GroupsFrom(s, m.end)
  }

  /** The sections: every captured group, trimmed. */
  function Sections(text: string): seq<string> {
    TrimAll(GroupsFrom(text, 0))
  }

  /** `extractSections`: calls `exec` until it finds no more, pushing each
      trimmed group. */
  method ExtractSections(text: string) returns (sections: seq<string>)
    ensures sections == Sections(text)
  {
    sections := [];
    var lastIndex := 0;
    var m := Exec(text, lastIndex);
    while m.Some?
      invariant lastIndex <= |text|
      invariant m == Exec(text, lastIndex)
      invariant sections + TrimAll(GroupsFrom(text, lastIndex)) == Sections(text)
      decreases |text| - lastIndex
    {
      ExtractStep(text, lastIndex, sections);
      sections := sections + [Trim(text[m.value.content..m.value.end])];
      lastIndex := m.value.end;
      m := Exec(text, lastIndex);
    }
  }

  /** One turn of the loop keeps the sections found so far and those
      still to come adding up to all of them. */
  lemma ExtractStep(text: string, i: nat, sections: seq<string>)
    requires i <= |text| && Exec(text, i).Some?
    requires sections + TrimAll(GroupsFrom(text, i)) == Sections(text)
    ensures var m := Exec(text, i).value;
      (sections + [Trim(text[m.content..m.end])]) + TrimAll(GroupsFrom(text, m.end)) == Sections(text)
  {
    var m := Exec(text, i).value;
    var g := text[m.content..m.end];
    assert GroupsFrom(text, i) == [g] + GroupsFrom(text, m.end);
    TrimAllConcat([g], GroupsFrom(text, m.end));
    assert TrimAll([g]) == [Trim(g)];
  }

  // ---------------------------------------------------------------------
  // Sections line by line

  predicate NoTerminator(line: string) {
    forall i :: 0 <= i < |line| ==> InLine(line[i])
  }

  /** A heading line: one to three `#`, whitespace, then text that is not
      all whitespace, on the same line. */
  predicate IsHeaderLine(line: string) {
    var h := Hashes(line, 0);
    && NoTerminator(line)
    && 0 < h < RunEnd(line, h, IsWhite) < |line|
  }

  /** A line no match can start at: it does not open with `#`, or its `#`
      run is followed by something other than whitespace (a fourth `#`
      included). */
  predicate IsPlainLine(line: string) {
    var h := Hashes(line, 0);
    && NoTerminator(line)
    && (h == 0 || (h < |line| && !IsWhite(line[h])))
  }

  /** What a heading line captures: the rest of the line after the `#`
      run and the whitespace. Its section is this, trimmed. */
  function HeaderText(line: string): string
    requires IsHeaderLine(line)
  {
    line[RunEnd(line, Hashes(line, 0), IsWhite)..]
  }

  /** The captures of a list of lines, read line by line. */
  function Headers(lines: seq<string>): (r: seq<string>)
    ensures |r| <= |lines|
  {
    if lines == [] then []
    else (if IsHeaderLine(lines[0]) then [HeaderText(lines[0])] else []) + Headers(lines[1..])
  }

  /** `line` is a whole line of `s` at `p`: a line starts there, and a line
      break or the end of the text follows it. */
  predicate LineAt(s: string, p: nat, line: string) {
    && HoldsAt(s, p, line)
    && LineStart(s, p)
    && (p + |line| == |s| || IsLineTerminator(s[p + |line|]))
  }

  /** The `#` run at a whole line is the line's own. */
  lemma HashesAt(s: string, p: nat, line: string)
    requires LineAt(s, p, line)
    ensures Hashes(s, p) == Hashes(line, 0)
  {
    RunEndIn(s, p, line, 0, IsHash);
  }

  /** At a heading line the match takes the whole line. */
  lemma MatchAtHeaderLine(s: string, p: nat, line: string)
    requires LineAt(s, p, line) && IsHeaderLine(line)
    ensures MatchAt(s, p) == Some(Match(p, p + RunEnd(line, Hashes(line, 0), IsWhite), p + |line|))
  {
    var h := Hashes(line, 0);
    var c := RunEnd(line, h, IsWhite);
    HashesAt(s, p, line);
    RunEndIn(s, p, line, h, IsWhite);
    assert RunEnd(line, c, InLine) == |line|;
    RunEndIn(s, p, line, c, InLine);
  }

  /** No match starts at a plain line. */
  lemma MatchAtPlainLine(s: string, p: nat, line: string)
    requires LineAt(s, p, line) && IsPlainLine(line)
    ensures MatchAt(s, p).None?
  {
    var h := Hashes(line, 0);
    HashesAt(s, p, line);
    if h > 0 {
      assert RunEnd(line, h, IsWhite) == h;
      RunEndIn(s, p, line, h, IsWhite);
    }
  }

  /** Inside a line no match starts, so `exec` from there goes on to the
      next line, or finds nothing at the end of the text. */
  lemma {:induction false} ExecInsideLine(s: string, p: nat, line: string, i: nat)
    requires LineAt(s, p, line) && NoTerminator(line)
    requires p < i <= p + |line|
    ensures Exec(s, i) == if p + |line| == |s| then None else Exec(s, p + |line| + 1)
    decreases p + |line| - i
  {
    assert s[i - 1] == line[i - 1 - p];
    assert !LineStart(s, i);
    if i < p + |line| {
      ExecInsideLine(s, p, line, i + 1);
    }
  }

  lemma GroupsAtSameExec(s: string, i: nat, j: nat)
    requires i <= |s| && j <= |s| && Exec(s, i) == Exec(s, j)
    ensures GroupsFrom(s, i) == GroupsFrom(s, j)
  {
  }

  /** The tail of a line, read in the text. */
  lemma SliceAt(s: string, p: nat, line: string, c: nat)
    requires HoldsAt(s, p, line) && c <= |line|
    ensures s[p + c..p + |line|] == line[c..]
  {
    forall j | 0 <= j < |line| - c
      ensures s[p + c..p + |line|][j] == line[c..][j]
    {
      assert s[p + (c + j)] == line[c + j];
    }
  }

  /** A heading line captures its text; then the scan goes on at the next
      line. */
  lemma GroupsAtHeaderLine(s: string, p: nat, line: string)
    requires LineAt(s, p, line) && IsHeaderLine(line)
    ensures GroupsFrom(s, p) == [HeaderText(line)] + (if p + |line| == |s| then [] else GroupsFrom(s, p + |line| + 1))
  {
    var c := p + RunEnd(line, Hashes(line, 0), IsWhite);
    var e := p + |line|;
    MatchAtHeaderLine(s, p, line);
    SliceAt(s, p, line, c - p);
    ExecInsideLine(s, p, line, e);
    GroupsOfMatchedLine(s, p, c, e, HeaderText(line));
  }

  /** A match that ends where the scan goes on at the next line. */
  lemma GroupsOfMatchedLine(s: string, p: nat, c: nat, e: nat, g: string)
    requires p <= |s| && MatchAt(s, p) == Some(Match(p, c, e)) && s[c..e] == g
    requires Exec(s, e) == if e == |s| then None else Exec(s, e + 1)
    ensures GroupsFrom(s, p) == [g] + (if e == |s| then [] else GroupsFrom(s, e + 1))
  {
    if e < |s| {
      GroupsAtSameExec(s, e, e + 1);
    }
  }

  /** A plain line captures nothing; the scan goes on at the next line. */
  lemma GroupsAtPlainLine(s: string, p: nat, line: string)
    requires LineAt(s, p, line) && IsPlainLine(line)
    ensures GroupsFrom(s, p) == if p + |line| == |s| then [] else GroupsFrom(s, p + |line| + 1)
  {
    MatchAtPlainLine(s, p, line);
    if |line| > 0 {
      ExecInsideLine(s, p, line, p + 1);
    }
    if p + |line| < |s| {
      GroupsAtSameExec(s, p, p + |line| + 1);
    }
  }

  /** Scanning a text made of heading lines and plain lines, one per
      line, from the start of one of them on, captures once per heading
      line, in document order. */
  lemma {:induction false} GroupsOfLinesAt(s: string, p: nat, lines: seq<string>)
    requires |lines| > 0 && LineStart(s, p)
    requires HoldsAt(s, p, Join(lines, "\n")) && p + |Join(lines, "\n")| == |s|
    requires forall i :: 0 <= i < |lines| ==> IsHeaderLine(lines[i]) || IsPlainLine(lines[i])
    ensures GroupsFrom(s, p) == Headers(lines)
    decreases |lines|
  {
    var line := lines[0];
    var text := Join(lines, "\n");
    if |lines| == 1 {
      assert text == line;
      assert LineAt(s, p, line);
    } else {
      var rest := Join(lines[1..], "\n");
      assert text == line + "\n" + rest;
      var e := p + |line|;
      assert HoldsAt(s, p, line) by {
        forall j | 0 <= j < |line| ensures s[p + j] == line[j] {
          assert text[j] == line[j];
        }
      }
      assert s[e] == text[|line|] == '\n';
      assert HoldsAt(s, e + 1, rest) by {
        forall j | 0 <= j < |rest| ensures s[e + 1 + j] == rest[j] {
          assert s[p + (|line| + 1 + j)] == text[|line| + 1 + j];
        }
      }
      assert LineAt(s, p, line);
      GroupsOfLinesAt(s, e + 1, lines[1..]);
    }
    if IsHeaderLine(line) {
      GroupsAtHeaderLine(s, p, line);
    } else {
      GroupsAtPlainLine(s, p, line);
      PlainIsNotHeader(line);
    }
  }

  /** Scanning a text made of heading lines and plain lines, one per
      line, gives the trimmed text of each heading line, in document order,
      and nothing for the plain lines. */
  lemma SectionsOfLines(lines: seq<string>)
    requires |lines| > 0
    requires forall i :: 0 <= i < |lines| ==> IsHeaderLine(lines[i]) || IsPlainLine(lines[i])
    ensures Sections(Join(lines, "\n")) == TrimAll(Headers(lines))
  {
    var s := Join(lines, "\n");
    assert HoldsAt(s, 0, s);
    GroupsOfLinesAt(s, 0, lines);
  }

  /** A line opening with four `#`, or with a `#` run followed directly by
      text, is plain: it gives no section. */
  lemma DeepOrUnspacedIsPlain(line: string)
    requires NoTerminator(line)
    requires (|line| >= 4 && line[..4] == "####")
          || (0 < RunEnd(line, 0, IsHash) < |line| && !IsWhite(line[RunEnd(line, 0, IsHash)]))
    ensures IsPlainLine(line)
    ensures !IsHeaderLine(line)
  {
    var r := RunEnd(line, 0, IsHash);
    RunEndAll(line, 0, IsHash);
    if |line| >= 4 && line[..4] == "####" {
      assert line[0] == '#' && line[1] == '#' && line[2] == '#' && line[3] == '#';
      assert RunEnd(line, 3, IsHash) == RunEnd(line, 4, IsHash);
      assert RunEnd(line, 1, IsHash) == RunEnd(line, 2, IsHash) == RunEnd(line, 3, IsHash);
      assert RunEnd(line, 0, IsHash) == RunEnd(line, 1, IsHash);
    }
    if r > 3 {
      assert line[3] == '#';
      assert Hashes(line, 0) == 3;
    } else {
      assert Hashes(line, 0) == r;
    }
    PlainIsNotHeader(line);
  }

  /** A plain line is not a heading line. */
  lemma PlainIsNotHeader(line: string)
    requires IsPlainLine(line)
    ensures !IsHeaderLine(line)
  {
    var h := Hashes(line, 0);
    if h > 0 {
      assert RunEnd(line, h, IsWhite) == h;
    }
  }

  /** `\s+` may cross a line break: a lone `#` line takes the next line
      as its section. */
  lemma LoneHashTakesNextLine()
    ensures Sections("#\nIntro") == ["Intro"]
  {
    var s := "#\nIntro";
    LoneHashMatch();
    assert Exec(s, 7).None?;
    assert s[2..7] == "Intro";
    assert GroupsFrom(s, 0) == ["Intro"];
    assert Trim("Intro") == "Intro";
  }

  lemma LoneHashMatch()
    ensures MatchAt("#\nIntro", 0) == Some(Match(0, 2, 7))
  {
    var s := "#\nIntro";
    assert RunEnd(s, 0, IsHash) == 1;
    assert RunEnd(s, 1, IsWhite) == 2;
    assert RunEnd(s, 2, InLine) == 7 by {
      assert InLine(s[2]) && InLine(s[3]) && InLine(s[4]) && InLine(s[5]) && InLine(s[6]);
      assert RunEnd(s, 5, InLine) == 7;
      assert RunEnd(s, 3, InLine) == 7;
    }
  }

  /** A heading with only spaces after it at the end of the text captures
      one space, which trims to an empty section. */
  lemma BlankHeadingAtEnd()
    ensures Sections("#  ") == [""]
  {
    var u := "#  ";
    assert RunEnd(u, 0, IsHash) == 1;
    assert RunEnd(u, 1, IsWhite) == 3;
    assert LastInLine(u, 2, 3) == Some(2);
    assert Exec(u, 0) == Some(Match(0, 2, 3));
    assert Exec(u, 3).None?;
    assert u[2..3] == " ";
    assert GroupsFrom(u, 0) == [" "];
    assert Trim(" ") == "";
  }

  /** Text without `#` has no sections. */
  lemma {:induction false} NoHashNoSections(text: string, i: nat)
    requires i <= |text|
    requires forall j :: 0 <= j < |text| ==> text[j] != '#'
    ensures GroupsFrom(text, i) == []
    decreases |text| - i
  {
    assert RunEnd(text, i, IsHash) == i;
    if i < |text| {
      NoHashNoSections(text, i + 1);
    }
  }
}
