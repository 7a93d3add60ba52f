/** The pure text helpers of the Jira client: flattening an Atlassian
    Document Format (ADF) tree to text, rendering a description, and
    turning the acceptance-criteria text found in a description into a
    list of criteria. */
module JiraText {
  import opened Wrappers
  import opened Strings

  // ---------------------------------------------------------------------
  // Descriptions and ADF trees

  /** A JSON value as the helpers see it. `Falsy` is null, undefined,
      false, 0 or NaN; `Prim` a truthy number or boolean with its `String()`
      rendering; `Obj` an object (an ADF node) with its `type` and `text`
      members when they are strings and, when `hasContent`, its `content`
      member, an array. The empty string is `Str("")`. */
  datatype AdfValue =
    | Falsy
    | Str(s: string)
    | Prim(rendered: string)
    | Obj(nodeType: Option<string>, text: Option<string>, hasContent: bool, content: seq<AdfValue>)

  predicate Truthy(v: AdfValue) {
    !v.Falsy? && !(v.Str? && v.s == "")
  }

  /** `extractTextFromADF`: a string is its own text, a text node its
      `text` (or ''), a node with a `content` array the texts of its
      children joined by one space, and anything else ''. */
  function ExtractText(v: AdfValue): string
    decreases v
  {
    match v
    case Falsy => ""
    case Str(s) => s
    case Prim(_) => ""
    case Obj(nodeType, text, hasContent, cs) =>
      if nodeType == Some("text") then OrElse(text, "")
      else if hasContent then Join(seq(|cs|, i requires 0 <= i < |cs| => ExtractText(cs[i])), " ")
      else ""
  }

  /** The text leaves of a tree in document order: strings and the texts of
      text nodes. This is the reference the flattening is checked against. */
  function Leaves(v: AdfValue): seq<string>
    decreases v
  {
    match v
    case Falsy => []
    case Str(s) => [s]
    case Prim(_) => []
    case Obj(nodeType, text, hasContent, cs) =>
      if nodeType == Some("text") then [OrElse(text, "")]
      else if hasContent then Flatten(seq(|cs|, i requires 0 <= i < |cs| => Leaves(cs[i])))
      else []
  }

  function Flatten(xss: seq<seq<string>>): seq<string>
    decreases |xss|
  {
    if xss == [] then [] else xss[0] + Flatten(xss[1..])
  }

  /** `s` with every space removed. */
  function DropSpaces(s: string): string
    decreases |s|
  {
    if s == [] then [] else (if s[0] == ' ' then [] else [s[0]]) + DropSpaces(s[1..])
  }

  lemma {:induction false} DropSpacesAppend(a: string, b: string)
    ensures DropSpaces(a + b) == DropSpaces(a) + DropSpaces(b)
    decreases |a|
  {
    if a == [] {
      assert a + b == b;
    } else {
      assert (a + b)[0] == a[0] && (a + b)[1..] == a[1..] + b;
      DropSpacesAppend(a[1..], b);
    }
  }

  lemma {:induction false} DropSpacesJoin(xs: seq<string>)
    ensures DropSpaces(Join(xs, " ")) == DropSpaces(Concat(xs))
    decreases |xs|
  {
    if |xs| == 1 {
      assert xs[1..] == [];
      assert Concat(xs) == xs[0] + [];
      assert xs[0] + [] == xs[0];
    } else if |xs| > 1 {
      DropSpacesAppend(xs[0] + " ", Join(xs[1..], " "));
      DropSpacesAppend(xs[0], " ");
      DropSpacesAppend(xs[0], Concat(xs[1..]));
      DropSpacesJoin(xs[1..]);
      assert DropSpaces(" ") == [];
    }
  }

  lemma {:induction false} ConcatFlatten(xss: seq<seq<string>>)
    ensures Concat(Flatten(xss)) == Concat(seq(|xss|, i requires 0 <= i < |xss| => Concat(xss[i])))
    decreases |xss|
  {
    if xss != [] {
      ConcatAppend(xss[0], Flatten(xss[1..]));
      ConcatFlatten(xss[1..]);
      var whole := seq(|xss|, i requires 0 <= i < |xss| => Concat(xss[i]));
      assert whole[1..] == seq(|xss| - 1, i requires 0 <= i < |xss| - 1 => Concat(xss[1..][i]));
    }
  }

  /** Space-insensitive equality of two lists of strings, piece by piece,
      carries over to their concatenations. */
  lemma {:induction false} DropSpacesConcatPointwise(xs: seq<string>, ys: seq<string>)
    requires |xs| == |ys|
    requires forall i :: 0 <= i < |xs| ==> DropSpaces(xs[i]) == DropSpaces(ys[i])
    ensures DropSpaces(Concat(xs)) == DropSpaces(Concat(ys))
    decreases |xs|
  {
    if xs != [] {
      DropSpacesAppend(xs[0], Concat(xs[1..]));
      DropSpacesAppend(ys[0], Concat(ys[1..]));
      DropSpacesConcatPointwise(xs[1..], ys[1..]);
    }
  }

  /** The flattening keeps every text leaf, in document order, and adds
      nothing but spaces between them. */
  lemma {:induction false} ExtractTextKeepsLeaves(v: AdfValue)
    ensures DropSpaces(ExtractText(v)) == DropSpaces(Concat(Leaves(v)))
    decreases v
  {
    match v
    case Falsy =>
    case Str(s) =>
      assert [s][1..] == [];
      assert Concat([s]) == s + [];
      assert s + [] == s;
    case Prim(_) =>
    case Obj(nodeType, text, hasContent, cs) =>
      if nodeType == Some("text") {
        var t := OrElse(text, "");
        assert [t][1..] == [];
        assert Concat([t]) == t + [];
        assert t + [] == t;
      } else if hasContent {
        var texts := seq(|cs|, i requires 0 <= i < |cs| => ExtractText(cs[i]));
        var leaves := seq(|cs|, i requires 0 <= i < |cs| => Leaves(cs[i]));
        var joined := seq(|cs|, i requires 0 <= i < |cs| => Concat(leaves[i]));
        forall i | 0 <= i < |cs| ensures DropSpaces(texts[i]) == DropSpaces(joined[i]) {
          ExtractTextKeepsLeaves(cs[i]);
        }
        DropSpacesJoin(texts);
        DropSpacesConcatPointwise(texts, joined);
        ConcatFlatten(leaves);
      }
  }

  /** A paragraph of two text nodes flattens to their texts with one space
      between; a text node's own content is ignored; a node with an empty
      content array gives ''. */
  lemma ExtractTextExamples()
    ensures var hello := Obj(Some("text"), Some("Hello"), false, []);
      var world := Obj(Some("text"), Some("world"), true, [Str("ignored")]);
      var doc := Obj(Some("doc"), None, true, [Obj(Some("paragraph"), None, true, [hello, world])]);
      ExtractText(doc) == "Hello world"
    ensures ExtractText(Obj(Some("text"), None, false, [])) == ""
    ensures ExtractText(Obj(Some("doc"), None, true, [])) == ""
  {
    var hello := Obj(Some("text"), Some("Hello"), false, []);
    var world := Obj(Some("text"), Some("world"), true, [Str("ignored")]);
    var para := Obj(Some("paragraph"), None, true, [hello, world]);
    assert ExtractText(hello) == "Hello" && ExtractText(world) == "world";
    assert seq(2, i requires 0 <= i < 2 => ExtractText([hello, world][i])) == ["Hello", "world"];
    assert ["Hello", "world"][1..] == ["world"];
    assert ExtractText(para) == "Hello world";
    var doc := Obj(Some("doc"), None, true, [para]);
    assert seq(1, i requires 0 <= i < 1 => ExtractText([para][i])) == ["Hello world"];
  }

  /** `formatDescription`: '' for a falsy value, the ADF text of an object,
      and `String(value)` otherwise. */
  function FormatDescription(v: AdfValue): (r: string)
    ensures !v.Prim? ==> r == ExtractText(v)
    ensures v.Prim? ==> r == v.rendered
  {
    match v
    case Falsy => ""
    case Str(s) => s
    case Prim(rendered) => rendered
    case Obj(_, _, _, _) => ExtractText(v)
  }

  // ---------------------------------------------------------------------
  // Acceptance criteria

  /** The bullet class of the criteria splitter as the file has it: the
      UTF-8 bytes of '•' were read back as three Windows-1252 characters,
      so the class holds 'â', '€' and '¢' instead of '•'. */
  const WrittenBullets: set<char> := {'-', '\U{00E2}', '\U{20AC}', '\U{00A2}', '*'}

  /** The bullet class the splitter is evidently meant to have. */
  const IntendedBullets: set<char> := {'-', '\U{2022}', '*'}

  /** The length of the match of `\n\s*[bullets]\s*|\n\s*\d+\.\s*` at the
      start of `s`, if there is one. No bullet is whitespace and no
      whitespace is a digit, so each `\s*` and `\d+` takes its whole run. */
  function SepLen(s: string, bullets: set<char>): (r: Option<nat>)
    ensures r.Some? ==> 2 <= r.value <= |s| && s[0] == '\n'
  {
    if |s| == 0 || s[0] != '\n' then None
    else
      var b := 1 + WhiteRun(s[1..]);
      if b < |s| && s[b] in bullets then Some(b + 1 + WhiteRun(s[b + 1..]))
      else
        var d := DigitRun(s[b..]);
        if d > 0 && b + d < |s| && s[b + d] == '.' then Some(b + d + 1 + WhiteRun(s[b + d + 1..]))
        else None
  }

  /** The leftmost separator of `s`: its position and length. */
  function FirstSep(s: string, bullets: set<char>): (r: Option<(nat, nat)>)
    ensures r.Some? ==> r.value.0 + r.value.1 <= |s| && r.value.1 >= 2
    decreases |s|
  {
    if |s| == 0 then None
    else
      match SepLen(s, bullets)
      case Some(n) => Some((0, n))
      case None =>
        match FirstSep(s[1..], bullets)
        case None => None
        case Some((p, n)) => Some((p + 1, n))
  }

  /** What is found is a separator. */
  lemma {:induction false} FirstSepFound(s: string, bullets: set<char>)
    ensures var r := FirstSep(s, bullets);
      r.Some? ==> SepLen(s[r.value.0..], bullets) == Some(r.value.1)
    decreases |s|
  {
    if |s| > 0 && SepLen(s, bullets).None? {
      FirstSepFound(s[1..], bullets);
      var r := FirstSep(s[1..], bullets);
      if r.Some? {
        assert s[r.value.0 + 1..] == s[1..][r.value.0..];
      }
    }
  }

  /** The separator found is the leftmost one, and none is found only when
      there is none. */
  lemma {:induction false} FirstSepLeftmost(s: string, bullets: set<char>)
    ensures var r := FirstSep(s, bullets);
      r.Some? ==> forall p :: 0 <= p < r.value.0 ==> SepLen(s[p..], bullets).None?
    ensures FirstSep(s, bullets).None? ==> forall p :: 0 <= p <= |s| ==> SepLen(s[p..], bullets).None?
    decreases |s|
  {
    if |s| > 0 && SepLen(s, bullets).None? {
      FirstSepLeftmost(s[1..], bullets);
      forall p | 1 <= p <= |s| ensures s[p..] == s[1..][p - 1..] {
      }
    }
  }

  /** `text.split(separator)` together with the separators it removed. */
  function SplitWithSeps(s: string, bullets: set<char>): (r: (seq<string>, seq<string>))
    ensures |r.0| == |r.1| + 1
    decreases |s|
  {
    match FirstSep(s, bullets)
    case None => ([s], [])
    case Some((p, n)) =>
      var rest := SplitWithSeps(s[p + n..], bullets);
      ([s[..p]] + rest.0, [s[p..p + n]] + rest.1)
  }

  function Split(s: string, bullets: set<char>): seq<string> {
    SplitWithSeps(s, bullets).0
  }

  /** Pieces and separators interleaved. */
  function Interleave(pieces: seq<string>, seps: seq<string>): string
    requires |pieces| == |seps| + 1
    decreases |seps|
  {
    if seps == [] then pieces[0] else pieces[0] + seps[0] + Interleave(pieces[1..], seps[1..])
  }

  /** Splitting loses nothing: putting the separators back gives the
      input. */
  lemma {:induction false} SplitRebuilds(s: string, bullets: set<char>)
    ensures var r := SplitWithSeps(s, bullets); Interleave(r.0, r.1) == s
    decreases |s|
  {
    var f := FirstSep(s, bullets);
    if f.Some? {
      var p, n := f.value.0, f.value.1;
      var tail := s[p + n..];
      var rest := SplitWithSeps(tail, bullets);
      SplitRebuilds(tail, bullets);
      InterleaveCons(s[..p], s[p..p + n], rest.0, rest.1);
      assert s == s[..p] + s[p..p + n] + tail;
    }
  }

  lemma InterleaveCons(piece: string, sep: string, pieces: seq<string>, seps: seq<string>)
    requires |pieces| == |seps| + 1
    ensures Interleave([piece] + pieces, [sep] + seps) == piece + sep + Interleave(pieces, seps)
  {
    assert ([piece] + pieces)[1..] == pieces;
    assert ([sep] + seps)[1..] == seps;
  }

  /** `.map(s => s.trim())`. */
  /** `.filter(s => s.length > 0 && s.length < 500)`. */
  function InRange(ts: seq<string>): (r: seq<string>)
    ensures |r| <= |ts|
    ensures forall x :: x in r ==> x in ts && 0 < |x| < 500
    decreases |ts|
  {
    if ts == [] then []
    else
      var rest := InRange(ts[1..]);
      assert forall x :: x in ts[1..] ==> x in ts;
      if 0 < |ts[0]| < 500 then [ts[0]] + rest else rest
  }

  lemma {:induction false} InRangeKeeps(ts: seq<string>, i: nat)
    requires i < |ts| && 0 < |ts[i]| < 500
    ensures ts[i] in InRange(ts)
    decreases |ts|
  {
    if i > 0 {
      assert ts[i] == ts[1..][i - 1];
      InRangeKeeps(ts[1..], i - 1);
    }
  }

  lemma {:induction false} InRangeOfClean(ts: seq<string>)
    requires forall i :: 0 <= i < |ts| ==> 0 < |ts[i]| < 500
    ensures InRange(ts) == ts
    decreases |ts|
  {
    if ts != [] {
      InRangeOfClean(ts[1..]);
    }
  }

  /** The post-processing of the split pieces: trimmed, then empty and
      overlong items dropped. */
  function PostProcess(pieces: seq<string>): (r: seq<string>)
    ensures |r| <= |pieces|
    ensures forall x :: x in r ==> IsTrimmed(x) && 0 < |x| < 500
    ensures forall x :: x in r ==> exists i :: 0 <= i < |pieces| && x == Trim(pieces[i])
  {
    var ts := TrimAll(pieces);
    forall x | x in InRange(ts) ensures exists i :: 0 <= i < |pieces| && x == Trim(pieces[i]) {
      var i :| 0 <= i < |ts| && ts[i] == x;
    }
    InRange(ts)
  }

  lemma {:induction false} InRangeConcat(xs: seq<string>, ys: seq<string>)
    ensures InRange(xs + ys) == InRange(xs) + InRange(ys)
    decreases |xs|
  {
    if xs != [] {
      assert (xs + ys)[1..] == xs[1..] + ys;
      InRangeConcat(xs[1..], ys);
    } else {
      assert xs + ys == ys;
    }
  }

  /** Post-processing works piece by piece: the pieces of a concatenation
      come out in the same order as the two halves'. */
  lemma PostProcessConcat(xs: seq<string>, ys: seq<string>)
    ensures PostProcess(xs + ys) == PostProcess(xs) + PostProcess(ys)
  {
    TrimAllConcat(xs, ys);
    InRangeConcat(TrimAll(xs), TrimAll(ys));
  }

  /** One piece comes out trimmed when its trimmed form is in range, and
      is dropped otherwise. */
  lemma PostProcessSingle(p: string)
    ensures PostProcess([p]) == if 0 < |Trim(p)| < 500 then [Trim(p)] else []
  {
    assert TrimAll([p]) == [Trim(p)];
    assert [Trim(p)][1..] == [];
  }

  /** Every piece whose trimmed form is in range is kept, trimmed. */
  lemma PostProcessKeeps(pieces: seq<string>, i: nat)
    requires i < |pieces| && 0 < |Trim(pieces[i])| < 500
    ensures Trim(pieces[i]) in PostProcess(pieces)
  {
    InRangeKeeps(TrimAll(pieces), i);
  }

  /** Pieces that are already trimmed, non-empty and shorter than 500
      characters pass the post-processing unchanged. */
  lemma PostProcessOfClean(pieces: seq<string>)
    requires forall i :: 0 <= i < |pieces| ==> IsTrimmed(pieces[i]) && 0 < |pieces[i]| < 500
    ensures PostProcess(pieces) == pieces
  {
    forall i | 0 <= i < |pieces| ensures TrimAll(pieces)[i] == pieces[i] {
      TrimOfTrimmed(pieces[i]);
    }
    assert TrimAll(pieces) == pieces;
    InRangeOfClean(pieces);
  }

  /** The list of criteria in a criteria text, as written: split on the
      separators of the written bullet class, trimmed, empty and overlong
      items dropped. */
  function CriteriaFromText(text: string): (r: seq<string>)
    ensures forall x :: x in r ==> IsTrimmed(x) && 0 < |x| < 500
  {
    PostProcess(Split(text, WrittenBullets))
  }

  /** The same with the intended bullet class, which has '•'. */
  function CriteriaFromTextIntended(text: string): (r: seq<string>)
    ensures forall x :: x in r ==> IsTrimmed(x) && 0 < |x| < 500
  {
    PostProcess(Split(text, IntendedBullets))
  }

  /** `extractAcceptanceCriteria`: nothing for a falsy description or when
      no pattern matches; otherwise the criteria in the matched text.
      `matched` is `match[1] || match[0]` of the first of the two patterns
      that matches the description's text (the regular expressions
      themselves are not part of this model). */
  function ExtractAcceptanceCriteria(description: AdfValue, matched: Option<string>): (r: seq<string>)
    ensures !Truthy(description) || matched.None? ==> r == []
    ensures forall x :: x in r ==> IsTrimmed(x) && 0 < |x| < 500
  {
    if !Truthy(description) || matched.None? then [] else CriteriaFromText(matched.value)
  }

  // ---------------------------------------------------------------------
  // The bullet class: as written and as intended

  /** The separator of a '•' list: newline, bullet, space. */
  const BulletSep: string := ['\n', '\U{2022}', ' ']

  predicate Bulletable(x: string) {
    |x| > 0 && !IsWhite(x[0]) && '\n' !in x
  }

  lemma NoSepWithoutNewline(s: string, bullets: set<char>)
    requires '\n' !in s
    ensures FirstSep(s, bullets).None?
    ensures Split(s, bullets) == [s]
  {
    forall p | 0 <= p <= |s| ensures SepLen(s[p..], bullets).None? {
      if p < |s| {
        assert s[p..][0] == s[p];
      }
    }
    FirstSepFound(s, bullets);
  }

  /** A newline, a bullet and a space in front of an item that starts with
      a non-space character form one separator of length 3. */
  lemma SepAtBullet(c: char, y: string, bullets: set<char>)
    requires c in bullets && !IsWhite(c)
    requires |y| > 0 && !IsWhite(y[0])
    ensures SepLen(['\n', c, ' '] + y, bullets) == Some(3)
  {
    var t := ['\n', c, ' '] + y;
    assert t[1..][0] == c;
    assert WhiteRun(t[1..]) == 0;
    assert t[2..][0] == ' ' && t[2..][1..] == y;
    assert WhiteRun(y) == 0;
    assert WhiteRun(t[2..]) == 1;
  }

  /** The leftmost separator of `x` + newline-bullet-space + `y`, when `x`
      has no newline, is the one after `x`. */
  lemma SplitAtBullet(x: string, c: char, y: string, bullets: set<char>)
    requires '\n' !in x
    requires c in bullets && !IsWhite(c)
    requires |y| > 0 && !IsWhite(y[0])
    ensures Split(x + ['\n', c, ' '] + y, bullets) == [x] + Split(y, bullets)
  {
    var s := x + ['\n', c, ' '] + y;
    assert s[|x|..] == ['\n', c, ' '] + y;
    SepAtBullet(c, y, bullets);
    forall p | 0 <= p < |x| ensures SepLen(s[p..], bullets).None? {
      assert s[p..][0] == x[p];
    }
    FirstSepLeftmost(s, bullets);
    FirstSepFound(s, bullets);
    assert FirstSep(s, bullets) == Some((|x|, 3));
    assert s[..|x|] == x && s[|x| + 3..] == y;
  }

  /** With the intended bullet class, a '•' list splits back into its
      items. */
  lemma {:induction false} SplitBulletedList(items: seq<string>)
    requires |items| > 0
    requires forall i :: 0 <= i < |items| ==> Bulletable(items[i])
    ensures Split(Join(items, BulletSep), IntendedBullets) == items
    decreases |items|
  {
    if |items| == 1 {
      NoSepWithoutNewline(items[0], IntendedBullets);
    } else {
      var rest := Join(items[1..], BulletSep);
      assert Bulletable(items[1..][0]);
      JoinStartsWithFirst(items[1..], BulletSep);
      assert Join(items, BulletSep) == items[0] + BulletSep + rest;
      assert Bulletable(items[0]);
      SplitAtBullet(items[0], '\U{2022}', rest, IntendedBullets);
      SplitBulletedList(items[1..]);
    }
  }

  lemma {:induction false} JoinStartsWithFirst(items: seq<string>, sep: string)
    requires |items| > 0 && |items[0]| > 0
    ensures |Join(items, sep)| > 0 && Join(items, sep)[0] == items[0][0]
  {
  }

  /** With the intended class, a '•' list of criteria comes back item for
      item. */
  lemma CriteriaOfBulletedList(items: seq<string>)
    requires |items| > 0
    requires forall i :: 0 <= i < |items| ==> Bulletable(items[i]) && IsTrimmed(items[i]) && |items[i]| < 500
    ensures CriteriaFromTextIntended(Join(items, BulletSep)) == items
  {
    SplitBulletedList(items);
    PostProcessOfClean(items);
  }

  /** The only newline of two items joined by a '•' separator is the
      separator's own. */
  lemma OnlyNewlineIsSeparator(x: string, y: string, p: nat)
    requires Bulletable(x) && Bulletable(y)
    requires p < |x + BulletSep + y| && p != |x|
    ensures (x + BulletSep + y)[p] != '\n'
  {
    var s := x + BulletSep + y;
    if p < |x| {
      assert s[p] == x[p];
    } else if p < |x| + 3 {
      assert s[p] == BulletSep[p - |x|];
    } else {
      assert s[p] == y[p - |x| - 3];
    }
  }

  /** With the written class a '•' separator is no separator: '•' is no
      bullet and no digit. */
  lemma WrittenMissesBulletSep(y: string)
    ensures SepLen(BulletSep + y, WrittenBullets).None?
  {
    var t := BulletSep + y;
    assert t[0] == '\n';
    assert t[1..][0] == '\U{2022}';
    assert !IsWhite('\U{2022}') && !IsDigit('\U{2022}');
    assert WhiteRun(t[1..]) == 0;
    assert '\U{2022}' !in WrittenBullets;
    assert t[1..][0..] == t[1..];
    assert DigitRun(t[1..]) == 0;
  }

  /** With the written class no separator matches anywhere in two items
      joined by a '•' separator. */
  lemma NoWrittenSep(x: string, y: string)
    requires Bulletable(x) && Bulletable(y)
    ensures FirstSep(x + BulletSep + y, WrittenBullets).None?
  {
    var s := x + BulletSep + y;
    forall p | 0 <= p <= |s| ensures SepLen(s[p..], WrittenBullets).None? {
      NoWrittenSepAt(x, y, p);
    }
    FirstSepFound(s, WrittenBullets);
  }

  lemma NoWrittenSepAt(x: string, y: string, p: nat)
    requires Bulletable(x) && Bulletable(y) && p <= |x + BulletSep + y|
    ensures SepLen((x + BulletSep + y)[p..], WrittenBullets).None?
  {
    var s := x + BulletSep + y;
    if p == |x| {
      assert s[p..] == BulletSep + y;
      WrittenMissesBulletSep(y);
    } else if p < |s| {
      OnlyNewlineIsSeparator(x, y, p);
      assert s[p..][0] == s[p];
    }
  }

  /** As written, the class misses '•': two items separated by a '•'
      bullet stay one piece, where the intended class splits them. */
  lemma WrittenBulletsMissBullet(x: string, y: string)
    requires Bulletable(x) && Bulletable(y)
    ensures Split(x + BulletSep + y, WrittenBullets) == [x + BulletSep + y]
    ensures Split(x + BulletSep + y, IntendedBullets) == [x, y]
  {
    NoWrittenSep(x, y);
    SplitAtBullet(x, '\U{2022}', y, IntendedBullets);
    NoSepWithoutNewline(y, IntendedBullets);
  }

  /** As written, two criteria in a '•' list come back as one criterion:
      the whole text. */
  lemma CriteriaOfBulletedPair(x: string, y: string)
    requires Bulletable(x) && Bulletable(y) && IsTrimmed(y)
    requires |x| + |y| < 497
    ensures CriteriaFromText(x + BulletSep + y) == [x + BulletSep + y]
  {
    var s := x + BulletSep + y;
    WrittenBulletsMissBullet(x, y);
    assert s[0] == x[0] && s[|s| - 1] == y[|y| - 1];
    PostProcessOfClean([s]);
  }

  /** A criteria text usually starts with its first bullet, which has no
      newline before it and so stays on the first item: `- x` followed by
      the item `- y` gives the criteria `- x` and `y`. */
  lemma LeadingBulletKept(x: string, y: string)
    requires Bulletable(x) && IsTrimmed(x) && |x| < 497
    requires Bulletable(y) && IsTrimmed(y) && |y| < 500
    ensures CriteriaFromText("- " + x + "\n- " + y) == ["- " + x, y]
  {
    var first := "- " + x;
    LeadingBulletSplit(x, y, WrittenBullets);
    assert first[|first| - 1] == x[|x| - 1];
    PostProcessOfClean([first, y]);
  }

  lemma LeadingBulletSplit(x: string, y: string, bullets: set<char>)
    requires Bulletable(x) && Bulletable(y) && '-' in bullets
    ensures Split("- " + x + "\n- " + y, bullets) == ["- " + x, y]
  {
    var first := "- " + x;
    assert first + ['\n', '-', ' '] + y == "- " + x + "\n- " + y;
    assert '\n' !in first by {
      assert forall i :: 2 <= i < |first| ==> first[i] == x[i - 2];
    }
    SplitAtBullet(first, '-', y, bullets);
    NoSepWithoutNewline(y, bullets);
    assert [first] + [y] == [first, y];
  }
}
