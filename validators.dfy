/** Input checks of the backend: the ticket-key pattern
    `^[A-Z][A-Z0-9]*-\d+$` tested on the upper-cased input, the
    upper-case-then-trim normaliser, the temperature range and the HTTPS
    test on a parsed URL. */
module Validators {
  import opened Strings

  predicate IsUpperLetter(c: char) { 'A' <= c <= 'Z' }

  predicate IsUpperAlnum(c: char) { IsUpperLetter(c) || IsDigit(c) }

  /** The automaton for `[A-Z0-9]*-\d+$`: a run of letters and digits, one
      hyphen, then one or more digits up to the end. */
  predicate KeyTail(t: string)
    decreases |t|
  {
    |t| > 0 &&
    if t[0] == '-' then |t| > 1 && AllDigits(t[1..])
    else IsUpperAlnum(t[0]) && KeyTail(t[1..])
  }

  /** `^[A-Z][A-Z0-9]*-\d+$` on an already upper-cased string. */
  predicate MatchesKeyPattern(u: string) {
    |u| > 0 && IsUpperLetter(u[0]) && KeyTail(u[1..])
  }

  /** `validateJiraId`: the pattern is tested on `ticketId.toUpperCase()`. */
  predicate ValidateJiraId(ticketId: string) {
    MatchesKeyPattern(Upper(ticketId))
  }

  /** The shape of a ticket key stated as a split point: the project part
      `u[..k]` is a letter then letters and digits, `u[k]` is the one
      hyphen, and the number part `u[k+1..]` is one or more digits. */
  predicate KeySplitAt(u: string, k: int) {
    && 1 <= k < |u| - 1
    && IsUpperLetter(u[0])
    && (forall j :: 1 <= j < k ==> IsUpperAlnum(u[j]))
    && u[k] == '-'
    && AllDigits(u[k + 1..])
  }

  ghost predicate IsTicketKey(u: string) {
    exists k :: KeySplitAt(u, k)
  }

  predicate TailSplitAt(t: string, k: int) {
    && 0 <= k < |t| - 1
    && (forall j :: 0 <= j < k ==> IsUpperAlnum(t[j]))
    && t[k] == '-'
    && AllDigits(t[k + 1..])
  }

  lemma {:induction false} KeyTailIff(t: string)
    ensures KeyTail(t) <==> exists k :: TailSplitAt(t, k)
    decreases |t|
  {
    if |t| > 0 {
      if t[0] != '-' {
        KeyTailIff(t[1..]);
      }
      if KeyTail(t) {
        if t[0] == '-' {
          assert TailSplitAt(t, 0);
        } else {
          var k :| TailSplitAt(t[1..], k);
          assert t[k + 2..] == t[1..][k + 1..];
          assert TailSplitAt(t, k + 1);
        }
      }
      if exists k :: TailSplitAt(t, k) {
        var k :| TailSplitAt(t, k);
        if k > 0 {
          assert IsUpperAlnum(t[0]);
          assert t[1..][k..] == t[k + 1..];
          assert TailSplitAt(t[1..], k - 1);
        }
      }
    }
  }

  /** The automaton accepts exactly the strings that split into a project
      part, one hyphen and a number part. */
  lemma MatchesKeyPatternIff(u: string)
    ensures MatchesKeyPattern(u) <==> IsTicketKey(u)
  {
    if |u| > 0 {
      KeyTailIff(u[1..]);
      if MatchesKeyPattern(u) {
        var k :| TailSplitAt(u[1..], k);
        assert u[k + 2..] == u[1..][k + 1..];
        assert KeySplitAt(u, k + 1);
      }
      if IsTicketKey(u) {
        var k :| KeySplitAt(u, k);
        assert u[1..][k..] == u[k + 1..];
        assert TailSplitAt(u[1..], k - 1);
      }
    }
  }

  /** validateJiraId(s) holds iff upper(s) is a letter, letters or digits,
      one hyphen and one or more digits. */
  lemma ValidateJiraIdIff(s: string)
    ensures ValidateJiraId(s) <==> IsTicketKey(Upper(s))
  {
    MatchesKeyPatternIff(Upper(s));
  }

  /** The check ignores letter case. */
  lemma ValidateJiraIdCaseInsensitive(s: string)
    ensures ValidateJiraId(s) == ValidateJiraId(Upper(s))
  {
    UpperIdempotent(s);
  }

  /** A key has exactly one hyphen: the split point is unique. */
  lemma KeySplitUnique(u: string, k1: int, k2: int)
    requires KeySplitAt(u, k1) && KeySplitAt(u, k2)
    ensures k1 == k2
  {
    assert u[k1] == '-' && u[k2] == '-';
  }

  /** Keys the check accepts, including a lower-case one. */
  lemma ValidateJiraIdAccepts()
    ensures ValidateJiraId("ABC-123") && ValidateJiraId("A1-7") && ValidateJiraId("abc-123")
  {
    assert Upper("ABC-123") == "ABC-123" && Upper("abc-123") == "ABC-123";
    assert Upper("A1-7") == "A1-7";
    assert "ABC-123"[1..] == "BC-123" && "BC-123"[1..] == "C-123" && "C-123"[1..] == "-123";
    assert "A1-7"[1..] == "1-7" && "1-7"[1..] == "-7";
  }

  /** Inputs the check rejects: no hyphen, an empty project part and an
      empty number part. */
  lemma ValidateJiraIdRejects()
    ensures !ValidateJiraId("abc123") && !ValidateJiraId("-123") && !ValidateJiraId("ABC-")
  {
    assert Upper("abc123") == "ABC123";
    assert "ABC123"[1..] == "BC123" && "BC123"[1..] == "C123" && "C123"[1..] == "123";
    assert "123"[1..] == "23" && "23"[1..] == "3" && "3"[1..] == "";
    assert Upper("-123") == "-123" && Upper("ABC-") == "ABC-";
    assert "ABC-"[1..] == "BC-" && "BC-"[1..] == "C-" && "C-"[1..] == "-";
  }

  /** More inputs the check rejects: a second hyphen, a trailing space (the
      check does not trim) and a leading digit. */
  lemma ValidateJiraIdRejectsMore()
    ensures !ValidateJiraId("A-B-1") && !ValidateJiraId("ABC-1 ") && !ValidateJiraId("1A-2")
  {
    assert Upper("A-B-1") == "A-B-1" && "A-B-1"[1..] == "-B-1";
    assert !IsDigit("-B-1"[1..][0]);
    assert Upper("ABC-1 ") == "ABC-1 ";
    assert "ABC-1 "[1..] == "BC-1 " && "BC-1 "[1..] == "C-1 " && "C-1 "[1..] == "-1 ";
    assert !IsDigit("-1 "[1..][1]);
    assert Upper("1A-2") == "1A-2";
  }

  /** `sanitizeJiraId`: `ticketId.toUpperCase().trim()`. The result has no
      lower-case letter and no whitespace at either end. */
  function SanitizeJiraId(ticketId: string): (r: string)
    ensures NoLowerAscii(r) && IsTrimmed(r)
  {
    TrimKeepsNoLower(Upper(ticketId));
    Trim(Upper(ticketId))
  }

  lemma SanitizeIdempotent(s: string)
    ensures SanitizeJiraId(SanitizeJiraId(s)) == SanitizeJiraId(s)
  {
    var once := SanitizeJiraId(s);
    UpperOfUpperCased(once);
    TrimOfTrimmed(once);
  }

  /** Sanitising before validating accepts a padded lower-case key. */
  lemma SanitizeThenValidate()
    ensures SanitizeJiraId(" abc-123 ") == "ABC-123"
    ensures ValidateJiraId(SanitizeJiraId(" abc-123 "))
  {
    var u := Upper(" abc-123 ");
    assert u == " ABC-123 ";
    assert WhiteRun(u[1..]) == 0;
    assert WhiteRun(u) == 1;
    assert TrimStart(u) == "ABC-123 ";
    assert TrimEnd("ABC-123") == "ABC-123";
    assert "ABC-123 "[..|"ABC-123 "| - 1] == "ABC-123";
    assert TrimEnd("ABC-123 ") == "ABC-123";
    ValidateJiraIdAccepts();
  }

  /** `validateTemperature`: the closed interval [0, 1]. */
  predicate ValidateTemperature(t: real) {
    0.0 <= t <= 1.0
  }

  lemma ValidateTemperatureBounds()
    ensures ValidateTemperature(0.0) && ValidateTemperature(1.0) && ValidateTemperature(0.7)
    ensures !ValidateTemperature(-0.1) && !ValidateTemperature(1.1)
  {
  }

  /** The outcome of `new URL(s)`: a parse failure or the scheme with its
      colon. The WHATWG URL parser itself is not part of this model. */
  datatype ParsedUrl = Unparseable | Parsed(protocol: string)

  /** `validateUrl`: the string parses as a URL and its scheme is https. */
  predicate ValidateUrl(url: ParsedUrl) {
    url.Parsed? && url.protocol == "https:"
  }
}
