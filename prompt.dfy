/** The user prompt both LLM providers send (`buildPrompt`, the same text
    in the Groq and the Ollama provider): the ticket's fields, its numbered
    acceptance criteria, its labels, then the template text and the fixed
    instructions. */
module Prompt {
  import opened Wrappers
  import opened Strings
  import opened Jira

  const Preamble: string :=
    "Generate a comprehensive test plan for the following JIRA ticket, "
    + "following the template structure provided.\n"
    + "\n"
    + "## JIRA Ticket Information\n"
    + "\n"
    + "**Ticket ID:** "

  const TemplateHeading: string := "\n\n## Template Structure to Follow\n\n"

  const Instructions: string :=
    "\n\n## Instructions\n\n"
    + "1. Maintain the template structure and headings\n"
    + "2. Map ticket details to appropriate sections\n"
    + "3. Create specific, actionable test cases "
    + "based on acceptance criteria\n"
    + "4. Include edge cases and boundary conditions\n"
    + "5. Consider the priority level in test coverage\n"
    + "6. Write in professional QA language\n"
    + "\n"
    + "Generate the complete test plan now:"

  const NoCriteria: string := "No explicit acceptance criteria provided."

  /** Criterion `i` (from 0) as `${i + 1}. ${ac}`. */
  function NumberedLine(i: nat, ac: string): string {
    NatToString(i + 1) + ". " + ac
  }

  function NumberedLines(cs: seq<string>): seq<string> {
    seq(|cs|, i requires 0 <= i < |cs| => NumberedLine(i, cs[i]))
  }

  /** The criteria section: the numbered criteria one per line, or the
      placeholder when there are none. */
  function CriteriaBlock(cs: seq<string>): string {
    if |cs| > 0 then Join(NumberedLines(cs), "\n") else NoCriteria
  }

  /** `labels?.join(', ') || 'None'`. */
  function LabelsLine(labels: seq<string>): (r: string)
    ensures r == if |labels| == 0 || labels == [""] then "None" else Join(labels, ", ")
  {
    JoinEmptyIff(labels, ", ");
    OrElse(Some(Join(labels, ", ")), "None")
  }

  /** Everything after the ticket key and before the template text. */
  function TicketFields(t: TicketData): string {
    "\n**Summary:** " + t.summary
      + "\n**Priority:** " + t.priority
      + "\n**Status:** " + t.status
      + "\n\n**Description:**\n" + t.description
      + "\n\n**Acceptance Criteria:**\n" + CriteriaBlock(t.acceptanceCriteria)
      + "\n\n**Labels:** " + LabelsLine(t.labels)
      + TemplateHeading
  }

  predicate StartsWith(s: string, p: string) {
    |p| <= |s| && s[..|p|] == p
  }

  predicate EndsWith(s: string, p: string) {
    |p| <= |s| && s[|s| - |p|..] == p
  }

  /** The prompt for ticket `t` and the template text. */
  function BuildPrompt(t: TicketData, templateText: string): string {
    Preamble + t.key + TicketFields(t) + (templateText + Instructions)
  }

  /** The prompt opens with the ticket key and closes with the template
      text and the instructions. */
  lemma BuildPromptShape(t: TicketData, templateText: string)
    ensures StartsWith(BuildPrompt(t, templateText), Preamble + t.key)
    ensures EndsWith(BuildPrompt(t, templateText), templateText + Instructions)
  {
    PromptShape(Preamble + t.key, TicketFields(t), templateText + Instructions);
  }

  /** Where the parts of a prompt sit, whatever the fixed texts are. */
  lemma PromptShape(head: string, fields: string, tail: string)
    ensures StartsWith(head + fields + tail, head)
    ensures EndsWith(head + fields + tail, tail)
  {
    var r := head + fields + tail;
    assert r == head + (fields + tail);
  }

  /** Different templates give different prompts for the same ticket. */
  lemma BuildPromptInjective(t: TicketData, a: string, b: string)
    requires BuildPrompt(t, a) == BuildPrompt(t, b)
    ensures a == b
  {
    var head := Preamble + t.key + TicketFields(t);
    assert BuildPrompt(t, a) == head + (a + Instructions);
    assert BuildPrompt(t, b) == head + (b + Instructions);
    Cancel(head, a, b, Instructions);
  }

  lemma Cancel(head: string, a: string, b: string, tail: string)
    requires head + (a + tail) == head + (b + tail)
    ensures a == b
  {
    assert a + tail == (head + (a + tail))[|head|..];
    assert b + tail == (head + (b + tail))[|head|..];
    assert |a| == |b|;
    assert a == (a + tail)[..|a|];
    assert b == (b + tail)[..|b|];
  }

  /** The criteria section is the placeholder exactly when there are no
      criteria: a numbered block starts with the digit 1. */
  lemma CriteriaBlockPlaceholderIff(cs: seq<string>)
    ensures CriteriaBlock(cs) == NoCriteria <==> |cs| == 0
  {
    if |cs| > 0 {
      var lines := NumberedLines(cs);
      assert lines[0] == NumberedLine(0, cs[0]);
      assert NatToString(1) == "1";
      assert lines[0][0] == '1';
      JoinStartsWith(lines, "\n");
      assert CriteriaBlock(cs)[0] == '1';
    }
  }

  lemma JoinStartsWith(xs: seq<string>, sep: string)
    requires |xs| > 0 && |xs[0]| > 0
    ensures |Join(xs, sep)| > 0 && Join(xs, sep)[0] == xs[0][0]
  {
  }

  /** A numbered line as the model would read it: the number, then ". ",
      then the criterion. */
  function ParseNumberedLine(line: string): Option<(nat, string)> {
    var d := DigitRun(line);
    if d > 0 && d + 2 <= |line| && line[d..d + 2] == ". "
    then Some((DecimalValue(line[..d]), line[d + 2..]))
    else None
  }

  /** Each numbered line carries its 1-based position and the criterion
      unchanged. */
  lemma NumberedLineRoundTrip(i: nat, ac: string)
    ensures ParseNumberedLine(NumberedLine(i, ac)) == Some((i + 1, ac))
  {
    var num := NatToString(i + 1);
    var line := NumberedLine(i, ac);
    assert line == num + (". " + ac);
    DigitRunOfPrefix(num, ". " + ac);
    assert line[..|num|] == num;
    assert line[|num|..|num| + 2] == ". ";
    assert line[|num| + 2..] == ac;
    DecimalRoundTrip(i + 1);
  }

  /** When no criterion spans lines, the criteria section has one line per
      criterion, in order, and line `i` reads back as number `i + 1` and
      criterion `i`. */
  lemma CriteriaBlockLines(cs: seq<string>)
    requires |cs| > 0
    requires forall i :: 0 <= i < |cs| ==> '\n' !in cs[i]
    ensures |SplitOn(CriteriaBlock(cs), '\n')| == |cs|
    ensures forall i :: 0 <= i < |cs| ==> ParseNumberedLine(SplitOn(CriteriaBlock(cs), '\n')[i]) == Some((i + 1, cs[i]))
  {
    var lines := NumberedLines(cs);
    forall i | 0 <= i < |lines| ensures '\n' !in lines[i] {
      var num := NatToString(i + 1);
      assert lines[i] == num + ". " + cs[i];
      assert forall k :: 0 <= k < |num| ==> IsDigit(num[k]);
    }
    SplitOnJoin(lines, '\n');
    assert CriteriaBlock(cs) == Join(lines, ['\n']);
    forall i | 0 <= i < |cs| ensures ParseNumberedLine(lines[i]) == Some((i + 1, cs[i])) {
      NumberedLineRoundTrip(i, cs[i]);
    }
  }

  /** The labels line shows the labels joined, and `None` only when that
      join is empty. */
  lemma LabelsLineExamples(a: string, b: string)
    ensures LabelsLine([]) == "None"
    ensures LabelsLine([a, b]) == a + ", " + b
  {
    assert [a, b][1..] == [b];
    assert Join([a, b], ", ") == a + ", " + Join([b], ", ");
  }
}
