/** The message a summary of earlier turns is kept in: what it is recognised by, and what can be read from it. */
module Summaries {
  import opened Common
  import opened Chat

  const SUMMARY_MARKER := "[SEG:SUMMARY"
  const SUMMARY_END := "[SEG:SUMMARY|END]"

  predicate StartsWith(text: string, prefix: string) {
    prefix <= text
  }

  predicate IsSummary(m: Message) {
    m.content.Some? && StartsWith(m.content.value, SUMMARY_MARKER)
  }

  function Plain(role: Role, content: string): Message {
    Message(role, Some(content), None, None, None)
  }

  function Decimal(n: nat): string {
    (if n < 10 then "" else Decimal(n / 10)) + ["0123456789"[n % 10]]
  }

  function BuildSummary(text: string, turns: nat): (m: Message)
    ensures IsSummary(m) && m.role.System?
  {
    var last := if turns > 0 then Decimal(turns) else "*";
    Plain(Role.System, SUMMARY_MARKER + ("|turns:1-" + (last + ("|ARCHIVAL]\n" + (text + ("\n" + SUMMARY_END))))))
  }

  predicate IsDigit(c: char) {
    '0' <= c <= '9'
  }

  /** The number a text of digits denotes. */
  function Denoted(digits: string): nat
    requires forall k :: 0 <= k < |digits| ==> IsDigit(digits[k])
  {
    if digits == "" then 0
    else
      assert IsDigit(digits[|digits| - 1]);
      10 * Denoted(digits[..|digits| - 1]) + (digits[|digits| - 1] as int - '0' as int)
  }

  /** What stands for the last turn: its number, or a star when there is none. */
  predicate Denotes(last: string, turns: nat) {
    if turns == 0 then last == "*"
    else last != "" && (forall k :: 0 <= k < |last| ==> IsDigit(last[k])) && Denoted(last) == turns
  }

  lemma {:induction false} DecimalDenotes(n: nat)
    ensures var digits := Decimal(n);
      digits != "" && (forall k :: 0 <= k < |digits| ==> IsDigit(digits[k])) && Denoted(digits) == n
  {
    assert "0123456789"[n % 10] as int == '0' as int + n % 10;
    if n >= 10 {
      DecimalDenotes(n / 10);
      assert Decimal(n)[..|Decimal(n)| - 1] == Decimal(n / 10);
    } else {
      assert Decimal(n)[..0] == "";
    }
  }

  /** The text of a summary: how many turns it is of, and between header and footer the model's answer, whole. */
  ghost predicate Frames(content: string, last: string, text: string) {
    content == "[SEG:SUMMARY" + ("|turns:1-" + (last + ("|ARCHIVAL]\n" + (text + ("\n" + "[SEG:SUMMARY|END]")))))
  }

  /** A system message that tells `text` about this many turns. */
  ghost predicate Summarises(m: Message, text: string, turns: nat) {
    m.role.System? && m.content.Some? && exists last :: Denotes(last, turns) && Frames(m.content.value, last, text)
  }

  lemma {:induction false} SummaryTells(text: string, turns: nat)
    ensures Summarises(BuildSummary(text, turns), text, turns)
  {
    DecimalDenotes(turns);
    var last := if turns > 0 then Decimal(turns) else "*";
    assert Denotes(last, turns) && Frames(BuildSummary(text, turns).content.value, last, text);
  }

  /** Two texts that agree up to the first bar agree before and after it. */
  lemma {:induction false} BarSplits(a: string, b: string, x: string, y: string)
    requires '|' !in a && '|' !in b && a + ("|" + x) == b + ("|" + y)
    ensures a == b && x == y
  {
    var s := a + ("|" + x);
    assert s[|a|] == '|' && s[|b|] == '|';
    assert forall k :: 0 <= k < |a| ==> s[k] == a[k];
    assert forall k :: 0 <= k < |b| ==> s[k] == b[k];
    assert |a| == |b|;
    assert a == s[..|a|] && b == s[..|b|];
    assert x == s[|a| + 1..] && y == s[|b| + 1..];
  }

  lemma {:induction false} SameFront(front: string, x: string, y: string)
    requires front + x == front + y
    ensures x == y
  {
    assert x == (front + x)[|front|..] && y == (front + y)[|front|..];
  }

  lemma {:induction false} SameBack(x: string, y: string, back: string)
    requires x + back == y + back
    ensures x == y
  {
    assert |x| == |y|;
    assert x == (x + back)[..|x|] && y == (y + back)[..|y|];
  }

  lemma {:induction false} DenotesNoBar(last: string, turns: nat)
    requires Denotes(last, turns)
    ensures '|' !in last
  {
  }

  lemma {:induction false} FramesDetermine(content: string, last: string, text: string, last': string, text': string)
    requires Frames(content, last, text) && Frames(content, last', text') && '|' !in last && '|' !in last'
    ensures last == last' && text == text'
  {
    var back := "\n" + "[SEG:SUMMARY|END]";
    var x, y := "ARCHIVAL]\n" + (text + back), "ARCHIVAL]\n" + (text' + back);
    assert "|ARCHIVAL]\n" + (text + back) == "|" + x && "|ARCHIVAL]\n" + (text' + back) == "|" + y;
    SameFront("[SEG:SUMMARY", "|turns:1-" + (last + ("|" + x)), "|turns:1-" + (last' + ("|" + y)));
    SameFront("|turns:1-", last + ("|" + x), last' + ("|" + y));
    BarSplits(last, last', x, y);
    SameFront("ARCHIVAL]\n", text + back, text' + back);
    SameBack(text, text', back);
  }

  /** A summary can be read back: its message determines the answer and the number of turns. */
  lemma {:induction false} SummaryDetermines(m: Message, text: string, turns: nat, text': string, turns': nat)
    requires Summarises(m, text, turns) && Summarises(m, text', turns')
    ensures text == text' && turns == turns'
  {
    var last :| Denotes(last, turns) && Frames(m.content.value, last, text);
    var last' :| Denotes(last', turns') && Frames(m.content.value, last', text');
    DenotesNoBar(last, turns);
    DenotesNoBar(last', turns');
    FramesDetermine(m.content.value, last, text, last', text');
  }
}
