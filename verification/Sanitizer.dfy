/**
  Repair of a transcript before it is sent: every tool message must answer a call of the assistant message
  it follows, and every call must be answered.
 */
module Sanitizer {
  import opened Common
  import opened Chat

  const INTERRUPTED := "[Tool execution was interrupted or incomplete in previous turn]"
  const NOTE_PREFIX := "[Previous Tool Result: "

  // ----- the normal forms each role is rewritten to ------------------------------------------

  function Plain(m: Message): Message {
    Message(m.role, Some(Text(m)), None, None, None)
  }

  function AssistantForm(m: Message): Message {
    if Asks(m) then Message(Assistant, m.content, None, None, m.calls)
    else Message(Assistant, Some(Text(m)), None, None, None)
  }

  function Answer(m: Message): Message {
    Message(Tool, Some(Text(m)), m.name, m.callId, None)
  }

  function Placeholder(call: ToolCall): Message {
    Message(Tool, Some(INTERRUPTED), Some(call.name), Some(call.id), None)
  }

  function Note(m: Message): Message {
    Message(User, Some(NOTE_PREFIX + Text(m) + "]"), None, None, None)
  }

  // ----- the repair, block by block ----------------------------------------------------------

  function Declared(calls: seq<ToolCall>): set<string> {
    set c | c in calls && c.id != "" :: c.id
  }

  /** How many tool messages a list begins with. */
  function LeadingTools(ms: seq<Message>): (n: nat)
    ensures n <= |ms| && (forall k :: 0 <= k < n ==> ms[k].role.Tool?)
    ensures n < |ms| ==> !ms[n].role.Tool?
  {
    if ms == [] || !ms[0].role.Tool? then 0 else 1 + LeadingTools(ms[1..])
  }

  function AnsweredIds(tools: seq<Message>): set<string> {
    set m | m in tools && HasCallId(m) :: m.callId.value
  }

  /** The tool messages of a block: answers stay, strays become notes, messages without an id are dropped. */
  function Replies(declared: set<string>, tools: seq<Message>): seq<Message> {
    if tools == [] then []
    else
      (if !HasCallId(tools[0]) then []
       else if tools[0].callId.value in declared then [Answer(tools[0])]
       else [Note(tools[0])]) + Replies(declared, tools[1..])
  }

  function Missing(calls: seq<ToolCall>, answered: set<string>): seq<Message> {
    if calls == [] then []
    else
      (if calls[0].id != "" && calls[0].id !in answered then [Placeholder(calls[0])] else [])
      + Missing(calls[1..], answered)
  }

  function Block(head: Message, tools: seq<Message>): seq<Message>
    requires Asks(head)
  {
    [AssistantForm(head)] + Replies(Declared(head.calls.value), tools) + Missing(head.calls.value, AnsweredIds(tools))
  }

  function Sanitized(ms: seq<Message>): seq<Message>
    decreases |ms|
  {
    if ms == [] then []
    else if Asks(ms[0]) then
      var n := LeadingTools(ms[1..]);
      Block(ms[0], ms[1..1 + n]) + Sanitized(ms[1 + n..])
    else [Lone(ms[0])] + Sanitized(ms[1..])
  }

  /** A message outside every block; a tool message there is an orphan. */
  function Lone(m: Message): Message {
    match m.role
    case Tool => Note(m)
    case Assistant => AssistantForm(m)
    case _ => Plain(m)
  }

  // ----- the two passes of the source --------------------------------------------------------

  function Digits(n: nat): string {
    if n < 10 then ["0123456789"[n]] else Digits(n / 10) + ["0123456789"[n % 10]]
  }

  function Orphan(m: Message, i: nat): Message {
    Message(Tool, Some(Text(m)), m.name, if HasCallId(m) then m.callId else Some("call_" + Digits(i)), None)
  }

  function Answers(tools: seq<Message>): seq<Message> {
    if tools == [] then []
    else (if HasCallId(tools[0]) then [Answer(tools[0])] else []) + Answers(tools[1..])
  }

  /** A block after the first pass: every tool message with an id is still an answer. */
  function RawBlock(head: Message, tools: seq<Message>): seq<Message>
    requires Asks(head)
  {
    [AssistantForm(head)] + Answers(tools) + Missing(head.calls.value, AnsweredIds(tools))
  }

  function RawLone(m: Message, i: nat): Message {
    match m.role
    case Tool => Orphan(m, i)
    case Assistant => AssistantForm(m)
    case _ => Plain(m)
  }

  /** Where the first loop goes on after the message at `i`. */
  function NextStart(ms: seq<Message>, i: nat): (j: nat)
    requires i < |ms|
    ensures i < j <= |ms|
  {
    if Asks(ms[i]) then i + 1 + LeadingTools(ms[i + 1..]) else i + 1
  }

  function Chunk(ms: seq<Message>, i: nat): seq<Message>
    requires i < |ms|
  {
    if Asks(ms[i]) then RawBlock(ms[i], ms[i + 1..NextStart(ms, i)]) else [RawLone(ms[i], i)]
  }

  function FirstPass(ms: seq<Message>, i: nat): seq<Message>
    requires i <= |ms|
    decreases |ms| - i
  {
    if i == |ms| then [] else Chunk(ms, i) + FirstPass(ms, NextStart(ms, i))
  }

  function ActiveAfter(m: Message, active: set<string>): set<string> {
    match m.role
    case Tool => active
    case Assistant => if m.calls.Some? then Declared(m.calls.value) else {}
    case _ => {}
  }

  function Checked(m: Message, active: set<string>): Message {
    if m.role.Tool? && !(HasCallId(m) && m.callId.value in active) then Note(m) else m
  }

  function SecondPass(ms: seq<Message>, active: set<string>): seq<Message> {
    if ms == [] then []
    else [Checked(ms[0], active)] + SecondPass(ms[1..], ActiveAfter(ms[0], active))
  }

  function ActiveIds(ms: seq<Message>, active: set<string>): set<string> {
    if ms == [] then active else ActiveIds(ms[1..], ActiveAfter(ms[0], active))
  }

  lemma {:induction false} SecondPassAppend(x: seq<Message>, y: seq<Message>, active: set<string>)
    ensures SecondPass(x + y, active) == SecondPass(x, active) + SecondPass(y, ActiveIds(x, active))
  {
    if x == [] {
      assert x + y == y;
    } else {
      assert (x + y)[1..] == x[1..] + y;
      SecondPassAppend(x[1..], y, ActiveAfter(x[0], active));
    }
  }

  lemma {:induction false} SecondPassAnswers(tools: seq<Message>, active: set<string>)
    ensures SecondPass(Answers(tools), active) == Replies(active, tools)
    ensures ActiveIds(Answers(tools), active) == active
  {
    if tools != [] {
      SecondPassAnswers(tools[1..], active);
      if HasCallId(tools[0]) {
        assert Answers(tools)[1..] == Answers(tools[1..]);
      } else {
        assert Answers(tools) == Answers(tools[1..]);
      }
    }
  }

  lemma {:induction false} SecondPassMissing(calls: seq<ToolCall>, answered: set<string>, active: set<string>)
    requires Declared(calls) <= active
    ensures SecondPass(Missing(calls, answered), active) == Missing(calls, answered)
    ensures ActiveIds(Missing(calls, answered), active) == active
  {
    if calls != [] {
      assert Declared(calls[1..]) <= Declared(calls);
      SecondPassMissing(calls[1..], answered, active);
      if calls[0].id != "" && calls[0].id !in answered {
        assert calls[0].id in Declared(calls);
        assert Missing(calls, answered)[1..] == Missing(calls[1..], answered);
      } else {
        assert Missing(calls, answered) == Missing(calls[1..], answered);
      }
    }
  }

  lemma {:induction false} SecondPassHead(m: Message, rest: seq<Message>, active: set<string>)
    ensures SecondPass([m] + rest, active) == [Checked(m, active)] + SecondPass(rest, ActiveAfter(m, active))
  {
  }

  lemma {:induction false} SecondPassTail(a: seq<Message>, m: seq<Message>, rest: seq<Message>, active: set<string>)
    requires ActiveIds(a, active) == active && ActiveIds(m, active) == active
    ensures SecondPass(a + (m + rest), active) == SecondPass(a, active) + (SecondPass(m, active) + SecondPass(rest, active))
  {
    SecondPassAppend(a, m + rest, active);
    SecondPassAppend(m, rest, active);
  }

  lemma {:induction false} Regroup<T>(a: seq<T>, b: seq<T>, c: seq<T>, d: seq<T>)
    ensures a + b + c + d == a + (b + (c + d))
  {
  }

  lemma {:induction false} BlockPasses(head: Message, tools: seq<Message>, rest: seq<Message>, active: set<string>)
    requires Asks(head)
    ensures SecondPass(RawBlock(head, tools) + rest, active)
      == Block(head, tools) + SecondPass(rest, Declared(head.calls.value))
  {
    var calls := head.calls.value;
    var declared := Declared(calls);
    var h, a, m := AssistantForm(head), Answers(tools), Missing(calls, AnsweredIds(tools));
    Regroup([h], a, m, rest);
    SecondPassHead(h, a + (m + rest), active);
    SecondPassAnswers(tools, declared);
    SecondPassMissing(calls, AnsweredIds(tools), declared);
    SecondPassTail(a, m, rest, declared);
    Regroup([h], Replies(declared, tools), m, SecondPass(rest, declared));
  }

  lemma {:induction false} SanitizedBlock(ms: seq<Message>, n: nat)
    requires ms != [] && Asks(ms[0]) && n == LeadingTools(ms[1..])
    ensures Sanitized(ms) == Block(ms[0], ms[1..1 + n]) + Sanitized(ms[1 + n..])
  {
  }

  /** Where a block ends: its tools, its rest, and no tool message right behind it. */
  lemma {:induction false} BlockEnd(ms: seq<Message>, i: nat, j: nat)
    requires i < |ms| && j == i + 1 + LeadingTools(ms[i + 1..])
    ensures ms[i..][1..1 + (j - i - 1)] == ms[i + 1..j] && ms[i..][j - i..] == ms[j..] && ms[i..][1..] == ms[i + 1..]
    ensures j < |ms| ==> !ms[j].role.Tool?
  {
  }

  /** The block at `i`, given that the rest comes out right. */
  lemma {:induction false} BlockRepair(ms: seq<Message>, i: nat, j: nat, active: set<string>, rest: seq<Message>)
    requires i < |ms| && Asks(ms[i]) && j == NextStart(ms, i)
    requires SecondPass(rest, Declared(ms[i].calls.value)) == Sanitized(ms[j..])
    ensures SecondPass(Chunk(ms, i) + rest, active) == Sanitized(ms[i..])
  {
    BlockEnd(ms, i, j);
    BlockPasses(ms[i], ms[i + 1..j], rest, active);
    assert ms[i..][0] == ms[i];
    SanitizedBlock(ms[i..], j - i - 1);
  }

  lemma {:induction false} LoneRepair(ms: seq<Message>, i: nat, active: set<string>, rest: seq<Message>)
    requires i < |ms| && !Asks(ms[i]) && (ms[i].role.Tool? ==> active == {})
    requires SecondPass(rest, {}) == Sanitized(ms[i + 1..])
    ensures SecondPass(Chunk(ms, i) + rest, active) == Sanitized(ms[i..])
  {
  }

  /** The two passes together are the block-wise repair; the invented orphan ids never survive. */
  lemma {:induction false} PassesRepair(ms: seq<Message>, i: nat, active: set<string>)
    requires i <= |ms| && (i < |ms| && ms[i].role.Tool? ==> active == {})
    ensures SecondPass(FirstPass(ms, i), active) == Sanitized(ms[i..])
    decreases |ms| - i
  {
    if i < |ms| {
      var j := NextStart(ms, i);
      if Asks(ms[i]) {
        BlockEnd(ms, i, j);
        PassesRepair(ms, j, Declared(ms[i].calls.value));
        BlockRepair(ms, i, j, active, FirstPass(ms, j));
      } else {
        PassesRepair(ms, j, {});
        LoneRepair(ms, i, active, FirstPass(ms, j));
      }
    }
  }

  // ----- the imperative repair ---------------------------------------------------------------

  lemma {:induction false} AnswersSnoc(tools: seq<Message>, m: Message)
    ensures Answers(tools + [m]) == Answers(tools) + Answers([m])
    ensures AnsweredIds(tools + [m]) == AnsweredIds(tools) + AnsweredIds([m])
  {
    if tools != [] {
      assert (tools + [m])[1..] == tools[1..] + [m];
      AnswersSnoc(tools[1..], m);
    } else {
      assert tools + [m] == [m];
    }
  }

  lemma {:induction false} MissingSnoc(calls: seq<ToolCall>, call: ToolCall, answered: set<string>)
    ensures Missing(calls + [call], answered) == Missing(calls, answered) + Missing([call], answered)
  {
    if calls != [] {
      assert (calls + [call])[1..] == calls[1..] + [call];
      MissingSnoc(calls[1..], call, answered);
    } else {
      assert calls + [call] == [call];
    }
  }

  lemma {:induction false} LeadingToolsIs(ms: seq<Message>, n: nat)
    requires n <= |ms| && (forall k :: 0 <= k < n ==> ms[k].role.Tool?) && (n < |ms| ==> !ms[n].role.Tool?)
    ensures LeadingTools(ms) == n
  {
  }

  /** Collects the tool messages that follow an assistant message with calls. */
  method CollectAnswers(ms: seq<Message>, start: nat) returns (out: seq<Message>, answered: set<string>, j: nat)
    requires start <= |ms|
    ensures j == start + LeadingTools(ms[start..])
    ensures out == Answers(ms[start..j]) && answered == AnsweredIds(ms[start..j])
  {
    out, answered, j := [], {}, start;
    while j < |ms| && ms[j].role.Tool?
      invariant start <= j <= |ms|
      invariant forall k :: start <= k < j ==> ms[k].role.Tool?
      invariant out == Answers(ms[start..j]) && answered == AnsweredIds(ms[start..j])
    {
      assert ms[start..j + 1] == ms[start..j] + [ms[j]];
      AnswersSnoc(ms[start..j], ms[j]);
      if HasCallId(ms[j]) {
        answered := answered + {ms[j].callId.value};
        out := out + [Answer(ms[j])];
      }
      j := j + 1;
    }
    LeadingToolsIs(ms[start..], j - start);
  }

  /** Placeholder answers for the calls nobody answered. */
  method FillMissing(calls: seq<ToolCall>, answered: set<string>) returns (out: seq<Message>)
    ensures out == Missing(calls, answered)
  {
    out := [];
    for k := 0 to |calls|
      invariant out == Missing(calls[..k], answered)
    {
      assert calls[..k + 1] == calls[..k] + [calls[k]];
      MissingSnoc(calls[..k], calls[k], answered);
      if calls[k].id != "" && calls[k].id !in answered {
        out := out + [Placeholder(calls[k])];
      }
    }
    assert calls[..|calls|] == calls;
  }

  /** One turn of the first loop: what is pushed, and where the loop goes on. */
  method CollectOne(ms: seq<Message>, i: nat) returns (chunk: seq<Message>, next: nat)
    requires i < |ms|
    ensures next == NextStart(ms, i) && chunk == Chunk(ms, i)
  {
    var msg := ms[i];
    next := i + 1;
    match msg.role {
      case Assistant =>
        chunk := [AssistantForm(msg)];
        if Asks(msg) {
          var found, answered, j := CollectAnswers(ms, i + 1);
          var missing := FillMissing(msg.calls.value, answered);
          chunk, next := chunk + found + missing, j;
        }
      case Tool =>
        chunk := [Orphan(msg, i)];
      case _ =>
        chunk := [Plain(msg)];
    }
  }

  method Collect(ms: seq<Message>) returns (intermediate: seq<Message>)
    ensures intermediate == FirstPass(ms, 0)
  {
    intermediate := [];
    var i := 0;
    while i < |ms|
      invariant 0 <= i <= |ms|
      invariant intermediate + FirstPass(ms, i) == FirstPass(ms, 0)
    {
      var chunk, next := CollectOne(ms, i);
      assert FirstPass(ms, i) == chunk + FirstPass(ms, next);
      assert intermediate + (chunk + FirstPass(ms, next)) == (intermediate + chunk) + FirstPass(ms, next);
      intermediate := intermediate + chunk;
      i := next;
    }
  }

  method DeclareIds(calls: seq<ToolCall>) returns (active: set<string>)
    ensures active == Declared(calls)
  {
    active := {};
    for k := 0 to |calls|
      invariant active == Declared(calls[..k])
    {
      if calls[k].id != "" { active := active + {calls[k].id}; }
      assert calls[..k + 1] == calls[..k] + [calls[k]];
    }
    assert calls[..|calls|] == calls;
  }

  method CheckOne(msg: Message, active: set<string>) returns (checked: Message, active': set<string>)
    ensures checked == Checked(msg, active) && active' == ActiveAfter(msg, active)
  {
    checked, active' := msg, {};
    if msg.role.Assistant? {
      if msg.calls.Some? { active' := DeclareIds(msg.calls.value); }
    } else if msg.role.Tool? {
      active' := active;
      if !HasCallId(msg) || msg.callId.value !in active { checked := Note(msg); }
    }
  }

  lemma {:induction false} SecondPassStep(out: seq<Message>, ms: seq<Message>, k: nat, active: set<string>)
    requires k < |ms|
    ensures out + SecondPass(ms[k..], active)
      == out + [Checked(ms[k], active)] + SecondPass(ms[k + 1..], ActiveAfter(ms[k], active))
  {
    assert ms[k..][0] == ms[k] && ms[k..][1..] == ms[k + 1..];
  }

  method SanitizeChatMessages(ms: seq<Message>) returns (out: seq<Message>)
    ensures out == Sanitized(ms)
  {
    var intermediate := Collect(ms);
    out := [];
    var active := {};
    for k := 0 to |intermediate|
      invariant out + SecondPass(intermediate[k..], active) == SecondPass(intermediate, {})
    {
      var checked, active' := CheckOne(intermediate[k], active);
      SecondPassStep(out, intermediate, k, active);
      out, active := out + [checked], active';
    }
    PassesRepair(ms, 0, {});
    assert ms[0..] == ms;
  }
}
