/** What the repaired transcript guarantees, where its messages come from, and when repairing again changes nothing. */
module SanitizerTheorems {
  import opened Common
  import opened Chat
  import opened Sanitizer

  // ----- validity ----------------------------------------------------------------------------

  predicate IsNote(m: Message) {
    m.role.User? && m.content.Some? && NOTE_PREFIX <= m.content.value
  }

  function DeclaredBy(m: Message): set<string> {
    if Asks(m) then Declared(m.calls.value) else {}
  }

  /** Between positions a and k there are only tool messages and notes. */
  ghost predicate OnlyReplies(out: seq<Message>, a: int, k: int)
    requires 0 <= a && k <= |out|
  {
    forall m :: a < m < k ==> out[m].role.Tool? || IsNote(out[m])
  }

  /** The tool message at k answers a call of the nearest assistant message before it, at a. */
  ghost predicate AnswersAt(out: seq<Message>, a: int, k: int) {
    && 0 <= a < k < |out| && out[k].role.Tool? && HasCallId(out[k])
    && out[k].callId.value in DeclaredBy(out[a]) && OnlyReplies(out, a, k)
  }

  ghost predicate ToolsAnswer(out: seq<Message>) {
    forall k :: 0 <= k < |out| && out[k].role.Tool? ==> exists a :: AnswersAt(out, a, k)
  }

  ghost predicate CallsAnswered(out: seq<Message>) {
    forall a, id :: 0 <= a < |out| && id in DeclaredBy(out[a])
      ==> exists k :: AnswersAt(out, a, k) && out[k].callId.value == id
  }

  lemma {:induction false} AnswersAtShift(x: seq<Message>, y: seq<Message>, a: int, k: int)
    ensures AnswersAt(x, a, k) ==> AnswersAt(x + y, a, k)
    ensures AnswersAt(y, a, k) ==> AnswersAt(x + y, |x| + a, |x| + k)
  {
  }

  lemma {:induction false} ToolsAnswerAppend(x: seq<Message>, y: seq<Message>)
    requires ToolsAnswer(x) && ToolsAnswer(y)
    ensures ToolsAnswer(x + y)
  {
    var z := x + y;
    forall k | 0 <= k < |z| && z[k].role.Tool? ensures exists a :: AnswersAt(z, a, k) {
      if k < |x| {
        var a :| AnswersAt(x, a, k);
        AnswersAtShift(x, y, a, k);
      } else {
        var a :| AnswersAt(y, a, k - |x|);
        AnswersAtShift(x, y, a, k - |x|);
      }
    }
  }

  lemma {:induction false} CallsAnsweredAppend(x: seq<Message>, y: seq<Message>)
    requires CallsAnswered(x) && CallsAnswered(y)
    ensures CallsAnswered(x + y)
  {
    var z := x + y;
    forall a, id | 0 <= a < |z| && id in DeclaredBy(z[a])
      ensures exists k :: AnswersAt(z, a, k) && z[k].callId.value == id
    {
      if a < |x| {
        var k :| AnswersAt(x, a, k) && x[k].callId.value == id;
        AnswersAtShift(x, y, a, k);
        assert z[k] == x[k];
      } else {
        var k :| AnswersAt(y, a - |x|, k) && y[k].callId.value == id;
        AnswersAtShift(x, y, a - |x|, k);
        assert z[|x| + k] == y[k];
      }
    }
  }

  /** A message of a block's tail: an answer to one of its calls, or a note. */
  predicate Reply(m: Message, declared: set<string>) {
    (m.role.Tool? && HasCallId(m) && m.callId.value in declared) || IsNote(m)
  }

  lemma {:induction false} RepliesReply(declared: set<string>, tools: seq<Message>)
    ensures forall m :: m in Replies(declared, tools) ==> Reply(m, declared)
    ensures forall t :: t in tools && HasCallId(t) && t.callId.value in declared ==> Answer(t) in Replies(declared, tools)
  {
    if tools != [] {
      RepliesReply(declared, tools[1..]);
    }
  }

  ghost predicate FilledIn(calls: seq<ToolCall>, answered: set<string>, id: string) {
    exists m :: m in Missing(calls, answered) && m.role.Tool? && m.callId == Some(id)
  }

  lemma {:induction false} MissingReply(calls: seq<ToolCall>, answered: set<string>, declared: set<string>)
    requires Declared(calls) <= declared
    ensures forall m :: m in Missing(calls, answered) ==> Reply(m, declared)
    ensures forall id :: id in Declared(calls) && id !in answered ==> FilledIn(calls, answered, id)
  {
    if calls != [] {
      assert Declared(calls) == Declared(calls[1..]) + (if calls[0].id != "" then {calls[0].id} else {});
      MissingReply(calls[1..], answered, declared);
      forall id | id in Declared(calls) && id !in answered ensures FilledIn(calls, answered, id) {
        if id == calls[0].id {
          assert Placeholder(calls[0]) in Missing(calls, answered);
        } else {
          var m :| m in Missing(calls[1..], answered) && m.role.Tool? && m.callId == Some(id);
          assert m in Missing(calls, answered);
        }
      }
    }
  }

  /** Every call of a block is answered inside it. */
  lemma {:induction false} BlockAnswers(head: Message, tools: seq<Message>, id: string)
    requires Asks(head) && id in Declared(head.calls.value)
    ensures exists m :: m in Block(head, tools)[1..] && m.role.Tool? && m.callId == Some(id)
  {
    var calls := head.calls.value;
    var replies, missing := Replies(Declared(calls), tools), Missing(calls, AnsweredIds(tools));
    assert Block(head, tools)[1..] == replies + missing;
    RepliesReply(Declared(calls), tools);
    MissingReply(calls, AnsweredIds(tools), Declared(calls));
    if id in AnsweredIds(tools) {
      var t :| t in tools && HasCallId(t) && t.callId.value == id;
      assert Answer(t) in replies + missing;
    } else {
      var m :| m in missing && m.role.Tool? && m.callId == Some(id);
      assert m in replies + missing;
    }
  }

  lemma {:induction false} BlockValid(head: Message, tools: seq<Message>)
    requires Asks(head)
    ensures ToolsAnswer(Block(head, tools)) && CallsAnswered(Block(head, tools))
  {
    var calls := head.calls.value;
    var out := Block(head, tools);
    RepliesReply(Declared(calls), tools);
    MissingReply(calls, AnsweredIds(tools), Declared(calls));
    forall k | 0 < k < |out| ensures Reply(out[k], Declared(calls)) {
      assert out[k] in Replies(Declared(calls), tools) + Missing(calls, AnsweredIds(tools));
    }
    assert DeclaredBy(out[0]) == Declared(calls);
    forall k | 0 <= k < |out| && out[k].role.Tool? ensures exists a :: AnswersAt(out, a, k) {
      assert AnswersAt(out, 0, k);
    }
    forall a, id | 0 <= a < |out| && id in DeclaredBy(out[a])
      ensures exists k :: AnswersAt(out, a, k) && out[k].callId.value == id
    {
      BlockAnswers(head, tools, id);
      var m :| m in out[1..] && m.role.Tool? && m.callId == Some(id);
      var k :| 0 <= k < |out| - 1 && out[1..][k] == m;
      assert AnswersAt(out, 0, k + 1);
    }
  }

  /**
    For any list at all: each tool message of the repaired list answers a call of the nearest assistant
    message before it, with only tool messages and notes between them, and each call that has an id is
    answered before the next assistant message.
   */
  lemma {:induction false} SanitizedIsValid(ms: seq<Message>)
    ensures ToolsAnswer(Sanitized(ms)) && CallsAnswered(Sanitized(ms))
    decreases |ms|
  {
    if ms != [] {
      if Asks(ms[0]) {
        var n := LeadingTools(ms[1..]);
        SanitizedBlock(ms, n);
        BlockValid(ms[0], ms[1..1 + n]);
        SanitizedIsValid(ms[1 + n..]);
        ToolsAnswerAppend(Block(ms[0], ms[1..1 + n]), Sanitized(ms[1 + n..]));
        CallsAnsweredAppend(Block(ms[0], ms[1..1 + n]), Sanitized(ms[1 + n..]));
      } else {
        SanitizedIsValid(ms[1..]);
        ToolsAnswerAppend([Lone(ms[0])], Sanitized(ms[1..]));
        CallsAnsweredAppend([Lone(ms[0])], Sanitized(ms[1..]));
      }
    }
  }

  // ----- provenance --------------------------------------------------------------------------

  /** Where an output message comes from: input i in its normal form, input i as a note, or a placeholder. */
  datatype Origin = Kept(i: nat) | Noted(i: nat) | Made

  datatype Traced = Traced(m: Message, origin: Origin)

  function NormalForm(m: Message): Message {
    match m.role
    case Tool => Answer(m)
    case Assistant => AssistantForm(m)
    case _ => Plain(m)
  }

  /** The tool messages at positions i..j of the list, answering the given ids. */
  function TraceReplies(all: seq<Message>, declared: set<string>, i: nat, j: nat): seq<Traced>
    requires i <= j <= |all|
    decreases j - i
  {
    if i == j then []
    else
      (if !HasCallId(all[i]) then []
       else if all[i].callId.value in declared then [Traced(Answer(all[i]), Kept(i))]
       else [Traced(Note(all[i]), Noted(i))]) + TraceReplies(all, declared, i + 1, j)
  }

  function TraceMade(made: seq<Message>): seq<Traced> {
    if made == [] then [] else [Traced(made[0], Made)] + TraceMade(made[1..])
  }

  /** The position after the tool messages that follow position i. */
  function BlockEnd(all: seq<Message>, i: nat): (j: nat)
    requires i < |all|
    ensures i < j <= |all| && j == i + 1 + LeadingTools(all[i + 1..])
    ensures forall k :: i < k < j ==> all[k].role.Tool?
  {
    var n := LeadingTools(all[i + 1..]);
    assert forall k :: i < k < i + 1 + n ==> all[k] == all[i + 1..][k - i - 1];
    i + 1 + n
  }

  function TraceBlock(all: seq<Message>, i: nat, j: nat): seq<Traced>
    requires i < j <= |all| && Asks(all[i])
  {
    var calls := all[i].calls.value;
    [Traced(AssistantForm(all[i]), Kept(i))] + TraceReplies(all, Declared(calls), i + 1, j)
    + TraceMade(Missing(calls, AnsweredIds(all[i + 1..j])))
  }

  function Trace(all: seq<Message>, i: nat): seq<Traced>
    requires i <= |all|
    decreases |all| - i
  {
    if i == |all| then []
    else if Asks(all[i]) then
      TraceBlock(all, i, BlockEnd(all, i)) + Trace(all, BlockEnd(all, i))
    else [Traced(Lone(all[i]), if all[i].role.Tool? then Noted(i) else Kept(i))] + Trace(all, i + 1)
  }

  function Messages(ts: seq<Traced>): seq<Message> {
    if ts == [] then [] else [ts[0].m] + Messages(ts[1..])
  }

  lemma {:induction false} MessagesAppend(x: seq<Traced>, y: seq<Traced>)
    ensures Messages(x + y) == Messages(x) + Messages(y)
  {
    if x == [] {
      assert x + y == y;
    } else {
      assert (x + y)[1..] == x[1..] + y;
      MessagesAppend(x[1..], y);
    }
  }

  lemma {:induction false} TracedReplies(all: seq<Message>, declared: set<string>, i: nat, j: nat)
    requires i <= j <= |all|
    ensures Messages(TraceReplies(all, declared, i, j)) == Replies(declared, all[i..j])
    decreases j - i
  {
    if i < j {
      assert all[i..j][1..] == all[i + 1..j];
      TracedReplies(all, declared, i + 1, j);
      var rest := TraceReplies(all, declared, i + 1, j);
      if HasCallId(all[i]) {
        assert TraceReplies(all, declared, i, j)[1..] == rest;
      } else {
        assert TraceReplies(all, declared, i, j) == rest;
      }
    }
  }

  lemma {:induction false} TracedMade(made: seq<Message>)
    ensures Messages(TraceMade(made)) == made
  {
    if made != [] {
      TracedMade(made[1..]);
    }
  }

  lemma {:induction false} SanitizedFrom(all: seq<Message>, i: nat)
    requires i < |all|
    ensures Sanitized(all[i..]) ==
      if Asks(all[i]) then Block(all[i], all[i + 1..BlockEnd(all, i)]) + Sanitized(all[BlockEnd(all, i)..])
      else [Lone(all[i])] + Sanitized(all[i + 1..])
  {
    var j := BlockEnd(all, i);
    assert all[i..][0] == all[i] && all[i..][1..] == all[i + 1..];
    assert all[i..][1..j - i] == all[i + 1..j] && all[i..][j - i..] == all[j..];
  }

  /** The trace accounts for every message of the repaired list, in order. */
  lemma {:induction false} TraceIsSanitized(all: seq<Message>, i: nat)
    requires i <= |all|
    ensures Messages(Trace(all, i)) == Sanitized(all[i..])
    decreases |all| - i
  {
    if i < |all| {
      SanitizedFrom(all, i);
      if Asks(all[i]) {
        var j := BlockEnd(all, i);
        TraceIsSanitized(all, j);
        MessagesAppend(TraceBlock(all, i, j), Trace(all, j));
        TracedBlock(all, i, j);
      } else {
        TraceIsSanitized(all, i + 1);
        assert Trace(all, i)[1..] == Trace(all, i + 1);
      }
    }
  }

  lemma {:induction false} TracedBlock(all: seq<Message>, i: nat, j: nat)
    requires i < j <= |all| && Asks(all[i])
    ensures Messages(TraceBlock(all, i, j)) == Block(all[i], all[i + 1..j])
  {
    var calls := all[i].calls.value;
    var head := [Traced(AssistantForm(all[i]), Kept(i))];
    var replies := TraceReplies(all, Declared(calls), i + 1, j);
    var made := TraceMade(Missing(calls, AnsweredIds(all[i + 1..j])));
    MessagesAppend(head + replies, made);
    MessagesAppend(head, replies);
    TracedReplies(all, Declared(calls), i + 1, j);
    TracedMade(Missing(calls, AnsweredIds(all[i + 1..j])));
    assert Messages(head) == [AssistantForm(all[i])];
  }

  /** A traced message is what its origin says. */
  predicate Explained(t: Traced, all: seq<Message>) {
    match t.origin
    case Kept(i) => i < |all| && t.m == NormalForm(all[i])
    case Noted(i) => i < |all| && all[i].role.Tool? && t.m == Note(all[i])
    case Made => t.m.role.Tool? && t.m.content == Some(INTERRUPTED)
  }

  /** The origins are input positions in lo..hi, each used at most once, in input order. */
  ghost predicate InOrder(ts: seq<Traced>, lo: int, hi: int) {
    && (forall k :: 0 <= k < |ts| && !ts[k].origin.Made? ==> lo <= ts[k].origin.i < hi)
    && (forall k, l | 0 <= k < l < |ts| :: ts[k].origin.Made? || ts[l].origin.Made? || ts[k].origin.i < ts[l].origin.i)
  }

  lemma {:induction false} InOrderAppend(x: seq<Traced>, y: seq<Traced>, lo: int, mid: int, hi: int)
    requires lo <= mid <= hi && InOrder(x, lo, mid) && InOrder(y, mid, hi)
    ensures InOrder(x + y, lo, hi)
  {
  }

  predicate Comes(ts: seq<Traced>, i: nat) {
    exists k :: 0 <= k < |ts| && (ts[k].origin == Kept(i) || ts[k].origin == Noted(i))
  }

  lemma {:induction false} ComesAppend(x: seq<Traced>, y: seq<Traced>, i: nat)
    ensures Comes(x, i) || Comes(y, i) ==> Comes(x + y, i)
  {
    if Comes(y, i) {
      var k :| 0 <= k < |y| && (y[k].origin == Kept(i) || y[k].origin == Noted(i));
      assert (x + y)[|x| + k] == y[k];
    } else if Comes(x, i) {
      var k :| 0 <= k < |x| && (x[k].origin == Kept(i) || x[k].origin == Noted(i));
      assert (x + y)[k] == x[k];
    }
  }

  /** What both parts of a trace must satisfy; the conditions of the provenance theorem. */
  ghost predicate Sound(ts: seq<Traced>, all: seq<Message>, lo: nat, hi: nat)
    requires hi <= |all|
  {
    && (forall t :: t in ts ==> Explained(t, all))
    && InOrder(ts, lo, hi)
    && (forall i :: lo <= i < hi && (!all[i].role.Tool? || HasCallId(all[i])) ==> Comes(ts, i))
  }

  lemma {:induction false} SoundAppend(x: seq<Traced>, y: seq<Traced>, all: seq<Message>, lo: nat, mid: nat, hi: nat)
    requires lo <= mid <= hi <= |all| && Sound(x, all, lo, mid) && Sound(y, all, mid, hi)
    ensures Sound(x + y, all, lo, hi)
  {
    InOrderAppend(x, y, lo, mid, hi);
    forall i | lo <= i < hi && (!all[i].role.Tool? || HasCallId(all[i])) ensures Comes(x + y, i) {
      ComesAppend(x, y, i);
    }
  }

  lemma {:induction false} SingleSound(t: Traced, all: seq<Message>, i: nat)
    requires i < |all| && Explained(t, all) && (t.origin == Kept(i) || t.origin == Noted(i))
    ensures Sound([t], all, i, i + 1)
  {
    assert [t][0] == t;
  }

  lemma {:induction false} DroppedSound(ts: seq<Traced>, all: seq<Message>, i: nat, j: nat)
    requires i < j <= |all| && Sound(ts, all, i + 1, j) && all[i].role.Tool? && !HasCallId(all[i])
    ensures Sound(ts, all, i, j)
  {
  }

  lemma {:induction false} RepliesSound(all: seq<Message>, declared: set<string>, i: nat, j: nat)
    requires i <= j <= |all| && (forall k :: i <= k < j ==> all[k].role.Tool?)
    ensures Sound(TraceReplies(all, declared, i, j), all, i, j)
    decreases j - i
  {
    if i < j {
      RepliesSound(all, declared, i + 1, j);
      var rest := TraceReplies(all, declared, i + 1, j);
      if HasCallId(all[i]) {
        var t := TraceReplies(all, declared, i, j)[0];
        SingleSound(t, all, i);
        SoundAppend([t], rest, all, i, i + 1, j);
      } else {
        DroppedSound(rest, all, i, j);
        assert [] + rest == rest;
      }
    }
  }

  lemma {:induction false} MadeSound(calls: seq<ToolCall>, answered: set<string>, all: seq<Message>, lo: nat)
    requires lo <= |all|
    ensures Sound(TraceMade(Missing(calls, answered)), all, lo, lo)
  {
    if calls != [] {
      MadeSound(calls[1..], answered, all, lo);
      if calls[0].id != "" && calls[0].id !in answered {
        assert Missing(calls, answered)[1..] == Missing(calls[1..], answered);
        SoundAppend([Traced(Placeholder(calls[0]), Made)], TraceMade(Missing(calls[1..], answered)), all, lo, lo, lo);
      } else {
        assert Missing(calls, answered) == Missing(calls[1..], answered);
      }
    }
  }

  lemma {:induction false} BlockSound(all: seq<Message>, i: nat, j: nat)
    requires i < j <= |all| && Asks(all[i]) && (forall k :: i < k < j ==> all[k].role.Tool?)
    ensures Sound(TraceBlock(all, i, j), all, i, j)
  {
    var calls := all[i].calls.value;
    var head := [Traced(AssistantForm(all[i]), Kept(i))];
    var replies := TraceReplies(all, Declared(calls), i + 1, j);
    assert head[0].origin == Kept(i) && Sound(head, all, i, i + 1);
    RepliesSound(all, Declared(calls), i + 1, j);
    SoundAppend(head, replies, all, i, i + 1, j);
    MadeSound(calls, AnsweredIds(all[i + 1..j]), all, j);
    SoundAppend(head + replies, TraceMade(Missing(calls, AnsweredIds(all[i + 1..j]))), all, i, j, j);
  }

  /**
    Nothing is duplicated, reordered or invented. Every message of the repaired list is the normal form or
    the note of one input, or a placeholder; inputs keep their order; and every system, user and assistant
    message arrives, as does every tool message that names a call.
   */
  lemma {:induction false} TraceIsSound(all: seq<Message>, i: nat)
    requires i <= |all|
    ensures Sound(Trace(all, i), all, i, |all|)
    decreases |all| - i
  {
    if i < |all| {
      if Asks(all[i]) {
        var j := BlockEnd(all, i);
        BlockSound(all, i, j);
        TraceIsSound(all, j);
        SoundAppend(TraceBlock(all, i, j), Trace(all, j), all, i, j, |all|);
      } else {
        TraceIsSound(all, i + 1);
        var t := Traced(Lone(all[i]), if all[i].role.Tool? then Noted(i) else Kept(i));
        SingleSound(t, all, i);
        SoundAppend([t], Trace(all, i + 1), all, i, i + 1, |all|);
      }
    }
  }
}
