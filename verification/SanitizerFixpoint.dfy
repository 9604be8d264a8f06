/** Which lists the repair leaves alone, and exactly when repairing twice is repairing once. */
module SanitizerFixpoint {
  import opened Common
  import opened Chat
  import opened Sanitizer
  import opened SanitizerTheorems

  /** A normalised answer to one of the declared calls. */
  predicate GoodAnswer(m: Message, declared: set<string>) {
    m.role.Tool? && HasCallId(m) && m.callId.value in declared && m == Answer(m)
  }

  /** A valid, normalised transcript: each assistant message with calls is followed by all their answers. */
  predicate Strict(ms: seq<Message>)
    decreases |ms|
  {
    if ms == [] then true
    else if Asks(ms[0]) then
      var n := LeadingTools(ms[1..]);
      var declared := Declared(ms[0].calls.value);
      && ms[0] == AssistantForm(ms[0])
      && (forall m | m in ms[1..1 + n] :: GoodAnswer(m, declared))
      && declared <= AnsweredIds(ms[1..1 + n])
      && Strict(ms[1 + n..])
    else ms[0] == Lone(ms[0]) && Strict(ms[1..])
  }

  // ----- strict lists are the fixed points ---------------------------------------------------

  lemma {:induction false} GoodAnswersStay(declared: set<string>, tools: seq<Message>)
    requires forall m :: m in tools ==> GoodAnswer(m, declared)
    ensures Replies(declared, tools) == tools
  {
    if tools != [] {
      assert tools[0] in tools;
      GoodAnswersStay(declared, tools[1..]);
    }
  }

  lemma {:induction false} NothingMissing(calls: seq<ToolCall>, answered: set<string>)
    ensures Missing(calls, answered) == [] <==> Declared(calls) <= answered
  {
    if calls != [] {
      assert Declared(calls) == Declared(calls[1..]) + (if calls[0].id != "" then {calls[0].id} else {});
      NothingMissing(calls[1..], answered);
    }
  }

  lemma {:induction false} StrictBlockIsFixed(head: Message, tools: seq<Message>)
    requires Asks(head) && head == AssistantForm(head) && Declared(head.calls.value) <= AnsweredIds(tools)
    requires forall m :: m in tools ==> GoodAnswer(m, Declared(head.calls.value))
    ensures Block(head, tools) == [head] + tools
  {
    GoodAnswersStay(Declared(head.calls.value), tools);
    NothingMissing(head.calls.value, AnsweredIds(tools));
    assert [head] + tools + [] == [head] + tools;
  }

  lemma {:induction false} StrictHead(ms: seq<Message>, n: nat)
    requires Strict(ms) && ms != [] && Asks(ms[0]) && n == LeadingTools(ms[1..])
    ensures Block(ms[0], ms[1..1 + n]) == ms[..1 + n] && Strict(ms[1 + n..])
  {
    StrictBlockIsFixed(ms[0], ms[1..1 + n]);
    assert ms[..1 + n] == [ms[0]] + ms[1..1 + n];
  }

  /** A list in which block and rest come out as they are comes out as it is. */
  lemma {:induction false} FixedJoin(ms: seq<Message>, n: nat)
    requires ms != [] && Asks(ms[0]) && n == LeadingTools(ms[1..])
    requires Block(ms[0], ms[1..1 + n]) == ms[..1 + n] && Sanitized(ms[1 + n..]) == ms[1 + n..]
    ensures Sanitized(ms) == ms
  {
    SanitizedBlock(ms, n);
    Halves(ms, 1 + n);
  }

  lemma {:induction false} Halves<T>(xs: seq<T>, n: nat)
    requires n <= |xs|
    ensures xs == xs[..n] + xs[n..]
  {
  }

  lemma {:induction false} FixedCons(ms: seq<Message>)
    requires ms != [] && !Asks(ms[0]) && ms[0] == Lone(ms[0]) && Sanitized(ms[1..]) == ms[1..]
    ensures Sanitized(ms) == ms
  {
    assert ms == [ms[0]] + ms[1..];
  }

  lemma {:induction false} StrictIsFixed(ms: seq<Message>)
    requires Strict(ms)
    ensures Sanitized(ms) == ms
    decreases |ms|
  {
    if ms != [] {
      if Asks(ms[0]) {
        var n := LeadingTools(ms[1..]);
        StrictHead(ms, n);
        StrictIsFixed(ms[1 + n..]);
        FixedJoin(ms, n);
      } else {
        StrictIsFixed(ms[1..]);
        FixedCons(ms);
      }
    }
  }

  /** A reply to a block in its final form. */
  predicate FinalReply(m: Message, declared: set<string>) {
    GoodAnswer(m, declared) || (IsNote(m) && m == Lone(m))
  }

  lemma {:induction false} RepliesFinal(declared: set<string>, tools: seq<Message>)
    ensures forall m :: m in Replies(declared, tools) ==> FinalReply(m, declared)
  {
    if tools != [] {
      RepliesFinal(declared, tools[1..]);
    }
  }

  lemma {:induction false} MissingFinal(calls: seq<ToolCall>, answered: set<string>, declared: set<string>)
    requires Declared(calls) <= declared
    ensures forall m :: m in Missing(calls, answered) ==> GoodAnswer(m, declared)
  {
    if calls != [] {
      assert Declared(calls) == Declared(calls[1..]) + (if calls[0].id != "" then {calls[0].id} else {});
      MissingFinal(calls[1..], answered, declared);
    }
  }

  predicate NormalTools(xs: seq<Message>) {
    forall m | m in xs :: m.role.Tool? ==> m == Answer(m)
  }

  lemma {:induction false} BlockToolsAreNormal(head: Message, tools: seq<Message>)
    requires Asks(head)
    ensures NormalTools(Block(head, tools))
  {
    RepliesFinal(Declared(head.calls.value), tools);
    MissingFinal(head.calls.value, AnsweredIds(tools), Declared(head.calls.value));
  }

  lemma {:induction false} NormalAppend(xs: seq<Message>, ys: seq<Message>)
    requires NormalTools(xs) && NormalTools(ys)
    ensures NormalTools(xs + ys)
  {
  }

  lemma {:induction false} ToolsAreNormal(ms: seq<Message>)
    ensures NormalTools(Sanitized(ms))
    decreases |ms|
  {
    if ms != [] {
      if Asks(ms[0]) {
        var n := LeadingTools(ms[1..]);
        SanitizedBlock(ms, n);
        BlockToolsAreNormal(ms[0], ms[1..1 + n]);
        ToolsAreNormal(ms[1 + n..]);
        NormalAppend(Block(ms[0], ms[1..1 + n]), Sanitized(ms[1 + n..]));
      } else {
        ToolsAreNormal(ms[1..]);
        NormalAppend([Lone(ms[0])], Sanitized(ms[1..]));
      }
    }
  }

  lemma {:induction false} NeverStartsWithTool(ms: seq<Message>)
    ensures Sanitized(ms) != [] ==> !Sanitized(ms)[0].role.Tool?
  {
  }

  /** In a fixed point, the tool messages after an assistant message are good answers to it. */
  lemma {:induction false} FixedBlockIsGood(ms: seq<Message>, k: nat)
    requires ms != [] && Asks(ms[0]) && Sanitized(ms) == ms && k < LeadingTools(ms[1..])
    ensures GoodAnswer(ms[1 + k], Declared(ms[0].calls.value))
  {
    SanitizedIsValid(ms);
    ToolsAreNormal(ms);
    assert ms[1..][k] == ms[1 + k];
    var a :| AnswersAt(ms, a, 1 + k);
    var b: int := if a > 0 then a - 1 else 0;
    assert ms[1..][b] == ms[1 + b];
  }

  lemma {:induction false} NoToolsInFront(missing: seq<Message>, rest: seq<Message>, declared: set<string>)
    requires forall m :: m in missing ==> GoodAnswer(m, declared)
    ensures missing + rest != [] && !(missing + rest)[0].role.Tool? ==> missing == []
  {
    assert missing != [] ==> (missing + rest)[0] == missing[0] && missing[0] in missing;
  }

  lemma {:induction false} FixedTools(ms: seq<Message>, n: nat)
    requires ms != [] && Asks(ms[0]) && Sanitized(ms) == ms && n == LeadingTools(ms[1..])
    ensures forall m :: m in ms[1..1 + n] ==> GoodAnswer(m, Declared(ms[0].calls.value))
  {
    forall m | m in ms[1..1 + n] ensures GoodAnswer(m, Declared(ms[0].calls.value)) {
      var k :| 0 <= k < n && ms[1..1 + n][k] == m;
      FixedBlockIsGood(ms, k);
    }
  }

  lemma {:induction false} BlockWithGoodAnswers(head: Message, tools: seq<Message>)
    requires Asks(head) && forall m :: m in tools ==> GoodAnswer(m, Declared(head.calls.value))
    ensures Block(head, tools) == [AssistantForm(head)] + tools + Missing(head.calls.value, AnsweredIds(tools))
  {
    GoodAnswersStay(Declared(head.calls.value), tools);
  }

  /** With good answers, a fixed point's rest is the placeholders and the repaired rest. */
  lemma {:induction false} FixedRest(ms: seq<Message>, n: nat)
    requires ms != [] && Asks(ms[0]) && Sanitized(ms) == ms && n == LeadingTools(ms[1..])
    requires forall m :: m in ms[1..1 + n] ==> GoodAnswer(m, Declared(ms[0].calls.value))
    ensures ms[0] == AssistantForm(ms[0])
    ensures ms[1 + n..] == Missing(ms[0].calls.value, AnsweredIds(ms[1..1 + n])) + Sanitized(ms[1 + n..])
  {
    var tools := ms[1..1 + n];
    SanitizedBlock(ms, n);
    BlockWithGoodAnswers(ms[0], tools);
    DropFront(ms, [AssistantForm(ms[0])], tools, Missing(ms[0].calls.value, AnsweredIds(tools)), Sanitized(ms[1 + n..]));
  }

  lemma {:induction false} DropFront<T>(all: seq<T>, a: seq<T>, b: seq<T>, c: seq<T>, d: seq<T>)
    requires all == a + b + c + d
    ensures all[|a| + |b|..] == c + d && all[..|a|] == a
  {
  }

  /** A fixed point is strict block by block. */
  lemma {:induction false} FixedBlock(ms: seq<Message>, n: nat)
    requires ms != [] && Asks(ms[0]) && Sanitized(ms) == ms && n == LeadingTools(ms[1..])
    requires forall m :: m in ms[1..1 + n] ==> GoodAnswer(m, Declared(ms[0].calls.value))
    ensures ms[0] == AssistantForm(ms[0]) && Declared(ms[0].calls.value) <= AnsweredIds(ms[1..1 + n])
    ensures Sanitized(ms[1 + n..]) == ms[1 + n..]
  {
    var calls, tools, rest := ms[0].calls.value, ms[1..1 + n], ms[1 + n..];
    FixedRest(ms, n);
    assert rest != [] ==> rest[0] == ms[1..][n];
    MissingFinal(calls, AnsweredIds(tools), Declared(calls));
    NoToolsInFront(Missing(calls, AnsweredIds(tools)), Sanitized(rest), Declared(calls));
    NothingMissing(calls, AnsweredIds(tools));
  }

  lemma {:induction false} FixedIsStrict(ms: seq<Message>)
    requires Sanitized(ms) == ms
    ensures Strict(ms)
    decreases |ms|
  {
    if ms != [] {
      if Asks(ms[0]) {
        FixedTools(ms, LeadingTools(ms[1..]));
        FixedBlock(ms, LeadingTools(ms[1..]));
        FixedIsStrict(ms[1 + LeadingTools(ms[1..])..]);
      } else {
        assert ms == [Lone(ms[0])] + Sanitized(ms[1..]);
        assert ms[1..] == Sanitized(ms[1..]);
        FixedIsStrict(ms[1..]);
      }
    }
  }

  /** The repair returns a list unchanged exactly when the list is valid and normalised. */
  lemma {:induction false} FixedPoints(ms: seq<Message>)
    ensures Sanitized(ms) == ms <==> Strict(ms)
  {
    if Strict(ms) { StrictIsFixed(ms); }
    if Sanitized(ms) == ms { FixedIsStrict(ms); }
  }

  // ----- when the repair is idempotent -------------------------------------------------------

  predicate NoAnswers(declared: set<string>, tools: seq<Message>) {
    forall m | m in tools :: HasCallId(m) ==> m.callId.value !in declared
  }

  /** The first stray of a block comes after all answers, and then no call is left without an answer. */
  predicate OrderlyBlock(declared: set<string>, tools: seq<Message>, complete: bool) {
    if tools == [] then true
    else if HasCallId(tools[0]) && tools[0].callId.value !in declared then complete && NoAnswers(declared, tools[1..])
    else OrderlyBlock(declared, tools[1..], complete)
  }

  predicate Orderly(ms: seq<Message>)
    decreases |ms|
  {
    if ms == [] then true
    else if Asks(ms[0]) then
      var n := LeadingTools(ms[1..]);
      var declared := Declared(ms[0].calls.value);
      OrderlyBlock(declared, ms[1..1 + n], declared <= AnsweredIds(ms[1..1 + n])) && Orderly(ms[1 + n..])
    else Orderly(ms[1..])
  }

  predicate NoTools(xs: seq<Message>) {
    forall m | m in xs :: !m.role.Tool?
  }

  /** No tool message after a note. */
  predicate Tidy(xs: seq<Message>) {
    if xs == [] then true
    else if xs[0].role.Tool? then Tidy(xs[1..])
    else NoTools(xs)
  }

  lemma {:induction false} RepliesWithoutAnswers(declared: set<string>, tools: seq<Message>)
    ensures NoTools(Replies(declared, tools)) <==> NoAnswers(declared, tools)
  {
    if tools != [] {
      RepliesWithoutAnswers(declared, tools[1..]);
      if HasCallId(tools[0]) && tools[0].callId.value in declared {
        assert Answer(tools[0]) in Replies(declared, tools);
        assert tools[0] in tools;
      } else {
        assert forall m :: m in tools <==> m == tools[0] || m in tools[1..];
        var first := if HasCallId(tools[0]) then [Note(tools[0])] else [];
        assert Replies(declared, tools) == first + Replies(declared, tools[1..]);
      }
    }
  }

  lemma {:induction false} AllToolsTidy(xs: seq<Message>)
    requires forall m :: m in xs ==> m.role.Tool?
    ensures Tidy(xs)
  {
    if xs != [] {
      AllToolsTidy(xs[1..]);
    }
  }

  lemma {:induction false} StrayIsTidy(note: Message, rest: seq<Message>, missing: seq<Message>)
    requires !note.role.Tool? && (forall m :: m in missing ==> m.role.Tool?)
    ensures Tidy([note] + (rest + missing)) <==> NoTools(rest) && missing == []
  {
    var xs := [note] + (rest + missing);
    assert forall m :: m in xs <==> m == note || m in rest || m in missing;
    assert missing != [] ==> missing[0] in xs;
  }

  lemma {:induction false} TidyAfterTool(tool: Message, xs: seq<Message>)
    requires tool.role.Tool?
    ensures Tidy([tool] + xs) <==> Tidy(xs)
  {
  }

  lemma {:induction false} ReplyStep(declared: set<string>, tools: seq<Message>, missing: seq<Message>)
    requires tools != []
    ensures Replies(declared, tools) + missing ==
      (if !HasCallId(tools[0]) then []
       else if tools[0].callId.value in declared then [Answer(tools[0])]
       else [Note(tools[0])]) + (Replies(declared, tools[1..]) + missing)
  {
  }

  lemma {:induction false} OrderlyIsTidy(declared: set<string>, tools: seq<Message>, missing: seq<Message>)
    requires forall m :: m in missing ==> m.role.Tool?
    ensures OrderlyBlock(declared, tools, missing == []) <==> Tidy(Replies(declared, tools) + missing)
  {
    if tools == [] {
      AllToolsTidy(missing);
      assert Replies(declared, tools) + missing == missing;
    } else {
      var rest := Replies(declared, tools[1..]);
      OrderlyIsTidy(declared, tools[1..], missing);
      ReplyStep(declared, tools, missing);
      if !HasCallId(tools[0]) {
        assert Replies(declared, tools) + missing == rest + missing;
      } else if tools[0].callId.value in declared {
        TidyAfterTool(Answer(tools[0]), rest + missing);
      } else {
        StrayIsTidy(Note(tools[0]), rest, missing);
        RepliesWithoutAnswers(declared, tools[1..]);
      }
    }
  }

  lemma {:induction false} StrictAfterNotes(xs: seq<Message>, declared: set<string>, rest: seq<Message>)
    requires forall m :: m in xs ==> FinalReply(m, declared)
    ensures Strict(xs + rest) <==> NoTools(xs) && Strict(rest)
  {
    if xs == [] {
      assert xs + rest == rest;
    } else {
      assert (xs + rest)[1..] == xs[1..] + rest;
      StrictAfterNotes(xs[1..], declared, rest);
      assert xs[0] in xs;
      assert NoTools(xs) <==> !xs[0].role.Tool? && NoTools(xs[1..]);
    }
  }

  /** After its leading answers, the tail of a block is strict exactly when no answer follows a note. */
  lemma {:induction false} TailStrict(xs: seq<Message>, declared: set<string>, rest: seq<Message>)
    requires forall m :: m in xs ==> FinalReply(m, declared)
    ensures Strict(xs[LeadingTools(xs)..] + rest) <==> Tidy(xs) && Strict(rest)
  {
    if xs != [] && xs[0].role.Tool? {
      TailStrict(xs[1..], declared, rest);
      assert xs[LeadingTools(xs)..] == xs[1..][LeadingTools(xs[1..])..];
    } else {
      StrictAfterNotes(xs, declared, rest);
    }
  }

  lemma {:induction false} LeadingOfTail(xs: seq<Message>, rest: seq<Message>)
    requires rest != [] ==> !rest[0].role.Tool?
    ensures LeadingTools(xs + rest) == LeadingTools(xs)
  {
    if xs == [] {
      assert xs + rest == rest;
    } else {
      assert (xs + rest)[1..] == xs[1..] + rest;
      LeadingOfTail(xs[1..], rest);
    }
  }

  lemma {:induction false} TidyToolsLead(xs: seq<Message>)
    requires Tidy(xs)
    ensures forall m :: m in xs && m.role.Tool? ==> m in xs[..LeadingTools(xs)]
  {
    if xs != [] && xs[0].role.Tool? {
      TidyToolsLead(xs[1..]);
      assert xs[..LeadingTools(xs)] == [xs[0]] + xs[1..][..LeadingTools(xs[1..])];
    }
  }

  /** What a block's replies and placeholders, its tail, offer to strictness. */
  lemma {:induction false} BlockTail(head: Message, tools: seq<Message>)
    requires Asks(head)
    ensures var calls := head.calls.value;
      var xs := Replies(Declared(calls), tools) + Missing(calls, AnsweredIds(tools));
      && Block(head, tools) == [AssistantForm(head)] + xs
      && (forall m :: m in xs ==> FinalReply(m, Declared(calls)))
      && (forall id :: id in Declared(calls) ==> AnsweredIn(xs, id))
      && (Tidy(xs) <==> OrderlyBlock(Declared(calls), tools, Declared(calls) <= AnsweredIds(tools)))
  {
    var calls := head.calls.value;
    var missing := Missing(calls, AnsweredIds(tools));
    var xs := Replies(Declared(calls), tools) + missing;
    assert Block(head, tools)[1..] == xs;
    RepliesFinal(Declared(calls), tools);
    MissingFinal(calls, AnsweredIds(tools), Declared(calls));
    NothingMissing(calls, AnsweredIds(tools));
    OrderlyIsTidy(Declared(calls), tools, missing);
    forall id | id in Declared(calls) ensures AnsweredIn(xs, id) {
      BlockAnswers(head, tools, id);
    }
  }

  ghost predicate AnsweredIn(xs: seq<Message>, id: string) {
    exists m :: m in xs && m.role.Tool? && m.callId == Some(id)
  }

  lemma {:induction false} LeadingAreGood(xs: seq<Message>, n: nat, declared: set<string>)
    requires n <= |xs| && (forall m :: m in xs ==> FinalReply(m, declared))
    requires forall k :: 0 <= k < n ==> xs[k].role.Tool?
    ensures forall m :: m in xs[..n] ==> GoodAnswer(m, declared)
  {
    forall m | m in xs[..n] ensures GoodAnswer(m, declared) {
      var k :| 0 <= k < n && xs[k] == m;
      assert FinalReply(xs[k], declared);
    }
  }

  /** In tidy replies every declared id is answered among the leading tool messages. */
  lemma {:induction false} TidyAnswersLead(xs: seq<Message>, n: nat, declared: set<string>)
    requires n <= |xs| && (forall m :: m in xs && m.role.Tool? ==> m in xs[..n])
    requires forall m :: m in xs ==> FinalReply(m, declared)
    requires forall id :: id in declared ==> AnsweredIn(xs, id)
    ensures declared <= AnsweredIds(xs[..n])
  {
  }

  /** The repaired form of one block, followed by a repaired rest. */
  lemma {:induction false} BlockStrict(head: Message, xs: seq<Message>, rest: seq<Message>)
    requires Asks(head) && head == AssistantForm(head) && (rest != [] ==> !rest[0].role.Tool?)
    requires forall m :: m in xs ==> FinalReply(m, Declared(head.calls.value))
    requires forall id :: id in Declared(head.calls.value) ==> AnsweredIn(xs, id)
    ensures Strict([head] + (xs + rest)) <==> Tidy(xs) && Strict(rest)
  {
    var declared, n := Declared(head.calls.value), LeadingTools(xs);
    LeadingOfTail(xs, rest);
    StrictUnfolds(head, xs + rest, n);
    assert (xs + rest)[..n] == xs[..n] && (xs + rest)[n..] == xs[n..] + rest;
    TailStrict(xs, declared, rest);
    LeadingAreGood(xs, n, declared);
    if Tidy(xs) {
      TidyToolsLead(xs);
      TidyAnswersLead(xs, n, declared);
    }
  }

  lemma {:induction false} StrictUnfolds(head: Message, tail: seq<Message>, n: nat)
    requires Asks(head) && head == AssistantForm(head) && n == LeadingTools(tail)
    ensures var declared := Declared(head.calls.value);
      Strict([head] + tail) <==>
        (forall m :: m in tail[..n] ==> GoodAnswer(m, declared)) && declared <= AnsweredIds(tail[..n]) && Strict(tail[n..])
  {
    var out := [head] + tail;
    assert out[1..] == tail && out[1..1 + n] == tail[..n] && out[1 + n..] == tail[n..];
  }

  lemma {:induction false} Regroup3<T>(a: seq<T>, b: seq<T>, c: seq<T>)
    ensures a + b + c == a + (b + c)
  {
  }

  lemma {:induction false} OrderlyBlockIsStrict(head: Message, tools: seq<Message>, rest: seq<Message>)
    requires Asks(head) && (rest != [] ==> !rest[0].role.Tool?)
    ensures Strict(Block(head, tools) + rest) <==>
      OrderlyBlock(Declared(head.calls.value), tools, Declared(head.calls.value) <= AnsweredIds(tools)) && Strict(rest)
  {
    BlockTail(head, tools);
    var xs := Block(head, tools)[1..];
    BlockStrict(AssistantForm(head), xs, rest);
    Regroup3([AssistantForm(head)], xs, rest);
  }

  lemma {:induction false} OrderlyIsStrict(ms: seq<Message>)
    ensures Strict(Sanitized(ms)) <==> Orderly(ms)
    decreases |ms|
  {
    if ms != [] {
      if Asks(ms[0]) {
        var n := LeadingTools(ms[1..]);
        NeverStartsWithTool(ms[1 + n..]);
        OrderlyBlockIsStrict(ms[0], ms[1..1 + n], Sanitized(ms[1 + n..]));
        OrderlyIsStrict(ms[1 + n..]);
      } else {
        OrderlyIsStrict(ms[1..]);
        assert Sanitized(ms)[1..] == Sanitized(ms[1..]);
      }
    }
  }

  /**
    Repairing twice is repairing once exactly when, in every block, strays come after all answers and leave
    no call unanswered; in particular whenever no tool message names an undeclared id.
   */
  lemma {:induction false} IdempotentExactly(ms: seq<Message>)
    ensures Sanitized(Sanitized(ms)) == Sanitized(ms) <==> Orderly(ms)
  {
    FixedPoints(Sanitized(ms));
    OrderlyIsStrict(ms);
  }

  predicate NamesOnlyDeclared(ms: seq<Message>)
    decreases |ms|
  {
    if ms == [] then true
    else if Asks(ms[0]) then
      var n := LeadingTools(ms[1..]);
      (forall m | m in ms[1..1 + n] :: HasCallId(m) ==> m.callId.value in Declared(ms[0].calls.value))
      && NamesOnlyDeclared(ms[1 + n..])
    else NamesOnlyDeclared(ms[1..])
  }

  lemma {:induction false} DeclaredBlockIsOrderly(declared: set<string>, tools: seq<Message>, complete: bool)
    requires forall m :: m in tools && HasCallId(m) ==> m.callId.value in declared
    ensures OrderlyBlock(declared, tools, complete)
  {
    if tools != [] {
      assert tools[0] in tools;
      DeclaredBlockIsOrderly(declared, tools[1..], complete);
    }
  }

  lemma {:induction false} DeclaredIsOrderly(ms: seq<Message>)
    requires NamesOnlyDeclared(ms)
    ensures Orderly(ms)
    decreases |ms|
  {
    if ms != [] {
      if Asks(ms[0]) {
        var n := LeadingTools(ms[1..]);
        var declared := Declared(ms[0].calls.value);
        DeclaredBlockIsOrderly(declared, ms[1..1 + n], declared <= AnsweredIds(ms[1..1 + n]));
        DeclaredIsOrderly(ms[1 + n..]);
      } else {
        DeclaredIsOrderly(ms[1..]);
      }
    }
  }

  /** Answers to undeclared calls are all that stands in the way: without them, repairing twice is repairing once. */
  lemma {:induction false} IdempotentWithoutStrays(ms: seq<Message>)
    requires NamesOnlyDeclared(ms)
    ensures Sanitized(Sanitized(ms)) == Sanitized(ms)
  {
    DeclaredIsOrderly(ms);
    IdempotentExactly(ms);
  }

  function ToolMessage(id: string): Message {
    Message(Tool, Some("x"), None, Some(id), None)
  }

  /** A stray between a call and its answer: the second repair turns the answer into a note. */
  lemma {:induction false} StrayBeforeAnswer()
    ensures var call := ToolCall("a", "f", "");
      var ms := [Message(Assistant, None, None, None, Some([call])), ToolMessage("b"), ToolMessage("a")];
      Sanitized(Sanitized(ms)) != Sanitized(ms)
  {
    var call := ToolCall("a", "f", "");
    var ms := [Message(Assistant, None, None, None, Some([call])), ToolMessage("b"), ToolMessage("a")];
    LeadingToolsIs(ms[1..], 2);
    assert ms[1..3] == ms[1..];
    assert Declared([call]) == {"a"};
    assert ms[1..][1..] == [ToolMessage("a")];
    assert ToolMessage("a") in ms[1..][1..];
    assert !Orderly(ms);
    IdempotentExactly(ms);
  }
}
