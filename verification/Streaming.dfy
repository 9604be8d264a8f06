/**
  Incremental decoding of a streamed completion: a line splitter that carries the unfinished line from chunk
  to chunk, and the assembly of tool calls from fragments addressed by index.
 */
module Streaming {
  import opened Common

  // ----- line framing ------------------------------------------------------------------------

  const NEWLINE: char := '\n'

  /** The complete lines of a text, those ended by a newline, and what follows the last newline. */
  datatype Framing = Framing(lines: seq<string>, rest: string)

  function Frame(text: string): Framing {
    if text == "" then Framing([], "")
    else
      var before, last := Frame(text[..|text| - 1]), text[|text| - 1];
      if last == NEWLINE then Framing(before.lines + [before.rest], "")
      else Framing(before.lines, before.rest + [last])
  }

  function CompleteLines(text: string): seq<string> {
    Frame(text).lines
  }

  function Remainder(text: string): string {
    Frame(text).rest
  }

  function Unlines(lines: seq<string>): string {
    if lines == [] then "" else Unlines(lines[..|lines| - 1]) + lines[|lines| - 1] + "\n"
  }

  /** A framing loses nothing, and no line contains a newline: it is the split of the text at its newlines. */
  lemma {:induction false} FrameIsSplit(text: string)
    ensures Unlines(CompleteLines(text)) + Remainder(text) == text
    ensures '\n' !in Remainder(text) && forall l :: l in CompleteLines(text) ==> '\n' !in l
  {
    if text != "" {
      var before := Frame(text[..|text| - 1]);
      FrameIsSplit(text[..|text| - 1]);
      assert text == text[..|text| - 1] + [text[|text| - 1]];
      assert (before.lines + [before.rest])[..|before.lines|] == before.lines;
    }
  }

  lemma {:induction false} FrameOfRest(text: string)
    requires NEWLINE !in text
    ensures Frame(text) == Framing([], text)
  {
    if text != "" {
      FrameOfRest(text[..|text| - 1]);
      assert text == text[..|text| - 1] + [text[|text| - 1]];
    }
  }

  /** Reading more text only completes the line left over and adds lines after it. */
  lemma {:induction false} LinesAppend(x: string, y: string)
    ensures CompleteLines(x + y) == CompleteLines(x) + CompleteLines(Remainder(x) + y)
    ensures Remainder(x + y) == Remainder(Remainder(x) + y)
  {
    var r := Remainder(x);
    FrameIsSplit(x);
    if y == "" {
      FrameOfRest(r);
      assert x + y == x && r + y == r;
    } else {
      var init := y[..|y| - 1];
      LinesAppend(x, init);
      assert (x + y)[..|x + y| - 1] == x + init && (r + y)[..|r + y| - 1] == r + init;
    }
  }

  lemma {:induction false} FrameStep(text: string, k: nat)
    requires k < |text|
    ensures var before := Frame(text[..k]);
      Frame(text[..k + 1]) == if text[k] == NEWLINE then Framing(before.lines + [before.rest], "")
                              else Framing(before.lines, before.rest + [text[k]])
  {
    assert text[..k + 1][..k] == text[..k];
  }

  class LineSplitter {
    var buffer: string

    constructor ()
      ensures buffer == ""
    {
      buffer := "";
    }

    /** `(buffer + chunk).split("\n")`: all parts but the last are lines, the last stays in the buffer. */
    method Feed(chunk: string) returns (lines: seq<string>)
      modifies this
      ensures lines == CompleteLines(old(buffer) + chunk) && buffer == Remainder(old(buffer) + chunk)
    {
      var text := buffer + chunk;
      lines := [];
      var start := 0;
      for k := 0 to |text|
        invariant 0 <= start <= k
        invariant Frame(text[..k]).lines == lines && Frame(text[..k]).rest == text[start..k]
      {
        FrameStep(text, k);
        if text[k] == NEWLINE {
          lines := lines + [text[start..k]];
          start := k + 1;
        }
      }
      assert text[..|text|] == text;
      buffer := text[start..];
    }
  }

  function Concat(chunks: seq<string>): string {
    if chunks == [] then "" else Concat(chunks[..|chunks| - 1]) + chunks[|chunks| - 1]
  }

  /** What the splitter has emitted and holds back after a sequence of chunks. */
  function Emitted(chunks: seq<string>): seq<string> {
    if chunks == [] then []
    else
      var before := chunks[..|chunks| - 1];
      Emitted(before) + CompleteLines(HeldBack(before) + chunks[|chunks| - 1])
  }

  function HeldBack(chunks: seq<string>): string {
    if chunks == [] then "" else Remainder(HeldBack(chunks[..|chunks| - 1]) + chunks[|chunks| - 1])
  }

  /** However the text is cut into chunks, the lines are those of the whole text. */
  lemma {:induction false} ChunkingIsInvisible(chunks: seq<string>)
    ensures Emitted(chunks) == CompleteLines(Concat(chunks)) && HeldBack(chunks) == Remainder(Concat(chunks))
  {
    if chunks != [] {
      var before := chunks[..|chunks| - 1];
      ChunkingIsInvisible(before);
      LinesAppend(Concat(before), chunks[|chunks| - 1]);
    }
  }

  // ----- tool call assembly ------------------------------------------------------------------

  /** A call announced without an id gets one invented for its index. */
  datatype CallId = Given(id: string) | Invented(index: nat)

  datatype Fragment = Fragment(index: Option<nat>, id: string, kind: string, name: string, arguments: string)

  datatype PartialCall = PartialCall(id: CallId, kind: string, name: string, arguments: string)

  /** A JavaScript array with holes: its length is one more than its greatest index. */
  datatype Calls = Calls(slots: map<nat, PartialCall>, length: nat)

  function NoCalls(): Calls {
    Calls(map[], 0)
  }

  function TargetIndex(calls: Calls, f: Fragment): nat {
    if f.index.Some? then f.index.value else calls.length
  }

  function Opened(f: Fragment, index: nat): PartialCall {
    PartialCall(if f.id != "" then Given(f.id) else Invented(index), if f.kind != "" then f.kind else "function",
                f.name, f.arguments)
  }

  function Extended(c: PartialCall, f: Fragment): PartialCall {
    PartialCall(if f.id != "" then Given(f.id) else c.id, if f.kind != "" then f.kind else c.kind,
                c.name + f.name, c.arguments + f.arguments)
  }

  function Place(calls: Calls, f: Fragment): Calls {
    var i := TargetIndex(calls, f);
    var call := if i in calls.slots then Extended(calls.slots[i], f) else Opened(f, i);
    Calls(calls.slots[i := call], if i < calls.length then calls.length else i + 1)
  }

  /** What one decoded line contributes: text, and fragments up to the first that could not be read. */
  datatype Delta = Delta(content: string, fragments: seq<Fragment>)

  /** JSON.parse of a payload, None when it throws or carries no delta. */
  type Parser = string -> Option<Delta>

  datatype Decoded = Decoded(content: string, calls: Calls)

  function PlaceAll(calls: Calls, fragments: seq<Fragment>): Calls {
    if fragments == [] then calls
    else Place(PlaceAll(calls, fragments[..|fragments| - 1]), fragments[|fragments| - 1])
  }

  const DATA := "data: "
  const DONE := "data: [DONE]"

  /** Only data lines count, and of them only those that carry a delta. */
  function DeltaOf(parse: Parser, line: string): Option<Delta> {
    if DATA <= line && line != DONE then parse(line[|DATA|..]) else None
  }

  /** What counts is the payload behind the marker, but for the closing one, and only if it can be parsed. */
  lemma {:induction false} PayloadsCount(parse: Parser, line: string, delta: Delta)
    ensures DeltaOf(parse, line) == Some(delta) <==>
      exists payload :: line == "data: " + payload && payload != "[DONE]" && parse(payload) == Some(delta)
  {
    if DeltaOf(parse, line) == Some(delta) {
      var payload := line[6..];
      assert line == "data: " + payload;
      assert "data: " + "[DONE]" == DONE;
    }
    forall payload | line == "data: " + payload && payload != "[DONE]" && parse(payload) == Some(delta)
      ensures DeltaOf(parse, line) == Some(delta)
    {
      assert line[6..] == payload && DONE[6..] == "[DONE]";
    }
  }

  function Absorb(parse: Parser, d: Decoded, line: string): Decoded {
    match DeltaOf(parse, line)
    case None => d
    case Some(delta) => Decoded(d.content + delta.content, PlaceAll(d.calls, delta.fragments))
  }

  function DecodeLines(parse: Parser, d: Decoded, lines: seq<string>): Decoded {
    if lines == [] then d else Absorb(parse, DecodeLines(parse, d, lines[..|lines| - 1]), lines[|lines| - 1])
  }

  class StreamDecoder {
    const parse: Parser
    var splitter: LineSplitter
    var fullContent: string
    var toolCalls: Calls

    ghost function State(): Decoded
      reads this
    {
      Decoded(fullContent, toolCalls)
    }

    constructor (parse: Parser)
      ensures this.parse == parse && State() == Decoded("", NoCalls()) && splitter.buffer == "" && fresh(splitter)
    {
      this.parse := parse;
      splitter := new LineSplitter();
      fullContent := "";
      toolCalls := NoCalls();
    }

    method PlaceFragments(fragments: seq<Fragment>)
      modifies this`toolCalls
      ensures toolCalls == PlaceAll(old(toolCalls), fragments)
    {
      for k := 0 to |fragments|
        invariant toolCalls == PlaceAll(old(toolCalls), fragments[..k])
      {
        assert fragments[..k + 1][..k] == fragments[..k];
        var f := fragments[k];
        var i := TargetIndex(toolCalls, f);
        var length := if i < toolCalls.length then toolCalls.length else i + 1;
        if i !in toolCalls.slots {
          toolCalls := Calls(toolCalls.slots[i := Opened(f, i)], length);
        } else {
          toolCalls := Calls(toolCalls.slots[i := Extended(toolCalls.slots[i], f)], length);
        }
      }
      assert fragments[..|fragments|] == fragments;
    }

    method ReadLine(line: string)
      modifies this`fullContent, this`toolCalls
      ensures State() == Absorb(parse, old(State()), line)
    {
      if DATA <= line && line != DONE {
        var delta := parse(line[|DATA|..]);
        if delta.Some? {
          fullContent := fullContent + delta.value.content;
          PlaceFragments(delta.value.fragments);
        }
      }
    }

    method Read(chunk: string)
      modifies this`fullContent, this`toolCalls, splitter
      ensures State() == DecodeLines(parse, old(State()), CompleteLines(old(splitter.buffer) + chunk))
      ensures splitter.buffer == Remainder(old(splitter.buffer) + chunk)
    {
      var lines := splitter.Feed(chunk);
      for k := 0 to |lines|
        invariant State() == DecodeLines(parse, old(State()), lines[..k])
        invariant splitter.buffer == Remainder(old(splitter.buffer) + chunk)
      {
        assert lines[..k + 1][..k] == lines[..k];
        ReadLine(lines[k]);
      }
      assert lines[..|lines|] == lines;
    }
  }

  /** The message of a response: its content, and its calls by ascending index if there are any. */
  datatype Completion = Completion(content: string, toolCalls: Option<seq<PartialCall>>)

  /** The filled slots below an index, in order. */
  function Listed(calls: Calls, below: nat): seq<PartialCall> {
    if below == 0 then []
    else Listed(calls, below - 1) + (if below - 1 in calls.slots then [calls.slots[below - 1]] else [])
  }

  function Complete(d: Decoded): Completion {
    Completion(d.content, if d.calls.length > 0 then Some(Listed(d.calls, d.calls.length)) else None)
  }

  function DecodeText(parse: Parser, text: string): Decoded {
    DecodeLines(parse, Decoded("", NoCalls()), CompleteLines(text))
  }

  /** Decoding a whole response: the text of its complete lines; an unfinished last line is dropped. */
  method DecodeStream(parse: Parser, chunks: seq<string>) returns (completion: Completion)
    ensures completion == Complete(DecodeText(parse, Concat(chunks)))
    ensures Tells(Deltas(parse, CompleteLines(Concat(chunks))), completion)
  {
    var decoder := new StreamDecoder(parse);
    for k := 0 to |chunks|
      invariant decoder.parse == parse && fresh(decoder) && fresh(decoder.splitter)
      invariant decoder.State() == DecodeLines(parse, Decoded("", NoCalls()), Emitted(chunks[..k]))
      invariant decoder.splitter.buffer == HeldBack(chunks[..k])
    {
      assert chunks[..k + 1][..k] == chunks[..k];
      DecodeAppend(parse, Decoded("", NoCalls()), Emitted(chunks[..k]), CompleteLines(HeldBack(chunks[..k]) + chunks[k]));
      decoder.Read(chunks[k]);
    }
    assert chunks[..|chunks|] == chunks;
    ChunkingIsInvisible(chunks);
    var calls := [];
    for i := 0 to decoder.toolCalls.length
      invariant calls == Listed(decoder.toolCalls, i)
    {
      if i in decoder.toolCalls.slots { calls := calls + [decoder.toolCalls.slots[i]]; }
    }
    completion := Completion(decoder.fullContent, if decoder.toolCalls.length > 0 then Some(calls) else None);
    MessageTells(parse, Concat(chunks));
  }

  lemma {:induction false} DecodeAppend(parse: Parser, d: Decoded, x: seq<string>, y: seq<string>)
    ensures DecodeLines(parse, d, x + y) == DecodeLines(parse, DecodeLines(parse, d, x), y)
  {
    if y == [] {
      assert x + y == x;
    } else {
      assert (x + y)[..|x + y| - 1] == x + y[..|y| - 1];
      DecodeAppend(parse, d, x, y[..|y| - 1]);
    }
  }

  // ----- what is assembled -------------------------------------------------------------------

  function FragmentsOf(fragments: seq<Fragment>, i: nat): seq<Fragment> {
    if fragments == [] then []
    else
      var last := fragments[|fragments| - 1];
      FragmentsOf(fragments[..|fragments| - 1], i) + (if last.index == Some(i) then [last] else [])
  }

  function Names(fragments: seq<Fragment>): string {
    if fragments == [] then "" else Names(fragments[..|fragments| - 1]) + fragments[|fragments| - 1].name
  }

  function Arguments(fragments: seq<Fragment>): string {
    if fragments == [] then "" else Arguments(fragments[..|fragments| - 1]) + fragments[|fragments| - 1].arguments
  }

  /** The last non-empty value of a field, in fragment order. */
  function LatestId(fragments: seq<Fragment>, i: nat): CallId {
    if fragments == [] then Invented(i)
    else if fragments[|fragments| - 1].id != "" then Given(fragments[|fragments| - 1].id)
    else LatestId(fragments[..|fragments| - 1], i)
  }

  function LatestKind(fragments: seq<Fragment>): string {
    if fragments == [] then "function"
    else if fragments[|fragments| - 1].kind != "" then fragments[|fragments| - 1].kind
    else LatestKind(fragments[..|fragments| - 1])
  }

  /** The call a fragment list describes for one index, taken by itself. */
  function Assembled(own: seq<Fragment>, i: nat): PartialCall {
    PartialCall(LatestId(own, i), LatestKind(own), Names(own), Arguments(own))
  }

  lemma {:induction false} AssembledStep(own: seq<Fragment>, f: Fragment, i: nat)
    ensures Assembled(own + [f], i) == if own == [] then Opened(f, i) else Extended(Assembled(own, i), f)
  {
    var longer := own + [f];
    assert longer[..|longer| - 1] == own && longer[|longer| - 1] == f;
    assert Names(longer) == Names(own) + f.name && Arguments(longer) == Arguments(own) + f.arguments;
    assert LatestId(longer, i) == (if f.id != "" then Given(f.id) else LatestId(own, i));
    assert LatestKind(longer) == (if f.kind != "" then f.kind else LatestKind(own));
    assert "" + f.name == f.name && "" + f.arguments == f.arguments;
  }

  /** The fragments with the index each one is placed at: its own, or the length of the calls so far. */
  function Located(fragments: seq<Fragment>): (located: seq<Fragment>)
    ensures |located| == |fragments|
  {
    if fragments == [] then []
    else
      var before, last := fragments[..|fragments| - 1], fragments[|fragments| - 1];
      Located(before) + [last.(index := Some(TargetIndex(PlaceAll(NoCalls(), before), last)))]
  }

  /** The least index above all of these fragments'. */
  ghost predicate IsNext(located: seq<Fragment>, i: nat) {
    && (forall k :: 0 <= k < |located| ==> located[k].index.Some? && located[k].index.value < i)
    && (i > 0 ==> exists k :: 0 <= k < |located| && located[k].index == Some(i - 1))
  }

  lemma {:induction false} NextStep(located: seq<Fragment>, next: nat, f: Fragment)
    requires IsNext(located, next) && f.index.Some?
    ensures IsNext(located + [f], if f.index.value < next then next else f.index.value + 1)
  {
    var longer := located + [f];
    if f.index.value < next {
      var k :| 0 <= k < |located| && located[k].index == Some(next - 1);
      assert longer[k] == located[k];
    } else {
      assert longer[|located|] == f;
    }
  }

  lemma {:induction false} LengthIsNext(fragments: seq<Fragment>)
    ensures IsNext(Located(fragments), PlaceAll(NoCalls(), fragments).length)
  {
    if fragments != [] {
      var before, last := fragments[..|fragments| - 1], fragments[|fragments| - 1];
      var calls := PlaceAll(NoCalls(), before);
      LengthIsNext(before);
      NextStep(Located(before), calls.length, last.(index := Some(TargetIndex(calls, last))));
    }
  }

  /** A fragment counts for the index it names, and without one for the next after all placed before it. */
  lemma {:induction false} LocatedExactly(fragments: seq<Fragment>, k: nat)
    requires k < |fragments|
    ensures var located, f := Located(fragments), fragments[k];
      && located[k].index.Some? && located[k] == f.(index := located[k].index)
      && (if f.index.Some? then located[k].index == f.index else IsNext(located[..k], located[k].index.value))
  {
    var before := fragments[..|fragments| - 1];
    assert Located(fragments)[..|before|] == Located(before);
    if k < |before| {
      LocatedExactly(before, k);
      assert Located(fragments)[..k] == Located(before)[..k];
    } else {
      LengthIsNext(before);
    }
  }

  /** Where every fragment names its index, nothing is filled in. */
  lemma {:induction false} IndexedStay(fragments: seq<Fragment>)
    requires forall k :: 0 <= k < |fragments| ==> fragments[k].index.Some?
    ensures Located(fragments) == fragments
  {
    if fragments != [] {
      IndexedStay(fragments[..|fragments| - 1]);
    }
  }

  lemma {:induction false} LocatedStep(fragments: seq<Fragment>, i: nat)
    requires fragments != []
    ensures var before, last := fragments[..|fragments| - 1], fragments[|fragments| - 1];
      var at := TargetIndex(PlaceAll(NoCalls(), before), last);
      FragmentsOf(Located(fragments), i)
        == FragmentsOf(Located(before), i) + (if at == i then [last.(index := Some(at))] else [])
  {
    assert Located(fragments)[..|fragments| - 1] == Located(fragments[..|fragments| - 1]);
  }

  /**
    Each call is assembled from the fragments of its own index alone: name and arguments are their in-order
    concatenation, id and type their latest non-empty ones. A fragment without an index opens a call at the end.
   */
  lemma {:induction false} CallsAreConcatenations(fragments: seq<Fragment>, i: nat)
    ensures var calls, own := PlaceAll(NoCalls(), fragments), FragmentsOf(Located(fragments), i);
      && (i in calls.slots <==> own != [])
      && (i in calls.slots ==> calls.slots[i] == Assembled(own, i))
  {
    if fragments != [] {
      var before, last := fragments[..|fragments| - 1], fragments[|fragments| - 1];
      CallsAreConcatenations(before, i);
      LocatedStep(fragments, i);
      var own := FragmentsOf(Located(before), i);
      if TargetIndex(PlaceAll(NoCalls(), before), last) == i {
        AssembledStep(own, last.(index := Some(i)), i);
      } else {
        assert own + [] == own;
      }
    }
  }

  /** The slots fill a range up to the length: it is one above the greatest index, and 0 without any. */
  ghost predicate LengthFits(calls: Calls) {
    && (forall i :: i in calls.slots ==> i < calls.length)
    && (calls.length > 0 ==> calls.length - 1 in calls.slots)
  }

  lemma {:induction false} PlacedLengthFits(fragments: seq<Fragment>)
    ensures LengthFits(PlaceAll(NoCalls(), fragments))
  {
    if fragments != [] {
      PlacedLengthFits(fragments[..|fragments| - 1]);
    }
  }

  /** Fragment lists that agree index by index place the same calls, however they interleave. */
  lemma {:induction false} InterleavingIsInvisible(x: seq<Fragment>, y: seq<Fragment>)
    requires forall i: nat :: FragmentsOf(Located(x), i) == FragmentsOf(Located(y), i)
    ensures PlaceAll(NoCalls(), x) == PlaceAll(NoCalls(), y)
  {
    var a, b := PlaceAll(NoCalls(), x), PlaceAll(NoCalls(), y);
    forall i: nat
      ensures (i in a.slots <==> i in b.slots) && (i in a.slots ==> a.slots[i] == b.slots[i])
    {
      CallsAreConcatenations(x, i);
      CallsAreConcatenations(y, i);
    }
    assert a.slots == b.slots;
    PlacedLengthFits(x);
    PlacedLengthFits(y);
  }

  // ----- a whole stream ----------------------------------------------------------------------

  /** The deltas the lines of a text carry, in order; other lines carry none. */
  function Deltas(parse: Parser, lines: seq<string>): seq<Delta> {
    if lines == [] then []
    else
      var delta := DeltaOf(parse, lines[|lines| - 1]);
      Deltas(parse, lines[..|lines| - 1]) + (if delta.Some? then [delta.value] else [])
  }

  function Contents(deltas: seq<Delta>): string {
    if deltas == [] then "" else Contents(deltas[..|deltas| - 1]) + deltas[|deltas| - 1].content
  }

  function AllFragments(deltas: seq<Delta>): seq<Fragment> {
    if deltas == [] then [] else AllFragments(deltas[..|deltas| - 1]) + deltas[|deltas| - 1].fragments
  }

  lemma {:induction false} PlaceAllAppend(calls: Calls, x: seq<Fragment>, y: seq<Fragment>)
    ensures PlaceAll(calls, x + y) == PlaceAll(PlaceAll(calls, x), y)
  {
    if y == [] {
      assert x + y == x;
    } else {
      assert (x + y)[..|x + y| - 1] == x + y[..|y| - 1];
      PlaceAllAppend(calls, x, y[..|y| - 1]);
    }
  }

  lemma {:induction false} DeltaSnoc(deltas: seq<Delta>, d: Delta)
    ensures Contents(deltas + [d]) == Contents(deltas) + d.content
    ensures AllFragments(deltas + [d]) == AllFragments(deltas) + d.fragments
  {
    assert (deltas + [d])[..|deltas|] == deltas;
  }

  /** Decoding lines is concatenating their texts and placing all their fragments in one list. */
  lemma {:induction false} LinesDecodeAsOne(parse: Parser, lines: seq<string>)
    ensures var deltas := Deltas(parse, lines);
      DecodeLines(parse, Decoded("", NoCalls()), lines) == Decoded(Contents(deltas), PlaceAll(NoCalls(), AllFragments(deltas)))
  {
    if lines != [] {
      var before, delta := Deltas(parse, lines[..|lines| - 1]), DeltaOf(parse, lines[|lines| - 1]);
      LinesDecodeAsOne(parse, lines[..|lines| - 1]);
      if delta.Some? {
        DeltaSnoc(before, delta.value);
        PlaceAllAppend(NoCalls(), AllFragments(before), delta.value.fragments);
      } else {
        assert Deltas(parse, lines) == before;
      }
    }
  }

  /**
    A decoded response: its content is the concatenation of the texts of its lines, and each of its calls is
    assembled from its own index's fragments of the whole response, in order.
   */
  lemma {:induction false} ResponseIsConcatenation(parse: Parser, text: string, i: nat)
    ensures var deltas, d := Deltas(parse, CompleteLines(text)), DecodeText(parse, text);
      var own := FragmentsOf(Located(AllFragments(deltas)), i);
      && d.content == Contents(deltas)
      && (i in d.calls.slots <==> own != [])
      && (i in d.calls.slots ==> d.calls.slots[i] == Assembled(own, i))
      && (d.calls.length > 0 <==> AllFragments(deltas) != [])
  {
    var fragments := AllFragments(Deltas(parse, CompleteLines(text)));
    LinesDecodeAsOne(parse, CompleteLines(text));
    CallsAreConcatenations(fragments, i);
    assert fragments != [] ==> PlaceAll(NoCalls(), fragments).length > 0;
  }

  /**
    Two responses with the same content whose fragments agree index by index decode to the same message,
    whatever lines and chunks they come in and however the fragments of different calls are interleaved.
   */
  lemma {:induction false} ResponsesAgree(parse: Parser, x: string, y: string)
    requires var a, b := Deltas(parse, CompleteLines(x)), Deltas(parse, CompleteLines(y));
      && Contents(a) == Contents(b)
      && forall i: nat :: FragmentsOf(Located(AllFragments(a)), i) == FragmentsOf(Located(AllFragments(b)), i)
    ensures Complete(DecodeText(parse, x)) == Complete(DecodeText(parse, y))
  {
    LinesDecodeAsOne(parse, CompleteLines(x));
    LinesDecodeAsOne(parse, CompleteLines(y));
    InterleavingIsInvisible(AllFragments(Deltas(parse, CompleteLines(x))), AllFragments(Deltas(parse, CompleteLines(y))));
  }

  ghost predicate Ascending(at: seq<nat>) {
    forall k, l :: 0 <= k < l < |at| ==> at[k] < at[l]
  }

  lemma {:induction false} ListedByIndex(calls: Calls, below: nat) returns (at: seq<nat>)
    ensures |at| == |Listed(calls, below)| && Ascending(at)
    ensures forall i: nat :: i in at <==> i < below && i in calls.slots
    ensures forall k :: 0 <= k < |at| ==> at[k] in calls.slots && Listed(calls, below)[k] == calls.slots[at[k]]
  {
    at := [];
    if below > 0 {
      at := ListedByIndex(calls, below - 1);
      if below - 1 in calls.slots {
        assert forall k :: 0 <= k < |at| ==> at[k] in at;
        at := at + [below - 1];
      }
    }
  }

  /** The calls the fragments describe: one for each index they have, by ascending index, assembled from its own. */
  ghost predicate Describes(located: seq<Fragment>, at: seq<nat>, calls: seq<PartialCall>) {
    && |at| == |calls| && Ascending(at)
    && (forall i: nat :: i in at <==> FragmentsOf(located, i) != [])
    && forall k :: 0 <= k < |at| ==> calls[k] == Assembled(FragmentsOf(located, at[k]), at[k])
  }

  /** The message of a response: the text of its lines, and the calls its fragments describe if it has any. */
  ghost predicate Tells(deltas: seq<Delta>, completion: Completion) {
    var fragments := AllFragments(deltas);
    && completion.content == Contents(deltas)
    && (completion.toolCalls.None? <==> fragments == [])
    && (fragments != [] ==> exists at :: Describes(Located(fragments), at, completion.toolCalls.value))
  }

  lemma {:induction false} ListedDescribes(fragments: seq<Fragment>) returns (at: seq<nat>)
    ensures var calls := PlaceAll(NoCalls(), fragments);
      Describes(Located(fragments), at, Listed(calls, calls.length))
  {
    var calls := PlaceAll(NoCalls(), fragments);
    at := ListedByIndex(calls, calls.length);
    PlacedLengthFits(fragments);
    forall i: nat
      ensures i in calls.slots <==> FragmentsOf(Located(fragments), i) != []
      ensures i in calls.slots ==> calls.slots[i] == Assembled(FragmentsOf(Located(fragments), i), i)
    {
      CallsAreConcatenations(fragments, i);
    }
  }

  /** What a response decodes to. */
  lemma {:induction false} MessageTells(parse: Parser, text: string)
    ensures Tells(Deltas(parse, CompleteLines(text)), Complete(DecodeText(parse, text)))
  {
    var fragments := AllFragments(Deltas(parse, CompleteLines(text)));
    LinesDecodeAsOne(parse, CompleteLines(text));
    var at := ListedDescribes(fragments);
    assert fragments != [] ==> PlaceAll(NoCalls(), fragments).length > 0;
  }
}
