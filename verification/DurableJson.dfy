/**
  The normaliser for durable JSON: a depth-first walk over a heap of objects that may be shared or cyclic,
  with the set of objects on the current path.
 */
module DurableJson {
  import opened Common
  import opened Filters

  type Ref = nat

  datatype Number = Finite(value: real) | NotFinite

  datatype Value =
    | Null
    | Boolean(b: bool)
    | Num(n: Number)
    | Str(s: string)
    | Undefined
    | FunctionValue
    | BigInt
    | Symbol
    | Object(ref: Ref)

  /** A property descriptor: a stored value, or an accessor. */
  datatype Property = Data(value: Value, enumerable: bool) | Accessor

  datatype Member = Member(key: string, property: Property)

  /** Elements of an array are its index properties; a hole has none. `extra` are its other own properties. */
  datatype Node =
    | Plain(members: seq<Member>, symbols: bool)
    | Exotic
    | Array(elements: seq<Option<Property>>, extra: seq<Member>, symbols: bool)

  type Heap = map<Ref, Node>

  datatype Json =
    | JNull
    | JBoolean(b: bool)
    | JNumber(value: real)
    | JString(s: string)
    | JObject(fields: seq<Field>)
    | JArray(items: seq<Json>)

  datatype Field = Field(key: string, value: Json)

  datatype Segment = Key(key: string) | Index(index: nat)

  datatype Reason =
    | NotFiniteNumber | UndefinedValue | FunctionFound | BigIntFound | SymbolFound
    | Circular | NonPlain | SymbolKeys | OwnToJson | AccessorFound | ArrayProperty | Hole

  /** Where the walk stopped, from the root, and why. */
  datatype Failure = Failure(path: seq<Segment>, reason: Reason)

  type Outcome<T> = Result<T, Failure>

  // ----- checks that do not recurse ----------------------------------------------------------

  predicate HasToJson(members: seq<Member>) {
    exists k | 0 <= k < |members| :: members[k].key == "toJSON"
  }

  predicate HasAccessor(members: seq<Member>) {
    exists k | 0 <= k < |members| :: members[k].property.Accessor?
  }

  predicate HasElementAccessor(elements: seq<Option<Property>>) {
    exists k | 0 <= k < |elements| :: elements[k].Some? && elements[k].value.Accessor?
  }

  predicate HasVisible(members: seq<Member>) {
    exists k | 0 <= k < |members| :: members[k].property.Data? && members[k].property.enumerable
  }

  predicate IsVisible(p: Property) {
    p.Data? && p.enumerable
  }

  /**
    The object is fit for JSON, its values aside: a plain object or an array without symbol keys, without a member
    named toJSON and without accessors; an array has no visible property besides its elements.
   */
  ghost predicate Sound(node: Node) {
    match node
    case Plain(members, symbols) =>
      !symbols && forall k :: 0 <= k < |members| ==> members[k].key != "toJSON" && members[k].property.Data?
    case Array(elements, extra, symbols) =>
      && !symbols
      && (forall k :: 0 <= k < |elements| && elements[k].Some? ==> elements[k].value.Data?)
      && (forall k :: 0 <= k < |extra| ==>
            extra[k].key != "toJSON" && extra[k].property.Data? && !IsVisible(extra[k].property))
    case Exotic => false
  }

  /** The fact about the object that a reason names. */
  ghost predicate Shows(node: Node, reason: Reason) {
    var members := if node.Plain? then node.members else if node.Array? then node.extra else [];
    match reason
    case NonPlain => node.Exotic?
    case SymbolKeys => !node.Exotic? && node.symbols
    case OwnToJson => exists k :: 0 <= k < |members| && members[k].key == "toJSON"
    case AccessorFound =>
      || (exists k :: 0 <= k < |members| && members[k].property.Accessor?)
      || (node.Array? && exists k :: 0 <= k < |node.elements| && node.elements[k].Some? && node.elements[k].value.Accessor?)
    case ArrayProperty => node.Array? && exists k :: 0 <= k < |members| && IsVisible(members[k].property)
    case _ => false
  }

  /** What is wrong with an object itself, whatever its values are: the first that shows, in the order of the checks. */
  function Defect(node: Node): (found: Option<Reason>)
    ensures found.None? <==> Sound(node)
    ensures found.Some? ==> Shows(node, found.value)
    ensures Shows(node, SymbolKeys) ==> found == Some(SymbolKeys)
    ensures Shows(node, OwnToJson) && !Shows(node, SymbolKeys) ==> found == Some(OwnToJson)
    ensures Shows(node, ArrayProperty) && found == Some(ArrayProperty) ==> !Shows(node, AccessorFound)
  {
    match node
    case Exotic => Some(NonPlain)
    case Plain(members, symbols) =>
      if symbols then Some(SymbolKeys)
      else if HasToJson(members) then Some(OwnToJson)
      else if HasAccessor(members) then Some(AccessorFound)
      else None
    case Array(elements, extra, symbols) =>
      if symbols then Some(SymbolKeys)
      else if HasToJson(extra) then Some(OwnToJson)
      else if HasElementAccessor(elements) || HasAccessor(extra) then Some(AccessorFound)
      else if HasVisible(extra) then Some(ArrayProperty)
      else None
  }

  // ----- the tree a value unfolds to, independently of any walk -------------------------------

  /** The members an object contributes: the enumerable ones, in order. */
  function Visible(members: seq<Member>): seq<Member> {
    if members == [] then []
    else (if members[0].property.Data? && members[0].property.enumerable then [members[0]] else []) + Visible(members[1..])
  }

  lemma {:induction false} VisibleSnoc(members: seq<Member>, m: Member)
    ensures Visible(members + [m]) == Visible(members) + if IsVisible(m.property) then [m] else []
  {
    if members == [] {
      assert [m][1..] == [] && [] + [m] == [m];
    } else {
      assert (members + [m])[0] == members[0] && (members + [m])[1..] == members[1..] + [m];
      VisibleSnoc(members[1..], m);
    }
  }

  /** They are all the visible ones, each once, and in their order. */
  lemma {:induction false} VisibleAreFiltered(members: seq<Member>)
    ensures Filtered(members, Visible(members), (m: Member) => IsVisible(m.property))
  {
    var keep := (m: Member) => IsVisible(m.property);
    if members == [] {
      FilteredNothing(keep);
    } else {
      var n := |members| - 1;
      VisibleAreFiltered(members[..n]);
      VisibleSnoc(members[..n], members[n]);
      FilteredSnoc(members[..n], members[n], Visible(members[..n]), keep);
      assert members[..n] + [members[n]] == members;
    }
  }

  /** `j` is the finite tree obtained by following every reference from `v`, never entering `away`. */
  ghost predicate Unfolds(heap: Heap, v: Value, j: Json, away: set<Ref>)
    decreases j, 1
  {
    match v
    case Null => j == JNull
    case Boolean(b) => j == JBoolean(b)
    case Num(n) => n.Finite? && j == JNumber(n.value)
    case Str(s) => j == JString(s)
    case Object(r) => r in heap && r !in away && Sound(heap[r]) && NodeUnfolds(heap, heap[r], j, away)
    case _ => false
  }

  ghost predicate NodeUnfolds(heap: Heap, node: Node, j: Json, away: set<Ref>)
    decreases j, 0
  {
    match node
    case Plain(members, _) =>
      var shown := Visible(members);
      j.JObject? && |j.fields| == |shown|
      && forall k | 0 <= k < |shown| ::
        j.fields[k].key == shown[k].key && shown[k].property.Data?
        && Unfolds(heap, shown[k].property.value, j.fields[k].value, away)
    case Array(elements, _, _) =>
      j.JArray? && |j.items| == |elements|
      && forall k | 0 <= k < |elements| ::
        elements[k].Some? && elements[k].value.Data? && Unfolds(heap, elements[k].value.value, j.items[k], away)
    case Exotic => false
  }

  // ----- the walk ----------------------------------------------------------------------------

  predicate AllData(shown: seq<Member>) {
    forall k | 0 <= k < |shown| :: shown[k].property.Data?
  }

  lemma {:induction false} VisibleIsData(members: seq<Member>)
    ensures AllData(Visible(members))
  {
    if members != [] {
      VisibleIsData(members[1..]);
    }
  }

  function Norm(heap: Heap, v: Value, path: seq<Segment>, seen: set<Ref>): Outcome<Json>
    decreases heap.Keys - seen, 0, 0
  {
    match v
    case Null => Ok(JNull)
    case Boolean(b) => Ok(JBoolean(b))
    case Num(n) => if n.Finite? then Ok(JNumber(n.value)) else Err(Failure(path, NotFiniteNumber))
    case Str(s) => Ok(JString(s))
    case Undefined => Err(Failure(path, UndefinedValue))
    case FunctionValue => Err(Failure(path, FunctionFound))
    case BigInt => Err(Failure(path, BigIntFound))
    case Symbol => Err(Failure(path, SymbolFound))
    case Object(r) =>
      if r in seen then Err(Failure(path, Circular))
      else if r !in heap then Err(Failure(path, NonPlain))
      else NormNode(heap, r, path, seen)
  }

  function NormNode(heap: Heap, r: Ref, path: seq<Segment>, seen: set<Ref>): Outcome<Json>
    requires r in heap && r !in seen
    decreases heap.Keys - seen, 0, 0, 0
  {
    var node := heap[r];
    if Defect(node).Some? then Err(Failure(path, Defect(node).value))
    else
      assert r in heap.Keys - seen && r !in heap.Keys - (seen + {r});
      match node
      case Plain(members, _) =>
        VisibleIsData(members);
        var fields := NormMembers(heap, Visible(members), path, seen + {r});
        if fields.Ok? then Ok(JObject(fields.value)) else Err(fields.error)
      case Array(elements, _, _) =>
        assert NoElementAccessor(elements);
        var items := NormElements(heap, elements, 0, path, seen + {r});
        if items.Ok? then Ok(JArray(items.value)) else Err(items.error)
  }

  predicate NoElementAccessor(elements: seq<Option<Property>>) {
    forall k | 0 <= k < |elements| :: elements[k].Some? ==> elements[k].value.Data?
  }

  function NormMembers(heap: Heap, shown: seq<Member>, path: seq<Segment>, seen: set<Ref>): Outcome<seq<Field>>
    requires AllData(shown)
    decreases heap.Keys - seen, 1, |shown|
  {
    if shown == [] then Ok([])
    else
      var first := Norm(heap, shown[0].property.value, path + [Key(shown[0].key)], seen);
      if first.Err? then Err(first.error)
      else
        var rest := NormMembers(heap, shown[1..], path, seen);
        if rest.Err? then rest else Ok([Field(shown[0].key, first.value)] + rest.value)
  }

  function NormElements(heap: Heap, elements: seq<Option<Property>>, i: nat, path: seq<Segment>, seen: set<Ref>): Outcome<seq<Json>>
    requires NoElementAccessor(elements) && i <= |elements|
    decreases heap.Keys - seen, 1, |elements| - i
  {
    if i == |elements| then Ok([])
    else if elements[i].None? then Err(Failure(path + [Index(i)], Hole))
    else
      var first := Norm(heap, elements[i].value.value, path + [Index(i)], seen);
      if first.Err? then Err(first.error)
      else
        var rest := NormElements(heap, elements, i + 1, path, seen);
        if rest.Err? then rest else Ok([first.value] + rest.value)
  }

  // ----- the imperative walk -----------------------------------------------------------------

  /** A result found so far, continued by the result of the rest. */
  function Continue<T>(done: seq<T>, rest: Outcome<seq<T>>): Outcome<seq<T>> {
    if rest.Ok? then Ok(done + rest.value) else rest
  }

  lemma {:induction false} ContinueStart<T>(rest: Outcome<seq<T>>)
    ensures Continue([], rest) == rest
  {
    if rest.Ok? {
      assert [] + rest.value == rest.value;
    }
  }

  lemma {:induction false} ContinueOne<T>(done: seq<T>, x: T, rest: Outcome<seq<T>>)
    ensures Continue(done + [x], rest) == Continue(done, Continue([x], rest))
  {
    if rest.Ok? {
      assert done + [x] + rest.value == done + ([x] + rest.value);
    }
  }

  lemma {:induction false} VisibleStep(members: seq<Member>, k: nat)
    requires k < |members|
    ensures var m := members[k];
      Visible(members[k..]) ==
        (if m.property.Data? && m.property.enumerable then [m] else []) + Visible(members[k + 1..])
  {
  }

  class Normalizer {
    const heap: Heap
    /** The objects on the current path. */
    var seen: set<Ref>

    constructor (heap: Heap)
      ensures this.heap == heap && seen == {}
    {
      this.heap := heap;
      seen := {};
    }

    method NormalizeValue(v: Value, path: seq<Segment>) returns (r: Outcome<Json>)
      modifies this
      ensures seen == old(seen) && r == Norm(heap, v, path, seen)
      decreases heap.Keys - seen, 0, 0
    {
      match v {
        case Null => r := Ok(JNull);
        case Boolean(b) => r := Ok(JBoolean(b));
        case Num(n) =>
          if n.Finite? { r := Ok(JNumber(n.value)); } else { r := Err(Failure(path, NotFiniteNumber)); }
        case Str(s) => r := Ok(JString(s));
        case Undefined => r := Err(Failure(path, UndefinedValue));
        case FunctionValue => r := Err(Failure(path, FunctionFound));
        case BigInt => r := Err(Failure(path, BigIntFound));
        case Symbol => r := Err(Failure(path, SymbolFound));
        case Object(ref) => r := NormalizeObjectLike(ref, path);
      }
    }

    /** Enters an object; whatever happens inside, it is off the path again afterwards. */
    method NormalizeObjectLike(ref: Ref, path: seq<Segment>) returns (r: Outcome<Json>)
      modifies this
      ensures seen == old(seen) && r == Norm(heap, Object(ref), path, seen)
      decreases heap.Keys - seen, 0, 0, 0
    {
      if ref in seen { return Err(Failure(path, Circular)); }
      if ref !in heap { return Err(Failure(path, NonPlain)); }
      ghost var before := seen;
      assert ref in heap.Keys - seen && ref !in heap.Keys - (seen + {ref});
      seen := seen + {ref};
      var node := heap[ref];
      if Defect(node).Some? {
        r := Err(Failure(path, Defect(node).value));
      } else {
        match node {
          case Plain(members, _) =>
            VisibleIsData(members);
            r := NormalizeMembers(members, path);
          case Array(elements, _, _) =>
            assert NoElementAccessor(elements);
            r := NormalizeArray(elements, path);
          case Exotic => assert false;
        }
      }
      seen := seen - {ref};
      assert seen == before;
    }

    method NormalizeMembers(members: seq<Member>, path: seq<Segment>) returns (r: Outcome<Json>)
      requires AllData(Visible(members))
      modifies this
      ensures seen == old(seen)
      ensures var fields := NormMembers(heap, Visible(members), path, seen);
        r == if fields.Ok? then Ok(JObject(fields.value)) else Err(fields.error)
      decreases heap.Keys - seen, 1
    {
      var fields: seq<Field> := [];
      assert members[0..] == members;
      ContinueStart(NormMembers(heap, Visible(members), path, seen));
      for k := 0 to |members|
        invariant seen == old(seen) && AllData(Visible(members[k..]))
        invariant NormMembers(heap, Visible(members), path, seen)
               == Continue(fields, NormMembers(heap, Visible(members[k..]), path, seen))
      {
        VisibleStep(members, k);
        VisibleIsData(members[k + 1..]);
        var property := members[k].property;
        if property.Data? && property.enumerable {
          assert Visible(members[k..])[1..] == Visible(members[k + 1..]);
          var value := NormalizeValue(property.value, path + [Key(members[k].key)]);
          if value.Err? { return Err(value.error); }
          ContinueOne(fields, Field(members[k].key, value.value), NormMembers(heap, Visible(members[k + 1..]), path, seen));
          fields := fields + [Field(members[k].key, value.value)];
        } else {
          assert Visible(members[k..]) == Visible(members[k + 1..]);
        }
      }
      assert Visible(members[|members|..]) == [] && fields + [] == fields;
      r := Ok(JObject(fields));
    }

    method NormalizeArray(elements: seq<Option<Property>>, path: seq<Segment>) returns (r: Outcome<Json>)
      requires NoElementAccessor(elements)
      modifies this
      ensures seen == old(seen)
      ensures var items := NormElements(heap, elements, 0, path, seen);
        r == if items.Ok? then Ok(JArray(items.value)) else Err(items.error)
      decreases heap.Keys - seen, 1
    {
      var items: seq<Json> := [];
      ContinueStart(NormElements(heap, elements, 0, path, seen));
      for k := 0 to |elements|
        invariant seen == old(seen)
        invariant NormElements(heap, elements, 0, path, seen)
               == Continue(items, NormElements(heap, elements, k, path, seen))
      {
        if elements[k].None? { return Err(Failure(path + [Index(k)], Hole)); }
        var value := NormalizeValue(elements[k].value.value, path + [Index(k)]);
        if value.Err? { return Err(value.error); }
        ContinueOne(items, value.value, NormElements(heap, elements, k + 1, path, seen));
        items := items + [value.value];
      }
      assert items + [] == items;
      r := Ok(JArray(items));
    }
  }

  method SerializeDurableJson(heap: Heap, v: Value) returns (r: Outcome<Json>)
    ensures r == Norm(heap, v, [], {})
  {
    var walk := new Normalizer(heap);
    r := walk.NormalizeValue(v, []);
  }
}
