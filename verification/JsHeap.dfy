/**
 The values handed to the projector: a possibly infinite and cyclic object graph
 (`World.heap`), primitives, and freshly built trees that nothing else refers to.
 */
module JsHeap {
  import opened JsText
  import opened Json

  datatype Option<+T> = None | Some(value: T)

  type Ref = nat

  /** An own enumerable property: its value, or a getter that is never run. */
  datatype Slot = Data(value: Value) | Accessor

  datatype Property = Property(key: Str, slot: Slot)

  datatype Element = Hole | Elem(slot: Slot)

  datatype ToJson = NoMethod | AccessorMethod | Returns(value: Value) | Throws(message: Str)

  datatype Kind =
    | KDate(iso: Option<Str>)
    | KBinary(byteLength: nat)
    | KArray(elems: seq<Element>)
    | KError(message: Value, name: Value, cause: Option<Value>)
    | KPlain
    | KExotic(toJson: ToJson)

  /** `props` lists the own enumerable string keys in enumeration order; a repeated key counts once. */
  datatype Node = Node(kind: Kind, props: seq<Property>)

  datatype Value =
    | VNull
    | VUndefined
    | VCallable
    | VSymbol
    | VBool(b: bool)
    | VNum(num: Number)
    | VNonFinite
    | VBigInt(text: Str)
    | VString(s: Str)
    | VRef(ref: Ref)
    | VFresh(node: Node)

  /** The object graph, with `JSON.parse` as an oracle. */
  datatype World = World(heap: Ref -> Node, parse: Str -> Option<Json>)

  function NodeOf(w: World, v: Value): Option<Node> {
    match v
    case VRef(r) => Some(w.heap(r))
    case VFresh(node) => Some(node)
    case _ => None
  }

  predicate IsArray(w: World, v: Value) {
    NodeOf(w, v).Some? && NodeOf(w, v).value.kind.KArray?
  }

  predicate IsPlain(w: World, v: Value) {
    NodeOf(w, v).Some? && NodeOf(w, v).value.kind.KPlain?
  }

  /** `ownEnumerableDescriptor` */
  function Lookup(props: seq<Property>, key: Str): Option<Slot> {
    if props == [] then None
    else if props[0].key == key then Some(props[0].slot)
    else Lookup(props[1..], key)
  }

  /** The keys in enumeration order, each once. */
  function Keys(props: seq<Property>): seq<Str> {
    if props == [] then []
    else
      var n := |props| - 1;
      var keys := Keys(props[..n]);
      if props[n].key in keys then keys else keys + [props[n].key]
  }

  lemma {:induction false} LookupPresent(props: seq<Property>, key: Str)
    ensures Lookup(props, key).Some? <==> exists i :: 0 <= i < |props| && props[i].key == key
  {
    if props != [] {
      LookupPresent(props[1..], key);
      if Lookup(props[1..], key).Some? {
        var i :| 0 <= i < |props[1..]| && props[1..][i].key == key;
        assert props[i + 1].key == key;
      }
      if exists i :: 1 <= i < |props| && props[i].key == key {
        var i :| 1 <= i < |props| && props[i].key == key;
        assert props[1..][i - 1].key == key;
      }
    }
  }

  /** Enumeration lists exactly the present keys, each once. */
  lemma {:induction false} KeysSpec(props: seq<Property>)
    ensures forall k :: k in Keys(props) <==> Lookup(props, k).Some?
    ensures forall i, j :: 0 <= i < j < |Keys(props)| ==> Keys(props)[i] != Keys(props)[j]
  {
    if props == [] {
      forall k ensures Lookup(props, k).None? { LookupPresent(props, k); }
    } else {
      var n := |props| - 1;
      KeysSpec(props[..n]);
      forall k ensures Lookup(props, k).Some? <==> Lookup(props[..n], k).Some? || k == props[n].key {
        LookupPresent(props, k);
        LookupPresent(props[..n], k);
        if i :| 0 <= i < |props| && props[i].key == k {
          assert i < n ==> props[..n][i].key == k;
        }
        if i :| 0 <= i < n && props[..n][i].key == k {
          assert props[i].key == k;
        }
      }
    }
  }

  // ----- fresh values -----

  function DataProps(members: seq<Member>): (props: seq<Property>)
    ensures |props| == |members|
    ensures forall i :: 0 <= i < |members| ==> props[i] == Property(members[i].key, Data(Embed(members[i].value)))
  {
    if members == [] then []
    else
      var n := |members| - 1;
      DataProps(members[..n]) + [Property(members[n].key, Data(Embed(members[n].value)))]
  }

  function DataElems(items: seq<Json>): (elems: seq<Element>)
    ensures |elems| == |items|
    ensures forall i :: 0 <= i < |items| ==> elems[i] == Elem(Data(Embed(items[i])))
  {
    if items == [] then []
    else
      var n := |items| - 1;
      DataElems(items[..n]) + [Elem(Data(Embed(items[n])))]
  }

  /** A JSON value seen again as a projector input. */
  function Embed(j: Json): Value {
    match j
    case JNull => VNull
    case JBool(b) => VBool(b)
    case JNumber(num) => VNum(num)
    case JString(s) => VString(s)
    case JArray(items) => VFresh(Node(KArray(DataElems(items)), []))
    case JObject(props) => VFresh(Node(KPlain, DataProps(props)))
  }

  function FreshObject(props: seq<Property>): Value {
    VFresh(Node(KPlain, props))
  }
}
