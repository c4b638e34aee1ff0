/**
 A whole JSON form is its own whole form: projecting it again, when that loses
 nothing, gives back the same value with the same key order.
 */
module Reprojection {
  import opened JsText
  import opened Json
  import opened JsHeap
  import opened ResultTypes
  import opened Projection
  import opened Whole
  import opened Honesty
  import opened KeyOrder
  import opened Pruning

  /** Wherever `j` is met again, its whole form is `j`. */
  ghost predicate Fixed(w: World, rbm: bool, j: Json) {
    forall d: nat, diag: bool, shared: bool ::
      WholeValue(w, Embed(j), d, diag, rbm, shared).Full? ==> WholeValue(w, Embed(j), d, diag, rbm, shared).json == j
  }

  lemma FixedAt(w: World, rbm: bool, j: Json, d: nat, diag: bool, shared: bool)
    requires Fixed(w, rbm, j)
    ensures WholeValue(w, Embed(j), d, diag, rbm, shared).Full? ==>
              WholeValue(w, Embed(j), d, diag, rbm, shared).json == j
  {
    hide WholeValue, Embed;
  }

  ghost predicate FixedMembers(w: World, rbm: bool, props: seq<Member>) {
    forall i :: 0 <= i < |props| ==> Fixed(w, rbm, props[i].value)
  }

  ghost predicate FixedItems(w: World, rbm: bool, items: seq<Json>) {
    forall i :: 0 <= i < |items| ==> Fixed(w, rbm, items[i])
  }

  function ValueAt(props: seq<Member>, key: Str): Option<Json> {
    if props == [] then None
    else if props[0].key == key then Some(props[0].value)
    else ValueAt(props[1..], key)
  }

  /** The members of `props` under `keys`, in the order of `keys`. */
  function Pick(keys: seq<Str>, props: seq<Member>): seq<Member> {
    if keys == [] then []
    else
      (if ValueAt(props, keys[0]).Some? then [Member(keys[0], ValueAt(props, keys[0]).value)] else [])
      + Pick(keys[1..], props)
  }

  lemma {:induction false} EmbeddedLookup(props: seq<Member>, key: Str)
    ensures Lookup(DataProps(props), key)
         == if ValueAt(props, key).Some? then Some(Data(Embed(ValueAt(props, key).value))) else None
  {
    hide Embed;
    if props != [] {
      EmbeddedLookup(props[1..], key);
      assert DataProps(props)[1..] == DataProps(props[1..]);
    }
  }

  lemma {:induction false} ValueAtMember(props: seq<Member>, i: nat)
    requires i < |props| && Distinct(props)
    ensures ValueAt(props, props[i].key) == Some(props[i].value)
  {
    if i > 0 {
      assert props[0].key != props[i].key;
      ValueAtMember(props[1..], i - 1);
    }
  }

  lemma {:induction false} ValueAtLast(a: seq<Member>, m: Member)
    requires forall i :: 0 <= i < |a| ==> a[i].key != m.key
    ensures ValueAt(a + [m], m.key) == Some(m.value)
  {
    if a != [] {
      assert (a + [m])[1..] == a[1..] + [m];
      ValueAtLast(a[1..], m);
    }
  }

  lemma {:induction false} ValueAtPresent(props: seq<Member>, key: Str)
    ensures ValueAt(props, key).Some? ==> exists i ::
              0 <= i < |props| && props[i] == Member(key, ValueAt(props, key).value)
  {
    if props != [] && props[0].key != key {
      ValueAtPresent(props[1..], key);
      if ValueAt(props[1..], key).Some? {
        var i :| 0 <= i < |props[1..]| && props[1..][i] == Member(key, ValueAt(props[1..], key).value);
        assert props[i + 1] == Member(key, ValueAt(props, key).value);
      }
    }
  }

  // ----- what an embedded object projects to -----

  lemma EmbeddedProp(w: World, props: seq<Member>, key: Str, d: nat, diag: bool, rbm: bool)
    requires ValueAt(props, key).Some? ==> Fixed(w, rbm, ValueAt(props, key).value)
    ensures var y := WholeProp(w, Node(KPlain, DataProps(props)), key, d, diag, rbm);
            y.FullList? ==> y.list == if ValueAt(props, key).Some? then [Member(key, ValueAt(props, key).value)] else []
  {
    hide Ascii, Embed, WholeValue, StoredExceptions, DataProps, ErrorVisits, IsErrorMetadata, SharedKey,
         ReportsTruncation,
         Fixed, ValueAt;
    EmbeddedLookup(props, key);
    if ValueAt(props, key).Some? {
      var j := ValueAt(props, key).value;
      EmbedDefined(j);
      FixedAt(w, rbm, j, d + 1, diag || IsErrorMetadata(key), SharedKey(w, key, Embed(j)));
    }
  }

  lemma EmbedDefined(j: Json)
    ensures Embed(j) != VUndefined
  {
  }

  lemma {:induction false} EmbeddedProps(w: World, props: seq<Member>, keys: seq<Str>, d: nat, diag: bool, rbm: bool)
    requires FixedMembers(w, rbm, props)
    ensures var y := WholeProps(w, Node(KPlain, DataProps(props)), keys, d, diag, rbm);
            y.FullList? ==> y.list == Pick(keys, props)
    decreases |keys|
  {
    hide WholeProp, DataProps, Fixed, ValueAt;
    if keys != [] {
      ValueAtPresent(props, keys[0]);
      EmbeddedProp(w, props, keys[0], d, diag, rbm);
      EmbeddedProps(w, props, keys[1..], d, diag, rbm);
    }
  }

  lemma {:induction false} EmbeddedKeys(props: seq<Member>)
    requires Distinct(props)
    ensures Keys(DataProps(props)) == KeysOf(props)
  {
    hide Embed;
    if props != [] {
      var n := |props| - 1;
      EmbeddedKeys(props[..n]);
      assert DataProps(props)[..n] == DataProps(props[..n]);
      assert KeysOf(props) == KeysOf(props[..n]) + [props[n].key];
    }
  }

  lemma {:induction false} FilterConcat(a: seq<Str>, b: seq<Str>, keep: Str -> bool)
    ensures Filter(a + b, keep) == Filter(a, keep) + Filter(b, keep)
  {
    if a == [] {
      assert a + b == b;
    } else {
      assert (a + b)[1..] == a[1..] + b;
      FilterConcat(a[1..], b, keep);
    }
  }

  lemma {:induction false} FilterAll(keys: seq<Str>, keep: Str -> bool)
    ensures (forall k :: k in keys ==> keep(k)) ==> Filter(keys, keep) == keys
    ensures (forall k :: k in keys ==> !keep(k)) ==> Filter(keys, keep) == []
  {
    if keys != [] {
      FilterAll(keys[1..], keep);
      assert keys == [keys[0]] + keys[1..];
      assert keys[0] in keys;
    }
  }

  lemma {:induction false} PickOwn(q: seq<Member>, props: seq<Member>)
    requires forall i :: 0 <= i < |q| ==> ValueAt(props, q[i].key) == Some(q[i].value)
    ensures Pick(KeysOf(q), props) == q
  {
    if q != [] {
      assert KeysOf(q)[1..] == KeysOf(q[1..]);
      PickOwn(q[1..], props);
      assert q == [Member(q[0].key, q[0].value)] + q[1..];
    }
  }

  /** An object whose first members follow the priority order and whose others are ordinary is a fixed point. */
  lemma ObjectFixed(w: World, rbm: bool, a: seq<Member>, b: seq<Member>)
    requires Distinct(a + b) && FixedMembers(w, rbm, a + b)
    requires Pick(PRIORITY_KEYS, a + b) == a
    requires forall i :: 0 <= i < |a| ==> a[i].key in PRIORITY_KEYS
    requires forall i :: 0 <= i < |b| ==> b[i].key !in PRIORITY_KEYS
    ensures Fixed(w, rbm, JObject(a + b))
  {
    hide Ascii, Pick, FixedMembers, WholeValue;
    forall d: nat, diag: bool, shared: bool
      ensures WholeValue(w, Embed(JObject(a + b)), d, diag, rbm, shared).Full? ==>
                WholeValue(w, Embed(JObject(a + b)), d, diag, rbm, shared).json == JObject(a + b)
    {
      ObjectFixedAt(w, rbm, a, b, d, diag, shared);
    }
  }

  lemma ObjectFixedAt(w: World, rbm: bool, a: seq<Member>, b: seq<Member>, d: nat, diag: bool, shared: bool)
    requires Distinct(a + b) && FixedMembers(w, rbm, a + b)
    requires Pick(PRIORITY_KEYS, a + b) == a
    requires forall i :: 0 <= i < |a| ==> a[i].key in PRIORITY_KEYS
    requires forall i :: 0 <= i < |b| ==> b[i].key !in PRIORITY_KEYS
    ensures var x := WholeValue(w, Embed(JObject(a + b)), d, diag, rbm, shared); x.Full? ==> x.json == JObject(a + b)
  {
    hide Ascii, WholeProps, FixedMembers, Pick, WholeValue, OtherKeys, DataProps, Embed;
    EmbeddedOtherKeys(a, b);
    EmbeddedProps(w, a + b, PRIORITY_KEYS, d, diag, rbm);
    EmbeddedProps(w, a + b, KeysOf(b), d, diag, rbm);
    EmbeddedObject(w, a + b, d, diag, rbm, shared);
  }

  lemma EmbeddedOtherKeys(a: seq<Member>, b: seq<Member>)
    requires Distinct(a + b)
    requires forall i :: 0 <= i < |a| ==> a[i].key in PRIORITY_KEYS
    requires forall i :: 0 <= i < |b| ==> b[i].key !in PRIORITY_KEYS
    ensures OtherKeys(Node(KPlain, DataProps(a + b))) == KeysOf(b)
    ensures Pick(KeysOf(b), a + b) == b
  {
    hide Ascii, ValueAt, Pick, DataProps, Keys, Filter, KeysOf, IsOrdinary;
    EmbeddedKeys(a + b);
    OrdinaryPart(a, b);
    PickLater(a, b);
  }

  lemma OrdinaryPart(a: seq<Member>, b: seq<Member>)
    requires forall i :: 0 <= i < |a| ==> a[i].key in PRIORITY_KEYS
    requires forall i :: 0 <= i < |b| ==> b[i].key !in PRIORITY_KEYS
    ensures Filter(KeysOf(a + b), IsOrdinary) == KeysOf(b)
  {
    hide Ascii, Filter;
    assert KeysOf(a + b) == KeysOf(a) + KeysOf(b);
    FilterConcat(KeysOf(a), KeysOf(b), IsOrdinary);
    FilterAll(KeysOf(a), IsOrdinary);
    FilterAll(KeysOf(b), IsOrdinary);
    assert [] + KeysOf(b) == KeysOf(b);
  }

  lemma PickLater(a: seq<Member>, b: seq<Member>)
    requires Distinct(a + b)
    ensures Pick(KeysOf(b), a + b) == b
  {
    hide Pick, ValueAt;
    forall i | 0 <= i < |b| ensures ValueAt(a + b, b[i].key) == Some(b[i].value) {
      ValueAtMember(a + b, |a| + i);
    }
    PickOwn(b, a + b);
  }

  lemma EmbeddedObject(w: World, props: seq<Member>, d: nat, diag: bool, rbm: bool, shared: bool)
    ensures var node := Node(KPlain, DataProps(props));
            var x := WholeValue(w, Embed(JObject(props)), d, diag, rbm, shared);
            x.Full? ==> && WholeProps(w, node, PRIORITY_KEYS, d, diag, rbm).FullList?
                        && WholeProps(w, node, OtherKeys(node), d, diag, rbm).FullList?
                        && x.json == JObject(WholeProps(w, node, PRIORITY_KEYS, d, diag, rbm).list
                                             + WholeProps(w, node, OtherKeys(node), d, diag, rbm).list)
  {
    hide Ascii, WholeProps, DataProps, OtherKeys;
    var node := Node(KPlain, DataProps(props));
    assert WholeNode(w, node, d, diag, rbm, shared) == WholeObject(w, node, d, diag, rbm);
  }

  lemma EmbeddedItem(w: World, j: Json, d: nat, diag: bool, rbm: bool)
    requires Fixed(w, rbm, j)
    ensures var y := WholeItem(w, Elem(Data(Embed(j))), d, diag, rbm); y.FullList? ==> y.list == [j]
  {
    hide WholeValue, IsPlain, Embed, Fixed;
    FixedAt(w, rbm, j, d + 1, diag, false);
  }

  lemma {:induction false} EmbeddedItems(w: World, items: seq<Json>, d: nat, diag: bool, rbm: bool)
    requires FixedItems(w, rbm, items)
    ensures var y := WholeItems(w, DataElems(items), d, diag, rbm); y.FullList? ==> y.list == items
    decreases |items|
  {
    hide WholeItem, DataElems, Embed, Fixed, Then;
    if items != [] {
      assert DataElems(items)[1..] == DataElems(items[1..]);
      EmbeddedItems(w, items[1..], d, diag, rbm);
      EmbeddedItem(w, items[0], d, diag, rbm);
      assert items == [items[0]] + items[1..];
    }
  }

  lemma ArrayFixed(w: World, rbm: bool, items: seq<Json>)
    requires FixedItems(w, rbm, items)
    ensures Fixed(w, rbm, JArray(items))
  {
    hide Ascii, WholeItems, FixedItems, DataElems;
    forall d: nat, diag: bool, shared: bool
      ensures WholeValue(w, Embed(JArray(items)), d, diag, rbm, shared).Full? ==>
                WholeValue(w, Embed(JArray(items)), d, diag, rbm, shared).json == JArray(items)
    {
      EmbeddedItems(w, items, d, diag, rbm);
      var node := Node(KArray(DataElems(items)), []);
      assert !HasArrayMetadata(node);
      assert WholeNode(w, node, d, diag, rbm, shared) == WholeRows(w, DataElems(items), d, diag, rbm, shared);
    }
  }

  lemma LeafFixed(w: World, rbm: bool, j: Json)
    requires !j.JArray? && !j.JObject?
    ensures Fixed(w, rbm, j)
  {
    hide WholeValue, Embed;
    forall d: nat, diag: bool, shared: bool
      ensures WholeValue(w, Embed(j), d, diag, rbm, shared).Full? ==>
                WholeValue(w, Embed(j), d, diag, rbm, shared).json == j
    {
      LeafWhole(w, j, d, diag, rbm, shared);
    }
  }

  lemma LeafWhole(w: World, j: Json, d: nat, diag: bool, rbm: bool, shared: bool)
    requires !j.JArray? && !j.JObject?
    ensures var x := WholeValue(w, Embed(j), d, diag, rbm, shared); x.Full? ==> x.json == j
  {
    hide WholeNode, Then;
  }

  // ----- every whole form is a fixed point -----

  lemma {:induction false} ValueFixed(w: World, rbm: bool, v: Value, d: nat, diag: bool, shared: bool)
    ensures var x := WholeValue(w, v, d, diag, false, shared); x.Full? ==> Fixed(w, rbm, x.json)
    decreases Room(d), 6
  {
    hide Ascii, WholeNode, Fixed;
    if d <= MAX_RESULT_DEPTH {
      match v
      case VString(s) => LeafFixed(w, rbm, JString(s));
      case VBigInt(s) => LeafFixed(w, rbm, JString(s));
      case VNull => LeafFixed(w, rbm, JNull);
      case VBool(b) => LeafFixed(w, rbm, JBool(b));
      case VNum(num) => LeafFixed(w, rbm, JNumber(num));
      case VRef(r) => NodeFixed(w, rbm, w.heap(r), d, diag, shared);
      case VFresh(node) => NodeFixed(w, rbm, node, d, diag, shared);
      case _ =>
    }
  }

  lemma {:induction false} NodeFixed(w: World, rbm: bool, node: Node, d: nat, diag: bool, shared: bool)
    ensures var x := WholeNode(w, node, d, diag, false, shared); x.Full? ==> Fixed(w, rbm, x.json)
    decreases Room(d), 5
  {
    hide Ascii, WholeTable, WholeRows, WholeObject, WholeValue, HasArrayMetadata, Fixed;
    match node.kind
    case KDate(Some(iso)) => LeafFixed(w, rbm, JString(iso));
    case KArray(elems) =>
      TableFixed(w, rbm, elems, node, d, diag, shared);
      RowsFixed(w, rbm, elems, d, diag, shared);
    case KPlain => WholeObjectFixed(w, rbm, node, d, diag);
    case KError(message, name, cause) => WholeObjectFixed(w, rbm, ErrorRecord(message, name, cause), d, diag);
    case KExotic(Returns(value)) => if d < MAX_RESULT_DEPTH { ValueFixed(w, rbm, value, d + 1, diag, shared); }
    case _ =>
  }

  lemma {:induction false} RowsFixed(w: World, rbm: bool, elems: seq<Element>, d: nat, diag: bool, shared: bool)
    ensures var x := WholeRows(w, elems, d, diag, false, shared); x.Full? ==> Fixed(w, rbm, x.json)
    decreases Room(d), 2
  {
    hide WholeItems, Fixed, FixedItems;
    ItemsFixed(w, rbm, elems, d, diag);
    var x := WholeItems(w, elems, d, diag, false);
    if x.FullList? { ArrayFixed(w, rbm, x.list); }
  }

  lemma {:induction false} ItemsFixed(w: World, rbm: bool, elems: seq<Element>, d: nat, diag: bool)
    ensures var x := WholeItems(w, elems, d, diag, false); x.FullList? ==> FixedItems(w, rbm, x.list)
    decreases Room(d), 1, |elems|
  {
    hide WholeValue, IsPlain, EntryOf, Fixed;
    if elems != [] {
      if d < MAX_RESULT_DEPTH { ValueFixed(w, rbm, EntryOf(elems[0]), d + 1, diag, false); }
      ItemsFixed(w, rbm, elems[1..], d, diag);
    }
  }

  lemma {:induction false} PropsFixed(w: World, rbm: bool, node: Node, keys: seq<Str>, d: nat, diag: bool)
    ensures var x := WholeProps(w, node, keys, d, diag, false); x.FullList? ==> FixedMembers(w, rbm, x.list)
    decreases Room(d), 3, |keys|
  {
    hide WholeProp, Fixed;
    if keys != [] {
      PropFixed(w, rbm, node, keys[0], d, diag);
      PropsFixed(w, rbm, node, keys[1..], d, diag);
    }
  }

  lemma {:induction false} PropFixed(w: World, rbm: bool, node: Node, key: Str, d: nat, diag: bool)
    ensures var x := WholeProp(w, node, key, d, diag, false); x.FullList? ==> FixedMembers(w, rbm, x.list)
    decreases Room(d), 2
  {
    hide Ascii, WholeValue, StoredExceptions, ErrorVisits, IsErrorMetadata, SharedKey, ReportsTruncation, Fixed;
    var slot := Lookup(node.props, key);
    if slot.Some? && slot.value.Data? && d <= MAX_RESULT_DEPTH {
      var v := slot.value.value;
      ValueFixed(w, rbm, v, d + 1, diag || IsErrorMetadata(key), SharedKey(w, key, v));
    }
  }

  /** Emitted members follow the keys: each key at most once, and picking by the keys gives them back. */
  lemma {:induction false} PropsPick(w: World, node: Node, keys: seq<Str>, d: nat, diag: bool, rbm: bool,
                                     all: seq<Member>)
    requires forall i, j :: 0 <= i < j < |keys| ==> keys[i] != keys[j]
    requires Distinct(all)
    requires var x := WholeProps(w, node, keys, d, diag, rbm);
             x.FullList? && (forall k :: k in keys ==> (HasKey(all, k) <==> HasKey(x.list, k)))
             && forall i :: 0 <= i < |x.list| ==> ValueAt(all, x.list[i].key) == Some(x.list[i].value)
    ensures Pick(keys, all) == WholeProps(w, node, keys, d, diag, rbm).list
    decreases |keys|
  {
    hide WholeProp, ValueAt;
    if keys != [] {
      var x := WholeProp(w, node, keys[0], d, diag, rbm);
      var y := WholeProps(w, node, keys[1..], d, diag, rbm);
      WholePropKey(w, node, keys[0], d, diag, rbm);
      WholePropsKeys(w, node, keys[1..], d, diag, rbm);
      var list := x.list + y.list;
      assert forall i :: 0 <= i < |y.list| ==> y.list[i] == list[|x.list| + i];
      forall k | k in keys[1..] ensures HasKey(all, k) <==> HasKey(y.list, k) {
        assert k != keys[0] && k in keys;
        HasKeyConcat(x.list, y.list, k);
      }
      PropsPick(w, node, keys[1..], d, diag, rbm, all);
      HasKeyConcat(x.list, y.list, keys[0]);
      ValueAtHasKey(all, keys[0]);
      if x.list != [] {
        assert list[0] == x.list[0];
        assert x.list == [x.list[0]];
      } else {
        assert !HasKey(y.list, keys[0]);
      }
    }
  }

  lemma HasKeyConcat(a: seq<Member>, b: seq<Member>, key: Str)
    ensures HasKey(a + b, key) <==> HasKey(a, key) || HasKey(b, key)
  {
    if HasKey(a, key) {
      var i :| 0 <= i < |a| && a[i].key == key;
      assert (a + b)[i].key == key;
    }
    if HasKey(b, key) {
      var i :| 0 <= i < |b| && b[i].key == key;
      assert (a + b)[|a| + i].key == key;
    }
  }

  lemma {:induction false} ValueAtHasKey(props: seq<Member>, key: Str)
    ensures ValueAt(props, key).Some? <==> HasKey(props, key)
  {
    if props != [] {
      ValueAtHasKey(props[1..], key);
      HasKeyConcat([props[0]], props[1..], key);
      assert [props[0]] + props[1..] == props;
      assert props[0].key == key ==> [props[0]][0].key == key;
    }
  }

  lemma {:induction false} PropsDistinct(w: World, node: Node, keys: seq<Str>, d: nat, diag: bool, rbm: bool)
    requires forall i, j :: 0 <= i < j < |keys| ==> keys[i] != keys[j]
    ensures var x := WholeProps(w, node, keys, d, diag, rbm); x.FullList? ==> Distinct(x.list)
    decreases |keys|
  {
    hide WholeProp;
    if keys != [] {
      WholePropKey(w, node, keys[0], d, diag, rbm);
      WholePropsKeys(w, node, keys[1..], d, diag, rbm);
      PropsDistinct(w, node, keys[1..], d, diag, rbm);
    }
  }

  /** The two parts of an emitted object, ready for `ObjectFixed`. */
  lemma PartsFixed(w: World, rbm: bool, node: Node, d: nat, diag: bool, b: seq<Member>)
    requires WholeProps(w, node, PRIORITY_KEYS, d, diag, false).FullList?
    requires Distinct(b) && FixedMembers(w, rbm, b)
    requires forall i :: 0 <= i < |b| ==> b[i].key !in PRIORITY_KEYS
    ensures Fixed(w, rbm, JObject(WholeProps(w, node, PRIORITY_KEYS, d, diag, false).list + b))
    decreases Room(d), 3, |PRIORITY_KEYS| + 1
  {
    hide Ascii, WholeProps, Fixed, Pick, ValueAt;
    var a := WholeProps(w, node, PRIORITY_KEYS, d, diag, false).list;
    PriorityDistinct();
    PropsFixed(w, rbm, node, PRIORITY_KEYS, d, diag);
    PropsDistinct(w, node, PRIORITY_KEYS, d, diag, false);
    WholePropsKeys(w, node, PRIORITY_KEYS, d, diag, false);
    var all := a + b;
    assert Distinct(all);
    forall k | k in PRIORITY_KEYS ensures HasKey(all, k) <==> HasKey(a, k) {
      HasKeyConcat(a, b, k);
    }
    forall i | 0 <= i < |a| ensures ValueAt(all, a[i].key) == Some(a[i].value) {
      assert all[i] == a[i];
      ValueAtMember(all, i);
    }
    PropsPick(w, node, PRIORITY_KEYS, d, diag, false, all);
    ObjectFixed(w, rbm, a, b);
  }

  lemma {:induction false} WholeObjectFixed(w: World, rbm: bool, node: Node, d: nat, diag: bool)
    ensures var x := WholeObject(w, node, d, diag, false); x.Full? ==> Fixed(w, rbm, x.json)
    decreases Room(d), 4
  {
    hide Ascii, WholeProps, Fixed, OtherKeys, FixedMembers;
    var y := WholeProps(w, node, OtherKeys(node), d, diag, false);
    if WholeProps(w, node, PRIORITY_KEYS, d, diag, false).FullList? && y.FullList? {
      PropsFixed(w, rbm, node, OtherKeys(node), d, diag);
      OtherKeysOrdinary(node);
      PropsDistinct(w, node, OtherKeys(node), d, diag, false);
      WholePropsKeys(w, node, OtherKeys(node), d, diag, false);
      PartsFixed(w, rbm, node, d, diag, y.list);
    }
  }

  lemma {:induction false} TableFixed(w: World, rbm: bool, elems: seq<Element>, node: Node, d: nat, diag: bool,
                                      shared: bool)
    ensures var x := WholeTable(w, elems, node, d, diag, false, shared); x.Full? ==> Fixed(w, rbm, x.json)
    decreases Room(d), 4
  {
    hide Ascii, WholeRows, Fixed;
    var x := WholeProps(w, node, PRIORITY_KEYS, d, diag, false);
    var rows := WholeRows(w, elems, d + 1, diag, false, shared);
    RowsFixed(w, rbm, elems, d + 1, diag, shared);
    if x.FullList? && rows.Full? {
      PriorityDistinct();
      PartsFixed(w, rbm, node, d, diag, [Member(ROWS, rows.json)]);
      assert [Member(ROWS, rows.json)] + [] == [Member(ROWS, rows.json)];
    }
  }
}
