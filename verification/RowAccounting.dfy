/**
 Row accounting. A shared-row array fixes how many rows it may keep before its
 rows are built, so shared-row arrays inside those rows can overspend the
 allowance. The overspend is bounded by how deep such arrays nest, and no array
 outside diagnostics keeps more than the row limit.
 */
module RowAccounting {
  import opened JsText
  import opened Json
  import opened JsHeap
  import opened ResultTypes
  import opened FieldExceptions
  import opened Entitlements
  import opened Projection
  import opened Results
  import opened Soundness
  import opened Whole
  import opened KeyOrder
  import opened Reprojection
  import opened Honesty
  import opened Guarantees

  // ----- how deep shared-row arrays nest -----

  function NestValue(w: World, v: Value, depth: nat, diag: bool, shared: bool): nat
    decreases Room(depth), 6
  {
    if depth > MAX_RESULT_DEPTH then 0
    else
      match v
      case VRef(r) => NestNode(w, w.heap(r), depth, diag, shared)
      case VFresh(node) => NestNode(w, node, depth, diag, shared)
      case _ => 0
  }

  function NestNode(w: World, node: Node, depth: nat, diag: bool, shared: bool): nat
    decreases Room(depth), 5
  {
    match node.kind
    case KArray(elems) => NestArray(w, elems, node, depth, diag, shared)
    case KPlain => NestObject(w, node, depth, diag)
    case KError(message, name, cause) => NestObject(w, ErrorRecord(message, name, cause), depth, diag)
    case KExotic(toJson) => NestExotic(w, toJson, depth, diag, shared)
    case _ => 0
  }

  function NestExotic(w: World, toJson: ToJson, depth: nat, diag: bool, shared: bool): nat
    decreases Room(depth), 4
  {
    if (toJson.Returns? || toJson.Throws?) && depth < MAX_RESULT_DEPTH
    then NestValue(w, Converted(toJson), depth + 1, diag, shared) else 0
  }

  function NestArray(w: World, elems: seq<Element>, node: Node, depth: nat, diag: bool, shared: bool): nat
    decreases Room(depth), 4
  {
    if HasArrayMetadata(node)
    then Max(NestKeys(w, node, PRIORITY_KEYS, depth, diag), NestRows(w, elems, depth + 1, diag, shared))
    else NestRows(w, elems, depth, diag, shared)
  }

  function NestObject(w: World, node: Node, depth: nat, diag: bool): nat
    decreases Room(depth), 4
  {
    Max(NestKeys(w, node, PRIORITY_KEYS, depth, diag), NestKeys(w, node, OtherKeys(node), depth, diag))
  }

  function NestKeys(w: World, node: Node, keys: seq<Str>, depth: nat, diag: bool): nat
    decreases Room(depth), 3, |keys|
  {
    if keys == [] then 0 else Max(NestProp(w, node, keys[0], depth, diag), NestKeys(w, node, keys[1..], depth, diag))
  }

  /** A security named like a shared key makes one level of an entitlement record. */
  function NestProp(w: World, node: Node, key: Str, depth: nat, diag: bool): nat
    decreases Room(depth), 2
  {
    var slot := Lookup(node.props, key);
    if slot.None? then 0
    else if !diag && key == EID_DATA then 1
    else if slot.value.Accessor? || depth > MAX_RESULT_DEPTH then 0
    else NestValue(w, slot.value.value, depth + 1, diag || IsErrorMetadata(key), SharedKey(w, key, slot.value.value))
  }

  function NestRows(w: World, elems: seq<Element>, depth: nat, diag: bool, shared: bool): nat
    decreases Room(depth), 2
  {
    NestItems(w, elems, depth, diag) + if shared && !diag then 1 else 0
  }

  function NestItems(w: World, elems: seq<Element>, depth: nat, diag: bool): nat
    decreases Room(depth), 1, |elems|
  {
    if elems == [] || depth > MAX_RESULT_DEPTH then 0
    else Max(NestValue(w, EntryOf(elems[0]), depth + 1, diag, false), NestItems(w, elems[1..], depth, diag))
  }

  /** Nothing nests in diagnostics, where no row is charged. */
  lemma {:induction false} QuietValue(w: World, v: Value, depth: nat, shared: bool)
    ensures NestValue(w, v, depth, true, shared) == 0
    decreases Room(depth), 6
  {
    hide NestNode;
    if depth <= MAX_RESULT_DEPTH {
      match v
      case VRef(r) => QuietNode(w, w.heap(r), depth, shared);
      case VFresh(node) => QuietNode(w, node, depth, shared);
      case _ =>
    }
  }

  lemma {:induction false} QuietNode(w: World, node: Node, depth: nat, shared: bool)
    ensures NestNode(w, node, depth, true, shared) == 0
    decreases Room(depth), 5
  {
    hide NestKeys, NestItems, NestValue, HasArrayMetadata, OtherKeys, Converted, ErrorRecord;
    match node.kind
    case KArray(elems) =>
      QuietKeys(w, node, PRIORITY_KEYS, depth);
      QuietItems(w, elems, depth + 1);
      QuietItems(w, elems, depth);
      assert NestRows(w, elems, depth + 1, true, shared) == 0 && NestRows(w, elems, depth, true, shared) == 0;
      assert NestArray(w, elems, node, depth, true, shared) == 0;
    case KPlain =>
      QuietKeys(w, node, PRIORITY_KEYS, depth);
      QuietKeys(w, node, OtherKeys(node), depth);
    case KError(message, name, cause) =>
      var record := ErrorRecord(message, name, cause);
      QuietKeys(w, record, PRIORITY_KEYS, depth);
      QuietKeys(w, record, OtherKeys(record), depth);
    case KExotic(toJson) =>
      if (toJson.Returns? || toJson.Throws?) && depth < MAX_RESULT_DEPTH {
        QuietValue(w, Converted(toJson), depth + 1, shared);
      }
    case _ =>
  }

  lemma {:induction false} QuietKeys(w: World, node: Node, keys: seq<Str>, depth: nat)
    ensures NestKeys(w, node, keys, depth, true) == 0
    decreases Room(depth), 3, |keys|
  {
    hide NestValue, IsErrorMetadata, SharedKey, Ascii;
    if keys != [] {
      var slot := Lookup(node.props, keys[0]);
      if slot.Some? && slot.value.Data? && depth <= MAX_RESULT_DEPTH {
        QuietValue(w, slot.value.value, depth + 1, SharedKey(w, keys[0], slot.value.value));
      }
      QuietKeys(w, node, keys[1..], depth);
    }
  }

  lemma {:induction false} QuietItems(w: World, elems: seq<Element>, depth: nat)
    ensures NestItems(w, elems, depth, true) == 0
    decreases Room(depth), 1, |elems|
  {
    hide NestValue, EntryOf;
    if elems != [] && depth <= MAX_RESULT_DEPTH {
      QuietValue(w, EntryOf(elems[0]), depth + 1, false);
      QuietItems(w, elems[1..], depth);
    }
  }

  /** Fewer keys nest no deeper. */
  lemma {:induction false} NestFilter(w: World, node: Node, keys: seq<Str>, keep: Str -> bool, depth: nat, diag: bool)
    ensures NestKeys(w, node, Filter(keys, keep), depth, diag) <= NestKeys(w, node, keys, depth, diag)
    decreases |keys|
  {
    hide NestProp;
    if keys != [] {
      NestFilter(w, node, keys[1..], keep, depth, diag);
      if keep(keys[0]) {
        var rest := Filter(keys[1..], keep);
        assert Filter(keys, keep) == [keys[0]] + rest;
        assert ([keys[0]] + rest)[1..] == rest;
      }
    }
  }

  lemma NestMetadata(w: World, node: Node, rowsBeforeMetadata: bool, depth: nat, diag: bool)
    ensures NestKeys(w, node, MetadataBeforeRows(rowsBeforeMetadata), depth, diag)
            <= NestKeys(w, node, PRIORITY_KEYS, depth, diag)
    ensures NestKeys(w, node, MetadataAfterRows(rowsBeforeMetadata), depth, diag)
            <= NestKeys(w, node, PRIORITY_KEYS, depth, diag)
  {
    hide Ascii, NestProp, Filter;
    NestFilter(w, node, PRIORITY_KEYS, IsErrorMetadata, depth, diag);
    NestFilter(w, node, PRIORITY_KEYS, IsPlainMetadata, depth, diag);
    assert NestKeys(w, node, [], depth, diag) == 0;
  }

  // ----- records built by the projector itself -----

  /** Arrays within arrays; an entitlement record counts as one level. */
  function ArrayDepth(j: Json): nat {
    match j
    case JArray(items) => 1 + ItemsDepth(items)
    case JObject(props) => PropsDepth(props)
    case _ => 0
  }

  function ItemsDepth(items: seq<Json>): nat {
    if items == [] then 0 else Max(ArrayDepth(items[0]), ItemsDepth(items[1..]))
  }

  function PropsDepth(props: seq<Member>): nat {
    if props == [] then 0
    else Max(if props[0].key == EID_DATA then 1 else 0, Max(ArrayDepth(props[0].value), PropsDepth(props[1..])))
  }

  lemma {:induction false} PropsDepthAt(props: seq<Member>, i: nat)
    requires i < |props|
    ensures ArrayDepth(props[i].value) <= PropsDepth(props) && (props[i].key == EID_DATA ==> 1 <= PropsDepth(props))
  {
    hide ArrayDepth, Ascii;
    if i > 0 { PropsDepthAt(props[1..], i - 1); }
  }

  lemma {:induction false} EmbeddedNest(w: World, j: Json, d: nat, diag: bool, shared: bool)
    ensures NestValue(w, Embed(j), d, diag, shared) <= ArrayDepth(j)
    decreases j, 2
  {
    hide Ascii, NestKeys, NestItems, OtherKeys, DataProps, DataElems;
    match j
    case JArray(items) =>
      var node := Node(KArray(DataElems(items)), []);
      assert !HasArrayMetadata(node);
      EmbeddedItemsNest(w, items, d, diag);
      assert NestNode(w, node, d, diag, shared) == NestRows(w, DataElems(items), d, diag, shared);
    case JObject(props) =>
      var node := Node(KPlain, DataProps(props));
      EmbeddedKeysNest(w, props, PRIORITY_KEYS, d, diag);
      EmbeddedKeysNest(w, props, OtherKeys(node), d, diag);
      assert NestNode(w, node, d, diag, shared) == NestObject(w, node, d, diag);
    case _ =>
  }

  lemma {:induction false} EmbeddedItemsNest(w: World, items: seq<Json>, d: nat, diag: bool)
    ensures NestItems(w, DataElems(items), d, diag) <= ItemsDepth(items)
    decreases items, 1
  {
    hide NestValue, Embed, ArrayDepth;
    if items != [] {
      assert DataElems(items)[1..] == DataElems(items[1..]);
      EmbeddedNest(w, items[0], d + 1, diag, false);
      EmbeddedItemsNest(w, items[1..], d, diag);
    }
  }

  lemma {:induction false} EmbeddedKeysNest(w: World, props: seq<Member>, keys: seq<Str>, d: nat, diag: bool)
    ensures NestKeys(w, Node(KPlain, DataProps(props)), keys, d, diag) <= PropsDepth(props)
    decreases props, 1, |keys|
  {
    hide Ascii, NestValue, Embed, ArrayDepth, PropsDepth, DataProps, ValueAt, IsErrorMetadata, SharedKey;
    if keys != [] {
      EmbeddedLookup(props, keys[0]);
      ValueAtPresent(props, keys[0]);
      if ValueAt(props, keys[0]).Some? {
        var i :| 0 <= i < |props| && props[i] == Member(keys[0], ValueAt(props, keys[0]).value);
        PropsDepthAt(props, i);
        var j := props[i].value;
        EmbeddedNest(w, j, d + 1, diag || IsErrorMetadata(keys[0]), SharedKey(w, keys[0], Embed(j)));
      }
      EmbeddedKeysNest(w, props, keys[1..], d, diag);
    }
  }

  lemma {:induction false} LeavesDepth(items: seq<Json>)
    requires forall i :: 0 <= i < |items| ==> ArrayDepth(items[i]) == 0
    ensures ItemsDepth(items) == 0
  {
    hide ArrayDepth;
    if items != [] { LeavesDepth(items[1..]); }
  }

  lemma {:induction false} ShallowProps(props: seq<Member>, n: nat)
    requires forall i :: 0 <= i < |props| ==> (props[i].key == EID_DATA ==> 1 <= n) && ArrayDepth(props[i].value) <= n
    ensures PropsDepth(props) <= n
  {
    hide ArrayDepth, Ascii;
    if props != [] { ShallowProps(props[1..], n); }
  }

  lemma RecordDepth(data: seq<EidEntry>)
    ensures ArrayDepth(EidRecord(data)) <= 1
  {
    hide Ascii;
    var p := EidRecord(data).props;
    forall i | 0 <= i < |p| ensures ArrayDepth(p[i].value) <= 1 {
      LeavesDepth(EidItems(data[i].eids));
    }
    ShallowProps(p, 1);
  }

  lemma CountsDepth(c: SecurityCount)
    ensures ArrayDepth(SecurityCountJson(c)) == 0
  {
    var p := SecurityCountJson(c).props;
    assert |EID_DATA| == 7 && |p[0].key| != 7 && |p[1].key| != 7;
    hide Ascii;
    ShallowProps(p, 0);
  }

  lemma SummaryDepth(s: Summary)
    ensures ArrayDepth(SummaryJson(s)) <= 1
  {
    hide Ascii;
    var p := SummaryJson(s).props;
    var counts := p[4].value.items;
    forall i | 0 <= i < |counts| ensures ArrayDepth(counts[i]) == 0 { CountsDepth(s.counts[i]); }
    LeavesDepth(counts);
    ShallowProps(p, 1);
  }

  // ----- the allowance after a step -----

  /** The lowest the allowance can get when shared-row arrays nest `k` deep. */
  function Floor(k: nat, maxRows: nat): int { (1 - k) * maxRows }

  lemma FloorLess(k: nat, n: nat, maxRows: nat)
    requires k <= n
    ensures Floor(n, maxRows) <= Floor(k, maxRows)
  {
    assert (n - k) * maxRows >= 0;
    assert (1 - k) * maxRows == (1 - n) * maxRows + (n - k) * maxRows;
  }

  predicate Solvent(s: State) { Left(s) >= 0 && s.remainingRows <= s.limits.maxRows }

  predicate Spent(s: State, t: State, k: nat) {
    && t.limits == s.limits && t.inDiagnostics == s.inDiagnostics && t.rowsBeforeMetadata == s.rowsBeforeMetadata
    && (Left(s) >= 0 ==> Left(t) >= 0)
    && Min(s.remainingRows, Floor(k, s.limits.maxRows)) <= t.remainingRows <= s.remainingRows
  }

  predicate Same(s: State, t: State) {
    && t.limits == s.limits && t.inDiagnostics == s.inDiagnostics && t.rowsBeforeMetadata == s.rowsBeforeMetadata
    && (Left(s) >= 0 ==> Left(t) >= 0) && t.remainingRows == s.remainingRows
  }

  lemma SameSpent(s: State, t: State, k: nat)
    requires Same(s, t)
    ensures Spent(s, t, k)
  {
    hide Floor;
  }

  lemma SpentThen(s: State, t: State, u: State, k: nat, n: nat)
    requires Spent(s, t, k) && Spent(t, u, n)
    ensures Spent(s, u, Max(k, n))
  {
    hide Floor;
    FloorLess(k, Max(k, n), s.limits.maxRows);
    FloorLess(n, Max(k, n), s.limits.maxRows);
  }

  lemma SpentMore(s: State, t: State, k: nat, n: nat)
    requires Spent(s, t, k) && k <= n
    ensures Spent(s, t, n)
  {
    hide Floor;
    FloorLess(k, n, s.limits.maxRows);
  }

  lemma SpentNothing(s: State, t: State)
    requires Solvent(s) && Spent(s, t, 0)
    ensures t.remainingRows == s.remainingRows
  {
  }

  /** A shared-row array keeps no more rows than the allowance it found. */
  lemma RowsSpent(s: State, t: State, k: nat, length: nat, retained: int, processed: nat)
    requires Solvent(s) && Spent(s, t, k) && processed <= Max(0, retained) && retained <= s.remainingRows
    ensures Spent(s, CloseRows(t, length, retained, processed, true), k + 1)
  {
    FloorLess(k, k + 1, s.limits.maxRows);
    FloorLess(1, k + 1, s.limits.maxRows);
    assert Floor(k + 1, s.limits.maxRows) == Floor(k, s.limits.maxRows) - s.limits.maxRows;
    assert Floor(1, s.limits.maxRows) == 0;
    hide Floor;
  }

  // ----- arrays within the row limit -----

  /** Diagnostics are not limited by rows. */
  predicate OwnLimits(key: Str) { IsErrorMetadata(key) || key == FIELD_EXCEPTIONS }

  /** Entitlements were emitted among these members. */
  predicate HasEids(props: seq<Member>) { exists i :: 0 <= i < |props| && props[i].key == EID_DATA }

  /**
   No array outside diagnostics has more than `n` entries. Entitlement data is capped by the
   number of EIDs, and its summary, only beside that data, by the number of securities.
   */
  predicate Capped(j: Json, n: nat) {
    match j
    case JArray(items) => |items| <= n && forall i :: 0 <= i < |items| ==> Capped(items[i], n)
    case JObject(props) => forall i :: 0 <= i < |props| ==> MemberCapped(props[i], HasEids(props[..i]), n)
    case _ => true
  }

  predicate MemberCapped(m: Member, besideEids: bool, n: nat) {
    || OwnLimits(m.key)
    || (if m.key == EID_DATA then Capped(m.value, MAX_ENTITLEMENT_EIDS)
        else Capped(m.value, n) || (m.key == EID_DATA_TRUNCATION && besideEids && Capped(m.value, MAX_EID_SECURITIES)))
  }

  predicate RowsOk(s: State, o: Out, k: nat, n: nat) {
    Spent(s, o.st, k) && (!s.inDiagnostics && o.built.Built? ==> Capped(o.built.value, n))
  }

  predicate RowsOkProp(s: State, o: PropOut, k: nat, n: nat) {
    Spent(s, o.st, k) && (!s.inDiagnostics ==> Capped(JObject(o.acc.props), n))
  }

  predicate RowsOkItems(s: State, o: RowsOut, k: nat, n: nat, length: nat) {
    && Spent(s, o.st, k)
    && |o.items| <= length
    && (!s.inDiagnostics ==> forall i :: 0 <= i < |o.items| ==> Capped(o.items[i], n))
  }

  // ----- steps that spend nothing -----

  lemma {:induction false} ScanEidsSame(eids: seq<Element>, s: State, limit: int, keep: bool, capacity: nat,
                                        kept: seq<int>)
    requires Left(s) >= 0
    ensures Same(s, ScanEids(eids, s, limit, keep, capacity, kept).st)
    decreases |eids|
  {
    if eids != [] {
      var (t, ok) := VisitBefore(s, limit);
      if ok && ValidEid(eids[0]) {
        ScanEidsSame(eids[1..], t, limit, keep, capacity,
                     if keep && |kept| < capacity then kept + [eids[0].slot.value.num.value] else kept);
      }
    }
  }

  lemma ScanSecuritySame(w: World, node: Node, security: Str, limit: int, t: Tally)
    requires Left(t.st) >= 0
    ensures Same(t.st, ScanSecurity(w, node, security, limit, t).st)
  {
    hide Ascii, ScanEids, Utf8Length;
    var (s, ok) := VisitBefore(t.st, limit);
    var slot := Lookup(node.props, security);
    if ok && slot.Some? && ElemsOf(w, slot.value).Some? {
      var t1 := t.(st := s, scanned := t.scanned + 1);
      ScanEidsSame(ElemsOf(w, slot.value).value, s, limit, Retainable(t1, security), Capacity(t1), []);
    }
  }

  lemma {:induction false} ScanSecuritiesSame(w: World, node: Node, keys: seq<Str>, limit: int, t: Tally)
    requires Left(t.st) >= 0
    ensures Same(t.st, ScanSecurities(w, node, keys, limit, t).st)
    decreases |keys|
  {
    hide Ascii, ScanSecurity;
    if keys != [] && t.complete {
      ScanSecuritySame(w, node, keys[0], limit, t);
      ScanSecuritiesSame(w, node, keys[1..], limit, ScanSecurity(w, node, keys[0], limit, t));
    }
  }

  lemma PrepareSame(w: World, v: Value, s: State)
    requires Left(s) >= 0
    ensures Same(s, PrepareEidData(w, v, s).st)
  {
    hide Ascii, ScanSecurities;
    if IsPlain(w, v) {
      var node := NodeOf(w, v).value;
      ScanSecuritiesSame(w, node, Keys(node.props), EidVisitLimit(s), Tally0(s));
    }
  }

  lemma {:induction false} ScanOccurrencesSame(w: World, node: Node, keys: seq<Str>, s: State)
    requires Left(s) >= 0
    ensures Same(s, ScanOccurrences(w, node, keys, s).0)
    decreases |keys|
  {
    if keys != [] && s.visitedNodes < s.limits.maxResultNodes {
      ScanOccurrencesSame(w, node, keys[1..], s.(visitedNodes := s.visitedNodes + 1));
    }
  }

  lemma InspectSame(w: World, key: Str, slot: Slot, s: State)
    requires Left(s) >= 0
    ensures Same(s, Inspect(w, key, slot, s).st)
    ensures Inspect(w, key, slot, s).value == if slot.Accessor? then VString(ACCESSOR_OMITTED) else slot.value
  {
    hide Ascii, ScanOccurrences, IsErrorKey;
    var v := if slot.Accessor? then VString(ACCESSOR_OMITTED) else slot.value;
    var s1 := if slot.Accessor? then AddReason(s, AccessorOmitted) else s;
    if IsPlain(w, v) {
      ScanOccurrencesSame(w, NodeOf(w, v).value, Keys(NodeOf(w, v).value.props), s1);
    }
  }

  lemma AppendCapped(acc: Acc, key: Str, built: Built, budget: int, s: State, n: nat)
    requires built.Built?
    ensures var p := Append(acc, key, built, budget, s);
            && Same(s, p.st) && (p.ok && key == EID_DATA ==> HasEids(p.acc.props))
            && (Capped(JObject(acc.props), n) && MemberCapped(Member(key, built.value), HasEids(acc.props), n) ==>
                  Capped(JObject(p.acc.props), n))
  {
    hide Ascii, StringSize, MemberCapped;
    var all := acc.props + [Member(key, built.value)];
    assert all[|acc.props|].key == key;
    assert all[..|acc.props|] == acc.props;
    forall i | 0 <= i < |acc.props| ensures all[..i] == acc.props[..i] { }
  }

  lemma PrimitiveCapped(j: Json, budget: int, s: State, n: nat)
    requires !j.JArray? && !j.JObject?
    ensures var o := Primitive(j, budget, s); Same(s, o.st) && (o.built.Built? ==> Capped(o.built.value, n))
  {
    hide Size;
  }

  lemma LeafCapped(text: Str, budget: int, s: State, n: nat)
    ensures var o := Fitted(text, budget, s); Same(s, o.st) && (o.built.Built? ==> Capped(o.built.value, n))
  {
    hide FitString, StringSize;
  }

  // ----- the builders -----

  lemma {:induction false} BuildValueRows(w: World, v: Value, budget: int, s: State, depth: nat, rowLimit: nat,
                                          shared: bool)
    requires Solvent(s)
    ensures RowsOk(s, BuildValue(w, v, budget, s, depth, rowLimit, shared),
                   NestValue(w, v, depth, s.inDiagnostics, shared), rowLimit)
    decreases Left(s), 0
  {
    hide Ascii, BuildNode, Fitted, Floor, NestNode, Capped, Primitive, Unsupported, Spent;
    var k := NestValue(w, v, depth, s.inDiagnostics, shared);
    if s.visitedNodes >= s.limits.maxResultNodes {
      SameSpent(s, AddReason(s, MaxResultNodes), k);
    } else {
      var t := s.(visitedNodes := s.visitedNodes + 1);
      SameSpent(s, t, k);
      if depth > MAX_RESULT_DEPTH {
        UnsupportedRows(Ascii("[Max result depth exceeded]"), budget, t, MaxResultDepth, k, rowLimit);
      } else {
        match v
        case VString(text) => LeafRows(text, budget, t, k, rowLimit);
        case VBigInt(text) => LeafRows(text, budget, t, k, rowLimit);
        case VNull => PrimitiveRows(JNull, budget, t, t, k, rowLimit);
        case VBool(b) => PrimitiveRows(JBool(b), budget, t, t, k, rowLimit);
        case VNum(num) => PrimitiveRows(JNumber(num), budget, t, t, k, rowLimit);
        case VRef(r) => BuildNodeRows(w, {r}, w.heap(r), budget, t, depth, rowLimit, shared);
        case VFresh(node) => BuildNodeRows(w, {}, node, budget, t, depth, rowLimit, shared);
        case _ => PrimitiveRows(JNull, budget, t, AddReason(t, UnsupportedValue), k, rowLimit);
      }
      SpentThen(s, t, BuildValue(w, v, budget, s, depth, rowLimit, shared).st, k, k);
    }
  }

  lemma PrimitiveRows(j: Json, budget: int, s: State, t: State, k: nat, n: nat)
    requires !j.JArray? && !j.JObject? && Same(s, t)
    ensures RowsOk(s, Primitive(j, budget, t), k, n)
  {
    hide Primitive, Spent, Capped;
    PrimitiveCapped(j, budget, t, n);
    SameSpent(s, Primitive(j, budget, t).st, k);
  }

  lemma LeafRows(text: Str, budget: int, s: State, k: nat, n: nat)
    ensures RowsOk(s, Fitted(text, budget, s), k, n)
  {
    hide Fitted, Spent, Capped;
    LeafCapped(text, budget, s, n);
    SameSpent(s, Fitted(text, budget, s).st, k);
  }

  lemma UnsupportedRows(text: Str, budget: int, s: State, reason: Reason, k: nat, n: nat)
    ensures RowsOk(s, Unsupported(text, budget, s, reason), k, n)
  {
    hide Fitted, Spent, Capped;
    LeafCapped(text, budget, AddReason(s, reason), n);
    SameSpent(s, Unsupported(text, budget, s, reason).st, k);
  }

  lemma {:induction false} BuildNodeRows(w: World, id: set<Ref>, node: Node, budget: int, s: State, depth: nat,
                                         rowLimit: nat, shared: bool)
    requires Solvent(s)
    ensures RowsOk(s, BuildNode(w, id, node, budget, s, depth, rowLimit, shared),
                   NestNode(w, node, depth, s.inDiagnostics, shared), rowLimit)
    decreases Left(s), 9
  {
    hide Ascii, BuildArray, BuildObject, BuildError, BuildExotic, Fitted, Floor, Capped, NestObject, NestArray,
         NestValue, Converted;
    match node.kind
    case KDate(None) => LeafCapped(Ascii("[Invalid Date]"), budget, AddReason(s, UnsupportedValue), rowLimit);
    case KDate(Some(iso)) => LeafCapped(iso, budget, s, rowLimit);
    case KBinary(n) =>
      LeafCapped(Ascii("[binary data: ") + Decimal(n) + Ascii(" bytes]"), budget, AddReason(s, BinaryData), rowLimit);
    case KArray(elems) => BuildArrayRowsOk(w, id, elems, node, budget, s, depth, rowLimit, shared);
    case KPlain => BuildObjectRows(w, id, node, budget, s, depth, rowLimit);
    case KError(message, name, cause) =>
      BuildErrorRows(w, id, ErrorRecord(message, name, cause), budget, s.(hasErrors := true), depth, rowLimit);
    case KExotic(toJson) => BuildExoticRows(w, id, toJson, budget, s, depth, rowLimit, shared);
  }

  lemma {:induction false} BuildErrorRows(w: World, id: set<Ref>, record: Node, budget: int, s: State, depth: nat,
                                          rowLimit: nat)
    requires Solvent(s)
    ensures RowsOk(s, BuildError(w, id, record, budget, s, depth, rowLimit),
                   NestObject(w, record, depth, s.inDiagnostics), rowLimit)
    decreases Left(s), 8
  {
    hide Ascii, BuildObject, Fitted, Floor, Capped, NestObject;
    if id * s.ancestors != {} {
      LeafCapped(CIRCULAR, budget, AddReason(s, CircularReference), rowLimit);
    } else {
      BuildObjectRows(w, {}, record, budget, Enter(s, id), depth, rowLimit);
    }
  }

  lemma {:induction false} BuildExoticRows(w: World, id: set<Ref>, toJson: ToJson, budget: int, s: State, depth: nat,
                                           rowLimit: nat, shared: bool)
    requires Solvent(s)
    ensures RowsOk(s, BuildExotic(w, id, toJson, budget, s, depth, rowLimit, shared),
                   NestExotic(w, toJson, depth, s.inDiagnostics, shared), rowLimit)
    decreases Left(s), 7
  {
    hide Ascii, BuildValue, Fitted, Floor, Capped, Converted;
    if toJson.AccessorMethod? {
      LeafCapped(ACCESSOR_OMITTED, budget, AddReason(s, AccessorOmitted), rowLimit);
    } else if toJson.NoMethod? {
      LeafCapped(Ascii("[Unsupported object]"), budget, AddReason(s, UnsupportedValue), rowLimit);
    } else if id * s.ancestors != {} {
      LeafCapped(CIRCULAR, budget, AddReason(s, CircularReference), rowLimit);
    } else {
      var s1 := if toJson.Throws? then AddReason(s, UnsupportedValue).(hasErrors := true) else s;
      BuildValueRows(w, Converted(toJson), budget, Enter(s1, id), depth + 1, rowLimit, shared);
      assert depth >= MAX_RESULT_DEPTH ==> NestValue(w, Converted(toJson), depth + 1, s.inDiagnostics, shared) == 0;
    }
  }

  lemma {:induction false} BuildObjectRows(w: World, id: set<Ref>, node: Node, budget: int, s: State, depth: nat,
                                           rowLimit: nat)
    requires Solvent(s)
    ensures RowsOk(s, BuildObject(w, id, node, budget, s, depth, rowLimit), NestObject(w, node, depth, s.inDiagnostics),
                   rowLimit)
    decreases Left(s), 7
  {
    hide Ascii, BuildKeys, Fitted, OtherKeys, Floor, NestKeys;
    if id * s.ancestors != {} {
      LeafCapped(CIRCULAR, budget, AddReason(s, CircularReference), rowLimit);
    } else if budget >= 2 {
      var t := Enter(s, id).(retainedNodes := s.retainedNodes + 1);
      var p := BuildKeys(w, node, PRIORITY_KEYS, false, EMPTY_ACC, budget, t, depth, rowLimit);
      BuildKeysRows(w, node, PRIORITY_KEYS, false, EMPTY_ACC, budget, t, depth, rowLimit);
      var q := BuildKeys(w, node, OtherKeys(node), true, p.acc, budget, p.st, depth, rowLimit);
      BuildKeysRows(w, node, OtherKeys(node), true, p.acc, budget, p.st, depth, rowLimit);
      SpentThen(t, p.st, q.st, NestKeys(w, node, PRIORITY_KEYS, depth, s.inDiagnostics),
                NestKeys(w, node, OtherKeys(node), depth, s.inDiagnostics));
    }
  }

  lemma {:induction false} BuildKeysRows(w: World, node: Node, keys: seq<Str>, stop: bool, acc: Acc, budget: int,
                                         s: State, depth: nat, rowLimit: nat)
    requires Solvent(s) && (!s.inDiagnostics ==> Capped(JObject(acc.props), rowLimit))
    ensures RowsOkProp(s, BuildKeys(w, node, keys, stop, acc, budget, s, depth, rowLimit),
                       NestKeys(w, node, keys, depth, s.inDiagnostics), rowLimit)
    decreases Left(s), 6, |keys|
  {
    hide Ascii, BuildProperty, Floor, Capped, NestProp;
    if keys != [] {
      var p := BuildProperty(w, node, keys[0], acc, budget, s, depth, rowLimit);
      BuildPropertyRows(w, node, keys[0], acc, budget, s, depth, rowLimit);
      var t := if p.ok then p.st else p.st.(omittedProperties := p.st.omittedProperties + 1);
      var k := NestProp(w, node, keys[0], depth, s.inDiagnostics);
      var n := NestKeys(w, node, keys[1..], depth, s.inDiagnostics);
      if p.ok || !stop {
        BuildKeysRows(w, node, keys[1..], stop, p.acc, budget, t, depth, rowLimit);
        SpentThen(s, t, BuildKeys(w, node, keys[1..], stop, p.acc, budget, t, depth, rowLimit).st, k, n);
      } else {
        SpentMore(s, t, k, Max(k, n));
      }
    }
  }

  lemma {:induction false} BuildPropertyRows(w: World, source: Node, key: Str, acc: Acc, budget: int, s: State,
                                             depth: nat, rowLimit: nat)
    requires Solvent(s) && (!s.inDiagnostics ==> Capped(JObject(acc.props), rowLimit))
    ensures RowsOkProp(s, BuildProperty(w, source, key, acc, budget, s, depth, rowLimit),
                       NestProp(w, source, key, depth, s.inDiagnostics), rowLimit)
    decreases Left(s), 5
  {
    hide Ascii, BuildStored, BuildOwn, RawFieldExceptions, StringSize, Capped, Floor, NestProp, Spent;
    var slot := Lookup(source.props, key);
    var raw := StoredExceptions(w, source, key);
    var available := budget - acc.byteLength - CommaSize(acc.props) - 1;
    var k := NestProp(w, source, key, depth, s.inDiagnostics);
    SameSpent(s, s, k);
    SameSpent(s, OmitInvalid(s), k);
    SameSpent(s, AddReason(s, MaxResultBytes).(hasErrors := s.hasErrors || raw.Raw?), k);
    if available >= 4 && StringSize(key) <= available - 2 {
      if raw.Raw? {
        var o := BuildStored(w, raw.text, key, acc, budget, available - StringSize(key), s, depth);
        BuildStoredRows(w, raw.text, key, acc, budget, available - StringSize(key), s, depth, rowLimit);
        SpentMore(s, o.st, 0, k);
      } else if slot.Some? {
        BuildOwnRows(w, source, key, slot.value, acc, budget, available - StringSize(key), s, depth, rowLimit);
      }
    }
  }

  lemma {:induction false} BuildOwnRows(w: World, source: Node, key: Str, slot: Slot, acc: Acc, budget: int,
                                        childBudget: int, s: State, depth: nat, rowLimit: nat)
    requires Solvent(s) && childBudget >= 2 && (!s.inDiagnostics ==> Capped(JObject(acc.props), rowLimit))
    requires Lookup(source.props, key) == Some(slot)
    ensures RowsOkProp(s, BuildOwn(w, source, key, slot, acc, budget, childBudget, s, depth, rowLimit),
                       NestProp(w, source, key, depth, s.inDiagnostics), rowLimit)
    decreases Left(s), 4
  {
    hide Ascii, BuildChild, BuildEntitlement, Inspect, AddOwn, Floor, Capped, NestValue, Spent, IsErrorMetadata,
         SharedKey, HasEids;
    var i := Inspect(w, key, slot, s);
    InspectSame(w, key, slot, s);
    SameSpent(s, i.st, 0);
    if !s.inDiagnostics && key == EID_DATA {
      BuildEntitlementRows(w, source, i.value, acc, budget, childBudget, i.st, depth, rowLimit);
      SpentThen(s, i.st, BuildEntitlement(w, source, i.value, acc, budget, childBudget, i.st, depth).st, 0, 1);
    } else {
      var o := BuildChild(w, key, i.value, childBudget, i.st, depth, rowLimit);
      var k := NestProp(w, source, key, depth, s.inDiagnostics);
      BuildChildRows(w, key, i.value, childBudget, i.st, depth, rowLimit);
      ChildNest(w, source, key, slot, s, depth);
      SpentThen(s, i.st, o.st, 0, k);
      if o.built.Built? {
        if !s.inDiagnostics { ChildCapped(key, o.built.value, HasEids(acc.props), rowLimit); }
        AddOwnRows(acc, key, i.value, i.errorKey, o.built, budget, o.st, rowLimit);
        SpentContext(s, o.st, k);
        SpentThen(s, o.st, AddOwn(acc, key, i.value, i.errorKey, o.built, budget, o.st).st, k, 0);
      }
    }
  }

  lemma ChildCapped(key: Str, j: Json, besideEids: bool, n: nat)
    requires key != EID_DATA && (IsErrorMetadata(key) || Capped(j, n))
    ensures MemberCapped(Member(key, j), besideEids, n)
  {
    hide Ascii, IsErrorMetadata;
  }

  lemma SpentContext(s: State, t: State, k: nat)
    requires Solvent(s) && Spent(s, t, k)
    ensures Solvent(t) && t.inDiagnostics == s.inDiagnostics && t.limits == s.limits
  {
  }

  lemma ChildNest(w: World, source: Node, key: Str, slot: Slot, s: State, depth: nat)
    requires Lookup(source.props, key) == Some(slot) && (s.inDiagnostics || key != EID_DATA)
    ensures var v := if slot.Accessor? then VString(ACCESSOR_OMITTED) else slot.value;
            NestValue(w, v, depth + 1, s.inDiagnostics || IsErrorMetadata(key), SharedKey(w, key, v))
            == NestProp(w, source, key, depth, s.inDiagnostics)
  {
    hide Ascii, NestNode, IsErrorMetadata, SharedKey;
  }

  lemma {:induction false} BuildChildRows(w: World, key: Str, v: Value, childBudget: int, s: State, depth: nat,
                                          rowLimit: nat)
    requires Solvent(s)
    ensures var o := BuildChild(w, key, v, childBudget, s, depth, rowLimit);
            && Spent(s, o.st, NestValue(w, v, depth + 1, s.inDiagnostics || IsErrorMetadata(key), SharedKey(w, key, v)))
            && (!s.inDiagnostics && o.built.Built? ==> IsErrorMetadata(key) || Capped(o.built.value, rowLimit))
    decreases Left(s), 1
  {
    hide Ascii, BuildValue, Floor, Capped, NestValue, IsErrorMetadata, SharedKey;
    var inDiagnostics := s.inDiagnostics || IsErrorMetadata(key);
    BuildValueRows(w, v, childBudget, s.(inDiagnostics := inDiagnostics), depth + 1, rowLimit, SharedKey(w, key, v));
  }

  lemma AddOwnRows(acc: Acc, key: Str, v: Value, errorKey: bool, built: Built, budget: int, s: State, n: nat)
    requires built.Built?
    ensures var o := AddOwn(acc, key, v, errorKey, built, budget, s);
            && Spent(s, o.st, 0)
            && (Capped(JObject(acc.props), n) && MemberCapped(Member(key, built.value), HasEids(acc.props), n) ==>
                  Capped(JObject(o.acc.props), n))
  {
    hide Ascii, Append, Capped, MemberCapped, Floor, HasEids;
    AppendCapped(acc, key, built, budget, s, n);
  }

  // ----- stored field exceptions are diagnostics -----

  lemma {:induction false} BuildStoredRows(w: World, raw: Str, key: Str, acc: Acc, budget: int, childBudget: int,
                                           s: State, depth: nat, n: nat)
    requires Solvent(s) && key == FIELD_EXCEPTIONS
    ensures var o := BuildStored(w, raw, key, acc, budget, childBudget, s, depth);
            Spent(s, o.st, 0) && (Capped(JObject(acc.props), n) ==> Capped(JObject(o.acc.props), n))
    decreases Left(s), 4
  {
    hide Ascii, BuildRaw, Append, Capped, Floor, HasEids, IsErrorMetadata;
    BuildRawRows(w, raw, childBudget, s.(inDiagnostics := true), depth + 1);
    var r := BuildRaw(w, raw, childBudget, s.(inDiagnostics := true), depth + 1);
    var t := r.st.(inDiagnostics := s.inDiagnostics);
    if r.RawBuilt? {
      AppendCapped(acc, key, Built(r.byteLength, r.value), budget, t, n);
    }
  }

  lemma {:induction false} BuildRawRows(w: World, raw: Str, budget: int, s: State, depth: nat)
    requires Solvent(s) && s.inDiagnostics
    ensures Same(s, BuildRaw(w, raw, budget, s, depth).st)
    decreases Left(s), 3
  {
    hide Ascii, BuildSecurities, StringSize, ReadDocument, HasOccurrences;
    if s.visitedNodes < s.limits.maxResultNodes {
      var t := s.(visitedNodes := s.visitedNodes + 1);
      if depth <= MAX_RESULT_DEPTH && budget >= 2 && StringSize(raw) <= s.limits.maxResultBytes && |raw| <= Left(t) {
        var t1 := t.(visitedNodes := t.visitedNodes + |raw|);
        var parsed := w.parse(raw);
        if parsed.Some? && ReadDocument(parsed.value).Some? {
          var doc := ReadDocument(parsed.value).value;
          var u := t1.(hasErrors := t1.hasErrors || HasOccurrences(doc.securities),
                       retainedNodes := t1.retainedNodes + 1);
          BuildSecuritiesRows(w, doc.securities, doc.entries, EMPTY_ACC, budget, u, depth);
        }
      }
    }
  }

  lemma {:induction false} BuildSecuritiesRows(w: World, securities: seq<Member>, entries: Option<seq<Json>>, acc: Acc,
                                               budget: int, s: State, depth: nat)
    requires Solvent(s) && s.inDiagnostics
    requires forall i :: 0 <= i < |securities| ==> ValidList(securities[i].value, entries)
    ensures Same(s, BuildSecurities(w, securities, entries, acc, budget, s, depth).st)
    decreases Left(s), 2, |securities|
  {
    hide Ascii, BuildExceptionArray, Append, StringSize, Capped, MemberCapped, HasEids;
    if securities != [] {
      var key, comma := securities[0].key, CommaSize(acc.props);
      if 2 <= budget - acc.byteLength - comma - 3 && StringSize(key) <= budget - acc.byteLength - comma - 3 {
        assert ValidList(securities[0].value, entries);
        var childBudget := budget - acc.byteLength - comma - StringSize(key) - 1;
        var o := BuildExceptionArray(w, securities[0].value.items, entries, childBudget, s, depth + 1);
        BuildExceptionArrayRows(w, securities[0].value.items, entries, childBudget, s, depth + 1);
        if o.built.Built? {
          AppendCapped(acc, key, o.built, budget, o.st, 0);
          var p := Append(acc, key, o.built, budget, o.st);
          if p.ok { BuildSecuritiesRows(w, securities[1..], entries, p.acc, budget, p.st, depth); }
        }
      }
    }
  }

  lemma {:induction false} BuildExceptionArrayRows(w: World, occurrences: seq<Json>, entries: Option<seq<Json>>,
                                                   budget: int, s: State, depth: nat)
    requires Solvent(s) && s.inDiagnostics
    requires forall i :: 0 <= i < |occurrences| ==> ExceptionAt(occurrences[i], entries).Some?
    ensures Same(s, BuildExceptionArray(w, occurrences, entries, budget, s, depth).st)
    decreases Left(s), 1
  {
    hide Ascii, BuildExceptions, ExceptionAt;
    if s.visitedNodes < s.limits.maxResultNodes && depth <= MAX_RESULT_DEPTH && budget >= 2 {
      BuildExceptionsRows(w, occurrences, entries, budget,
                          s.(visitedNodes := s.visitedNodes + 1, retainedNodes := s.retainedNodes + 1),
                          depth, [], 2);
    }
  }

  lemma {:induction false} BuildExceptionsRows(w: World, occurrences: seq<Json>, entries: Option<seq<Json>>,
                                               budget: int, s: State, depth: nat, items: seq<Json>, byteLength: nat)
    requires Solvent(s) && s.inDiagnostics
    requires forall i :: 0 <= i < |occurrences| ==> ExceptionAt(occurrences[i], entries).Some?
    ensures Same(s, BuildExceptions(w, occurrences, entries, budget, s, depth, items, byteLength).st)
    decreases Left(s), 1, |occurrences|
  {
    hide Ascii, BuildValue, Embed, ExceptionAt, Capped, NestValue;
    if occurrences != [] && s.visitedNodes < s.limits.maxResultNodes && depth + 2 <= MAX_RESULT_DEPTH {
      var childBudget := budget - byteLength - CommaSize(items);
      if childBudget >= 2 {
        var entry := ExceptionAt(occurrences[0], entries).value;
        var o := BuildValue(w, Embed(entry), childBudget, s, depth + 1, MAX_SAFE_INTEGER, false);
        BuildValueRows(w, Embed(entry), childBudget, s, depth + 1, MAX_SAFE_INTEGER, false);
        QuietValue(w, Embed(entry), depth + 1, false);
        SpentNothing(s, o.st);
        if o.built.Built? && o.built.value.JObject? && o.st.omittedProperties <= s.omittedProperties {
          BuildExceptionsRows(w, occurrences[1..], entries, budget, o.st, depth, items + [o.built.value],
                              byteLength + CommaSize(items) + o.built.byteLength);
        }
      }
    }
  }

  lemma {:induction false} BuildEntitlementRows(w: World, source: Node, v: Value, acc: Acc, budget: int,
                                                childBudget: int, s: State, depth: nat, n: nat)
    requires Solvent(s) && !s.inDiagnostics && Capped(JObject(acc.props), n)
    ensures RowsOkProp(s, BuildEntitlement(w, source, v, acc, budget, childBudget, s, depth), 1, n)
    decreases Left(s), 3
  {
    hide Ascii, BuildValue, Append, PrepareEidData, EmittedSummary, EidRecord, SummaryJson, Embed, StringSize, Capped,
         Floor, NestValue, Spent, ArrayDepth, HasEids, IsErrorMetadata;
    PrepareSame(w, v, s);
    var prepared := PrepareEidData(w, v, s);
    var data := Embed(EidRecord(prepared.data));
    SameSpent(s, prepared.st, 1);
    var o := BuildValue(w, data, Max(2, childBudget / 3), prepared.st, depth + 1, MAX_ENTITLEMENT_EIDS, false);
    RecordDepth(prepared.data);
    RecordRows(w, EidRecord(prepared.data), Max(2, childBudget / 3), prepared.st, depth + 1, MAX_ENTITLEMENT_EIDS);
    SpentThen(s, prepared.st, o.st, 1, 1);
    if o.built.Built? {
      AppendCapped(acc, EID_DATA, o.built, budget, o.st, n);
      var p := Append(acc, EID_DATA, o.built, budget, o.st);
      SameSpent(o.st, p.st, 1);
      SpentThen(s, o.st, p.st, 1, 1);
      var summary := EmittedSummary(w, source, o.built.value, prepared);
      if p.ok && summary.Some? {
        SpentContext(s, p.st, 1);
        SummaryRows(w, summary.value, budget, p, s, depth, n);
      }
    }
  }

  /** A record of the projector's own that nests at most one level deep. */
  lemma {:induction false} RecordRows(w: World, j: Json, budget: int, s: State, depth: nat, rowLimit: nat)
    requires Solvent(s) && ArrayDepth(j) <= 1
    ensures var o := BuildValue(w, Embed(j), budget, s, depth, rowLimit, false);
            Spent(s, o.st, 1) && (!s.inDiagnostics && o.built.Built? ==> Capped(o.built.value, rowLimit))
    decreases Left(s), 1
  {
    hide Ascii, BuildValue, Embed, Capped, Floor, NestValue, ArrayDepth, Spent;
    BuildValueRows(w, Embed(j), budget, s, depth, rowLimit, false);
    EmbeddedNest(w, j, depth, s.inDiagnostics, false);
    SpentMore(s, BuildValue(w, Embed(j), budget, s, depth, rowLimit, false).st,
              NestValue(w, Embed(j), depth, s.inDiagnostics, false), 1);
  }

  lemma {:induction false} SummaryRows(w: World, summary: Summary, budget: int, p: PropOut, s: State, depth: nat,
                                       n: nat)
    requires Solvent(p.st) && Spent(s, p.st, 1) && Capped(JObject(p.acc.props), n)
    requires !p.st.inDiagnostics && HasEids(p.acc.props)
    ensures var summaryBudget :=
              budget - p.acc.byteLength - CommaSize(p.acc.props) - StringSize(EID_DATA_TRUNCATION) - 1;
            var u := BuildValue(w, Embed(SummaryJson(summary)), summaryBudget, p.st, depth + 1, MAX_EID_SECURITIES,
                                false);
            var q := if u.built.Omit? then PropOut(u.st, p.acc, false)
                     else Append(p.acc, EID_DATA_TRUNCATION, u.built, budget, u.st);
            && Capped(JObject(q.acc.props), n)
            && Spent(s, if q.ok then q.st else q.st.(omittedProperties := q.st.omittedProperties + 1), 1)
    decreases Left(p.st), 2
  {
    hide Ascii, BuildValue, Append, SummaryJson, Embed, StringSize, Capped, ArrayDepth, Floor, HasEids, IsErrorMetadata;
    EidKeysDiffer();
    var summaryBudget := budget - p.acc.byteLength - CommaSize(p.acc.props) - StringSize(EID_DATA_TRUNCATION) - 1;
    var u := BuildValue(w, Embed(SummaryJson(summary)), summaryBudget, p.st, depth + 1, MAX_EID_SECURITIES, false);
    SummaryDepth(summary);
    RecordRows(w, SummaryJson(summary), summaryBudget, p.st, depth + 1, MAX_EID_SECURITIES);
    SpentThen(s, p.st, u.st, 1, 1);
    if u.built.Built? {
      AppendCapped(p.acc, EID_DATA_TRUNCATION, u.built, budget, u.st, n);
    }
  }

  // ----- arrays -----

  lemma {:induction false} BuildArrayRowsOk(w: World, id: set<Ref>, elems: seq<Element>, node: Node, budget: int,
                                            s: State, depth: nat, rowLimit: nat, shared: bool)
    requires Solvent(s)
    ensures RowsOk(s, BuildArray(w, id, elems, node, budget, s, depth, rowLimit, shared),
                   NestArray(w, elems, node, depth, s.inDiagnostics, shared), rowLimit)
    decreases Left(s), 7
  {
    hide Ascii, BuildTable, BuildArrayRows, Fitted, HasArrayMetadata, Floor, Capped, NestKeys, NestRows;
    if id * s.ancestors != {} {
      LeafCapped(CIRCULAR, budget, AddReason(s, CircularReference), rowLimit);
    } else if HasArrayMetadata(node) {
      BuildTableRows(w, elems, node, budget, Enter(s, id), depth, rowLimit, shared);
    } else {
      BuildPlainRows(w, elems, budget, Enter(s, id), depth, rowLimit, shared);
    }
  }

  lemma {:induction false} BuildTableRows(w: World, elems: seq<Element>, node: Node, budget: int, s: State, depth: nat,
                                          rowLimit: nat, shared: bool)
    requires Solvent(s)
    ensures RowsOk(s, BuildTable(w, elems, node, budget, s, depth, rowLimit, shared),
                   Max(NestKeys(w, node, PRIORITY_KEYS, depth, s.inDiagnostics),
                       NestRows(w, elems, depth + 1, s.inDiagnostics, shared)),
                   rowLimit)
    decreases Left(s), 6, |PRIORITY_KEYS| + 1
  {
    hide Ascii, BuildKeys, BuildRowsProperty, MetadataBeforeRows, MetadataAfterRows, Floor, NestKeys, NestRows, Spent;
    var k := Max(NestKeys(w, node, PRIORITY_KEYS, depth, s.inDiagnostics),
                 NestRows(w, elems, depth + 1, s.inDiagnostics, shared));
    if budget >= 2 {
      var s1 := s.(retainedNodes := s.retainedNodes + 1);
      SameSpent(s, s1, k);
      var before, after := MetadataBeforeRows(s.rowsBeforeMetadata), MetadataAfterRows(s.rowsBeforeMetadata);
      KeyListBounds(s.rowsBeforeMetadata);
      NestMetadata(w, node, s.rowsBeforeMetadata, depth, s.inDiagnostics);
      var p := BuildKeys(w, node, before, false, EMPTY_ACC, budget, s1, depth, rowLimit);
      BuildKeysRows(w, node, before, false, EMPTY_ACC, budget, s1, depth, rowLimit);
      SpentMore(s1, p.st, NestKeys(w, node, before, depth, s.inDiagnostics), k);
      SpentThen(s, s1, p.st, k, k);
      SpentContext(s, p.st, k);
      var q := BuildRowsProperty(w, elems, p.acc, budget, p.st, depth, rowLimit, shared);
      BuildRowsPropertyRows(w, elems, p.acc, budget, p.st, depth, rowLimit, shared);
      SpentMore(p.st, q.st, NestRows(w, elems, depth + 1, s.inDiagnostics, shared), k);
      SpentThen(s, p.st, q.st, k, k);
      SpentContext(s, q.st, k);
      var t := BuildKeys(w, node, after, false, q.acc, budget, q.st, depth, rowLimit);
      BuildKeysRows(w, node, after, false, q.acc, budget, q.st, depth, rowLimit);
      SpentMore(q.st, t.st, NestKeys(w, node, after, depth, s.inDiagnostics), k);
      SpentThen(s, q.st, t.st, k, k);
    } else {
      SameSpent(s, AddReason(s, MaxResultBytes), k);
    }
  }

  lemma RowsCapped(j: Json, besideEids: bool, n: nat)
    requires Capped(j, n)
    ensures MemberCapped(Member(ROWS, j), besideEids, n)
  {
    assert |ROWS| == 4 && |EID_DATA| == 7;
    hide Ascii;
  }

  lemma {:induction false} BuildRowsPropertyRows(w: World, elems: seq<Element>, acc: Acc, budget: int, s: State,
                                                 depth: nat, rowLimit: nat, shared: bool)
    requires Solvent(s) && (!s.inDiagnostics ==> Capped(JObject(acc.props), rowLimit))
    ensures RowsOkProp(s, BuildRowsProperty(w, elems, acc, budget, s, depth, rowLimit, shared),
                       NestRows(w, elems, depth + 1, s.inDiagnostics, shared), rowLimit)
    decreases Left(s), 5
  {
    hide Ascii, BuildArrayRows, Append, StringSize, Floor, Capped, NestRows, HasEids, MemberCapped;
    if s.visitedNodes < s.limits.maxResultNodes {
      var rowsBudget := budget - acc.byteLength - CommaSize(acc.props) - StringSize(ROWS) - 1;
      var t := s.(visitedNodes := s.visitedNodes + 1);
      BuildPlainRows(w, elems, rowsBudget, t, depth + 1, rowLimit, shared);
      var o := BuildArrayRows(w, elems, rowsBudget, t, depth + 1, rowLimit, shared);
      if o.built.Built? {
        if !s.inDiagnostics { RowsCapped(o.built.value, HasEids(acc.props), rowLimit); }
        AppendCapped(acc, ROWS, o.built, budget, o.st, rowLimit);
      }
    }
  }

  lemma {:induction false} BuildPlainRows(w: World, elems: seq<Element>, budget: int, s: State, depth: nat,
                                          rowLimit: nat, shared: bool)
    requires Solvent(s)
    ensures RowsOk(s, BuildArrayRows(w, elems, budget, s, depth, rowLimit, shared),
                   NestRows(w, elems, depth, s.inDiagnostics, shared), rowLimit)
    decreases Left(s), 4
  {
    hide Ascii, BuildRows, Floor, NestItems;
    if budget >= 2 {
      var n := RetainedLength(|elems|, s, rowLimit, shared);
      var t := s.(retainedNodes := s.retainedNodes + 1);
      var k := NestItems(w, elems, depth, s.inDiagnostics);
      BuildRowsRows(w, elems[..Max(0, n)], budget, t, depth, rowLimit, [], 2);
      NestPrefix(w, elems, Max(0, n), depth, s.inDiagnostics);
      var o := BuildRows(w, elems[..Max(0, n)], budget, t, depth, rowLimit, [], 2);
      SpentMore(t, o.st, NestItems(w, elems[..Max(0, n)], depth, s.inDiagnostics), k);
      if SharedRows(s, shared) {
        RowsSpent(t, o.st, k, |elems|, n, |o.items|);
      }
    }
  }

  lemma {:induction false} NestPrefix(w: World, elems: seq<Element>, n: nat, depth: nat, diag: bool)
    requires n <= |elems|
    ensures NestItems(w, elems[..n], depth, diag) <= NestItems(w, elems, depth, diag)
    decreases |elems|
  {
    hide NestValue, EntryOf;
    if n > 0 && depth <= MAX_RESULT_DEPTH {
      assert elems[..n][1..] == elems[1..][..n - 1];
      NestPrefix(w, elems[1..], n - 1, depth, diag);
    }
  }

  lemma {:induction false} BuildRowsRows(w: World, elems: seq<Element>, budget: int, s: State, depth: nat,
                                         rowLimit: nat, items: seq<Json>, byteLength: nat)
    requires Solvent(s) && (!s.inDiagnostics ==> forall i :: 0 <= i < |items| ==> Capped(items[i], rowLimit))
    ensures RowsOkItems(s, BuildRows(w, elems, budget, s, depth, rowLimit, items, byteLength),
                        NestItems(w, elems, depth, s.inDiagnostics),
                        rowLimit, |items| + |elems|)
    decreases Left(s), 3, |elems|
  {
    hide BuildValue, Atomic, EntryOf, NestValue, Floor, Capped, Spent;
    var k := NestItems(w, elems, depth, s.inDiagnostics);
    SameSpent(s, s, k);
    if elems != [] {
      var s1 := NoteElement(s, elems[0]);
      var atomic := Atomic(w, s, elems[0]);
      SameSpent(s, s1, k);
      SameSpent(s, AddReason(s1, MaxResultDepth), k);
      if !(atomic && depth + 2 > MAX_RESULT_DEPTH) {
        var childBudget := budget - byteLength - CommaSize(items);
        var o := BuildValue(w, EntryOf(elems[0]), childBudget, s1, depth + 1, rowLimit, false);
        BuildValueRows(w, EntryOf(elems[0]), childBudget, s1, depth + 1, rowLimit, false);
        ItemNest(w, elems, depth, s.inDiagnostics);
        SpentMore(s1, o.st, NestValue(w, EntryOf(elems[0]), depth + 1, s.inDiagnostics, false), k);
        SpentThen(s, s1, o.st, k, k);
        SpentContext(s, o.st, k);
        SameSpent(o.st, o.st.(retainedNodes := s1.retainedNodes), k);
        SpentThen(s, o.st, o.st.(retainedNodes := s1.retainedNodes), k, k);
        if !Unusable(atomic, s1, o) {
          var n := byteLength + CommaSize(items) + o.built.byteLength;
          BuildRowsRows(w, elems[1..], budget, o.st, depth, rowLimit, items + [o.built.value], n);
          var u := BuildRows(w, elems[1..], budget, o.st, depth, rowLimit, items + [o.built.value], n);
          SpentMore(o.st, u.st, NestItems(w, elems[1..], depth, s.inDiagnostics), k);
          SpentThen(s, o.st, u.st, k, k);
        }
      }
    }
  }

  lemma ItemNest(w: World, elems: seq<Element>, depth: nat, diag: bool)
    requires elems != []
    ensures NestValue(w, EntryOf(elems[0]), depth + 1, diag, false) <= NestItems(w, elems, depth, diag)
    ensures NestItems(w, elems[1..], depth, diag) <= NestItems(w, elems, depth, diag)
  {
    hide NestNode, EntryOf;
  }

  // ----- the whole projection -----

  /**
   At most `k` times the row limit is kept in shared-row arrays that nest `k` deep, so
   never more than the limit if they do not nest; and every array outside diagnostics
   and entitlement data is within the limit.
   */
  lemma RowsBounded(w: World, v: Value, limits: Limits, rowsBeforeMetadata: bool)
    requires limits.maxResultBytes >= 4
    ensures var k := NestValue(w, v, 0, false, true);
            var r := ProjectResult(w, v, limits, rowsBeforeMetadata);
            && r.retainedRows <= k * limits.maxRows
            && Capped(r.value, limits.maxRows)
  {
    hide BuildValue, NestValue;
    var s := InitialState(limits, rowsBeforeMetadata);
    BuildValueRows(w, v, limits.maxResultBytes, s, 0, limits.maxRows, true);
    BuildValueSound(w, v, limits.maxResultBytes, s, 0, limits.maxRows, true);
    var k := NestValue(w, v, 0, false, true);
    FloorIs(k, limits.maxRows);
  }

  /**
   A value that the limits can keep whole keeps exactly the rows that its whole form
   spends, so it stays within the row limit exactly if that sum does.
   */
  lemma WholeWithinExactly(w: World, v: Value, limits: Limits, rowsBeforeMetadata: bool)
    requires var x := WholeValue(w, v, 0, false, rowsBeforeMetadata, true); x.Full? && FitsLimits(x, limits)
    ensures var r := ProjectResult(w, v, limits, rowsBeforeMetadata);
            var x := WholeValue(w, v, 0, false, rowsBeforeMetadata, true);
            r.value == x.json && (r.retainedRows <= limits.maxRows <==> x.cost.spend <= limits.maxRows)
  {
    hide WholeValue, FitsLimits, ProjectResult;
    LosslessExactly(w, v, limits, rowsBeforeMetadata);
  }

  lemma FloorIs(k: nat, maxRows: nat)
    ensures Floor(k, maxRows) == maxRows - k * maxRows
    ensures Floor(k, maxRows) <= maxRows
  {
    FloorLess(0, k, maxRows);
  }

  // ----- the overspend is real -----

  const MIDDLE := JObject([Member(ROWS, JArray([JNull]))])
  const NESTED := JArray([MIDDLE])
  const ONE_ROW := Trace(1, [])

  lemma JoinNothing(x: WholeList<Member>)
    requires x.FullList?
    ensures Join(x, FullList([], FREE)) == x
  {
    hide Then;
    ThenFree(x.cost);
    assert x.list + [] == x.list;
  }

  lemma AbsentKey(w: World, node: Node, key: Str, depth: nat, diag: bool, rbm: bool)
    requires Lookup(node.props, METADATA).None? && Lookup(node.props, key).None?
    ensures WholeProp(w, node, key, depth, diag, rbm) == FullList([], FREE)
  {
    hide Ascii, WholeOwn;
  }

  lemma {:induction false} AbsentKeys(w: World, node: Node, keys: seq<Str>, depth: nat, diag: bool, rbm: bool)
    requires Lookup(node.props, METADATA).None?
    requires forall k :: k in keys ==> Lookup(node.props, k).None?
    ensures WholeProps(w, node, keys, depth, diag, rbm) == FullList([], FREE)
    decreases |keys|
  {
    hide Ascii, WholeProp, Lookup, Join;
    if keys != [] {
      JoinNothing(FullList([], FREE));
      assert keys[0] in keys;
      AbsentKey(w, node, keys[0], depth, diag, rbm);
      AbsentKeys(w, node, keys[1..], depth, diag, rbm);
    }
  }

  lemma RowsKeyOrdinary()
    ensures !IsErrorMetadata(ROWS) && ROWS !in PRIORITY_KEYS
  {
    PriorityDistinct();
    assert |Lower(ROWS)| == 4 && |DIAGNOSTICS| == 11;
    assert forall i :: 0 <= i < |ERROR_SHAPE_KEYS| ==> |ERROR_SHAPE_KEYS[i]| != 4;
    hide Ascii;
  }

  lemma WholeArray(w: World, items: seq<Json>, d: nat, shared: bool)
    requires d <= MAX_RESULT_DEPTH
    ensures WholeValue(w, Embed(JArray(items)), d, false, false, shared)
         == Charge(VISIT, WholeRows(w, DataElems(items), d, false, false, shared))
  {
    hide Ascii, WholeRows, WholeTable, DataElems;
    var node := Node(KArray(DataElems(items)), []);
    assert !HasArrayMetadata(node);
    assert WholeNode(w, node, d, false, false, shared) == WholeRows(w, DataElems(items), d, false, false, shared);
  }

  lemma OneItem(w: World, j: Json, d: nat)
    requires d < MAX_RESULT_DEPTH
    ensures var x := WholeValue(w, Embed(j), d + 1, false, false, false);
            x.Full? ==> WholeItems(w, DataElems([j]), d, false, false) == FullList([x.json], Then(x.cost, FREE))
  {
    hide WholeValue, Embed, IsPlain;
    var elems := DataElems([j]);
    assert elems[0] == Elem(Data(Embed(j))) && elems[1..] == [];
    assert WholeItems(w, [], d, false, false) == FullList([], FREE);
    assert WholeItems(w, elems, d, false, false)
           == Join(WholeItem(w, elems[0], d, false, false), WholeItems(w, [], d, false, false));
  }

  lemma InnerRows(w: World, d: nat)
    requires d <= 2
    ensures WholeValue(w, Embed(JArray([JNull])), d, false, false, true)
         == Full(JArray([JNull]), Cost(2, 1, Some(1), 1, 0, false, ONE_ROW))
  {
    hide Ascii, WholeItems, WholeValue, Embed, DataElems, Then, RowCost;
    WholeArray(w, [JNull], d, true);
    OneItem(w, JNull, d);
    NullCost(w, d + 1);
    assert |DataElems([JNull])| == 1;
    var c := RowCost(1, false, true, VISIT);
    FirstRow(VISIT);
    ThenFree(VISIT);
    ThenFree(c);
  }

  lemma FirstRow(c: Cost)
    requires c == VISIT
    ensures RowCost(1, false, true, c) == Cost(1, 1, Some(1), 1, 0, false, ONE_ROW)
  {
  }

  lemma NullCost(w: World, d: nat)
    requires d <= MAX_RESULT_DEPTH
    ensures WholeValue(w, Embed(JNull), d, false, false, false) == Full(JNull, VISIT)
  {
    hide WholeNode, Then;
    ThenFree(FREE);
  }

  lemma MiddleObject(w: World)
    ensures WholeValue(w, Embed(MIDDLE), 1, false, false, false)
         == Full(MIDDLE, Cost(3, 1, Some(1), 1, 0, false, ONE_ROW))
  {
    hide Ascii, Embed, DataProps, WholeValue, WholeProps, OtherKeys, Then;
    var props := [Member(ROWS, JArray([JNull]))];
    var inner := Cost(2, 1, Some(1), 1, 0, false, ONE_ROW);
    ThenFree(inner);
    var node := Node(KPlain, DataProps(props));
    RowsKeyOrdinary();
    MiddleProps(w, node, props);
    assert [] + props == props;
    EmbeddedOtherKeys([], props);
    assert KeysOf(props) == [ROWS];
    MiddleWhole(w, props);
  }

  lemma MiddleWhole(w: World, props: seq<Member>)
    ensures var node := Node(KPlain, DataProps(props));
            WholeValue(w, Embed(JObject(props)), 1, false, false, false)
                == Charge(VISIT, WholeObject(w, node, 1, false, false))
  {
    hide Ascii, WholeObject, DataProps;
  }

  lemma MiddleProps(w: World, node: Node, props: seq<Member>)
    requires props == [Member(ROWS, JArray([JNull]))] && node == Node(KPlain, DataProps(props))
    requires !IsErrorMetadata(ROWS) && ROWS !in PRIORITY_KEYS
    ensures WholeProps(w, node, PRIORITY_KEYS, 1, false, false) == FullList([], FREE)
    ensures WholeProps(w, node, [ROWS], 1, false, false) == FullList(props, Cost(2, 1, Some(1), 1, 0, false, ONE_ROW))
  {
    hide Ascii, Embed, DataProps, WholeProps, WholeProp, Lookup;
    assert PRIORITY_KEYS[16] == METADATA;
    forall k ensures Lookup(node.props, k).Some? <==> k == ROWS { EmbeddedLookup(props, k); }
    AbsentKeys(w, node, PRIORITY_KEYS, 1, false, false);
    RowsProp(w, node, props);
    OneKey(w, node, ROWS, 1, false, false);
  }

  lemma OneKey(w: World, node: Node, key: Str, depth: nat, diag: bool, rbm: bool)
    requires depth <= MAX_RESULT_DEPTH
    ensures WholeProp(w, node, key, depth, diag, rbm).FullList? ==>
              WholeProps(w, node, [key], depth, diag, rbm) == WholeProp(w, node, key, depth, diag, rbm)
  {
    hide WholeProp, Then;
    assert [key][1..] == [];
    assert WholeProps(w, node, [], depth, diag, rbm) == FullList([], FREE);
    var x := WholeProp(w, node, key, depth, diag, rbm);
    if x.FullList? {
      ThenFree(x.cost);
      assert x.list + [] == x.list;
    }
  }

  lemma RowsOwnKey()
    requires ROWS !in PRIORITY_KEYS
    ensures ROWS != EID_DATA && ROWS != EID_DATA_TRUNCATION && ROWS != FIELD_EXCEPTIONS
    ensures ROWS != TRUNCATED && ROWS != TRUNCATED_INPUT
  {
    assert PRIORITY_KEYS[12] == EID_DATA && PRIORITY_KEYS[13] == EID_DATA_TRUNCATION
           && PRIORITY_KEYS[10] == TRUNCATED && PRIORITY_KEYS[11] == TRUNCATED_INPUT
               && PRIORITY_KEYS[7] == FIELD_EXCEPTIONS;
    hide Ascii;
  }

  lemma RowsProp(w: World, node: Node, props: seq<Member>)
    requires props == [Member(ROWS, JArray([JNull]))] && node == Node(KPlain, DataProps(props))
    requires !IsErrorMetadata(ROWS) && ROWS !in PRIORITY_KEYS
    ensures WholeProp(w, node, ROWS, 1, false, false) == FullList(props, Cost(2, 1, Some(1), 1, 0, false, ONE_ROW))
  {
    hide Ascii, Embed, DataProps, WholeOwn, Lookup, IsErrorMetadata, PRIORITY_KEYS;
    RowsOwnKey();
    EmbeddedLookup(props, ROWS);
    EmbedDefined(JArray([JNull]));
    assert StoredExceptions(w, node, ROWS).Absent?;
    RowsOwn(w);
  }

  lemma RowsOwn(w: World)
    requires !IsErrorMetadata(ROWS) && ROWS !in PRIORITY_KEYS
    ensures WholeOwn(w, ROWS, Embed(JArray([JNull])), 1, false, false)
         == FullList([Member(ROWS, JArray([JNull]))], Cost(2, 1, Some(1), 1, 0, false, ONE_ROW))
  {
    RowsOwnKey();
    hide Ascii, Embed, WholeValue, IsErrorKey, Then, PRIORITY_KEYS;
    var v := Embed(JArray([JNull]));
    assert ErrorVisits(w, ROWS, v) == Some(0) && !ReportsTruncation(ROWS, v) && SharedKey(w, ROWS, v);
    assert !Reports(w, ROWS, v);
    hide ErrorVisits, ReportsTruncation, SharedKey, IsErrorMetadata, Reports;
    InnerRows(w, 2);
    assert Appending(w, ROWS, v, JArray([JNull])) == FREE;
    OwnCosts();
  }

  lemma OwnCosts()
    ensures var c := Cost(2, 1, Some(1), 1, 0, false, ONE_ROW); Then(FREE.(visits := 0), Then(c, FREE)) == c
  {
  }

  lemma SecondRow(c: Cost)
    requires c == Cost(3, 1, Some(1), 1, 0, false, ONE_ROW)
    ensures RowCost(1, false, true, c) == Cost(3, 2, Some(1), 1, 0, false, ONE_ROW)
  {
  }

  lemma NestedSize()
    ensures Size(NESTED) == 17
  {
    hide Ascii, StringSize;
    RowsSize();
    AppendItem([], JNull);
    assert [] + [JNull] == [JNull];
    AppendProp([], ROWS, JArray([JNull]));
    assert [] + [Member(ROWS, JArray([JNull]))] == [Member(ROWS, JArray([JNull]))];
    AppendItem([], MIDDLE);
    assert [] + [MIDDLE] == [MIDDLE];
  }

  lemma RowsSize()
    ensures StringSize(ROWS) == 6
  {
    assert PlainText("rows");
    AsciiVerbatim("rows");
    VerbatimSize(ROWS);
  }

  lemma NestedWhole(w: World)
    ensures WholeValue(w, Embed(NESTED), 0, false, false, true)
         == Full(NESTED, Cost(4, 2, Some(1), 1, 0, false, ONE_ROW))
  {
    hide Ascii, WholeItems, WholeValue, Embed, DataElems, Then, RowCost, MIDDLE;
    WholeArray(w, [MIDDLE], 0, true);
    OneItem(w, MIDDLE, 0);
    MiddleObject(w);
    assert |DataElems([MIDDLE])| == 1;
    var c := Cost(3, 1, Some(1), 1, 0, false, ONE_ROW);
    ThenFree(c);
    SecondRow(c);
    ThenFree(Cost(3, 2, Some(1), 1, 0, false, ONE_ROW));
  }

  /** With a row limit of one, a row inside a row makes two retained rows. */
  lemma NestedRowsOverspend(w: World)
    ensures ProjectResult(w, Embed(NESTED), Limits(100, 100, 1, 100), false).retainedRows == 2
  {
    hide Ascii, Embed, WholeValue, ProjectResult, Size, TightTail, NESTED;
    NestedWhole(w);
    NestedSize();
    LosslessExactly(w, Embed(NESTED), Limits(100, 100, 1, 100), false);
  }
}
