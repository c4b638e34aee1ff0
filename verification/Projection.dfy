/**
 The bounded result projector as a function of the traversal state
 (`result-limits.ts`, with the sub-projectors of `result-diagnostics.ts` and
 `result-entitlements.ts`). `Projector` refines these definitions imperatively.
 */
module Projection {
  import opened JsText
  import opened Json
  import opened JsHeap
  import opened ResultTypes
  import opened FieldExceptions
  import opened Entitlements

  const ERROR := Ascii("error")
  const NAME := Ascii("name")
  const CAUSE := Ascii("cause")
  const ROWS := Ascii("rows")
  const DATA := Ascii("data")
  const DIAGNOSTICS := Ascii("diagnostics")
  const METADATA := Ascii("metadata")
  const TRUNCATED := Ascii("truncated")
  const TRUNCATED_INPUT := Ascii("truncatedInput")
  const FIELD_EXCEPTIONS := Ascii("fieldExceptions")
  const FIELD_EXCEPTIONS_KEY := Ascii("xbbg.field_exceptions")
  const ACCESSOR_OMITTED := Ascii("[Accessor omitted]")
  const CIRCULAR := Ascii("[Circular]")

  const PRIORITY_KEYS: seq<Str> := [
    ERROR, Ascii("errors"), Ascii("responseError"), Ascii("responseErrors"), Ascii("securityError"),
    Ascii("securityErrors"), Ascii("fieldException"), FIELD_EXCEPTIONS, Ascii("fieldErrors"),
    Ascii("unsubscribeError"), TRUNCATED, TRUNCATED_INPUT, EID_DATA, EID_DATA_TRUNCATION, Ascii("delayed"),
    DIAGNOSTICS, METADATA]

  const ERROR_SHAPE_KEYS: seq<Str> := [
    ERROR, Ascii("errors"), Ascii("responseerror"), Ascii("responseerrors"), Ascii("securityerror"),
    Ascii("securityerrors"), Ascii("fieldexception"), Ascii("fieldexceptions"), Ascii("fielderrors"),
    Ascii("unsubscribeerror")]

  const OPTIONAL_METADATA_KEYS: seq<Str> := [
    Ascii("bloombergRequestId"), Ascii("bloombergRequestIds"), Ascii("delayed"), EID_DATA, EID_DATA_TRUNCATION,
    Ascii("fieldErrors"), FIELD_EXCEPTIONS, Ascii("securityErrors")]

  /** `toLowerCase`; no character outside ASCII lowers to a letter of an error key. */
  function Lower(s: Str): Str {
    seq(|s|, i requires 0 <= i < |s| => if 0x41 <= s[i] <= 0x5A then s[i] + 0x20 else s[i])
  }

  predicate IsErrorKey(key: Str) { Lower(key) in ERROR_SHAPE_KEYS }

  predicate IsErrorMetadata(key: Str) { key == DIAGNOSTICS || IsErrorKey(key) }

  function Filter(keys: seq<Str>, keep: Str -> bool): (r: seq<Str>)
    ensures |r| <= |keys|
  {
    if keys == [] then []
    else if keep(keys[0]) then [keys[0]] + Filter(keys[1..], keep)
    else Filter(keys[1..], keep)
  }

  predicate IsOrdinary(key: Str) { key !in PRIORITY_KEYS }

  predicate IsPlainMetadata(key: Str) { !IsErrorMetadata(key) }

  /** The own keys that come after the priority keys. */
  function OtherKeys(node: Node): seq<Str> {
    Filter(Keys(node.props), IsOrdinary)
  }

  function MetadataBeforeRows(rowsBeforeMetadata: bool): seq<Str> {
    if rowsBeforeMetadata then Filter(PRIORITY_KEYS, IsErrorMetadata) else PRIORITY_KEYS
  }

  function MetadataAfterRows(rowsBeforeMetadata: bool): seq<Str> {
    if rowsBeforeMetadata then Filter(PRIORITY_KEYS, IsPlainMetadata) else []
  }

  predicate HasArrayMetadata(node: Node) {
    exists k :: k in PRIORITY_KEYS && Lookup(node.props, k).Some?
  }

  // ----- leaves -----

  function Fitted(text: Str, budget: int, s: State): (o: Out)
    ensures Onward(s, o.st)
  {
    var f := FitString(text, budget, s.limits.maxStringChars);
    var reasons := s.reasons + (if f.overChars then {MaxStringChars} else {})
                             + (if f.overBytes then {MaxResultBytes} else {});
    if f.text.Omitted? then Out(s.(reasons := reasons), Omit)
    else Out(s.(reasons := reasons, retainedNodes := s.retainedNodes + 1),
             Built(StringSize(f.text.s), JString(f.text.s)))
  }

  function Primitive(j: Json, budget: int, s: State): (o: Out)
    ensures Onward(s, o.st)
  {
    if Size(j) > budget then Out(AddReason(s, MaxResultBytes), Omit)
    else Out(s.(retainedNodes := s.retainedNodes + 1), Built(Size(j), j))
  }

  function Unsupported(text: Str, budget: int, s: State, reason: Reason): (o: Out)
    ensures Onward(s, o.st)
  {
    Fitted(text, budget, AddReason(s, reason))
  }

  function HasReportedError(w: World, v: Value): bool {
    if v == VUndefined || v == VNull || v == VBool(false) || v == VString([]) then false
    else if IsPlain(w, v) then NodeOf(w, v).value.props != []
    else if IsArray(w, v) then NodeOf(w, v).value.kind.elems != []
    else true
  }

  /** The scan of `hasFieldExceptionOccurrences` over the remaining securities. */
  function ScanOccurrences(w: World, node: Node, keys: seq<Str>, s: State): (r: (State, bool))
    requires Left(s) >= 0
    ensures Onward(s, r.0)
  {
    if keys == [] then (s, false)
    else if s.visitedNodes >= s.limits.maxResultNodes then (AddReason(s, MaxResultNodes), true)
    else
      var s := s.(visitedNodes := s.visitedNodes + 1);
      var slot := Lookup(node.props, keys[0]);
      if slot.None? then ScanOccurrences(w, node, keys[1..], s)
      else if slot.value.Accessor? then (AddReason(s, AccessorOmitted), true)
      else if !IsArray(w, slot.value.value) || NodeOf(w, slot.value.value).value.kind.elems != [] then (s, true)
      else ScanOccurrences(w, node, keys[1..], s)
  }

  /** Whether a property reports an error, with the visits spent on finding out. */
  function ReportsError(w: World, key: Str, v: Value, s: State): (r: (State, bool))
    requires Left(s) >= 0
    ensures Onward(s, r.0)
  {
    if !IsErrorKey(key) then (s, false)
    else if key != FIELD_EXCEPTIONS || !IsPlain(w, v) then (s, HasReportedError(w, v))
    else ScanOccurrences(w, NodeOf(w, v).value, Keys(NodeOf(w, v).value.props), s)
  }

  datatype Inspected = Inspected(st: State, value: Value, errorKey: bool)

  /** The value a property contributes: its own, or a placeholder for a getter. */
  function Inspect(w: World, key: Str, slot: Slot, s: State): (i: Inspected)
    requires Left(s) >= 0
    ensures Onward(s, i.st)
  {
    hide ReportsError;
    var s1 := if slot.Accessor? then AddReason(s, AccessorOmitted) else s;
    var v := if slot.Accessor? then VString(ACCESSOR_OMITTED) else slot.value;
    var (s2, errorKey) := ReportsError(w, key, v, s1);
    Inspected(if errorKey then s2.(hasErrors := true) else s2, v, errorKey)
  }

  function Append(acc: Acc, key: Str, built: Built, budget: int, s: State): (o: PropOut)
    requires built.Built?
    ensures Onward(s, o.st)
  {
    if exists i :: 0 <= i < |acc.props| && acc.props[i].key == key then PropOut(s, acc, true)
    else
      var comma := CommaSize(acc.props);
      var availableForKey := budget - acc.byteLength - comma - 1 - built.byteLength;
      if availableForKey < 2 || StringSize(key) > availableForKey then
        PropOut(AddReason(s, MaxResultBytes), acc, false)
      else
        PropOut(s, Acc(acc.byteLength + comma + StringSize(key) + 1 + built.byteLength,
                       acc.props + [Member(key, built.value)]), true)
  }

  // ----- stored field exceptions -----

  datatype RawMetadata = Absent | Raw(text: Str) | Malformed

  function RawFieldExceptions(w: World, source: Node): RawMetadata {
    var metadata := Lookup(source.props, METADATA);
    if metadata.None? || !metadata.value.Data? || !IsPlain(w, metadata.value.value) then Absent
    else
      var raw := Lookup(NodeOf(w, metadata.value.value).value.props, FIELD_EXCEPTIONS_KEY);
      if raw.None? then Absent
      else if !raw.value.Data? || !raw.value.value.VString? then Malformed
      else Raw(raw.value.value.s)
  }

  /** The stored text is consulted only for `fieldExceptions` without a usable value of its own. */
  function StoredExceptions(w: World, source: Node, key: Str): RawMetadata {
    var slot := Lookup(source.props, key);
    if key == FIELD_EXCEPTIONS && (slot.None? || slot.value.Accessor? || slot.value.value.VUndefined?)
    then RawFieldExceptions(w, source)
    else Absent
  }

  function OmitInvalid(s: State): State {
    AddReason(s, UnsupportedValue).(hasErrors := true, omittedProperties := s.omittedProperties + 1)
  }

  function GiveUp(s: State, reasons: set<Reason>): State {
    s.(reasons := s.reasons + reasons, hasErrors := true, omittedProperties := s.omittedProperties + 1)
  }

  datatype RawOut = RawInvalid(st: State) | RawOmit(st: State) | RawBuilt(st: State, byteLength: nat, value: Json)

  // ----- the mutually recursive builders -----

  function BuildValue(w: World, v: Value, budget: int, s: State, depth: nat, rowLimit: nat, shared: bool): (o: Out)
    requires Left(s) >= 0
    ensures Onward(s, o.st)
    decreases Left(s), 0
  {
    hide Fitted, Unsupported, Primitive;
    if s.visitedNodes >= s.limits.maxResultNodes then Out(AddReason(s, MaxResultNodes), Omit)
    else
      var s := s.(visitedNodes := s.visitedNodes + 1);
      if depth > MAX_RESULT_DEPTH then
        Unsupported(Ascii("[Max result depth exceeded]"), budget, s, MaxResultDepth)
      else
        match v
        case VString(text) => Fitted(text, budget, s)
        case VBigInt(text) => Fitted(text, budget, s)
        case VNull => Primitive(JNull, budget, s)
        case VBool(b) => Primitive(JBool(b), budget, s)
        case VNum(num) => Primitive(JNumber(num), budget, s)
        case VRef(r) => BuildNode(w, {r}, w.heap(r), budget, s, depth, rowLimit, shared)
        case VFresh(node) => BuildNode(w, {}, node, budget, s, depth, rowLimit, shared)
        case _ => Primitive(JNull, budget, AddReason(s, UnsupportedValue))
  }

  /** `id` holds the object's identity, and is empty for a freshly built object. */
  function BuildNode(w: World, id: set<Ref>, node: Node, budget: int, s: State, depth: nat, rowLimit: nat, shared: bool)
    : (o: Out)
    requires Left(s) >= 0
    ensures Onward(s, o.st)
    decreases Left(s), 9
  {
    hide Fitted, Unsupported;
    match node.kind
    case KDate(None) => Fitted(Ascii("[Invalid Date]"), budget, AddReason(s, UnsupportedValue))
    case KDate(Some(iso)) => Fitted(iso, budget, s)
    case KBinary(n) =>
      Unsupported(Ascii("[binary data: ") + Decimal(n) + Ascii(" bytes]"), budget, s, BinaryData)
    case KArray(elems) => BuildArray(w, id, elems, node, budget, s, depth, rowLimit, shared)
    case KPlain => BuildObject(w, id, node, budget, s, depth, rowLimit)
    case KError(message, name, cause) =>
      BuildError(w, id, ErrorRecord(message, name, cause), budget, s.(hasErrors := true), depth, rowLimit)
    case KExotic(toJson) => BuildExotic(w, id, toJson, budget, s, depth, rowLimit, shared)
  }

  function Enter(s: State, id: set<Ref>): State { s.(ancestors := s.ancestors + id) }

  function Leave(s: State, id: set<Ref>): State { s.(ancestors := s.ancestors - id) }

  function BuildError(w: World, id: set<Ref>, record: Node, budget: int, s: State, depth: nat, rowLimit: nat): (o: Out)
    requires Left(s) >= 0
    ensures Onward(s, o.st)
    decreases Left(s), 8
  {
    hide Fitted, Unsupported;
    if id * s.ancestors != {} then Unsupported(CIRCULAR, budget, s, CircularReference)
    else
      var o := BuildObject(w, {}, record, budget, Enter(s, id), depth, rowLimit);
      var t := if o.built.Built? then Remember(o.st, ERROR, o.built.value) else o.st;
      Out(Leave(t, id), o.built)
  }

  /** An object of another class is replaced by what its `toJSON` method returns, one level deeper. */
  function BuildExotic(w: World, id: set<Ref>, toJson: ToJson, budget: int, s: State, depth: nat, rowLimit: nat,
                       shared: bool)
    : (o: Out)
    requires Left(s) >= 0
    ensures Onward(s, o.st)
    decreases Left(s), 7
  {
    hide Fitted, Unsupported;
    if toJson.AccessorMethod? then Unsupported(ACCESSOR_OMITTED, budget, s, AccessorOmitted)
    else if toJson.NoMethod? then Unsupported(Ascii("[Unsupported object]"), budget, s, UnsupportedValue)
    else if id * s.ancestors != {} then Unsupported(CIRCULAR, budget, s, CircularReference)
    else
      var s1 := if toJson.Throws? then AddReason(s, UnsupportedValue).(hasErrors := true) else s;
      var o := BuildValue(w, Converted(toJson), budget, Enter(s1, id), depth + 1, rowLimit, shared);
      Out(Leave(o.st, id), o.built)
  }

  /** `errorRecord` */
  function ErrorRecord(message: Value, name: Value, cause: Option<Value>): Node {
    Node(KPlain, [Property(MESSAGE, Data(message)), Property(NAME, Data(name))]
                 + if cause.Some? then [Property(CAUSE, Data(cause.value))] else [])
  }

  /** What `toJSON` returned, or the error object that replaces a failed call. */
  function Converted(t: ToJson): Value
    requires t.Returns? || t.Throws?
  {
    if t.Returns? then t.value
    else
      FreshObject([Property(ERROR, Data(FreshObject([Property(MESSAGE, Data(VString(t.message))),
                                                     Property(NAME, Data(VString(Ascii("toJSON"))))])))])
  }

  function BuildObject(w: World, id: set<Ref>, node: Node, budget: int, s: State, depth: nat, rowLimit: nat): (o: Out)
    requires Left(s) >= 0
    ensures Onward(s, o.st)
    decreases Left(s), 7
  {
    hide Fitted, Unsupported, OtherKeys;
    if id * s.ancestors != {} then Unsupported(CIRCULAR, budget, s, CircularReference)
    else if budget < 2 then Out(AddReason(s, MaxResultBytes), Omit)
    else
      var s := Enter(s, id).(retainedNodes := s.retainedNodes + 1);
      var p := BuildKeys(w, node, PRIORITY_KEYS, false, EMPTY_ACC, budget, s, depth, rowLimit);
      var q := BuildKeys(w, node, OtherKeys(node), true, p.acc, budget, p.st, depth, rowLimit);
      Out(Leave(q.st, id), Built(q.acc.byteLength, JObject(q.acc.props)))
  }

  /** The property loops: a failed property is counted, and ends the loop over ordinary keys. */
  function BuildKeys(w: World, node: Node, keys: seq<Str>, stop: bool, acc: Acc, budget: int, s: State, depth: nat,
                     rowLimit: nat)
    : (o: PropOut)
    requires Left(s) >= 0
    ensures Onward(s, o.st)
    decreases Left(s), 6, |keys|
  {
    if keys == [] then PropOut(s, acc, true)
    else
      var p := BuildProperty(w, node, keys[0], acc, budget, s, depth, rowLimit);
      if p.ok then BuildKeys(w, node, keys[1..], stop, p.acc, budget, p.st, depth, rowLimit)
      else
        var t := p.st.(omittedProperties := p.st.omittedProperties + 1);
        if stop then PropOut(t, p.acc, false)
        else BuildKeys(w, node, keys[1..], stop, p.acc, budget, t, depth, rowLimit)
  }

  function BuildProperty(w: World, source: Node, key: Str, acc: Acc, budget: int, s: State, depth: nat, rowLimit: nat)
    : (o: PropOut)
    requires Left(s) >= 0
    ensures Onward(s, o.st)
    decreases Left(s), 5
  {
    hide StoredExceptions, StringSize;
    var slot := Lookup(source.props, key);
    var raw := StoredExceptions(w, source, key);
    if raw.Malformed? then PropOut(OmitInvalid(s), acc, true)
    else if raw.Absent?
            && (slot.None? || (slot.value.Data? && slot.value.value.VUndefined? && key in OPTIONAL_METADATA_KEYS))
    then PropOut(s, acc, true)
    else if !s.inDiagnostics && key == EID_DATA_TRUNCATION && Lookup(source.props, EID_DATA).Some?
    then PropOut(s, acc, true)
    else
      var available := budget - acc.byteLength - CommaSize(acc.props) - 1;
      if available < 4 || StringSize(key) > available - 2 then
        PropOut(AddReason(s, MaxResultBytes).(hasErrors := s.hasErrors || raw.Raw?), acc, false)
      else if raw.Raw? then
        BuildStored(w, raw.text, key, acc, budget, available - StringSize(key), s, depth)
      else
        BuildOwn(w, source, key, slot.value, acc, budget, available - StringSize(key), s, depth, rowLimit)
  }

  /** A property with a value or getter of its own. */
  function BuildOwn(w: World, source: Node, key: Str, slot: Slot, acc: Acc, budget: int, childBudget: int, s: State,
                    depth: nat, rowLimit: nat): (o: PropOut)
    requires Left(s) >= 0 && childBudget >= 2
    ensures Onward(s, o.st)
    decreases Left(s), 4
  {
    hide AddOwn, Inspect;
    var i := Inspect(w, key, slot, s);
    if !s.inDiagnostics && key == EID_DATA then
      BuildEntitlement(w, source, i.value, acc, budget, childBudget, i.st, depth)
    else
      var o := BuildChild(w, key, i.value, childBudget, i.st, depth, rowLimit);
      if o.built.Omit? then PropOut(o.st, acc, false) else AddOwn(acc, key, i.value, i.errorKey, o.built, budget, o.st)
  }

  /** Rows under these keys draw on the shared row allowance. */
  predicate SharedKey(w: World, key: Str, v: Value) {
    key == ROWS || (key == DATA && IsArray(w, v))
  }

  /** A child is built in diagnostics mode below an error key. */
  function BuildChild(w: World, key: Str, v: Value, childBudget: int, s: State, depth: nat, rowLimit: nat): (o: Out)
    requires Left(s) >= 0
    ensures Onward(s, o.st)
    decreases Left(s), 1
  {
    hide SharedKey, IsErrorMetadata;
    var inDiagnostics := s.inDiagnostics || IsErrorMetadata(key);
    var o := BuildValue(w, v, childBudget, s.(inDiagnostics := inDiagnostics), depth + 1, rowLimit,
                        SharedKey(w, key, v));
    Out(o.st.(inDiagnostics := s.inDiagnostics), o.built)
  }

  /** Appends a built property, then records error diagnostics and upstream truncation. */
  function AddOwn(acc: Acc, key: Str, v: Value, errorKey: bool, built: Built, budget: int, s: State): (o: PropOut)
    requires built.Built?
    ensures Onward(s, o.st)
  {
    hide Append;
    var p := Append(acc, key, built, budget, s);
    if !p.ok then p
    else
      var s1 := if errorKey then Remember(p.st, key, built.value) else p.st;
      var s2 := if (key == TRUNCATED || key == TRUNCATED_INPUT) && v == VBool(true)
                then AddReason(s1, UpstreamTruncation) else s1;
      PropOut(s2, p.acc, true)
  }

  function BuildStored(w: World, raw: Str, key: Str, acc: Acc, budget: int, childBudget: int, s: State, depth: nat)
    : (o: PropOut)
    requires Left(s) >= 0
    ensures Onward(s, o.st)
    decreases Left(s), 4
  {
    hide Append;
    var r := BuildRaw(w, raw, childBudget, s.(inDiagnostics := true), depth + 1);
    var t := r.st.(inDiagnostics := s.inDiagnostics);
    match r
    case RawInvalid(_) => PropOut(OmitInvalid(t), acc, true)
    case RawOmit(_) => PropOut(t, acc, true)
    case RawBuilt(_, n, value) =>
      var p := Append(acc, key, Built(n, value), budget, t);
      if p.ok && p.st.hasErrors then PropOut(Remember(p.st, key, value), p.acc, true) else p
  }

  /** `buildRawFieldExceptions` */
  function BuildRaw(w: World, raw: Str, budget: int, s: State, depth: nat): (r: RawOut)
    requires Left(s) >= 0
    ensures Onward(s, r.st)
    decreases Left(s), 3
  {
    hide StringSize, ReadDocument, HasOccurrences;
    if s.visitedNodes >= s.limits.maxResultNodes then RawOmit(GiveUp(s, {MaxResultNodes}))
    else
      var s := s.(visitedNodes := s.visitedNodes + 1);
      if depth > MAX_RESULT_DEPTH then RawOmit(GiveUp(s, {MaxResultDepth}))
      else if budget < 2 then RawOmit(GiveUp(s, {MaxResultBytes}))
      else
        var bytesFit := StringSize(raw) <= s.limits.maxResultBytes;
        var nodesFit := |raw| <= s.limits.maxResultNodes - s.visitedNodes;
        if !bytesFit || !nodesFit then
          RawOmit(GiveUp(s, (if bytesFit then {} else {MaxResultBytes}) + (if nodesFit then {} else {MaxResultNodes})))
        else
          var s := s.(visitedNodes := s.visitedNodes + |raw|);
          var parsed := w.parse(raw);
          var doc := if parsed.Some? then ReadDocument(parsed.value) else None;
          if doc.None? then RawInvalid(s)
          else
            var s := s.(hasErrors := s.hasErrors || HasOccurrences(doc.value.securities),
                        retainedNodes := s.retainedNodes + 1);
            var o := BuildSecurities(w, doc.value.securities, doc.value.entries, EMPTY_ACC, budget, s, depth);
            RawBuilt(o.st, o.acc.byteLength, JObject(o.acc.props))
  }

  function BuildSecurities(w: World, securities: seq<Member>, entries: Option<seq<Json>>, acc: Acc, budget: int,
                           s: State, depth: nat): (o: PropOut)
    requires Left(s) >= 0
    requires forall i :: 0 <= i < |securities| ==> ValidList(securities[i].value, entries)
    ensures Onward(s, o.st)
    decreases Left(s), 2, |securities|
  {
    hide StringSize, Append;
    if securities == [] then PropOut(s, acc, true)
    else
      var key, comma := securities[0].key, CommaSize(acc.props);
      var maximumKeyBytes := budget - acc.byteLength - comma - 3;
      if maximumKeyBytes < 2 || StringSize(key) > maximumKeyBytes then
        PropOut(AddReason(s, MaxResultBytes).(omittedProperties := s.omittedProperties + 1), acc, false)
      else
        assert ValidList(securities[0].value, entries);
        var childBudget := budget - acc.byteLength - comma - StringSize(key) - 1;
        var o := BuildExceptionArray(w, securities[0].value.items, entries, childBudget, s, depth + 1);
        var p := if o.built.Omit? then PropOut(o.st, acc, false) else Append(acc, key, o.built, budget, o.st);
        if !p.ok then PropOut(p.st.(omittedProperties := p.st.omittedProperties + 1), p.acc, false)
        else BuildSecurities(w, securities[1..], entries, p.acc, budget, p.st, depth)
  }

  function BuildExceptionArray(w: World, occurrences: seq<Json>, entries: Option<seq<Json>>, budget: int, s: State,
                               depth: nat)
    : (o: Out)
    requires Left(s) >= 0
    requires forall i :: 0 <= i < |occurrences| ==> ExceptionAt(occurrences[i], entries).Some?
    ensures Onward(s, o.st)
    decreases Left(s), 1
  {
    if s.visitedNodes >= s.limits.maxResultNodes then Out(AddReason(s, MaxResultNodes), Omit)
    else
      var s := s.(visitedNodes := s.visitedNodes + 1);
      if depth > MAX_RESULT_DEPTH then Out(AddReason(s, MaxResultDepth), Omit)
      else if budget < 2 then Out(AddReason(s, MaxResultBytes), Omit)
      else BuildExceptions(w, occurrences, entries, budget, s.(retainedNodes := s.retainedNodes + 1), depth, [], 2)
  }

  function BuildExceptions(w: World, occurrences: seq<Json>, entries: Option<seq<Json>>, budget: int, s: State,
                           depth: nat, items: seq<Json>, byteLength: nat): (o: Out)
    requires Left(s) >= 0
    requires forall i :: 0 <= i < |occurrences| ==> ExceptionAt(occurrences[i], entries).Some?
    ensures Onward(s, o.st)
    decreases Left(s), 1, |occurrences|
  {
    hide Embed, ExceptionAt;
    if occurrences == [] then Out(s, Built(byteLength, JArray(items)))
    else if s.visitedNodes >= s.limits.maxResultNodes then
      Out(AddReason(s, MaxResultNodes), Built(byteLength, JArray(items)))
    else if depth + 2 > MAX_RESULT_DEPTH then
      Out(AddReason(s, MaxResultDepth), Built(byteLength, JArray(items)))
    else
      var childBudget := budget - byteLength - CommaSize(items);
      if childBudget < 2 then Out(AddReason(s, MaxResultBytes), Built(byteLength, JArray(items)))
      else
        var entry := ExceptionAt(occurrences[0], entries).value;
        var o := BuildValue(w, Embed(entry), childBudget, s, depth + 1, MAX_SAFE_INTEGER, false);
        if o.built.Omit? || !o.built.value.JObject? || o.st.omittedProperties > s.omittedProperties then
          Out(o.st.(retainedNodes := s.retainedNodes), Built(byteLength, JArray(items)))
        else
          BuildExceptions(w, occurrences[1..], entries, budget, o.st, depth, items + [o.built.value],
                          byteLength + CommaSize(items) + o.built.byteLength)
  }

  /** `buildEntitlementProperty` */
  function BuildEntitlement(w: World, source: Node, v: Value, acc: Acc, budget: int, childBudget: int, s: State,
                            depth: nat)
    : (o: PropOut)
    requires Left(s) >= 0
    ensures Onward(s, o.st)
    decreases Left(s), 3
  {
    hide Append, PrepareEidData, EmittedSummary, EidRecord, SummaryJson, Embed, StringSize;
    var prepared := PrepareEidData(w, v, s);
    var o := BuildValue(w, Embed(EidRecord(prepared.data)), Max(2, childBudget / 3), prepared.st, depth + 1,
                        MAX_ENTITLEMENT_EIDS, false);
    var p := if o.built.Omit? then PropOut(o.st, acc, false) else Append(acc, EID_DATA, o.built, budget, o.st);
    if !p.ok then p
    else
      var summary := EmittedSummary(w, source, o.built.value, prepared);
      if summary.None? then p
      else
        var summaryBudget :=
          budget - p.acc.byteLength - CommaSize(p.acc.props) - StringSize(EID_DATA_TRUNCATION) - 1;
        var u := BuildValue(w, Embed(SummaryJson(summary.value)), summaryBudget, p.st, depth + 1, MAX_EID_SECURITIES,
                            false);
        var q := if u.built.Omit? then PropOut(u.st, p.acc, false)
                 else Append(p.acc, EID_DATA_TRUNCATION, u.built, budget, u.st);
        PropOut(if q.ok then q.st else q.st.(omittedProperties := q.st.omittedProperties + 1), q.acc, true)
  }

  function BuildArray(w: World, id: set<Ref>, elems: seq<Element>, node: Node, budget: int, s: State, depth: nat,
                      rowLimit: nat, shared: bool): (o: Out)
    requires Left(s) >= 0
    ensures Onward(s, o.st)
    decreases Left(s), 7
  {
    hide Fitted, Unsupported, HasArrayMetadata;
    if id * s.ancestors != {} then Unsupported(CIRCULAR, budget, s, CircularReference)
    else
      var s := Enter(s, id);
      var o := if HasArrayMetadata(node) then BuildTable(w, elems, node, budget, s, depth, rowLimit, shared)
               else BuildArrayRows(w, elems, budget, s, depth, rowLimit, shared);
      Out(Leave(o.st, id), o.built)
  }

  /** An array with metadata becomes an object that holds its rows under `rows`. */
  function BuildTable(w: World, elems: seq<Element>, node: Node, budget: int, s: State, depth: nat, rowLimit: nat,
                      shared: bool)
    : (o: Out)
    requires Left(s) >= 0
    ensures Onward(s, o.st)
    decreases Left(s), 6, |PRIORITY_KEYS| + 1
  {
    if budget < 2 then Out(AddReason(s, MaxResultBytes), Omit)
    else
      var s := s.(retainedNodes := s.retainedNodes + 1);
      var p := BuildKeys(w, node, MetadataBeforeRows(s.rowsBeforeMetadata), false, EMPTY_ACC, budget, s, depth,
                         rowLimit);
      var q := BuildRowsProperty(w, elems, p.acc, budget, p.st, depth, rowLimit, shared);
      var t := BuildKeys(w, node, MetadataAfterRows(s.rowsBeforeMetadata), false, q.acc, budget, q.st, depth, rowLimit);
      Out(t.st, Built(t.acc.byteLength, JObject(t.acc.props)))
  }

  function BuildRowsProperty(w: World, elems: seq<Element>, acc: Acc, budget: int, s: State, depth: nat, rowLimit: nat,
                             shared: bool)
    : (o: PropOut)
    requires Left(s) >= 0
    ensures Onward(s, o.st)
    decreases Left(s), 5
  {
    hide Append, StringSize;
    var rowsBudget := budget - acc.byteLength - CommaSize(acc.props) - StringSize(ROWS) - 1;
    var o := if s.visitedNodes >= s.limits.maxResultNodes then Out(AddReason(s, MaxResultNodes), Omit)
             else BuildArrayRows(w, elems, rowsBudget, s.(visitedNodes := s.visitedNodes + 1), depth + 1, rowLimit,
                                 shared);
    if o.built.Omit? then
      PropOut(o.st.(omittedRows := o.st.omittedRows + |elems|, omittedProperties := o.st.omittedProperties + 1), acc,
              false)
    else
      var p := Append(acc, ROWS, o.built, budget, o.st);
      if p.ok then p
      else
        PropOut(p.st.(omittedRows := p.st.omittedRows + Min(|elems|, rowLimit),
                      omittedProperties := p.st.omittedProperties + 1), p.acc, false)
  }

  predicate SharedRows(s: State, shared: bool) { shared && !s.inDiagnostics }

  /** How many leading elements the row limits allow; negative once nested rows overspent. */
  function RetainedLength(n: nat, s: State, rowLimit: nat, shared: bool): int {
    var m := if s.inDiagnostics then n else Min(n, rowLimit);
    if SharedRows(s, shared) then Min(m, s.remainingRows) else m
  }

  function BuildArrayRows(w: World, elems: seq<Element>, budget: int, s: State, depth: nat, rowLimit: nat,
                          shared: bool): (o: Out)
    requires Left(s) >= 0
    ensures Onward(s, o.st)
    decreases Left(s), 4
  {
    if budget < 2 then Out(AddReason(s, MaxResultBytes), Omit)
    else
      var n := RetainedLength(|elems|, s, rowLimit, shared);
      var o := BuildRows(w, elems[..Max(0, n)], budget, s.(retainedNodes := s.retainedNodes + 1), depth, rowLimit, [],
                         2);
      Out(CloseRows(o.st, |elems|, n, |o.items|, SharedRows(s, shared)), Built(o.byteLength, JArray(o.items)))
  }

  datatype RowsOut = RowsOut(st: State, items: seq<Json>, byteLength: nat)

  function CloseRows(s: State, length: nat, retainedLength: int, processed: nat, sharedRows: bool): (t: State)
    ensures Onward(s, t)
  {
    var s1 := if sharedRows
              then s.(maximumArrayRows := Max(s.maximumArrayRows, processed),
                      remainingRows := s.remainingRows - processed,
                      retainedRows := s.retainedRows + processed)
              else s;
    var s2 := if retainedLength < length then AddReason(s1, MaxRows) else s1;
    if processed < length && !s.inDiagnostics then s2.(omittedRows := s2.omittedRows + length - processed) else s2
  }

  function EntryOf(e: Element): Value {
    if e.Hole? then VNull else if e.slot.Accessor? then VString(ACCESSOR_OMITTED) else e.slot.value
  }

  function NoteElement(s: State, e: Element): State {
    if e.Elem? && e.slot.Accessor? then AddReason(s, AccessorOmitted) else s
  }

  /** In diagnostics an object entry is kept whole or not at all. */
  predicate Atomic(w: World, s: State, e: Element) {
    s.inDiagnostics && IsPlain(w, EntryOf(e))
  }

  predicate Unusable(atomic: bool, s: State, o: Out) {
    o.built.Omit? || (atomic && (!o.built.value.JObject? || o.st.omittedProperties > s.omittedProperties))
  }

  /** The row loop. */
  function BuildRows(w: World, elems: seq<Element>, budget: int, s: State, depth: nat, rowLimit: nat, items: seq<Json>,
                     byteLength: nat): (o: RowsOut)
    requires Left(s) >= 0
    ensures Onward(s, o.st)
    decreases Left(s), 3, |elems|
  {
    hide Atomic, EntryOf;
    if elems == [] then RowsOut(s, items, byteLength)
    else
      var s1 := NoteElement(s, elems[0]);
      var atomic := Atomic(w, s, elems[0]);
      if atomic && depth + 2 > MAX_RESULT_DEPTH then RowsOut(AddReason(s1, MaxResultDepth), items, byteLength)
      else
        var o := BuildValue(w, EntryOf(elems[0]), budget - byteLength - CommaSize(items), s1, depth + 1, rowLimit,
                            false);
        if Unusable(atomic, s1, o) then RowsOut(o.st.(retainedNodes := s1.retainedNodes), items, byteLength)
        else
          BuildRows(w, elems[1..], budget, o.st, depth, rowLimit, items + [o.built.value],
                    byteLength + CommaSize(items) + o.built.byteLength)
  }
}
