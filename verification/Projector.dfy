/**
 The bounded result projector as it runs: builders that spend the budgets of a
 shared, mutable traversal state. Every method is proved to compute what
 `Projection` specifies, result and final state alike.
 */
module Projector {
  import opened JsText
  import opened Json
  import opened JsHeap
  import opened ResultTypes
  import opened FieldExceptions
  import opened Entitlements
  import opened Results
  import P = Projection

  class LimitState {
    const limits: Limits
    const rowsBeforeMetadata: bool
    var ancestors: set<Ref>
    var diagnostics: seq<Member>
    var reasons: set<Reason>
    var inDiagnostics: bool
    var maximumArrayRows: nat
    var hasErrors: bool
    var omittedPropertiesAtLeast: nat
    var remainingRows: int
    var omittedRows: nat
    var retainedNodes: nat
    var retainedRows: nat
    var visitedNodes: nat

    function View(): State
      reads this
    {
      State(limits, rowsBeforeMetadata, ancestors, diagnostics, reasons, inDiagnostics, maximumArrayRows, hasErrors,
            omittedPropertiesAtLeast, remainingRows, omittedRows, retainedNodes, retainedRows, visitedNodes)
    }

    constructor (limits: Limits, rowsBeforeMetadata: bool)
      ensures View() == InitialState(limits, rowsBeforeMetadata)
    {
      this.limits := limits;
      this.rowsBeforeMetadata := rowsBeforeMetadata;
      ancestors, diagnostics, reasons := {}, [], {};
      inDiagnostics, hasErrors := false, false;
      maximumArrayRows, omittedPropertiesAtLeast, omittedRows := 0, 0, 0;
      remainingRows := limits.maxRows;
      retainedNodes, retainedRows, visitedNodes := 0, 0, 0;
    }

    method AddReason(reason: Reason)
      modifies this
      ensures View() == ResultTypes.AddReason(old(View()), reason)
    {
      reasons := reasons + {reason};
    }

    method ConsumeVisit() returns (ok: bool)
      modifies this
      ensures ok == (old(visitedNodes) < limits.maxResultNodes)
      ensures View() == if ok then old(View()).(visitedNodes := old(visitedNodes) + 1)
                        else ResultTypes.AddReason(old(View()), MaxResultNodes)
    {
      if visitedNodes >= limits.maxResultNodes {
        AddReason(MaxResultNodes);
        return false;
      }
      visitedNodes := visitedNodes + 1;
      return true;
    }

    method RememberErrorDiagnostic(key: Str, value: Json)
      modifies this
      ensures View() == Remember(old(View()), key, value)
    {
      hasErrors := true;
      if |diagnostics| >= MAX_ERROR_DIAGNOSTICS {
        return;
      }
      diagnostics := diagnostics + [Member(key, value)];
    }
  }

  class ObjectAccumulator {
    var byteLength: nat
    var propertyCount: nat
    var value: seq<Member>

    predicate Valid()
      reads this
    {
      propertyCount == |value|
    }

    function View(): Acc
      reads this
    {
      Acc(byteLength, value)
    }

    constructor ()
      ensures Valid() && View() == EMPTY_ACC
    {
      byteLength, propertyCount, value := 2, 0, [];
    }

    method HasOwn(key: Str) returns (found: bool)
      ensures found <==> exists i :: 0 <= i < |value| && value[i].key == key
    {
      found := false;
      for i := 0 to |value|
        invariant found <==> exists j :: 0 <= j < i && value[j].key == key
      {
        if value[i].key == key {
          found := true;
        }
      }
    }
  }

  method FitString(value: Str, maximumJsonBytes: int, state: LimitState) returns (built: Built)
    modifies state
    ensures var o := P.Fitted(value, maximumJsonBytes, old(state.View())); state.View() == o.st && built == o.built
  {
    hide JsText.FitString;
    var f := FitStringScan(value, maximumJsonBytes, state.limits.maxStringChars);
    if f.overChars {
      state.AddReason(MaxStringChars);
    }
    if f.overBytes {
      state.AddReason(MaxResultBytes);
    }
    assert state.reasons == old(state.reasons) + (if f.overChars then {MaxStringChars} else {})
                                               + (if f.overBytes then {MaxResultBytes} else {});
    if f.text.Omitted? {
      return Omit;
    }
    state.retainedNodes := state.retainedNodes + 1;
    built := Built(StringSize(f.text.s), JString(f.text.s));
  }

  method PrimitiveBuilt(j: Json, maximumJsonBytes: int, state: LimitState) returns (built: Built)
    modifies state
    ensures var o := P.Primitive(j, maximumJsonBytes, old(state.View())); state.View() == o.st && built == o.built
  {
    if Size(j) > maximumJsonBytes {
      state.AddReason(MaxResultBytes);
      return Omit;
    }
    state.retainedNodes := state.retainedNodes + 1;
    built := Built(Size(j), j);
  }

  method BuildUnsupported(text: Str, maximumJsonBytes: int, state: LimitState, reason: Reason) returns (built: Built)
    modifies state
    ensures var o := P.Unsupported(text, maximumJsonBytes, old(state.View()), reason);
            state.View() == o.st && built == o.built
  {
    hide P.Fitted;
    state.AddReason(reason);
    built := FitString(text, maximumJsonBytes, state);
  }

  method AppendBuiltProperty(accumulator: ObjectAccumulator, key: Str, built: Built, maximumJsonBytes: int,
                             state: LimitState)
    returns (ok: bool)
    requires accumulator.Valid() && built.Built?
    modifies accumulator, state
    ensures accumulator.Valid()
    ensures var o := P.Append(old(accumulator.View()), key, built, maximumJsonBytes, old(state.View()));
            state.View() == o.st && accumulator.View() == o.acc && ok == o.ok
  {
    hide StringSize;
    var present := accumulator.HasOwn(key);
    if present {
      return true;
    }
    var commaBytes := if accumulator.propertyCount == 0 then 0 else 1;
    var availableForKey := maximumJsonBytes - accumulator.byteLength - commaBytes - 1 - built.byteLength;
    if availableForKey < 2 {
      state.AddReason(MaxResultBytes);
      return false;
    }
    var keyBytes := JsonStringByteLength(key, availableForKey);
    if keyBytes > availableForKey {
      state.AddReason(MaxResultBytes);
      return false;
    }
    accumulator.value := accumulator.value + [Member(key, built.value)];
    accumulator.byteLength := accumulator.byteLength + commaBytes + keyBytes + 1 + built.byteLength;
    accumulator.propertyCount := accumulator.propertyCount + 1;
    return true;
  }

  method HasFieldExceptionOccurrences(w: World, node: Node, state: LimitState) returns (found: bool)
    requires Left(state.View()) >= 0
    modifies state
    ensures var r := P.ScanOccurrences(w, node, Keys(node.props), old(state.View()));
            state.View() == r.0 && found == r.1
  {
    var keys := Keys(node.props);
    ghost var goal := P.ScanOccurrences(w, node, keys, state.View());
    assert keys[0..] == keys;
    for i := 0 to |keys|
      invariant Left(state.View()) >= 0
      invariant P.ScanOccurrences(w, node, keys[i..], state.View()) == goal
    {
      assert keys[i..][1..] == keys[i + 1..];
      var ok := state.ConsumeVisit();
      if !ok {
        return true;
      }
      var descriptor := Lookup(node.props, keys[i]);
      if descriptor.Some? {
        if descriptor.value.Accessor? {
          state.AddReason(AccessorOmitted);
          return true;
        }
        var occurrences := descriptor.value.value;
        if !IsArray(w, occurrences) || |NodeOf(w, occurrences).value.kind.elems| > 0 {
          return true;
        }
      }
    }
    return false;
  }

  method OmitInvalidFieldExceptions(state: LimitState)
    modifies state
    ensures state.View() == P.OmitInvalid(old(state.View()))
  {
    state.AddReason(UnsupportedValue);
    state.hasErrors := true;
    state.omittedPropertiesAtLeast := state.omittedPropertiesAtLeast + 1;
  }

  method BuildValue(w: World, v: Value, maximumJsonBytes: int, state: LimitState, depth: nat, rowLimit: nat,
                    useSharedRows: bool)
    returns (built: Built)
    requires Left(state.View()) >= 0
    modifies state
    ensures var o := P.BuildValue(w, v, maximumJsonBytes, old(state.View()), depth, rowLimit, useSharedRows);
            state.View() == o.st && built == o.built
    decreases Left(state.View()), 0
  {
    hide Ascii, P.BuildNode, P.Fitted, P.Unsupported, P.Primitive;
    var ok := state.ConsumeVisit();
    if !ok {
      return Omit;
    }
    if depth > MAX_RESULT_DEPTH {
      built := BuildUnsupported(Ascii("[Max result depth exceeded]"), maximumJsonBytes, state, MaxResultDepth);
      return;
    }
    match v
    case VString(text) => built := FitString(text, maximumJsonBytes, state);
    case VBigInt(text) => built := FitString(text, maximumJsonBytes, state);
    case VNull => built := PrimitiveBuilt(JNull, maximumJsonBytes, state);
    case VBool(b) => built := PrimitiveBuilt(JBool(b), maximumJsonBytes, state);
    case VNum(num) => built := PrimitiveBuilt(JNumber(num), maximumJsonBytes, state);
    case VRef(r) => built := BuildNode(w, {r}, w.heap(r), maximumJsonBytes, state, depth, rowLimit, useSharedRows);
    case VFresh(node) => built := BuildNode(w, {}, node, maximumJsonBytes, state, depth, rowLimit, useSharedRows);
    case _ =>
      state.AddReason(UnsupportedValue);
      built := PrimitiveBuilt(JNull, maximumJsonBytes, state);
  }

  method BuildNode(w: World, id: set<Ref>, node: Node, maximumJsonBytes: int, state: LimitState, depth: nat,
                   rowLimit: nat, useSharedRows: bool)
    returns (built: Built)
    requires Left(state.View()) >= 0
    modifies state
    ensures var o := P.BuildNode(w, id, node, maximumJsonBytes, old(state.View()), depth, rowLimit, useSharedRows);
            state.View() == o.st && built == o.built
    decreases Left(state.View()), 9
  {
    hide Ascii, P.BuildArray, P.BuildObject, P.BuildError, P.BuildExotic, P.Fitted, P.Unsupported;
    match node.kind
    case KDate(None) =>
      state.AddReason(UnsupportedValue);
      built := FitString(Ascii("[Invalid Date]"), maximumJsonBytes, state);
    case KDate(Some(iso)) => built := FitString(iso, maximumJsonBytes, state);
    case KBinary(n) =>
      built := BuildUnsupported(Ascii("[binary data: ") + Decimal(n) + Ascii(" bytes]"), maximumJsonBytes, state,
                                BinaryData);
    case KArray(elems) => built := BuildArray(w, id, elems, node, maximumJsonBytes, state, depth, rowLimit,
                                              useSharedRows);
    case KPlain => built := BuildObject(w, id, node, maximumJsonBytes, state, depth, rowLimit);
    case KError(message, name, cause) =>
      state.hasErrors := true;
      built := BuildError(w, id, P.ErrorRecord(message, name, cause), maximumJsonBytes, state, depth, rowLimit);
    case KExotic(toJson) => built := BuildExotic(w, id, toJson, maximumJsonBytes, state, depth, rowLimit,
                                                 useSharedRows);
  }

  method BuildError(w: World, id: set<Ref>, record: Node, maximumJsonBytes: int, state: LimitState, depth: nat,
                    rowLimit: nat)
    returns (built: Built)
    requires Left(state.View()) >= 0
    modifies state
    ensures var o := P.BuildError(w, id, record, maximumJsonBytes, old(state.View()), depth, rowLimit);
            state.View() == o.st && built == o.built
    decreases Left(state.View()), 8
  {
    hide Ascii, P.BuildObject, P.Unsupported, Remember;
    if id * state.ancestors != {} {
      built := BuildUnsupported(P.CIRCULAR, maximumJsonBytes, state, CircularReference);
      return;
    }
    state.ancestors := state.ancestors + id;
    built := BuildObject(w, {}, record, maximumJsonBytes, state, depth, rowLimit);
    if built.Built? {
      state.RememberErrorDiagnostic(P.ERROR, built.value);
    }
    state.ancestors := state.ancestors - id;
  }

  method BuildExotic(w: World, id: set<Ref>, toJson: ToJson, maximumJsonBytes: int, state: LimitState, depth: nat,
                     rowLimit: nat, useSharedRows: bool)
    returns (built: Built)
    requires Left(state.View()) >= 0
    modifies state
    ensures var o := P.BuildExotic(w, id, toJson, maximumJsonBytes, old(state.View()), depth, rowLimit, useSharedRows);
            state.View() == o.st && built == o.built
    decreases Left(state.View()), 7
  {
    hide Ascii, P.BuildValue, P.Unsupported;
    if toJson.AccessorMethod? {
      built := BuildUnsupported(P.ACCESSOR_OMITTED, maximumJsonBytes, state, AccessorOmitted);
      return;
    }
    if toJson.NoMethod? {
      built := BuildUnsupported(Ascii("[Unsupported object]"), maximumJsonBytes, state, UnsupportedValue);
      return;
    }
    if id * state.ancestors != {} {
      built := BuildUnsupported(P.CIRCULAR, maximumJsonBytes, state, CircularReference);
      return;
    }
    state.ancestors := state.ancestors + id;
    if toJson.Throws? {
      state.hasErrors := true;
      state.AddReason(UnsupportedValue);
    }
    built := BuildValue(w, P.Converted(toJson), maximumJsonBytes, state, depth + 1, rowLimit, useSharedRows);
    state.ancestors := state.ancestors - id;
  }

  method BuildObject(w: World, id: set<Ref>, node: Node, maximumJsonBytes: int, state: LimitState, depth: nat,
                     rowLimit: nat)
    returns (built: Built)
    requires Left(state.View()) >= 0
    modifies state
    ensures var o := P.BuildObject(w, id, node, maximumJsonBytes, old(state.View()), depth, rowLimit);
            state.View() == o.st && built == o.built
    decreases Left(state.View()), 7
  {
    hide Ascii, P.BuildKeys, P.Unsupported, P.OtherKeys;
    if id * state.ancestors != {} {
      built := BuildUnsupported(P.CIRCULAR, maximumJsonBytes, state, CircularReference);
      return;
    }
    if maximumJsonBytes < 2 {
      state.AddReason(MaxResultBytes);
      return Omit;
    }
    state.ancestors := state.ancestors + id;
    state.retainedNodes := state.retainedNodes + 1;
    var accumulator := new ObjectAccumulator();
    BuildPriorityKeys(w, node, P.PRIORITY_KEYS, accumulator, maximumJsonBytes, state, depth, rowLimit);
    BuildOrdinaryKeys(w, node, accumulator, maximumJsonBytes, state, depth, rowLimit);
    state.ancestors := state.ancestors - id;
    built := Built(accumulator.byteLength, JObject(accumulator.value));
  }

  /** Priority keys: a failed property is counted and the loop goes on. */
  method BuildPriorityKeys(w: World, node: Node, keys: seq<Str>, accumulator: ObjectAccumulator, maximumJsonBytes: int,
                           state: LimitState, depth: nat, rowLimit: nat)
    requires Left(state.View()) >= 0 && accumulator.Valid()
    modifies state, accumulator
    ensures accumulator.Valid()
    ensures var o := P.BuildKeys(w, node, keys, false, old(accumulator.View()), maximumJsonBytes, old(state.View()),
                                 depth, rowLimit);
            state.View() == o.st && accumulator.View() == o.acc
    decreases Left(state.View()), 6, 0
  {
    hide P.BuildProperty;
    ghost var goal := P.BuildKeys(w, node, keys, false, accumulator.View(), maximumJsonBytes, state.View(), depth,
                                  rowLimit);
    ghost var left := Left(state.View());
    assert keys[0..] == keys;
    for i := 0 to |keys|
      invariant 0 <= Left(state.View()) <= left && accumulator.Valid()
      invariant P.BuildKeys(w, node, keys[i..], false, accumulator.View(), maximumJsonBytes, state.View(), depth,
                            rowLimit) == goal
    {
      assert keys[i..][1..] == keys[i + 1..] && keys[i..][0] == keys[i];
      var ok := BuildProperty(w, node, keys[i], accumulator, maximumJsonBytes, state, depth, rowLimit);
      if !ok {
        state.omittedPropertiesAtLeast := state.omittedPropertiesAtLeast + 1;
      }
    }
  }

  lemma FilterNext(keys: seq<Str>, i: nat, keep: Str -> bool)
    requires i < |keys|
    ensures var rest := P.Filter(keys[i..], keep);
            if keep(keys[i]) then rest != [] && rest[0] == keys[i] && rest[1..] == P.Filter(keys[i + 1..], keep)
            else rest == P.Filter(keys[i + 1..], keep)
  {
    assert keys[i..][1..] == keys[i + 1..] && keys[i..][0] == keys[i];
  }

  lemma FilterEnd(keep: Str -> bool)
    ensures P.Filter([], keep) == []
  {
  }

  /** Ordinary keys in enumeration order: the first failure ends the loop. */
  method BuildOrdinaryKeys(w: World, node: Node, accumulator: ObjectAccumulator, maximumJsonBytes: int,
                           state: LimitState, depth: nat, rowLimit: nat)
    requires Left(state.View()) >= 0 && accumulator.Valid()
    modifies state, accumulator
    ensures accumulator.Valid()
    ensures var o := P.BuildKeys(w, node, P.OtherKeys(node), true, old(accumulator.View()), maximumJsonBytes,
                                 old(state.View()), depth, rowLimit);
            state.View() == o.st && accumulator.View() == o.acc
    decreases Left(state.View()), 6, 0
  {
    hide P.BuildProperty, P.Filter, P.IsOrdinary;
    var keys := Keys(node.props);
    ghost var goal := P.BuildKeys(w, node, P.OtherKeys(node), true, accumulator.View(), maximumJsonBytes, state.View(),
                                  depth, rowLimit);
    ghost var left := Left(state.View());
    assert keys[0..] == keys;
    FilterEnd(P.IsOrdinary);
    for i := 0 to |keys|
      invariant 0 <= Left(state.View()) <= left && accumulator.Valid()
      invariant P.BuildKeys(w, node, P.Filter(keys[i..], P.IsOrdinary), true, accumulator.View(), maximumJsonBytes,
                            state.View(), depth, rowLimit) == goal
    {
      FilterNext(keys, i, P.IsOrdinary);
      if P.IsOrdinary(keys[i]) {
        var ok := BuildProperty(w, node, keys[i], accumulator, maximumJsonBytes, state, depth, rowLimit);
        if !ok {
          state.omittedPropertiesAtLeast := state.omittedPropertiesAtLeast + 1;
          return;
        }
      }
    }
  }

  method BuildProperty(w: World, source: Node, key: Str, accumulator: ObjectAccumulator, maximumJsonBytes: int,
                       state: LimitState, depth: nat, rowLimit: nat)
    returns (ok: bool)
    requires Left(state.View()) >= 0 && accumulator.Valid()
    modifies state, accumulator
    ensures accumulator.Valid()
    ensures var o := P.BuildProperty(w, source, key, old(accumulator.View()), maximumJsonBytes, old(state.View()),
                                     depth, rowLimit);
            state.View() == o.st && accumulator.View() == o.acc && ok == o.ok
    decreases Left(state.View()), 5
  {
    hide Ascii, P.BuildStored, P.BuildOwn, P.StoredExceptions, StringSize, Lookup;
    var descriptor := Lookup(source.props, key);
    var raw := P.StoredExceptions(w, source, key);
    if raw.Malformed? {
      OmitInvalidFieldExceptions(state);
      return true;
    }
    if raw.Absent?
       && (descriptor.None?
           || (descriptor.value.Data? && descriptor.value.value.VUndefined? && key in P.OPTIONAL_METADATA_KEYS))
    {
      return true;
    }
    if !state.inDiagnostics && key == EID_DATA_TRUNCATION && Lookup(source.props, EID_DATA).Some? {
      return true;
    }
    var commaBytes := if accumulator.propertyCount == 0 then 0 else 1;
    var availableForKeyAndChild := maximumJsonBytes - accumulator.byteLength - commaBytes - 1;
    if availableForKeyAndChild < 4 {
      state.AddReason(MaxResultBytes);
      state.hasErrors := state.hasErrors || raw.Raw?;
      return false;
    }
    var maximumKeyBytes := availableForKeyAndChild - 2;
    var keyBytes := JsonStringByteLength(key, maximumKeyBytes);
    if keyBytes > maximumKeyBytes {
      state.AddReason(MaxResultBytes);
      state.hasErrors := state.hasErrors || raw.Raw?;
      return false;
    }
    if raw.Raw? {
      ok := BuildStored(w, raw.text, key, accumulator, maximumJsonBytes, availableForKeyAndChild - keyBytes, state,
                        depth);
    } else {
      ok := BuildOwn(w, source, key, descriptor.value, accumulator, maximumJsonBytes,
                     availableForKeyAndChild - keyBytes, state,
                     depth, rowLimit);
    }
  }

  method BuildOwn(w: World, source: Node, key: Str, slot: Slot, accumulator: ObjectAccumulator, maximumJsonBytes: int,
                  childBudget: int, state: LimitState, depth: nat, rowLimit: nat) returns (ok: bool)
    requires Left(state.View()) >= 0 && accumulator.Valid() && childBudget >= 2
    modifies state, accumulator
    ensures accumulator.Valid()
    ensures var o := P.BuildOwn(w, source, key, slot, old(accumulator.View()), maximumJsonBytes, childBudget,
                                old(state.View()), depth, rowLimit);
            state.View() == o.st && accumulator.View() == o.acc && ok == o.ok
    decreases Left(state.View()), 4
  {
    hide Ascii, P.BuildChild, P.BuildEntitlement, P.Inspect, P.AddOwn;
    var inDiagnostics := state.inDiagnostics;
    var rawValue, errorKey := Inspect(w, key, slot, state);
    if !inDiagnostics && key == EID_DATA {
      ok := BuildEntitlementProperty(w, source, rawValue, accumulator, maximumJsonBytes, childBudget, state, depth);
      return;
    }
    var built := BuildChild(w, key, rawValue, childBudget, state, depth, rowLimit);
    if built.Omit? {
      return false;
    }
    ok := AddOwn(accumulator, key, rawValue, errorKey, built, maximumJsonBytes, state);
  }

  method Inspect(w: World, key: Str, slot: Slot, state: LimitState) returns (rawValue: Value, errorKey: bool)
    requires Left(state.View()) >= 0
    modifies state
    ensures var i := P.Inspect(w, key, slot, old(state.View()));
            state.View() == i.st && rawValue == i.value && errorKey == i.errorKey
  {
    hide Ascii, P.ScanOccurrences, P.IsErrorKey, P.HasReportedError;
    if slot.Data? {
      rawValue := slot.value;
    } else {
      state.AddReason(AccessorOmitted);
      rawValue := VString(P.ACCESSOR_OMITTED);
    }
    errorKey := false;
    if P.IsErrorKey(key) {
      if key == P.FIELD_EXCEPTIONS && IsPlain(w, rawValue) {
        errorKey := HasFieldExceptionOccurrences(w, NodeOf(w, rawValue).value, state);
      } else {
        errorKey := P.HasReportedError(w, rawValue);
      }
    }
    if errorKey {
      state.hasErrors := true;
    }
  }

  method BuildChild(w: World, key: Str, rawValue: Value, childBudget: int, state: LimitState, depth: nat, rowLimit: nat)
    returns (built: Built)
    requires Left(state.View()) >= 0
    modifies state
    ensures var o := P.BuildChild(w, key, rawValue, childBudget, old(state.View()), depth, rowLimit);
            state.View() == o.st && built == o.built
    decreases Left(state.View()), 1
  {
    hide Ascii, P.BuildValue, P.IsErrorMetadata, P.SharedKey;
    var useSharedRows := P.SharedKey(w, key, rawValue);
    var wasInDiagnostics := state.inDiagnostics;
    state.inDiagnostics := wasInDiagnostics || P.IsErrorMetadata(key);
    ghost var inside := state.View();
    built := BuildValue(w, rawValue, childBudget, state, depth + 1, rowLimit, useSharedRows);
    ghost var o := P.BuildValue(w, rawValue, childBudget, inside, depth + 1, rowLimit, useSharedRows);
    assert state.View() == o.st && built == o.built;
    state.inDiagnostics := wasInDiagnostics;
    assert state.View() == o.st.(inDiagnostics := wasInDiagnostics);
  }

  method AddOwn(accumulator: ObjectAccumulator, key: Str, rawValue: Value, errorKey: bool, built: Built,
                maximumJsonBytes: int, state: LimitState)
    returns (ok: bool)
    requires accumulator.Valid() && built.Built?
    modifies state, accumulator
    ensures accumulator.Valid()
    ensures var o := P.AddOwn(old(accumulator.View()), key, rawValue, errorKey, built, maximumJsonBytes,
                              old(state.View()));
            state.View() == o.st && accumulator.View() == o.acc && ok == o.ok
  {
    hide Ascii, P.Append, Remember;
    ok := AppendBuiltProperty(accumulator, key, built, maximumJsonBytes, state);
    if !ok {
      return;
    }
    if errorKey {
      state.RememberErrorDiagnostic(key, built.value);
    }
    if (key == P.TRUNCATED || key == P.TRUNCATED_INPUT) && rawValue == VBool(true) {
      state.AddReason(UpstreamTruncation);
    }
  }

  method BuildStored(w: World, raw: Str, key: Str, accumulator: ObjectAccumulator, maximumJsonBytes: int,
                     childBudget: int, state: LimitState, depth: nat)
    returns (ok: bool)
    requires Left(state.View()) >= 0 && accumulator.Valid()
    modifies state, accumulator
    ensures accumulator.Valid()
    ensures var o := P.BuildStored(w, raw, key, old(accumulator.View()), maximumJsonBytes, childBudget,
                                   old(state.View()), depth);
            state.View() == o.st && accumulator.View() == o.acc && ok == o.ok
    decreases Left(state.View()), 4
  {
    hide P.BuildRaw, P.Append, Remember;
    var wasInDiagnostics := state.inDiagnostics;
    state.inDiagnostics := true;
    var valid, built := BuildRawFieldExceptions(w, raw, childBudget, state, depth + 1);
    state.inDiagnostics := wasInDiagnostics;
    if !valid {
      OmitInvalidFieldExceptions(state);
      return true;
    }
    if built.Omit? {
      return true;
    }
    ok := AppendBuiltProperty(accumulator, key, built, maximumJsonBytes, state);
    if ok && state.hasErrors {
      state.RememberErrorDiagnostic(key, built.value);
    }
  }

  method GiveUp(state: LimitState, reason: Reason)
    modifies state
    ensures state.View() == P.GiveUp(old(state.View()), {reason})
  {
    state.AddReason(reason);
    state.hasErrors := true;
    state.omittedPropertiesAtLeast := state.omittedPropertiesAtLeast + 1;
  }

  lemma {:induction false} LengthWithinSize(s: Str)
    ensures |s| <= StringSize(s)
  {
    if s != [] {
      LengthWithinSize(s[WidthAt(s, 0)..]);
      assert JsonStringUnit(s, 0).0 >= WidthAt(s, 0);
    }
  }

  /** Input characters bound the nodes and the validation work of the parsed document. */
  method AdmitRawMetadata(raw: Str, state: LimitState) returns (admitted: bool)
    requires Left(state.View()) >= 0
    modifies state
    ensures var s := old(state.View());
            var bytesFit, nodesFit := StringSize(raw) <= s.limits.maxResultBytes, |raw| <= Left(s);
            && admitted == (bytesFit && nodesFit)
            && state.View() == if admitted then s.(visitedNodes := s.visitedNodes + |raw|)
                               else P.GiveUp(s, (if bytesFit then {} else {MaxResultBytes})
                                                + (if nodesFit then {} else {MaxResultNodes}))
  {
    hide StringSize;
    LengthWithinSize(raw);
    var byteLimit := state.limits.maxResultBytes;
    var bytesFit := |raw| <= byteLimit;
    if bytesFit {
      var bytes := JsonStringByteLength(raw, byteLimit);
      bytesFit := bytes <= byteLimit;
    }
    var nodesFit := |raw| <= state.limits.maxResultNodes - state.visitedNodes;
    ghost var before := state.View();
    ghost var bytes: set<Reason> := if bytesFit then {} else {MaxResultBytes};
    ghost var nodes: set<Reason> := if nodesFit then {} else {MaxResultNodes};
    if !bytesFit {
      state.AddReason(MaxResultBytes);
    }
    assert state.View() == before.(reasons := before.reasons + bytes);
    if !nodesFit {
      state.AddReason(MaxResultNodes);
    }
    assert state.View() == before.(reasons := before.reasons + bytes + nodes);
    if !bytesFit || !nodesFit {
      state.hasErrors := true;
      state.omittedPropertiesAtLeast := state.omittedPropertiesAtLeast + 1;
      assert before.reasons + bytes + nodes == before.reasons + (bytes + nodes);
      return false;
    }
    state.visitedNodes := state.visitedNodes + |raw|;
    return true;
  }

  /** The checks that come before the stored text is parsed. */
  method EnterRawMetadata(raw: Str, maximumJsonBytes: int, state: LimitState, depth: nat) returns (admitted: bool)
    requires Left(state.View()) >= 0
    modifies state
    ensures var s := old(state.View());
            && admitted == (1 <= Left(s) && depth <= MAX_RESULT_DEPTH && maximumJsonBytes >= 2
                            && StringSize(raw) <= s.limits.maxResultBytes && |raw| <= Left(s) - 1)
            && (admitted ==> state.View() == s.(visitedNodes := s.visitedNodes + 1 + |raw|))
            && (!admitted ==> forall w: World ::
                  P.BuildRaw(w, raw, maximumJsonBytes, s, depth) == P.RawOmit(state.View()))
  {
    hide P.BuildSecurities, StringSize, HasOccurrences, ReadDocument;
    if state.visitedNodes >= state.limits.maxResultNodes {
      GiveUp(state, MaxResultNodes);
      return false;
    }
    var _ := state.ConsumeVisit();
    if depth > MAX_RESULT_DEPTH {
      GiveUp(state, MaxResultDepth);
      return false;
    }
    if maximumJsonBytes < 2 {
      GiveUp(state, MaxResultBytes);
      return false;
    }
    admitted := AdmitRawMetadata(raw, state);
  }

  /** `valid == false` stands for the thrown metadata error. */
  method BuildRawFieldExceptions(w: World, raw: Str, maximumJsonBytes: int, state: LimitState, depth: nat)
    returns (valid: bool, built: Built)
    requires Left(state.View()) >= 0
    modifies state
    ensures var r := P.BuildRaw(w, raw, maximumJsonBytes, old(state.View()), depth);
            && state.View() == r.st && valid == !r.RawInvalid?
            && (r.RawOmit? ==> built == Omit) && (r.RawBuilt? ==> built == Built(r.byteLength, r.value))
    decreases Left(state.View()), 3
  {
    hide P.BuildSecurities, StringSize, HasOccurrences, ValidDocument, P.GiveUp;
    var admitted := EnterRawMetadata(raw, maximumJsonBytes, state, depth);
    if !admitted {
      return true, Omit;
    }
    var parsed := w.parse(raw);
    var document := if parsed.Some? then Classify(parsed.value) else None;
    if document.None? {
      return false, Omit;
    }
    var hasOccurrences;
    valid, hasOccurrences := ValidateOccurrences(document.value);
    if !valid {
      return false, Omit;
    }
    state.hasErrors := state.hasErrors || hasOccurrences;
    state.retainedNodes := state.retainedNodes + 1;
    built := BuildSecurities(w, document.value, maximumJsonBytes, state, depth);
  }

  /** One turn of the loop over the securities. */
  lemma SecuritiesNext(w: World, securities: seq<Member>, entries: Option<seq<Json>>, i: nat, acc: Acc, budget: int,
                       s: State, depth: nat)
    requires Left(s) >= 0 && ValidLists(securities, entries) && i < |securities|
    ensures var key, room := securities[i].key, budget - acc.byteLength - CommaSize(acc.props);
            var r := P.BuildSecurities(w, securities[i..], entries, acc, budget, s, depth);
            if room - 3 < 2 || StringSize(key) > room - 3
            then r == PropOut(AddReason(s, MaxResultBytes).(omittedProperties := s.omittedProperties + 1), acc, false)
            else
              var o := P.BuildExceptionArray(w, securities[i].value.items, entries, room - StringSize(key) - 1, s,
                                             depth + 1);
              var p := if o.built.Omit? then PropOut(o.st, acc, false) else P.Append(acc, key, o.built, budget, o.st);
              if !p.ok then r == PropOut(p.st.(omittedProperties := p.st.omittedProperties + 1), p.acc, false)
              else r == P.BuildSecurities(w, securities[i + 1..], entries, p.acc, budget, p.st, depth)
  {
    hide P.BuildExceptionArray, P.Append, StringSize, ExceptionAt;
    assert securities[i..][1..] == securities[i + 1..] && securities[i..][0] == securities[i];
  }

  lemma SecuritiesEnd(w: World, entries: Option<seq<Json>>, acc: Acc, budget: int, s: State, depth: nat)
    requires Left(s) >= 0
    ensures P.BuildSecurities(w, [], entries, acc, budget, s, depth) == PropOut(s, acc, true)
  {
  }

  method BuildSecurities(w: World, document: Document, maximumJsonBytes: int, state: LimitState,
                         depth: nat) returns (built: Built)
    requires Left(state.View()) >= 0 && ValidDocument(document)
    modifies state
    ensures var o := P.BuildSecurities(w, document.securities, document.entries, EMPTY_ACC, maximumJsonBytes,
                                       old(state.View()), depth);
            state.View() == o.st && built == Built(o.acc.byteLength, JObject(o.acc.props))
    decreases Left(state.View()), 2
  {
    hide P.BuildExceptionArray, P.BuildSecurities, P.Append, StringSize, ExceptionAt, ValidDocument;
    DocumentLists(document);
    var accumulator := new ObjectAccumulator();
    var securities, entries := document.securities, document.entries;
    ghost var goal := P.BuildSecurities(w, securities, entries, EMPTY_ACC, maximumJsonBytes, state.View(), depth);
    ghost var left := Left(state.View());
    assert securities[0..] == securities;
    for i := 0 to |securities|
      invariant 0 <= Left(state.View()) <= left && accumulator.Valid() && fresh(accumulator)
      invariant P.BuildSecurities(w, securities[i..], entries, accumulator.View(), maximumJsonBytes, state.View(),
                                  depth) == goal
    {
      assert ValidList(securities[i].value, entries);
      SecuritiesNext(w, securities, entries, i, accumulator.View(), maximumJsonBytes, state.View(), depth);
      var commaBytes := if accumulator.propertyCount == 0 then 0 else 1;
      var maximumKeyBytes := maximumJsonBytes - accumulator.byteLength - commaBytes - 3;
      if maximumKeyBytes < 2 {
        state.AddReason(MaxResultBytes);
        state.omittedPropertiesAtLeast := state.omittedPropertiesAtLeast + 1;
        return Built(accumulator.byteLength, JObject(accumulator.value));
      }
      var keyBytes := JsonStringByteLength(securities[i].key, maximumKeyBytes);
      if keyBytes > maximumKeyBytes {
        state.AddReason(MaxResultBytes);
        state.omittedPropertiesAtLeast := state.omittedPropertiesAtLeast + 1;
        return Built(accumulator.byteLength, JObject(accumulator.value));
      }
      var childBudget := maximumJsonBytes - accumulator.byteLength - commaBytes - keyBytes - 1;
      var list := BuildExceptionArray(w, securities[i].value.items, entries, childBudget, state, depth + 1);
      var ok := false;
      if list.Built? {
        ok := AppendBuiltProperty(accumulator, securities[i].key, list, maximumJsonBytes, state);
      }
      if !ok {
        state.omittedPropertiesAtLeast := state.omittedPropertiesAtLeast + 1;
        return Built(accumulator.byteLength, JObject(accumulator.value));
      }
    }
    assert securities[|securities|..] == [];
    SecuritiesEnd(w, entries, accumulator.View(), maximumJsonBytes, state.View(), depth);
    built := Built(accumulator.byteLength, JObject(accumulator.value));
  }

  method BuildExceptionArray(w: World, occurrences: seq<Json>, entries: Option<seq<Json>>, maximumJsonBytes: int,
                             state: LimitState, depth: nat)
    returns (built: Built)
    requires Left(state.View()) >= 0
    requires forall i :: 0 <= i < |occurrences| ==> ExceptionAt(occurrences[i], entries).Some?
    modifies state
    ensures var o := P.BuildExceptionArray(w, occurrences, entries, maximumJsonBytes, old(state.View()), depth);
            state.View() == o.st && built == o.built
    decreases Left(state.View()), 1, 1
  {
    hide P.BuildExceptions, ExceptionAt;
    var ok := state.ConsumeVisit();
    if !ok {
      return Omit;
    }
    if depth > MAX_RESULT_DEPTH {
      state.AddReason(MaxResultDepth);
      return Omit;
    }
    if maximumJsonBytes < 2 {
      state.AddReason(MaxResultBytes);
      return Omit;
    }
    state.retainedNodes := state.retainedNodes + 1;
    built := BuildExceptions(w, occurrences, entries, maximumJsonBytes, state, depth);
  }

  method BuildExceptions(w: World, occurrences: seq<Json>, entries: Option<seq<Json>>, maximumJsonBytes: int,
                         state: LimitState, depth: nat)
    returns (built: Built)
    requires Left(state.View()) >= 0
    requires forall i :: 0 <= i < |occurrences| ==> ExceptionAt(occurrences[i], entries).Some?
    modifies state
    ensures var o := P.BuildExceptions(w, occurrences, entries, maximumJsonBytes, old(state.View()), depth, [], 2);
            state.View() == o.st && built == o.built
    decreases Left(state.View()), 1, 0
  {
    hide P.BuildValue, Embed, ExceptionAt;
    var value: seq<Json>, byteLength := [], 2;
    ghost var goal := P.BuildExceptions(w, occurrences, entries, maximumJsonBytes, state.View(), depth, [], 2);
    ghost var left := Left(state.View());
    assert occurrences[0..] == occurrences;
    for i := 0 to |occurrences|
      invariant 0 <= Left(state.View()) <= left && byteLength >= 0
      invariant P.BuildExceptions(w, occurrences[i..], entries, maximumJsonBytes, state.View(), depth, value,
                                  byteLength) == goal
    {
      assert occurrences[i..][1..] == occurrences[i + 1..] && occurrences[i..][0] == occurrences[i];
      if state.visitedNodes >= state.limits.maxResultNodes {
        state.AddReason(MaxResultNodes);
        return Built(byteLength, JArray(value));
      }
      if depth + 2 > MAX_RESULT_DEPTH {
        state.AddReason(MaxResultDepth);
        return Built(byteLength, JArray(value));
      }
      var commaBytes := if |value| == 0 then 0 else 1;
      var childBudget := maximumJsonBytes - byteLength - commaBytes;
      if childBudget < 2 {
        state.AddReason(MaxResultBytes);
        return Built(byteLength, JArray(value));
      }
      var entry := ExceptionAt(occurrences[i], entries).value;
      var retainedNodesBefore, omittedPropertiesBefore := state.retainedNodes, state.omittedPropertiesAtLeast;
      var item := BuildValue(w, Embed(entry), childBudget, state, depth + 1, MAX_SAFE_INTEGER, false);
      if item.Omit? || !item.value.JObject? || state.omittedPropertiesAtLeast > omittedPropertiesBefore {
        state.retainedNodes := retainedNodesBefore;
        return Built(byteLength, JArray(value));
      }
      value := value + [item.value];
      byteLength := byteLength + commaBytes + item.byteLength;
    }
    built := Built(byteLength, JArray(value));
  }

  // ----- entitlements -----

  method ConsumeVisitBefore(state: LimitState, limit: int) returns (ok: bool)
    modifies state
    ensures var r := VisitBefore(old(state.View()), limit); state.View() == r.0 && ok == r.1
  {
    if state.visitedNodes >= limit {
      state.AddReason(MaxResultNodes);
      return false;
    }
    ok := state.ConsumeVisit();
  }

  method ScanSecurityEids(eids: seq<Element>, state: LimitState, limit: int, canRetain: bool, capacity: nat)
    returns (retained: seq<int>, outcome: Outcome)
    requires Left(state.View()) >= 0
    modifies state
    ensures var r := ScanEids(eids, old(state.View()), limit, canRetain, capacity, []);
            state.View() == r.st && retained == r.kept && outcome == r.outcome
  {
    retained := [];
    ghost var goal := ScanEids(eids, state.View(), limit, canRetain, capacity, []);
    assert eids[0..] == eids;
    for i := 0 to |eids|
      invariant Left(state.View()) >= 0
      invariant ScanEids(eids[i..], state.View(), limit, canRetain, capacity, retained) == goal
    {
      assert eids[i..][1..] == eids[i + 1..] && eids[i..][0] == eids[i];
      var ok := ConsumeVisitBefore(state, limit);
      if !ok {
        return retained, Incomplete;
      }
      if !ValidEid(eids[i]) {
        state.AddReason(InvalidEntitlementData);
        return retained, Invalid;
      }
      if canRetain && |retained| < capacity {
        retained := retained + [eids[i].slot.value.num.value];
      }
    }
    outcome := Complete;
  }

  /** One turn of the security loop, on the counters in `t`; `t.st` is left to the shared state. */
  method ScanOneSecurity(w: World, node: Node, security: Str, limit: int, t: Tally,
                         state: LimitState) returns (r: Tally)
    requires t.st == state.View() && Left(state.View()) >= 0 && t.nameBytes <= MAX_EID_SECURITY_NAME_BYTES
    modifies state
    ensures r == ScanSecurity(w, node, security, limit, t) && state.View() == r.st
    ensures r.nameBytes <= MAX_EID_SECURITY_NAME_BYTES
  {
    hide ScanEids, Utf8Length, TakeSecurity;
    r := t;
    var ok := ConsumeVisitBefore(state, limit);
    if !ok {
      return r.(st := state.View(), complete := false);
    }
    r := r.(st := state.View(), scanned := r.scanned + 1);
    var descriptor := Lookup(node.props, security);
    if descriptor.None? {
      return;
    }
    var elems := ElemsOf(w, descriptor.value);
    if elems.None? {
      state.AddReason(InvalidEntitlementData);
      return r.(st := state.View(), invalid := r.invalid + 1);
    }
    var nameBytes := Utf8ByteLengthAtMost(security, MAX_EID_SECURITY_NAME_BYTES - r.nameBytes);
    var canRetain := |r.data| < MAX_EID_SECURITIES && nameBytes.Some?;
    var retained, outcome := ScanSecurityEids(elems.value, state, limit, canRetain, Capacity(r));
    r := RetainSecurity(r, security, |elems.value|, nameBytes, retained, outcome, state);
  }

  /** The bookkeeping after the EIDs of one security were scanned. */
  method RetainSecurity(t: Tally, security: Str, count: nat, nameBytes: Option<nat>, retained: seq<int>,
                        outcome: Outcome, state: LimitState)
    returns (r: Tally)
    requires t.nameBytes <= MAX_EID_SECURITY_NAME_BYTES
    requires nameBytes == if t.nameBytes + Utf8Length(security)
             <= MAX_EID_SECURITY_NAME_BYTES then Some(Utf8Length(security)) else None
    modifies state
    ensures r == TakeSecurity(t, security, count, EidScan(old(state.View()), retained, outcome)) && state.View() == r.st
    ensures r.nameBytes <= MAX_EID_SECURITY_NAME_BYTES
  {
    hide Utf8Length;
    r := t.(complete := t.complete && !outcome.Incomplete?);
    if outcome.Invalid? {
      return r.(st := state.View(), invalid := r.invalid + 1);
    }
    r := r.(totalEids := Min(MAX_SAFE_INTEGER, r.totalEids + count));
    if |r.data| >= MAX_EID_SECURITIES || nameBytes.None? {
      state.AddReason(EntitlementLimit);
      return r.(st := state.View(), capped := r.capped + 1);
    }
    if outcome.Complete? && |retained| != count {
      state.AddReason(EntitlementLimit);
    }
    r := r.(st := state.View(), retainedEids := r.retainedEids + |retained|, nameBytes := r.nameBytes + nameBytes.value,
            data := r.data + [EidEntry(security, count, retained)]);
  }

  method PrepareEids(w: World, value: Value, state: LimitState) returns (prepared: Prepared)
    requires Left(state.View()) >= 0
    modifies state
    ensures prepared == PrepareEidData(w, value, old(state.View())) && state.View() == prepared.st
  {
    hide ScanSecurity;
    if !IsPlain(w, value) {
      state.AddReason(InvalidEntitlementData);
      return Prepared(state.View(), [], 1, 1, Some(0), Some(1), true);
    }
    var node := NodeOf(w, value).value;
    var keys, limit := Keys(node.props), EidVisitLimit(state.View());
    var t := Tally0(state.View());
    ghost var goal := ScanSecurities(w, node, keys, limit, t);
    assert keys[0..] == keys;
    var i := 0;
    while i < |keys| && t.complete
      invariant 0 <= i <= |keys| && t.st == state.View() && Left(t.st) >= 0
                && t.nameBytes <= MAX_EID_SECURITY_NAME_BYTES
      invariant ScanSecurities(w, node, keys[i..], limit, t) == goal
    {
      assert keys[i..][1..] == keys[i + 1..] && keys[i..][0] == keys[i];
      t := ScanOneSecurity(w, node, keys[i], limit, t, state);
      i := i + 1;
    }
    prepared := Prepared(state.View(), t.data, t.invalid, t.scanned, if t.complete then Some(t.totalEids) else None,
                         if t.complete then Some(t.scanned) else None, Lost(t));
  }

  method BuildEntitlementProperty(w: World, source: Node, rawValue: Value, accumulator: ObjectAccumulator,
                                  maximumJsonBytes: int, childBudget: int, state: LimitState, depth: nat)
    returns (ok: bool)
    requires Left(state.View()) >= 0 && accumulator.Valid()
    modifies state, accumulator
    ensures accumulator.Valid()
    ensures var o := P.BuildEntitlement(w, source, rawValue, old(accumulator.View()), maximumJsonBytes, childBudget,
                                        old(state.View()), depth);
            state.View() == o.st && accumulator.View() == o.acc && ok == o.ok
    decreases Left(state.View()), 3
  {
    hide Ascii, P.BuildValue, P.Append, PrepareEidData, EmittedSummary, EidRecord, SummaryJson, Embed, StringSize;
    var prepared := PrepareEids(w, rawValue, state);
    var built := BuildValue(w, Embed(EidRecord(prepared.data)), Max(2, childBudget / 3), state, depth + 1,
                            MAX_ENTITLEMENT_EIDS, false);
    if built.Omit? {
      return false;
    }
    ok := AppendBuiltProperty(accumulator, EID_DATA, built, maximumJsonBytes, state);
    if !ok {
      return false;
    }
    var summary := EmittedSummary(w, source, built.value, prepared);
    if summary.Some? {
      var summaryCommaBytes := if accumulator.propertyCount == 0 then 0 else 1;
      var summaryBudget :=
        maximumJsonBytes - accumulator.byteLength - summaryCommaBytes - StringSize(EID_DATA_TRUNCATION) - 1;
      var emitted := BuildValue(w, Embed(SummaryJson(summary.value)), summaryBudget, state, depth + 1,
                                MAX_EID_SECURITIES, false);
      var appended := false;
      if emitted.Built? {
        appended := AppendBuiltProperty(accumulator, EID_DATA_TRUNCATION, emitted, maximumJsonBytes, state);
      }
      if !appended {
        state.omittedPropertiesAtLeast := state.omittedPropertiesAtLeast + 1;
      }
    }
    return true;
  }

  // ----- arrays -----

  method HasArrayMetadata(node: Node) returns (found: bool)
    ensures found == P.HasArrayMetadata(node)
  {
    hide Ascii, Lookup;
    for i := 0 to |P.PRIORITY_KEYS|
      invariant forall j :: 0 <= j < i ==> Lookup(node.props, P.PRIORITY_KEYS[j]).None?
    {
      if Lookup(node.props, P.PRIORITY_KEYS[i]).Some? {
        return true;
      }
    }
    return false;
  }

  method BuildArray(w: World, id: set<Ref>, elems: seq<Element>, node: Node, maximumJsonBytes: int, state: LimitState,
                    depth: nat, rowLimit: nat, useSharedRows: bool)
    returns (built: Built)
    requires Left(state.View()) >= 0
    modifies state
    ensures var o := P.BuildArray(w, id, elems, node, maximumJsonBytes, old(state.View()), depth, rowLimit,
                                  useSharedRows);
            state.View() == o.st && built == o.built
    decreases Left(state.View()), 7
  {
    hide Ascii, P.BuildTable, P.BuildArrayRows, P.Unsupported, P.HasArrayMetadata;
    if id * state.ancestors != {} {
      built := BuildUnsupported(P.CIRCULAR, maximumJsonBytes, state, CircularReference);
      return;
    }
    state.ancestors := state.ancestors + id;
    var metadata := HasArrayMetadata(node);
    if metadata {
      built := BuildTable(w, elems, node, maximumJsonBytes, state, depth, rowLimit, useSharedRows);
    } else {
      built := BuildArrayRows(w, elems, maximumJsonBytes, state, depth, rowLimit, useSharedRows);
    }
    state.ancestors := state.ancestors - id;
  }

  method BuildTable(w: World, elems: seq<Element>, node: Node, maximumJsonBytes: int, state: LimitState, depth: nat,
                    rowLimit: nat, useSharedRows: bool)
    returns (built: Built)
    requires Left(state.View()) >= 0
    modifies state
    ensures var o := P.BuildTable(w, elems, node, maximumJsonBytes, old(state.View()), depth, rowLimit, useSharedRows);
            state.View() == o.st && built == o.built
    decreases Left(state.View()), 6, 1
  {
    hide Ascii, P.BuildKeys, P.BuildRowsProperty, P.MetadataBeforeRows, P.MetadataAfterRows;
    if maximumJsonBytes < 2 {
      state.AddReason(MaxResultBytes);
      return Omit;
    }
    state.retainedNodes := state.retainedNodes + 1;
    var accumulator := new ObjectAccumulator();
    BuildPriorityKeys(w, node, P.MetadataBeforeRows(state.rowsBeforeMetadata), accumulator, maximumJsonBytes, state,
                      depth, rowLimit);
    BuildRowsProperty(w, elems, accumulator, maximumJsonBytes, state, depth, rowLimit, useSharedRows);
    BuildPriorityKeys(w, node, P.MetadataAfterRows(state.rowsBeforeMetadata), accumulator, maximumJsonBytes, state,
                      depth, rowLimit);
    built := Built(accumulator.byteLength, JObject(accumulator.value));
  }

  method BuildRowsProperty(w: World, elems: seq<Element>, accumulator: ObjectAccumulator, maximumJsonBytes: int,
                           state: LimitState, depth: nat, rowLimit: nat, useSharedRows: bool)
    requires Left(state.View()) >= 0 && accumulator.Valid()
    modifies state, accumulator
    ensures accumulator.Valid()
    ensures var o := P.BuildRowsProperty(w, elems, old(accumulator.View()), maximumJsonBytes, old(state.View()), depth,
                                         rowLimit, useSharedRows);
            state.View() == o.st && accumulator.View() == o.acc
    decreases Left(state.View()), 5
  {
    hide Ascii, P.BuildArrayRows, P.Append, StringSize;
    var commaBytes := if accumulator.propertyCount == 0 then 0 else 1;
    var rowsKeyBytes := StringSize(P.ROWS);
    var rowsBudget := maximumJsonBytes - accumulator.byteLength - commaBytes - rowsKeyBytes - 1;
    var ok := state.ConsumeVisit();
    var rows := Omit;
    if ok {
      rows := BuildArrayRows(w, elems, rowsBudget, state, depth + 1, rowLimit, useSharedRows);
    }
    KeepRows(rows, |elems|, accumulator, maximumJsonBytes, state, rowLimit);
  }

  method KeepRows(rows: Built, length: nat, accumulator: ObjectAccumulator, maximumJsonBytes: int, state: LimitState,
                  rowLimit: nat)
    requires accumulator.Valid()
    modifies state, accumulator
    ensures accumulator.Valid()
    ensures var s := old(state.View());
            if rows.Omit? then
              && accumulator.View() == old(accumulator.View())
              && state.View() == s.(omittedRows := s.omittedRows + length, omittedProperties := s.omittedProperties + 1)
            else
              var p := P.Append(old(accumulator.View()), P.ROWS, rows, maximumJsonBytes, s);
              && accumulator.View() == p.acc
              && state.View() == if p.ok then p.st
                                 else p.st.(omittedRows := p.st.omittedRows + Min(length, rowLimit),
                                            omittedProperties := p.st.omittedProperties + 1)
  {
    hide Ascii, P.Append;
    if rows.Omit? {
      state.omittedRows := state.omittedRows + length;
      state.omittedPropertiesAtLeast := state.omittedPropertiesAtLeast + 1;
      return;
    }
    var ok := AppendBuiltProperty(accumulator, P.ROWS, rows, maximumJsonBytes, state);
    if !ok {
      state.omittedRows := state.omittedRows + Min(length, rowLimit);
      state.omittedPropertiesAtLeast := state.omittedPropertiesAtLeast + 1;
    }
  }

  method BuildArrayRows(w: World, elems: seq<Element>, maximumJsonBytes: int, state: LimitState, depth: nat,
                        rowLimit: nat, useSharedRows: bool)
    returns (built: Built)
    requires Left(state.View()) >= 0
    modifies state
    ensures var o := P.BuildArrayRows(w, elems, maximumJsonBytes, old(state.View()), depth, rowLimit, useSharedRows);
            state.View() == o.st && built == o.built
    decreases Left(state.View()), 4
  {
    hide P.BuildRows, P.CloseRows;
    if maximumJsonBytes < 2 {
      state.AddReason(MaxResultBytes);
      return Omit;
    }
    var sharedRows := useSharedRows && !state.inDiagnostics;
    var retainedLength := P.RetainedLength(|elems|, state.View(), rowLimit, useSharedRows);
    state.retainedNodes := state.retainedNodes + 1;
    var output, byteLength := BuildRows(w, elems[..Max(0, retainedLength)], maximumJsonBytes, state, depth, rowLimit);
    CloseRows(state, |elems|, retainedLength, |output|, sharedRows);
    built := Built(byteLength, JArray(output));
  }

  method CloseRows(state: LimitState, length: nat, retainedLength: int, processedRows: nat, sharedRows: bool)
    modifies state
    ensures state.View() == P.CloseRows(old(state.View()), length, retainedLength, processedRows, sharedRows)
  {
    if sharedRows {
      state.maximumArrayRows := Max(state.maximumArrayRows, processedRows);
      state.remainingRows := state.remainingRows - processedRows;
      state.retainedRows := state.retainedRows + processedRows;
    }
    if retainedLength < length {
      state.AddReason(MaxRows);
    }
    if processedRows < length && !state.inDiagnostics {
      state.omittedRows := state.omittedRows + length - processedRows;
    }
  }

  /** One turn of the row loop. */
  lemma RowsNext(w: World, elems: seq<Element>, i: nat, budget: int, s: State, depth: nat, rowLimit: nat,
                 items: seq<Json>, byteLength: nat)
    requires Left(s) >= 0 && i < |elems|
    ensures var t, atomic := P.NoteElement(s, elems[i]), P.Atomic(w, s, elems[i]);
            var r := P.BuildRows(w, elems[i..], budget, s, depth, rowLimit, items, byteLength);
            if atomic && depth + 2 > MAX_RESULT_DEPTH
            then r == P.RowsOut(AddReason(t, MaxResultDepth), items, byteLength)
            else
              var o := P.BuildValue(w, P.EntryOf(elems[i]), budget - byteLength - CommaSize(items), t, depth + 1,
                                    rowLimit,
                                    false);
              if P.Unusable(atomic, t, o) then r == P.RowsOut(o.st.(retainedNodes := t.retainedNodes), items,
                                                              byteLength)
              else r == P.BuildRows(w, elems[i + 1..], budget, o.st, depth, rowLimit, items + [o.built.value],
                                    byteLength + CommaSize(items) + o.built.byteLength)
  {
    hide P.BuildValue, P.Atomic, P.EntryOf, P.NoteElement;
    assert elems[i..][1..] == elems[i + 1..] && elems[i..][0] == elems[i];
  }

  lemma RowsEnd(w: World, budget: int, s: State, depth: nat, rowLimit: nat, items: seq<Json>, byteLength: nat)
    requires Left(s) >= 0
    ensures P.BuildRows(w, [], budget, s, depth, rowLimit, items, byteLength) == P.RowsOut(s, items, byteLength)
  {
  }

  method BuildRows(w: World, elems: seq<Element>, maximumJsonBytes: int, state: LimitState, depth: nat, rowLimit: nat)
    returns (output: seq<Json>, byteLength: nat)
    requires Left(state.View()) >= 0
    modifies state
    ensures var o := P.BuildRows(w, elems, maximumJsonBytes, old(state.View()), depth, rowLimit, [], 2);
            state.View() == o.st && output == o.items && byteLength == o.byteLength
    decreases Left(state.View()), 3
  {
    hide P.BuildValue, P.BuildRows, P.Atomic, P.EntryOf, P.NoteElement;
    output, byteLength := [], 2;
    ghost var goal := P.BuildRows(w, elems, maximumJsonBytes, state.View(), depth, rowLimit, [], 2);
    ghost var left := Left(state.View());
    assert elems[0..] == elems;
    for index := 0 to |elems|
      invariant 0 <= Left(state.View()) <= left
      invariant P.BuildRows(w, elems[index..], maximumJsonBytes, state.View(), depth, rowLimit, output, byteLength)
                == goal
    {
      RowsNext(w, elems, index, maximumJsonBytes, state.View(), depth, rowLimit, output, byteLength);
      var commaBytes := if |output| == 0 then 0 else 1;
      var childBudget := maximumJsonBytes - byteLength - commaBytes;
      var atomicDiagnostic := P.Atomic(w, state.View(), elems[index]);
      NoteElement(state, elems[index]);
      if atomicDiagnostic && depth + 2 > MAX_RESULT_DEPTH {
        state.AddReason(MaxResultDepth);
        return;
      }
      var retainedNodesBefore, omittedPropertiesBefore := state.retainedNodes, state.omittedPropertiesAtLeast;
      var item := BuildValue(w, P.EntryOf(elems[index]), childBudget, state, depth + 1, rowLimit, false);
      if item.Omit?
          || (atomicDiagnostic && (!item.value.JObject? || state.omittedPropertiesAtLeast > omittedPropertiesBefore)) {
        state.retainedNodes := retainedNodesBefore;
        return;
      }
      output := output + [item.value];
      byteLength := byteLength + commaBytes + item.byteLength;
    }
    assert elems[|elems|..] == [];
    RowsEnd(w, maximumJsonBytes, state.View(), depth, rowLimit, output, byteLength);
  }

  method NoteElement(state: LimitState, e: Element)
    modifies state
    ensures state.View() == P.NoteElement(old(state.View()), e)
    ensures Left(state.View()) == old(Left(state.View()))
  {
    if e.Elem? && e.slot.Accessor? {
      state.AddReason(AccessorOmitted);
    }
  }

  // ----- one projection -----

  method ValidateResultLimits(o: Options) returns (refused: Option<Refusal>)
    ensures refused.None? <==> ValidOptions(o)
    ensures refused == Refused(o)
  {
    var names := [BadResultBytes, BadResultNodes, BadRows, BadStringChars];
    var values := [o.maxResultBytes, o.maxResultNodes, o.maxRows, o.maxStringChars];
    for i := 0 to 4
      invariant i > 0 ==> PositiveSafe(o.maxResultBytes)
      invariant i > 1 ==> PositiveSafe(o.maxResultNodes)
      invariant i > 2 ==> PositiveSafe(o.maxRows)
      invariant i > 3 ==> PositiveSafe(o.maxStringChars)
    {
      if !PositiveSafe(values[i]) {
        return Some(names[i]);
      }
    }
    if o.maxResultBytes < 4 {
      return Some(BadResultBytes);
    }
    return None;
  }

  method LimitResultWithRowPriority(w: World, value: Value, o: Options, rowsBeforeMetadata: bool)
    returns (r: Attempt<LimitResult>)
    ensures r == if ValidOptions(o)
            && o.maxResultNodes > 0 then Ok(ProjectResult(w, value, LimitsOf(o), rowsBeforeMetadata))
                 else RangeError(Refused(o).value)
  {
    hide P.BuildValue, RowCountOf, Ordered;
    var refused := ValidateResultLimits(o);
    if refused.Some? {
      return RangeError(refused.value);
    }
    var limits := LimitsOf(o);
    var state := new LimitState(limits, rowsBeforeMetadata);
    var rowCount := RowCountOf(w, value);
    var built := BuildValue(w, value, limits.maxResultBytes, state, 0, limits.maxRows, true);
    if built.Omit? {
      state.AddReason(MaxResultBytes);
    }
    r := Ok(LimitResult(if built.Omit? then 4 else built.byteLength, state.visitedNodes, state.maximumArrayRows,
                        state.retainedRows, state.diagnostics, state.hasErrors, rowCount, SummaryOf(state.View()),
                        if built.Omit? then JNull else built.value));
  }

  method ProjectWithin(w: World, value: Value, o: Options, rowsBeforeMetadata: bool) returns (r: Attempt<LimitResult>)
    ensures r == TryProject(w, value, o, rowsBeforeMetadata)
  {
    hide RowCountOf, ProjectResult;
    if o.maxResultNodes == 0 {
      return Ok(ExhaustedProjection(RowCountOf(w, value)));
    }
    r := LimitResultWithRowPriority(w, value, o, rowsBeforeMetadata);
  }
}
