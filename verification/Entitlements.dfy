/**
 Entitlement (EID) metadata: the bounded scan that prepares it and the summary
 of what was emitted (`result-entitlements.ts`).
 */
module Entitlements {
  import opened JsText
  import opened Json
  import opened JsHeap
  import opened ResultTypes

  const MAX_BLOOMBERG_EID: nat := 2147483647
  const MAX_ENTITLEMENT_EIDS: nat := 10000
  const MAX_EID_SECURITIES: nat := 1000
  const MAX_EID_SECURITY_NAME_BYTES: nat := 65536

  const EID_DATA := Ascii("eidData")
  const EID_DATA_TRUNCATION := Ascii("eidDataTruncation")
  const TOTAL_SECURITY_COUNT := Ascii("totalSecurityCount")
  const RETAINED_SECURITY_COUNT := Ascii("retainedSecurityCount")
  const OMITTED_SECURITY_COUNT := Ascii("omittedSecurityCount")
  const INVALID_SECURITY_COUNT := Ascii("invalidSecurityCount")
  const SCANNED_SECURITY_COUNT := Ascii("scannedSecurityCount")
  const TOTAL_EID_COUNT := Ascii("totalEidCount")
  const RETAINED_EID_COUNT := Ascii("retainedEidCount")
  const SECURITY_COUNTS := Ascii("securityCounts")
  const ORIGINAL_COUNT := Ascii("originalCount")
  const RETAINED_COUNT := Ascii("retainedCount")

  function Min(a: int, b: int): int { if a < b then a else b }

  /** UTF-8 length of a string; an unpaired surrogate encodes as three bytes. */
  function Utf8Length(s: Str): nat {
    if s == [] then 0
    else
      (if WidthAt(s, 0) == 2 then 4 else if s[0] <= 0x7F then 1 else if s[0] <= 0x7FF then 2 else 3)
      + Utf8Length(s[WidthAt(s, 0)..])
  }

  method Utf8ByteLengthAtMost(value: Str, maximum: nat) returns (r: Option<nat>)
    ensures r == if Utf8Length(value) <= maximum then Some(Utf8Length(value)) else None
  {
    var byteLength, index := 0, 0;
    assert value[0..] == value;
    while index < |value|
      invariant 0 <= index <= |value| && 0 <= byteLength <= maximum
      invariant byteLength + Utf8Length(value[index..]) == Utf8Length(value)
      decreases |value| - index
    {
      var code := value[index];
      var rest := value[index..];
      var width, bytes := 1, 3;
      if code <= 0x7F {
        bytes := 1;
      } else if code <= 0x7FF {
        bytes := 2;
      } else if IsHigh(code) && index + 1 < |value| && IsLow(value[index + 1]) {
        bytes, width := 4, 2;
      }
      assert WidthAt(rest, 0) == width;
      assert rest[width..] == value[index + width..];
      byteLength := byteLength + bytes;
      if byteLength > maximum {
        return None;
      }
      index := index + width;
    }
    assert value[index..] == [];
    r := Some(byteLength);
  }

  // ----- scanning -----

  /** A security kept by the scan: how many EIDs it had and the ones retained. */
  datatype EidEntry = EidEntry(security: Str, original: nat, eids: seq<int>)

  datatype Outcome = Complete | Incomplete | Invalid
  datatype EidScan = EidScan(st: State, kept: seq<int>, outcome: Outcome)

  /** `consumeVisitBefore` */
  function VisitBefore(s: State, limit: int): (State, bool) {
    if s.visitedNodes >= limit || s.visitedNodes >= s.limits.maxResultNodes
    then (AddReason(s, MaxResultNodes), false)
    else (s.(visitedNodes := s.visitedNodes + 1), true)
  }

  predicate ValidEid(e: Element) {
    && e.Elem? && e.slot.Data? && e.slot.value.VNum? && e.slot.value.num.Int?
    && 0 < e.slot.value.num.value <= MAX_BLOOMBERG_EID
  }

  /** The inner loop: every EID is validated, the first `capacity` of a retainable security are kept. */
  function ScanEids(eids: seq<Element>, s: State, limit: int, keep: bool, capacity: nat, kept: seq<int>): (r: EidScan)
    requires Left(s) >= 0
    ensures Onward(s, r.st)
  {
    if eids == [] then EidScan(s, kept, Complete)
    else
      var (s, ok) := VisitBefore(s, limit);
      if !ok then EidScan(s, kept, Incomplete)
      else if !ValidEid(eids[0]) then EidScan(AddReason(s, InvalidEntitlementData), kept, Invalid)
      else
        var kept := if keep && |kept| < capacity then kept + [eids[0].slot.value.num.value] else kept;
        ScanEids(eids[1..], s, limit, keep, capacity, kept)
  }

  /** Counters of the security loop; `capped` counts valid securities dropped by a cap. */
  datatype Tally = Tally(
    st: State, complete: bool, invalid: nat, capped: nat, retainedEids: nat, nameBytes: nat, scanned: nat,
    totalEids: nat, data: seq<EidEntry>)

  function Retainable(t: Tally, security: Str): bool {
    |t.data| < MAX_EID_SECURITIES && t.nameBytes + Utf8Length(security) <= MAX_EID_SECURITY_NAME_BYTES
  }

  function Capacity(t: Tally): nat {
    if t.retainedEids < MAX_ENTITLEMENT_EIDS then MAX_ENTITLEMENT_EIDS - t.retainedEids else 0
  }

  /** One security with an array value, after its EIDs were scanned. */
  function TakeSecurity(t: Tally, security: Str, count: nat, scan: EidScan): (r: Tally)
    ensures Onward(scan.st, r.st)
  {
    var t := t.(st := scan.st, complete := t.complete && !scan.outcome.Incomplete?);
    if scan.outcome.Invalid? then t.(invalid := t.invalid + 1)
    else
      var t := t.(totalEids := Min(MAX_SAFE_INTEGER, t.totalEids + count));
      if !Retainable(t, security) then t.(st := AddReason(t.st, EntitlementLimit), capped := t.capped + 1)
      else
        t.(st := if scan.outcome.Complete? && |scan.kept| != count then AddReason(t.st, EntitlementLimit) else t.st,
           retainedEids := t.retainedEids + |scan.kept|,
           nameBytes := t.nameBytes + Utf8Length(security),
           data := t.data + [EidEntry(security, count, scan.kept)])
  }

  function ElemsOf(w: World, slot: Slot): Option<seq<Element>> {
    if slot.Data? && IsArray(w, slot.value) then Some(NodeOf(w, slot.value).value.kind.elems) else None
  }

  function ScanSecurity(w: World, node: Node, security: Str, limit: int, t: Tally): (r: Tally)
    requires Left(t.st) >= 0
    ensures Onward(t.st, r.st)
  {
    var (s, ok) := VisitBefore(t.st, limit);
    var t := t.(st := s);
    if !ok then t.(complete := false)
    else
      var t := t.(scanned := t.scanned + 1);
      var slot := Lookup(node.props, security);
      if slot.None? then t
      else
        var elems := ElemsOf(w, slot.value);
        if elems.None? then t.(st := AddReason(t.st, InvalidEntitlementData), invalid := t.invalid + 1)
        else
          TakeSecurity(t, security, |elems.value|,
                       ScanEids(elems.value, t.st, limit, Retainable(t, security), Capacity(t), []))
  }

  function ScanSecurities(w: World, node: Node, keys: seq<Str>, limit: int, t: Tally): (r: Tally)
    requires Left(t.st) >= 0
    ensures Onward(t.st, r.st)
    decreases |keys|
  {
    if keys == [] || !t.complete then t
    else ScanSecurities(w, node, keys[1..], limit, ScanSecurity(w, node, keys[0], limit, t))
  }

  datatype Prepared = Prepared(
    st: State, data: seq<EidEntry>, invalid: nat, scanned: nat, totalEids: Option<nat>,
    totalSecurities: Option<nat>, truncated: bool)

  /** Half of the nodes left after reserving up to sixteen for the summary. */
  function EidVisitLimit(s: State): int {
    var reserved := Min(16, Max(0, Left(s) - 1));
    s.visitedNodes + Max(1, (Left(s) - reserved) / 2)
  }

  function Tally0(s: State): Tally {
    Tally(s, true, 0, 0, 0, 0, 0, 0, [])
  }

  function TallyOf(w: World, value: Value, s: State): (t: Tally)
    requires Left(s) >= 0 && IsPlain(w, value)
    ensures Onward(s, t.st)
  {
    var node := NodeOf(w, value).value;
    ScanSecurities(w, node, Keys(node.props), EidVisitLimit(s), Tally0(s))
  }

  predicate Lost(t: Tally) {
    || !t.complete
    || t.invalid > 0
    || t.scanned - |t.data| - t.invalid != 0
    || t.retainedEids != t.totalEids
  }

  function PrepareEidData(w: World, value: Value, s: State): (p: Prepared)
    requires Left(s) >= 0
    ensures Onward(s, p.st)
  {
    if !IsPlain(w, value) then
      Prepared(AddReason(s, InvalidEntitlementData), [], 1, 1, Some(0), Some(1), true)
    else
      var t := TallyOf(w, value, s);
      Prepared(t.st, t.data, t.invalid, t.scanned, if t.complete then Some(t.totalEids) else None,
               if t.complete then Some(t.scanned) else None, Lost(t))
  }

  function EidItems(eids: seq<int>): seq<Json> {
    seq(|eids|, i requires 0 <= i < |eids| => JNumber(Int(eids[i])))
  }

  /** The record of retained EIDs that is emitted under `eidData`. */
  function EidRecord(data: seq<EidEntry>): Json {
    JObject(seq(|data|, i requires 0 <= i < |data| => Member(data[i].security, JArray(EidItems(data[i].eids)))))
  }

  // ----- what the scan guarantees -----

  function SumEids(data: seq<EidEntry>): nat {
    if data == [] then 0 else SumEids(data[..|data| - 1]) + |data[|data| - 1].eids|
  }

  function SumOriginal(data: seq<EidEntry>): nat {
    if data == [] then 0 else SumOriginal(data[..|data| - 1]) + data[|data| - 1].original
  }

  function SumNames(data: seq<EidEntry>): nat {
    if data == [] then 0 else SumNames(data[..|data| - 1]) + Utf8Length(data[|data| - 1].security)
  }

  /** `eids` are the leading entries of `elems`, all of them valid. */
  ghost predicate LeadingEids(elems: seq<Element>, eids: seq<int>) {
    && |eids| <= |elems|
    && forall i :: 0 <= i < |eids| ==> ValidEid(elems[i]) && elems[i].slot.value.num.value == eids[i]
  }

  ghost predicate FromRecord(w: World, node: Node, e: EidEntry) {
    var slot := Lookup(node.props, e.security);
    && slot.Some?
    && ElemsOf(w, slot.value).Some?
    && |ElemsOf(w, slot.value).value| == e.original
    && LeadingEids(ElemsOf(w, slot.value).value, e.eids)
  }

  /** What holds after the first `t.scanned` of the securities `all` were scanned. */
  ghost predicate Tallied(w: World, node: Node, all: seq<Str>, t: Tally) {
    && Counted(all, t)
    && Recorded(w, node, t.data)
    && (t.invalid == 0 && t.capped == 0 ==> InOrder(all, t.data, t.totalEids))
  }

  ghost predicate Counted(all: seq<Str>, t: Tally) {
    && t.scanned == |t.data| + t.invalid + t.capped <= |all|
    && t.retainedEids == SumEids(t.data) <= MAX_ENTITLEMENT_EIDS
    && |t.data| <= MAX_EID_SECURITIES
    && t.nameBytes == SumNames(t.data) <= MAX_EID_SECURITY_NAME_BYTES
  }

  ghost predicate Recorded(w: World, node: Node, data: seq<EidEntry>) {
    forall i :: 0 <= i < |data| ==> FromRecord(w, node, data[i])
  }

  ghost predicate InOrder(all: seq<Str>, data: seq<EidEntry>, totalEids: nat) {
    && |data| <= |all|
    && totalEids == Min(MAX_SAFE_INTEGER, SumOriginal(data))
    && forall i :: 0 <= i < |data| ==> data[i].security == all[i]
  }

  lemma {:induction false} ScanEidsLeading(all: seq<Element>, m: nat, s: State, limit: int, keep: bool, capacity: nat,
                                           kept: seq<int>)
    requires Left(s) >= 0 && m <= |all|
    requires LeadingEids(all[..m], kept) && |kept| <= capacity
    requires keep && |kept| < capacity ==> |kept| == m
    ensures var r := ScanEids(all[m..], s, limit, keep, capacity, kept);
            LeadingEids(all, r.kept) && |r.kept| <= capacity
    decreases |all| - m
  {
    if m < |all| {
      var (s1, ok) := VisitBefore(s, limit);
      if ok && ValidEid(all[m]) {
        var kept1 := if keep && |kept| < capacity then kept + [all[m].slot.value.num.value] else kept;
        assert all[m..][1..] == all[m + 1..];
        ScanEidsLeading(all, m + 1, s1, limit, keep, capacity, kept1);
      }
    }
  }

  lemma SumsAppend(data: seq<EidEntry>, e: EidEntry)
    ensures SumEids(data + [e]) == SumEids(data) + |e.eids|
    ensures SumOriginal(data + [e]) == SumOriginal(data) + e.original
    ensures SumNames(data + [e]) == SumNames(data) + Utf8Length(e.security)
  {
    assert (data + [e])[..|data|] == data;
  }

  lemma RetainedCounted(all: seq<Str>, t: Tally, e: EidEntry, r: Tally)
    requires Counted(all, t) && t.scanned < |all| && Retainable(t, e.security) && |e.eids| <= Capacity(t)
    requires r.data == t.data + [e] && r.scanned == t.scanned + 1 && r.invalid == t.invalid && r.capped == t.capped
    requires r.retainedEids == t.retainedEids + |e.eids| && r.nameBytes == t.nameBytes + Utf8Length(e.security)
    ensures Counted(all, r)
  {
    hide Utf8Length, SumEids, SumNames, SumOriginal;
    SumsAppend(t.data, e);
  }

  lemma PassedCounted(all: seq<Str>, t: Tally, r: Tally)
    requires Counted(all, t) && t.scanned < |all|
    requires r.data == t.data && r.retainedEids == t.retainedEids && r.nameBytes == t.nameBytes
    requires r.scanned == t.scanned + 1 && r.invalid + r.capped == t.invalid + t.capped + 1
    ensures Counted(all, r)
  {
    hide Utf8Length, SumEids, SumNames, SumOriginal;
  }

  lemma TakeSecurityCounted(all: seq<Str>, t: Tally, count: nat, scan: EidScan)
    requires Counted(all, t) && t.scanned < |all| && |scan.kept| <= Capacity(t)
    ensures Counted(all, TakeSecurity(t.(scanned := t.scanned + 1), all[t.scanned], count, scan))
  {
    hide Utf8Length, Counted, AddReason;
    var security := all[t.scanned];
    var r := TakeSecurity(t.(scanned := t.scanned + 1), security, count, scan);
    if scan.outcome.Invalid? || !Retainable(t, security) {
      PassedCounted(all, t, r);
    } else {
      RetainedCounted(all, t, EidEntry(security, count, scan.kept), r);
    }
  }

  lemma RetainedInOrder(all: seq<Str>, data: seq<EidEntry>, totalEids: nat, e: EidEntry)
    requires InOrder(all, data, totalEids) && |data| < |all| && e.security == all[|data|]
    ensures InOrder(all, data + [e], Min(MAX_SAFE_INTEGER, totalEids + e.original))
  {
    hide SumEids, SumNames, SumOriginal, Utf8Length;
    SumsAppend(data, e);
  }

  lemma TakeSecurityInOrder(all: seq<Str>, t: Tally, count: nat, scan: EidScan)
    requires Counted(all, t) && t.scanned < |all|
    requires t.invalid == 0 && t.capped == 0 ==> InOrder(all, t.data, t.totalEids)
    ensures var r := TakeSecurity(t.(scanned := t.scanned + 1), all[t.scanned], count, scan);
            r.invalid == 0 && r.capped == 0 ==> InOrder(all, r.data, r.totalEids)
  {
    hide Utf8Length, SumEids, SumNames, SumOriginal, InOrder, AddReason, Capacity;
    var security := all[t.scanned];
    var r := TakeSecurity(t.(scanned := t.scanned + 1), security, count, scan);
    if r.invalid == 0 && r.capped == 0 {
      RetainedInOrder(all, t.data, t.totalEids, EidEntry(security, count, scan.kept));
    }
  }

  lemma TakeSecurityTallied(w: World, node: Node, all: seq<Str>, t: Tally, elems: seq<Element>, scan: EidScan)
    requires Tallied(w, node, all, t) && t.scanned < |all|
    requires FromRecord(w, node, EidEntry(all[t.scanned], |elems|, scan.kept)) && |scan.kept| <= Capacity(t)
    ensures var r := TakeSecurity(t.(scanned := t.scanned + 1), all[t.scanned], |elems|, scan);
            Tallied(w, node, all, r) && r.scanned == t.scanned + 1
  {
    hide Utf8Length, SumEids, SumNames, InOrder, FromRecord;
    TakeSecurityCounted(all, t, |elems|, scan);
    TakeSecurityInOrder(all, t, |elems|, scan);
  }

  lemma ScanSecurityTallied(w: World, node: Node, all: seq<Str>, limit: int, t: Tally)
    requires Left(t.st) >= 0 && Tallied(w, node, all, t) && t.scanned < |all|
    requires Lookup(node.props, all[t.scanned]).Some?
    ensures var r := ScanSecurity(w, node, all[t.scanned], limit, t);
            Tallied(w, node, all, r) && (r.complete && t.complete ==> r.scanned == t.scanned + 1)
  {
    hide Utf8Length, SumEids, SumNames, ScanEids, InOrder, TakeSecurity;
    var security := all[t.scanned];
    var (s, ok) := VisitBefore(t.st, limit);
    if ok {
      var elems := ElemsOf(w, Lookup(node.props, security).value);
      if elems.Some? {
        var t1 := t.(st := s);
        var scan := ScanEids(elems.value, s, limit, Retainable(t1, security), Capacity(t1), []);
        assert elems.value[0..] == elems.value && elems.value[..0] == [];
        ScanEidsLeading(elems.value, 0, s, limit, Retainable(t1, security), Capacity(t1), []);
        TakeSecurityTallied(w, node, all, t1, elems.value, scan);
      }
    }
  }

  lemma {:induction false} ScanSecuritiesTallied(w: World, node: Node, all: seq<Str>, limit: int, t: Tally)
    requires Left(t.st) >= 0 && forall k :: k in all ==> Lookup(node.props, k).Some?
    requires Tallied(w, node, all, t)
    ensures var r := ScanSecurities(w, node, all[t.scanned..], limit, t);
            Tallied(w, node, all, r) && (r.complete ==> t.complete && r.scanned == |all|)
    decreases |all| - t.scanned
  {
    hide ScanSecurity, Recorded, InOrder;
    if t.scanned < |all| && t.complete {
      var t1 := ScanSecurity(w, node, all[t.scanned], limit, t);
      ScanSecurityTallied(w, node, all, limit, t);
      assert all[t.scanned..][1..] == all[t.scanned + 1..];
      if t1.complete {
        ScanSecuritiesTallied(w, node, all, limit, t1);
      }
    }
  }

  lemma {:induction false} EqualSums(data: seq<EidEntry>)
    requires forall i :: 0 <= i < |data| ==> |data[i].eids| <= data[i].original
    ensures SumEids(data) <= SumOriginal(data)
    ensures SumEids(data) == SumOriginal(data) ==> forall i :: 0 <= i < |data| ==> |data[i].eids| == data[i].original
  {
    if data != [] {
      EqualSums(data[..|data| - 1]);
    }
  }

  /**
   Accounting of the scan: every scanned security is retained, invalid or dropped by
   a cap; retained lists are valid leading EIDs within the caps; a complete scan saw
   every security; and an unflagged scan lost nothing.
   */
  lemma PreparedAccounting(w: World, value: Value, s: State)
    requires Left(s) >= 0 && IsPlain(w, value)
    ensures var node, t, p := NodeOf(w, value).value, TallyOf(w, value, s), PrepareEidData(w, value, s);
            && p.scanned == |p.data| + p.invalid + t.capped
            && (t.complete ==> p.scanned == |Keys(node.props)|)
            && |p.data| <= MAX_EID_SECURITIES && SumEids(p.data) <= MAX_ENTITLEMENT_EIDS
            && SumNames(p.data) <= MAX_EID_SECURITY_NAME_BYTES
            && (forall i :: 0 <= i < |p.data| ==> FromRecord(w, node, p.data[i]))
            && (!p.truncated ==>
                  && |p.data| == |Keys(node.props)|
                  && forall i :: 0 <= i < |p.data| ==>
                       p.data[i].security == Keys(node.props)[i] && |p.data[i].eids| == p.data[i].original)
  {
    hide Utf8Length, Keys, SumEids, SumOriginal, SumNames, FromRecord, ScanSecurities, InOrder;
    var node := NodeOf(w, value).value;
    var keys := Keys(node.props);
    assert keys[0..] == keys;
    KeysSpec(node.props);
    Tallied0(w, node, keys, s);
    ScanSecuritiesTallied(w, node, keys, EidVisitLimit(s), Tally0(s));
    var t := TallyOf(w, value, s);
    if !Lost(t) { UnflaggedWhole(w, node, keys, t); }
  }

  lemma Tallied0(w: World, node: Node, keys: seq<Str>, s: State)
    ensures Tallied(w, node, keys, Tally0(s))
  {
  }

  lemma UnflaggedWhole(w: World, node: Node, keys: seq<Str>, t: Tally)
    requires Tallied(w, node, keys, t) && !Lost(t) && t.scanned == |keys|
    ensures |t.data| == |keys|
    ensures forall i :: 0 <= i < |keys| ==> t.data[i].security == keys[i] && |t.data[i].eids| == t.data[i].original
  {
    hide Utf8Length, SumEids, SumOriginal, SumNames, FromRecord;
    RecordedShort(w, node, t.data);
    EqualSums(t.data);
  }

  lemma RecordedShort(w: World, node: Node, data: seq<EidEntry>)
    requires Recorded(w, node, data)
    ensures forall i :: 0 <= i < |data| ==> |data[i].eids| <= data[i].original
  {
    forall i | 0 <= i < |data| ensures |data[i].eids| <= data[i].original {
      assert FromRecord(w, node, data[i]);
    }
  }

  // ----- the summary emitted beside the data -----

  datatype SecurityCount = SecurityCount(original: Option<nat>, retained: nat)

  datatype Summary = Summary(
    retainedEids: nat, totalEids: Option<nat>, retainedSecurities: nat, totalSecurities: Option<nat>,
    counts: seq<SecurityCount>, invalid: nat, omitted: Option<nat>, scanned: nat)

  datatype Count = Undefined | Null | Num(n: nat)

  /** `eidSummaryCount`: a stored count is null or a non-negative safe integer. */
  function SummaryCount(summary: Option<Node>, key: Str): Count {
    if summary.None? then Undefined
    else
      var slot := Lookup(summary.value.props, key);
      if slot.None? || !slot.value.Data? then Undefined
      else
        match slot.value.value
        case VNull => Null
        case VNum(Int(n)) => if 0 <= n <= MAX_SAFE_INTEGER then Num(n) else Undefined
        case _ => Undefined
  }

  function PriorRecord(w: World, source: Node): Option<Node> {
    var slot := Lookup(source.props, EID_DATA_TRUNCATION);
    if slot.Some? && slot.value.Data? then NodeOf(w, slot.value.value) else None
  }

  function CountsFrom(w: World, elems: seq<Element>): seq<SecurityCount> {
    if elems == [] || !elems[0].Elem? || !elems[0].slot.Data? || NodeOf(w, elems[0].slot.value).None? then []
    else
      var original := SummaryCount(NodeOf(w, elems[0].slot.value), ORIGINAL_COUNT);
      var retained := SummaryCount(NodeOf(w, elems[0].slot.value), RETAINED_COUNT);
      if original.Undefined? || !retained.Num? then []
      else
        [SecurityCount(if original.Num? then Some(original.n) else None, retained.n)] + CountsFrom(w, elems[1..])
  }

  function PriorCounts(w: World, prior: Option<Node>): seq<SecurityCount> {
    if prior.None? then []
    else
      var slot := Lookup(prior.value.props, SECURITY_COUNTS);
      if slot.None? || ElemsOf(w, slot.value).None? then [] else CountsFrom(w, ElemsOf(w, slot.value).value)
  }

  /** Counts of the emitted securities, aligned by position with the prepared or the prior ones. */
  function EmittedCounts(props: seq<Member>, data: seq<EidEntry>, prior: Option<seq<SecurityCount>>,
                         counts: seq<SecurityCount>)
    : seq<SecurityCount>
  {
    if props == [] then counts
    else if !props[0].value.JArray? then EmittedCounts(props[1..], data, prior, counts)
    else
      var retained, k := |props[0].value.items|, |counts|;
      var original :=
        if prior.None? then Some(if k < |data| then data[k].original else retained)
        else if k < |prior.value| then prior.value[k].original
        else None;
      EmittedCounts(props[1..], data, prior, counts + [SecurityCount(original, retained)])
  }

  function RetainedSum(counts: seq<SecurityCount>): nat {
    if counts == [] then 0
    else Min(MAX_SAFE_INTEGER, RetainedSum(counts[..|counts| - 1]) + counts[|counts| - 1].retained)
  }

  function Known(c: Count): Option<nat> {
    if c.Num? then Some(c.n) else None
  }

  /** `emittedEidTruncation`: no summary means that nothing was lost. */
  function EmittedSummary(w: World, source: Node, emitted: Json, p: Prepared): Option<Summary> {
    var prior := PriorRecord(w, source);
    var counts := EmittedCounts(if emitted.JObject? then emitted.props else [], p.data,
                                if prior.None? then None else Some(PriorCounts(w, prior)), []);
    var totalEids := if prior.None? then p.totalEids else Known(SummaryCount(prior, TOTAL_EID_COUNT));
    var totalSecurities := if prior.None? then p.totalSecurities else Known(SummaryCount(prior, TOTAL_SECURITY_COUNT));
    var priorInvalid := SummaryCount(prior, INVALID_SECURITY_COUNT);
    var invalid := if priorInvalid.Num? then priorInvalid.n else p.invalid;
    var priorScanned := SummaryCount(prior, SCANNED_SECURITY_COUNT);
    var scanned := if priorScanned.Num? then priorScanned.n else p.scanned;
    if prior.Some? || p.truncated || totalEids.None? || totalSecurities.None?
       || RetainedSum(counts) != totalEids.value || |counts| + invalid != totalSecurities.value
    then
      Some(Summary(RetainedSum(counts), totalEids, |counts|, totalSecurities, counts, invalid,
                   if totalSecurities.None? then None
                   else Some(Max(0, totalSecurities.value - |counts| - invalid)), scanned))
    else None
  }

  function CountJson(n: Option<nat>): Json {
    if n.None? then JNull else JNumber(Int(n.value))
  }

  function SecurityCountJson(c: SecurityCount): Json {
    JObject([Member(ORIGINAL_COUNT, CountJson(c.original)), Member(RETAINED_COUNT, JNumber(Int(c.retained)))])
  }

  function SummaryJson(s: Summary): Json {
    JObject([
      Member(RETAINED_EID_COUNT, JNumber(Int(s.retainedEids))),
      Member(TOTAL_EID_COUNT, CountJson(s.totalEids)),
      Member(RETAINED_SECURITY_COUNT, JNumber(Int(s.retainedSecurities))),
      Member(TOTAL_SECURITY_COUNT, CountJson(s.totalSecurities)),
      Member(SECURITY_COUNTS,
             JArray(seq(|s.counts|, i requires 0 <= i < |s.counts| => SecurityCountJson(s.counts[i])))),
      Member(INVALID_SECURITY_COUNT, JNumber(Int(s.invalid))),
      Member(OMITTED_SECURITY_COUNT, CountJson(s.omitted)),
      Member(SCANNED_SECURITY_COUNT, JNumber(Int(s.scanned)))])
  }
}
