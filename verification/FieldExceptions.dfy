/**
 Stored field-exception metadata: the document check of the bounded projector
 (`result-diagnostics.ts`) and the reader of the core package (`backends.ts`).
 */
module FieldExceptions {
  import opened JsText
  import opened Json
  import opened JsHeap

  const FIELD := Ascii("field")
  const CATEGORY := Ascii("category")
  const CODE := Ascii("code")
  const SUBCATEGORY := Ascii("subcategory")
  const MESSAGE := Ascii("message")
  const VERSION := Ascii("version")
  const ENTRIES := Ascii("entries")
  const SECURITIES := Ascii("securities")

  function Get(props: seq<Member>, key: Str): Option<Json> {
    if props == [] then None
    else if props[0].key == key then Some(props[0].value)
    else Get(props[1..], key)
  }

  predicate IsText(v: Option<Json>) { v.Some? && v.value.JString? }

  predicate IsTextOrAbsent(v: Option<Json>) { v.None? || v.value.JString? }

  predicate IsInt32(v: Option<Json>) {
    v.Some? && v.value.JNumber? && v.value.num.Int? && -2147483648 <= v.value.num.value <= 2147483647
  }

  // ----- the projector's reader -----

  /** Absent `entries` means the legacy layout with exceptions stored in place. */
  datatype Document = Document(entries: Option<seq<Json>>, securities: seq<Member>)

  predicate IsException(j: Json, compact: bool) {
    && j.JObject?
    && var p := j.props;
       if compact then
         IsText(Get(p, FIELD)) && IsText(Get(p, CATEGORY)) && IsInt32(Get(p, CODE))
         && IsText(Get(p, SUBCATEGORY)) && IsText(Get(p, MESSAGE))
       else
         && IsTextOrAbsent(Get(p, FIELD)) && IsTextOrAbsent(Get(p, CATEGORY))
         && (Get(p, CODE).None? || Get(p, CODE).value.JNumber? || Get(p, CODE).value.JString?)
         && IsTextOrAbsent(Get(p, SUBCATEGORY)) && IsTextOrAbsent(Get(p, MESSAGE))
  }

  /** The exception an occurrence denotes, or none when the projector throws. */
  function ExceptionAt(occurrence: Json, entries: Option<seq<Json>>): (r: Option<Json>)
    ensures r.Some? ==> r.value.JObject?
  {
    if entries.None? then
      if IsException(occurrence, false) then Some(occurrence) else None
    else if occurrence.JNumber? && occurrence.num.Int? && occurrence.num.value <= MAX_SAFE_INTEGER
            && 0 <= occurrence.num.value < |entries.value|
            && IsException(entries.value[occurrence.num.value], true)
    then Some(entries.value[occurrence.num.value])
    else None
  }

  predicate ValidList(j: Json, entries: Option<seq<Json>>) {
    j.JArray? && forall i :: 0 <= i < |j.items| ==> ExceptionAt(j.items[i], entries).Some?
  }

  predicate ValidDocument(doc: Document) {
    && (doc.entries.Some? ==> forall i :: 0 <= i < |doc.entries.value| ==> IsException(doc.entries.value[i], true))
    && forall i :: 0 <= i < |doc.securities| ==> ValidList(doc.securities[i].value, doc.entries)
  }

  predicate ValidLists(securities: seq<Member>, entries: Option<seq<Json>>) {
    forall i :: 0 <= i < |securities| ==> ValidList(securities[i].value, entries)
  }

  lemma DocumentLists(doc: Document)
    requires ValidDocument(doc)
    ensures ValidLists(doc.securities, doc.entries)
  {
    hide ExceptionAt;
  }

  function HasOccurrences(securities: seq<Member>): bool {
    exists i :: 0 <= i < |securities| && securities[i].value.JArray? && securities[i].value.items != []
  }

  /** Layout detection of `buildRawFieldExceptions`, before the occurrences are validated. */
  function Classify(parsed: Json): Option<Document> {
    if !parsed.JObject? then None
    else if Get(parsed.props, ENTRIES).Some? && Get(parsed.props, SECURITIES).Some? then
      var entries, securities := Get(parsed.props, ENTRIES).value, Get(parsed.props, SECURITIES).value;
      if |parsed.props| != 3 || Get(parsed.props, VERSION) != Some(JNumber(Int(1)))
         || !entries.JArray? || !securities.JObject?
      then None
      else Some(Document(Some(entries.items), securities.props))
    else Some(Document(None, parsed.props))
  }

  /** The document the projector accepts, or none when it reports invalid metadata. */
  function ReadDocument(parsed: Json): (r: Option<Document>)
    ensures r.Some? ==> ValidDocument(r.value)
  {
    var doc := Classify(parsed);
    if doc.Some? && ValidDocument(doc.value) then doc else None
  }

  method ValidateOccurrences(doc: Document) returns (valid: bool, hasOccurrences: bool)
    ensures valid <==> ValidDocument(doc)
    ensures valid ==> hasOccurrences == HasOccurrences(doc.securities)
  {
    hasOccurrences := false;
    if doc.entries.Some? {
      for i := 0 to |doc.entries.value|
        invariant forall j :: 0 <= j < i ==> IsException(doc.entries.value[j], true)
      {
        if !IsException(doc.entries.value[i], true) {
          return false, false;
        }
      }
    }
    for i := 0 to |doc.securities|
      invariant forall j :: 0 <= j < i ==> ValidList(doc.securities[j].value, doc.entries)
      invariant hasOccurrences
           <==> exists j :: 0 <= j < i && doc.securities[j].value.JArray? && doc.securities[j].value.items != []
    {
      var occurrences := doc.securities[i].value;
      if !occurrences.JArray? {
        return false, false;
      }
      for k := 0 to |occurrences.items|
        invariant forall j :: 0 <= j < k ==> ExceptionAt(occurrences.items[j], doc.entries).Some?
      {
        if ExceptionAt(occurrences.items[k], doc.entries).None? {
          assert !ValidList(doc.securities[i].value, doc.entries);
          return false, false;
        }
      }
      hasOccurrences := hasOccurrences || |occurrences.items| > 0;
    }
    valid := true;
  }

  // ----- the core package's reader -----

  datatype CoreRead =
    | Rejected
    | Legacy(record: seq<Member>)
    | Envelope(entries: seq<Json>, indices: seq<Member>)

  predicate IsMetadataError(j: Json) {
    && j.JObject?
    && IsTextOrAbsent(Get(j.props, CATEGORY))
    && (Get(j.props, CODE).None? || Get(j.props, CODE).value.JString? || Get(j.props, CODE).value.JNumber?)
    && IsTextOrAbsent(Get(j.props, MESSAGE))
    && IsTextOrAbsent(Get(j.props, SUBCATEGORY))
  }

  predicate IsFieldException(j: Json) {
    IsMetadataError(j) && (Get(j.props, FIELD).None? || Get(j.props, FIELD).value.JString?)
  }

  predicate IsFieldExceptionRecord(parsed: Json) {
    && parsed.JObject?
    && forall i :: 0 <= i < |parsed.props| ==>
         && parsed.props[i].value.JArray?
         && forall j :: 0 <= j < |parsed.props[i].value.items| ==> IsFieldException(parsed.props[i].value.items[j])
  }

  predicate IsCompactFieldException(j: Json) {
    && j.JObject?
    && IsText(Get(j.props, FIELD)) && IsText(Get(j.props, CATEGORY)) && IsInt32(Get(j.props, CODE))
    && IsText(Get(j.props, SUBCATEGORY)) && IsText(Get(j.props, MESSAGE))
  }

  predicate ValidIndices(j: Json, dictionarySize: nat) {
    && j.JArray?
    && forall k :: 0 <= k < |j.items| ==>
         && j.items[k].JNumber? && j.items[k].num.Int? && j.items[k].num.value <= MAX_SAFE_INTEGER
         && 0 <= j.items[k].num.value < dictionarySize
  }

  method ValidateFieldExceptionIndices(securities: seq<Member>, dictionarySize: nat) returns (valid: bool)
    ensures valid <==> forall i :: 0 <= i < |securities| ==> ValidIndices(securities[i].value, dictionarySize)
  {
    for i := 0 to |securities|
      invariant forall j :: 0 <= j < i ==> ValidIndices(securities[j].value, dictionarySize)
    {
      var indices := securities[i].value;
      if !indices.JArray? {
        return false;
      }
      for k := 0 to |indices.items|
        invariant forall j :: 0 <= j < k ==>
          && indices.items[j].JNumber? && indices.items[j].num.Int?
          && indices.items[j].num.value <= MAX_SAFE_INTEGER && 0 <= indices.items[j].num.value < dictionarySize
      {
        var index := indices.items[k];
        if !index.JNumber? || !index.num.Int? || index.num.value > MAX_SAFE_INTEGER || index.num.value < 0
           || index.num.value >= dictionarySize
        {
          assert !ValidIndices(securities[i].value, dictionarySize);
          return false;
        }
      }
    }
    valid := true;
  }

  /** `fieldExceptionsFromMetadata` on parsed metadata. */
  function CoreReader(parsed: Json): CoreRead {
    if !parsed.JObject? then Rejected
    else
      var entries, securities := Get(parsed.props, ENTRIES), Get(parsed.props, SECURITIES);
      var envelope := entries.Some? && securities.Some?;
      if !envelope && IsFieldExceptionRecord(parsed) then Legacy(parsed.props)
      else if Get(parsed.props, VERSION) != Some(JNumber(Int(1))) then Rejected
      else if |parsed.props| != 3 || entries.None? || securities.None? || !entries.value.JArray?
              || !(forall i :: 0 <= i < |entries.value.items| ==> IsCompactFieldException(entries.value.items[i]))
              || !securities.value.JObject?
      then Rejected
      else if !(forall i :: 0 <= i < |securities.value.props| ==>
                  ValidIndices(securities.value.props[i].value, |entries.value.items|))
      then Rejected
      else Envelope(entries.value.items, securities.value.props)
  }

  // ----- agreement -----

  /** One security with its occurrences written out. */
  datatype Expanded = Expanded(security: Str, exceptions: seq<Json>)

  function ExpandMember(m: Member, entries: Option<seq<Json>>): Expanded
    requires ValidList(m.value, entries)
  {
    Expanded(m.key,
             seq(|m.value.items|, i requires 0 <= i < |m.value.items| => ExceptionAt(m.value.items[i], entries).value))
  }

  function ProjectorView(doc: Document): (r: seq<Expanded>)
    requires ValidDocument(doc)
  {
    seq(|doc.securities|, i requires 0 <= i < |doc.securities| => ExpandMember(doc.securities[i], doc.entries))
  }

  function ByIndex(j: Json, entries: seq<Json>): seq<Json>
    requires ValidIndices(j, |entries|)
  {
    seq(|j.items|, k requires 0 <= k < |j.items| => entries[j.items[k].num.value])
  }

  /** The record the core reader hands to its caller: stored, or expanded by dictionary index. */
  function CoreView(read: CoreRead): seq<Expanded>
    requires read.Legacy? ==> forall i :: 0 <= i < |read.record| ==> read.record[i].value.JArray?
    requires read.Envelope? ==> forall i :: 0 <= i < |read.indices| ==>
               ValidIndices(read.indices[i].value, |read.entries|)
  {
    match read
    case Rejected => []
    case Legacy(record) =>
      seq(|record|, i requires 0 <= i < |record| => Expanded(record[i].key, record[i].value.items))
    case Envelope(entries, indices) =>
      seq(|indices|, i requires 0 <= i < |indices| && ValidIndices(indices[i].value, |entries|) =>
        Expanded(indices[i].key, ByIndex(indices[i].value, entries)))
  }

  lemma IsExceptionAgrees(j: Json)
    ensures IsException(j, false) <==> IsFieldException(j)
    ensures IsException(j, true) <==> IsCompactFieldException(j)
  {
  }

  lemma LegacyAgrees(parsed: Json)
    requires parsed.JObject?
    ensures ValidDocument(Document(None, parsed.props)) <==> IsFieldExceptionRecord(parsed)
  {
    forall j: Json ensures IsException(j, false) <==> IsFieldException(j) { IsExceptionAgrees(j); }
    if ValidDocument(Document(None, parsed.props)) {
      forall i | 0 <= i < |parsed.props|
        ensures parsed.props[i].value.JArray?
        ensures forall j :: 0 <= j < |parsed.props[i].value.items| ==> IsFieldException(parsed.props[i].value.items[j])
      {
        var list := parsed.props[i].value;
        assert ValidList(list, None);
        forall j | 0 <= j < |list.items| ensures IsFieldException(list.items[j]) {
          assert ExceptionAt(list.items[j], None).Some?;
        }
      }
    }
    if IsFieldExceptionRecord(parsed) {
      forall i | 0 <= i < |parsed.props| ensures ValidList(parsed.props[i].value, None) {
        var list := parsed.props[i].value;
        forall j | 0 <= j < |list.items| ensures ExceptionAt(list.items[j], None).Some? {
          assert IsFieldException(list.items[j]);
        }
      }
    }
  }

  lemma EnvelopeAgrees(entries: seq<Json>, securities: seq<Member>)
    ensures ValidDocument(Document(Some(entries), securities))
       <==> && (forall i :: 0 <= i < |entries| ==> IsCompactFieldException(entries[i]))
            && (forall i :: 0 <= i < |securities| ==> ValidIndices(securities[i].value, |entries|))
  {
    forall j: Json ensures IsException(j, true) <==> IsCompactFieldException(j) { IsExceptionAgrees(j); }
    if forall i :: 0 <= i < |entries| ==> IsException(entries[i], true) {
      forall i | 0 <= i < |securities|
        ensures ValidList(securities[i].value, Some(entries)) <==> ValidIndices(securities[i].value, |entries|)
      {
        ListAgrees(securities[i].value, entries);
      }
    }
  }

  lemma ListAgrees(j: Json, entries: seq<Json>)
    requires forall i :: 0 <= i < |entries| ==> IsException(entries[i], true)
    ensures ValidList(j, Some(entries)) <==> ValidIndices(j, |entries|)
  {
    if j.JArray? {
      if ValidList(j, Some(entries)) {
        forall k | 0 <= k < |j.items|
          ensures j.items[k].JNumber? && j.items[k].num.Int? && j.items[k].num.value <= MAX_SAFE_INTEGER
          ensures 0 <= j.items[k].num.value < |entries|
        {
          assert ExceptionAt(j.items[k], Some(entries)).Some?;
        }
      }
    }
  }

  /** The projector and the core reader accept exactly the same documents and see the same exceptions. */
  lemma ReadersAgree(parsed: Json)
    ensures ReadDocument(parsed).Some? <==> !CoreReader(parsed).Rejected?
    ensures ReadDocument(parsed).Some? ==>
              && (CoreReader(parsed).Legacy? ==>
                    forall i :: 0 <= i < |CoreReader(parsed).record| ==> CoreReader(parsed).record[i].value.JArray?)
              && ProjectorView(ReadDocument(parsed).value) == CoreView(CoreReader(parsed))
  {
    if parsed.JObject? {
      LegacyAgrees(parsed);
      var entries, securities := Get(parsed.props, ENTRIES), Get(parsed.props, SECURITIES);
      if entries.Some? && securities.Some? && entries.value.JArray? && securities.value.JObject? {
        EnvelopeAgrees(entries.value.items, securities.value.props);
      }
      if ReadDocument(parsed).Some? {
        ViewsAgree(parsed);
      }
    }
  }

  lemma ViewsAgree(parsed: Json)
    requires ReadDocument(parsed).Some? && !CoreReader(parsed).Rejected?
    requires CoreReader(parsed).Legacy? ==>
               forall i :: 0 <= i < |CoreReader(parsed).record| ==> CoreReader(parsed).record[i].value.JArray?
    ensures ProjectorView(ReadDocument(parsed).value) == CoreView(CoreReader(parsed))
  {
    var doc, core := ReadDocument(parsed).value, CoreReader(parsed);
    forall i | 0 <= i < |doc.securities|
      ensures ProjectorView(doc)[i] == CoreView(core)[i]
    {
      var m := doc.securities[i];
      assert ValidList(m.value, doc.entries);
      assert ExpandMember(m, doc.entries).exceptions == CoreView(core)[i].exceptions;
    }
  }
}
