/**
 Stored field exceptions that leave no reason behind are complete: every security of
 the document, in order, with the whole form of every exception of its expanded list.
 */
module StoredLossless {
  import opened JsText
  import opened Json
  import opened JsHeap
  import opened ResultTypes
  import opened FieldExceptions
  import opened Projection
  import opened Soundness
  import opened Whole
  import opened Honesty

  /** The emitted entry is the whole form of the exception, where it has one. */
  ghost predicate WholeEntry(w: World, rbm: bool, entry: Json, j: Json, depth: nat) {
    var x := WholeValue(w, Embed(entry), depth, true, rbm, false);
    !x.Lossy? && (x.Full? ==> j == x.json)
  }

  /** The first `|items|` occurrences are emitted whole. */
  ghost predicate WholeEntries(w: World, rbm: bool, occurrences: seq<Json>, entries: Option<seq<Json>>,
                               items: seq<Json>, depth: nat) {
    && |items| <= |occurrences|
    && forall i :: 0 <= i < |items| ==>
         ExceptionAt(occurrences[i], entries).Some?
             && WholeEntry(w, rbm, ExceptionAt(occurrences[i], entries).value, items[i], depth + 1)
  }

  lemma MoreEntries(w: World, rbm: bool, occurrences: seq<Json>, entries: Option<seq<Json>>, items: seq<Json>, j: Json,
                    depth: nat)
    requires WholeEntries(w, rbm, occurrences, entries, items, depth) && |items| < |occurrences|
    requires ExceptionAt(occurrences[|items|], entries).Some?
    requires WholeEntry(w, rbm, ExceptionAt(occurrences[|items|], entries).value, j, depth + 1)
    ensures WholeEntries(w, rbm, occurrences, entries, items + [j], depth)
  {
    hide WholeEntry, ExceptionAt;
  }

  lemma ReasonStays(s: State, reason: Reason)
    ensures AddReason(s, reason).reasons != {}
  {
    assert reason in AddReason(s, reason).reasons;
  }

  /** A value embedded as an object is built as an object, or leaves a reason. */
  lemma EmbeddedObjectBuilt(w: World, j: Json, budget: int, s: State, depth: nat, rowLimit: nat)
    requires Left(s) >= 0 && j.JObject?
    ensures var o := BuildValue(w, Embed(j), budget, s, depth, rowLimit, false);
            o.st.reasons == {} ==> o.built.Built? && o.built.value.JObject?
  {
    hide Ascii, BuildObject, Fitted, Unsupported, Primitive, DataProps, Extends;
    var node := Node(KPlain, DataProps(j.props));
    var o := BuildValue(w, VFresh(node), budget, s, depth, rowLimit, false);
    if s.visitedNodes >= s.limits.maxResultNodes {
      ReasonStays(s, MaxResultNodes);
    } else {
      var t := s.(visitedNodes := s.visitedNodes + 1);
      UnsupportedSound(Ascii("[Max result depth exceeded]"), budget, t, MaxResultDepth);
      if depth <= MAX_RESULT_DEPTH {
        assert o == BuildNode(w, {}, node, budget, t, depth, rowLimit, false);
        assert o == BuildObject(w, {}, node, budget, t, depth, rowLimit);
        FreshObjectBuilt(w, node, budget, t, depth, rowLimit);
      }
    }
  }

  lemma FreshObjectBuilt(w: World, node: Node, budget: int, s: State, depth: nat, rowLimit: nat)
    requires Left(s) >= 0
    ensures var o := BuildObject(w, {}, node, budget, s, depth, rowLimit);
            o.st.reasons == {} ==> o.built.Built? && o.built.value.JObject?
  {
    hide Ascii, BuildKeys, OtherKeys, Fitted, Unsupported;
    ReasonStays(s, MaxResultBytes);
  }

  lemma {:induction false} ExceptionsLossless(w: World, occurrences: seq<Json>, k: nat, entries: Option<seq<Json>>,
                                              budget: int, s: State, depth: nat, items: seq<Json>, byteLength: nat)
    requires Left(s) >= 0 && s.inDiagnostics && k == |items| <= |occurrences|
    requires forall i :: 0 <= i < |occurrences| ==> ExceptionAt(occurrences[i], entries).Some?
    requires WholeEntries(w, s.rowsBeforeMetadata, occurrences, entries, items, depth)
    ensures var o := BuildExceptions(w, occurrences[k..], entries, budget, s, depth, items, byteLength);
            o.st.reasons == {} ==>
              o.built.Built? && o.built.value.JArray? && |o.built.value.items| == |occurrences|
              && WholeEntries(w, s.rowsBeforeMetadata, occurrences, entries, o.built.value.items, depth)
    decreases Left(s), |occurrences| - k
  {
    hide Ascii, BuildValue, Embed, ExceptionAt, Extends, WholeEntries, WholeEntry;
    ReasonStays(s, MaxResultNodes);
    ReasonStays(s, MaxResultDepth);
    ReasonStays(s, MaxResultBytes);
    if k < |occurrences| && s.visitedNodes < s.limits.maxResultNodes && depth + 2 <= MAX_RESULT_DEPTH {
      assert occurrences[k..][1..] == occurrences[k + 1..] && occurrences[k..][0] == occurrences[k];
      var childBudget := budget - byteLength - CommaSize(items);
      if childBudget >= 2 {
        var entry := ExceptionAt(occurrences[k], entries).value;
        var o := BuildValue(w, Embed(entry), childBudget, s, depth + 1, MAX_SAFE_INTEGER, false);
        BuildValueSound(w, Embed(entry), childBudget, s, depth + 1, MAX_SAFE_INTEGER, false);
        EmbeddedObjectBuilt(w, entry, childBudget, s, depth + 1, MAX_SAFE_INTEGER);
        KeepsContext(s, o.st);
        OmissionReason(s, o.st);
        var usable := o.built.Built? && o.built.value.JObject? && o.st.omittedProperties <= s.omittedProperties;
        assert o.st.reasons == {} ==> usable;
        if usable {
          var rest := BuildExceptions(w, occurrences[k + 1..], entries, budget, o.st, depth, items + [o.built.value],
                                      byteLength + CommaSize(items) + o.built.byteLength);
          if rest.st.reasons == {} {
            RestReasons(w, occurrences[k + 1..], entries, budget, o.st, depth, items + [o.built.value],
                        byteLength + CommaSize(items) + o.built.byteLength);
            EntryWhole(w, entry, childBudget, s, depth + 1);
            MoreEntries(w, s.rowsBeforeMetadata, occurrences, entries, items, o.built.value, depth);
            ExceptionsLossless(w, occurrences, k + 1, entries, budget, o.st, depth, items + [o.built.value],
                               byteLength + CommaSize(items) + o.built.byteLength);
          }
        }
      }
    }
  }

  lemma EntryWhole(w: World, entry: Json, budget: int, s: State, depth: nat)
    requires Left(s) >= 0 && s.inDiagnostics
    requires BuildValue(w, Embed(entry), budget, s, depth, MAX_SAFE_INTEGER, false).st.reasons == {}
    ensures var o := BuildValue(w, Embed(entry), budget, s, depth, MAX_SAFE_INTEGER, false);
            o.built.Built? ==> WholeEntry(w, s.rowsBeforeMetadata, entry, o.built.value, depth)
  {
    hide BuildValue, WholeValue, Embed, Need;
    BuildValueHonest(w, Embed(entry), budget, s, depth, MAX_SAFE_INTEGER, false);
  }

  /** Reasons are never taken back. */
  lemma {:induction false} RestReasons(w: World, occurrences: seq<Json>, entries: Option<seq<Json>>, budget: int,
                                       s: State, depth: nat, items: seq<Json>, byteLength: nat)
    requires Left(s) >= 0 && forall i :: 0 <= i < |occurrences| ==> ExceptionAt(occurrences[i], entries).Some?
    ensures s.reasons <= BuildExceptions(w, occurrences, entries, budget, s, depth, items, byteLength).st.reasons
    decreases |occurrences|
  {
    hide Ascii, BuildValue, Embed, ExceptionAt, Extends;
    if occurrences != [] && s.visitedNodes < s.limits.maxResultNodes && depth + 2 <= MAX_RESULT_DEPTH {
      var childBudget := budget - byteLength - CommaSize(items);
      if childBudget >= 2 {
        var entry := ExceptionAt(occurrences[0], entries).value;
        var o := BuildValue(w, Embed(entry), childBudget, s, depth + 1, MAX_SAFE_INTEGER, false);
        BuildValueSound(w, Embed(entry), childBudget, s, depth + 1, MAX_SAFE_INTEGER, false);
        KeepsContext(s, o.st);
        if o.built.Built? && o.built.value.JObject? && o.st.omittedProperties <= s.omittedProperties {
          RestReasons(w, occurrences[1..], entries, budget, o.st, depth, items + [o.built.value],
                      byteLength + CommaSize(items) + o.built.byteLength);
        }
      }
    }
  }

  // ----- the securities of a document -----

  ghost predicate WholeList(w: World, rbm: bool, doc: Document, k: nat, m: Member, depth: nat)
    requires k < |doc.securities|
  {
    && m.key == doc.securities[k].key && doc.securities[k].value.JArray? && m.value.JArray?
    && |m.value.items| == |doc.securities[k].value.items|
    && WholeEntries(w, rbm, doc.securities[k].value.items, doc.entries, m.value.items, depth)
  }

  /** The first `|props|` securities are emitted whole. */
  ghost predicate WholeLists(w: World, rbm: bool, doc: Document, props: seq<Member>, depth: nat) {
    |props| <= |doc.securities| && forall k :: 0 <= k < |props| ==> WholeList(w, rbm, doc, k, props[k], depth)
  }

  predicate DistinctSecurities(doc: Document) {
    forall i, j :: 0 <= i < j < |doc.securities| ==> doc.securities[i].key != doc.securities[j].key
  }

  lemma ArrayLossless(w: World, doc: Document, k: nat, budget: int, s: State, depth: nat)
    requires Left(s) >= 0 && s.inDiagnostics && ValidDocument(doc) && k < |doc.securities|
    ensures ValidList(doc.securities[k].value, doc.entries)
    ensures var o := BuildExceptionArray(w, doc.securities[k].value.items, doc.entries, budget, s, depth);
            o.st.reasons == {} ==>
              o.built.Built?
                  && WholeList(w, s.rowsBeforeMetadata, doc, k, Member(doc.securities[k].key, o.built.value), depth)
  {
    hide Ascii, BuildExceptions, ExceptionAt, WholeEntries;
    ReasonStays(s, MaxResultNodes);
    assert ValidList(doc.securities[k].value, doc.entries);
    var items := doc.securities[k].value.items;
    if s.visitedNodes < s.limits.maxResultNodes {
      var t := s.(visitedNodes := s.visitedNodes + 1);
      ReasonStays(t, MaxResultDepth);
      ReasonStays(t, MaxResultBytes);
      if depth <= MAX_RESULT_DEPTH && budget >= 2 {
        NoEntries(w, s.rowsBeforeMetadata, items, doc.entries, depth);
        assert items[0..] == items;
        ExceptionsLossless(w, items, 0, doc.entries, budget, t.(retainedNodes := t.retainedNodes + 1), depth, [], 2);
      }
    }
  }

  lemma NoEntries(w: World, rbm: bool, occurrences: seq<Json>, entries: Option<seq<Json>>, depth: nat)
    ensures WholeEntries(w, rbm, occurrences, entries, [], depth)
  {
  }

  lemma MoreLists(w: World, rbm: bool, doc: Document, props: seq<Member>, m: Member, depth: nat)
    requires WholeLists(w, rbm, doc, props, depth) && |props| < |doc.securities|
             && WholeList(w, rbm, doc, |props|, m, depth)
    ensures WholeLists(w, rbm, doc, props + [m], depth)
  {
    hide WholeList;
  }

  lemma {:induction false} SecuritiesLossless(w: World, doc: Document, k: nat, acc: Acc, budget: int, s: State,
                                              depth: nat)
    requires Left(s) >= 0 && s.inDiagnostics && ValidDocument(doc) && DistinctSecurities(doc) && AccOk(acc, budget)
    requires k == |acc.props| <= |doc.securities| && WholeLists(w, s.rowsBeforeMetadata, doc, acc.props, depth + 1)
    ensures var o := BuildSecurities(w, doc.securities[k..], doc.entries, acc, budget, s, depth);
            && s.reasons <= o.st.reasons
            && (o.st.reasons == {} ==>
                  |o.acc.props| == |doc.securities| && WholeLists(w, s.rowsBeforeMetadata, doc, o.acc.props, depth + 1))
    decreases |doc.securities| - k
  {
    hide Ascii, BuildExceptionArray, Append, StringSize, PropsSize, Size, Extends, WholeLists, ExceptionAt, WholeList;
    ReasonStays(s, MaxResultBytes);
    if k < |doc.securities| {
      var rest := doc.securities[k..];
      assert rest[0] == doc.securities[k] && rest[1..] == doc.securities[k + 1..];
      var key, comma := doc.securities[k].key, CommaSize(acc.props);
      if 2 <= budget - acc.byteLength - comma - 3 && StringSize(key) <= budget - acc.byteLength - comma - 3 {
        assert ValidList(doc.securities[k].value, doc.entries);
        var childBudget := budget - acc.byteLength - comma - StringSize(key) - 1;
        var o := BuildExceptionArray(w, doc.securities[k].value.items, doc.entries, childBudget, s, depth + 1);
        BuildExceptionArraySound(w, doc.securities[k].value.items, doc.entries, childBudget, s, depth + 1);
        KeepsContext(s, o.st);
        if o.built.Built? {
          AppendAfterBuildSucceeds(acc, key, o.built, budget, o.st);
          AppendSound(acc, key, o.built, budget, o.st);
          FreshSecurity(w, s.rowsBeforeMetadata, doc, acc, key, o.built, budget, o.st, depth + 1);
          if o.st.reasons == {} {
            ArrayLossless(w, doc, k, childBudget, s, depth + 1);
            MoreLists(w, s.rowsBeforeMetadata, doc, acc.props, Member(key, o.built.value), depth + 1);
            SecuritiesLossless(w, doc, k + 1, Append(acc, key, o.built, budget, o.st).acc, budget, o.st, depth);
          } else {
            BuildSecuritiesSound(w, rest[1..], doc.entries, Append(acc, key, o.built, budget, o.st).acc, budget, o.st,
                                 depth);
            KeepsContext(o.st, BuildSecurities(w, rest[1..], doc.entries, Append(acc, key, o.built, budget, o.st).acc,
                                               budget, o.st, depth).st);
          }
        }
      }
    }
  }

  lemma FreshSecurity(w: World, rbm: bool, doc: Document, acc: Acc, key: Str, built: Built, budget: int, s: State,
                      depth: nat)
    requires DistinctSecurities(doc) && WholeLists(w, rbm, doc, acc.props, depth) && |acc.props| < |doc.securities|
    requires key == doc.securities[|acc.props|].key && built.Built?
    ensures var p := Append(acc, key, built, budget, s); p.ok ==> p.acc.props == acc.props + [Member(key, built.value)]
  {
    hide WholeEntries, StringSize;
    forall i | 0 <= i < |acc.props| ensures acc.props[i].key != key {
      assert WholeList(w, rbm, doc, i, acc.props[i], depth);
    }
  }

  /** A stored document that leaves no reason is emitted with all of its securities and all of their exceptions. */
  lemma DocumentLossless(w: World, raw: Str, budget: int, s: State, depth: nat)
    requires Left(s) >= 0 && s.inDiagnostics
    requires w.parse(raw).Some? && ReadDocument(w.parse(raw).value).Some?
    requires DistinctSecurities(ReadDocument(w.parse(raw).value).value)
    ensures var r := BuildRaw(w, raw, budget, s, depth);
            var doc := ReadDocument(w.parse(raw).value).value;
            r.st.reasons == {} ==>
              r.RawBuilt? && r.value.JObject? && |r.value.props| == |doc.securities|
              && WholeLists(w, s.rowsBeforeMetadata, doc, r.value.props, depth + 1)
  {
    hide Ascii, BuildSecurities, StringSize, ReadDocument, HasOccurrences, WholeLists, DistinctSecurities,
         ValidDocument;
    var doc := ReadDocument(w.parse(raw).value).value;
    NoLists(w, s.rowsBeforeMetadata, doc, depth + 1);
    GaveUp(s, {MaxResultNodes}, MaxResultNodes);
    if s.visitedNodes < s.limits.maxResultNodes {
      var t := s.(visitedNodes := s.visitedNodes + 1);
      GaveUp(t, {MaxResultDepth}, MaxResultDepth);
      GaveUp(t, {MaxResultBytes}, MaxResultBytes);
      var bytesFit, nodesFit := StringSize(raw) <= s.limits.maxResultBytes, |raw| <= Left(t);
      if depth <= MAX_RESULT_DEPTH && budget >= 2 {
        if !bytesFit || !nodesFit {
          GaveUp(t, (if bytesFit then {} else {MaxResultBytes}) + (if nodesFit then {} else {MaxResultNodes}),
                 if bytesFit then MaxResultNodes else MaxResultBytes);
        } else {
          var u := t.(visitedNodes := t.visitedNodes + |raw|);
          var v := u.(hasErrors := u.hasErrors || HasOccurrences(doc.securities), retainedNodes := u.retainedNodes + 1);
          assert doc.securities[0..] == doc.securities;
          SecuritiesLossless(w, doc, 0, EMPTY_ACC, budget, v, depth);
        }
      }
    }
  }

  lemma NoLists(w: World, rbm: bool, doc: Document, depth: nat)
    ensures WholeLists(w, rbm, doc, [], depth)
  {
  }

  lemma GaveUp(s: State, reasons: set<Reason>, reason: Reason)
    requires reason in reasons
    ensures GiveUp(s, reasons).reasons != {}
  {
    assert reason in GiveUp(s, reasons).reasons;
  }
}
