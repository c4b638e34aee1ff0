/**
 When stored field exceptions come out whole: exactly if the text fits the byte limit and
 every budget covers the expanded document, whose lists are met as ordinary values are.
 */
module StoredExactly {
  import opened JsText
  import opened Json
  import opened JsHeap
  import opened ResultTypes
  import opened FieldExceptions
  import opened Projection
  import opened Soundness
  import opened Whole
  import opened Honesty
  import opened Completeness
  import opened StoredLossless

  // ----- the expanded document -----

  predicate Expandable(occurrences: seq<Json>, entries: Option<seq<Json>>) {
    forall i :: 0 <= i < |occurrences| ==> ExceptionAt(occurrences[i], entries).Some?
  }

  /** The exceptions that the occurrences denote. */
  function Expanded(occurrences: seq<Json>, entries: Option<seq<Json>>): seq<Json>
    requires Expandable(occurrences, entries)
  {
    seq(|occurrences|, i requires 0 <= i < |occurrences| => ExceptionAt(occurrences[i], entries).value)
  }

  /** The whole form of an expanded list, in diagnostics. */
  function WholeListed(w: World, occurrences: seq<Json>, entries: Option<seq<Json>>, depth: nat, rbm: bool): Whole
    requires Expandable(occurrences, entries)
  {
    WholeValue(w, Embed(JArray(Expanded(occurrences, entries))), depth, true, rbm, false)
  }

  function WholeSecurity(w: World, m: Member, entries: Option<seq<Json>>, depth: nat, rbm: bool): WholeList<Member>
    requires ValidList(m.value, entries)
  {
    match WholeListed(w, m.value.items, entries, depth + 1, rbm)
    case Lossy => LossyList
    case Special => SpecialList
    case Full(json, cost) => FullList([Member(m.key, json)], cost)
  }

  function WholeSecurities(w: World, securities: seq<Member>, entries: Option<seq<Json>>, depth: nat,
                           rbm: bool): WholeList<Member>
    requires ValidLists(securities, entries)
  {
    if securities == [] then FullList([], FREE)
    else Join(WholeSecurity(w, securities[0], entries, depth, rbm),
              WholeSecurities(w, securities[1..], entries, depth, rbm))
  }

  /** Reading the text costs a visit, and one more for each of its units. */
  function Reading(raw: Str): Cost { FREE.(visits := 1 + |raw|) }

  function WholeDocument(w: World, raw: Str, doc: Document, depth: nat, rbm: bool): Whole
    requires ValidDocument(doc)
  {
    if depth > MAX_RESULT_DEPTH then Lossy
    else Charge(Reading(raw), AsObject(WholeSecurities(w, doc.securities, doc.entries, depth, rbm)))
  }

  // ----- the exceptions of a security -----

  /** The row elements that stand for the exceptions. */
  function Rows(occurrences: seq<Json>, entries: Option<seq<Json>>): seq<Element>
    requires Expandable(occurrences, entries)
  {
    DataElems(Expanded(occurrences, entries))
  }

  lemma RowsStep(occurrences: seq<Json>, entries: Option<seq<Json>>)
    requires Expandable(occurrences, entries) && occurrences != []
    ensures var elems := Rows(occurrences, entries);
            && elems != [] && elems[0] == Elem(Data(Embed(ExceptionAt(occurrences[0], entries).value)))
            && elems[1..] == Rows(occurrences[1..], entries)
  {
    hide ExceptionAt, Embed, DataElems;
    assert Expanded(occurrences, entries)[1..] == Expanded(occurrences[1..], entries);
    assert Rows(occurrences, entries)[1..] == Rows(occurrences[1..], entries);
  }

  /** An exception is met as an object. */
  lemma EntryIs(w: World, entry: Json)
    requires entry.JObject?
    ensures var e := Elem(Data(Embed(entry))); EntryOf(e) == Embed(entry) && IsPlain(w, Embed(entry))
  {
  }

  function AsRows(o: Out): RowsOut
    requires o.built.Built? && o.built.value.JArray?
  {
    RowsOut(o.st, o.built.value.items, o.built.byteLength)
  }

  /** What is said of the exceptions is what is said of rows. */
  ghost predicate HonestExceptions(s: State, budget: int, items: seq<Json>, x: WholeList<Json>, o: Out) {
    o.built.Built? && o.built.value.JArray? && HonestRows(s, budget, MAX_SAFE_INTEGER, items, x, AsRows(o))
  }

  lemma Stopped(s: State, budget: int, items: seq<Json>, x: WholeList<Json>, t: State, byteLength: nat)
    requires t.reasons != {}
    ensures HonestExceptions(s, budget, items, x, Out(t, Built(byteLength, JArray(items))))
  {
  }

  predicate Usable(s: State, o: Out) {
    o.built.Built? && o.built.value.JObject? && o.st.omittedProperties <= s.omittedProperties
  }

  lemma UsableIs(s: State, o: Out)
    ensures Usable(s, o) <==> !Unusable(true, s, o)
  {
  }

  lemma {:induction false} ExceptionsHonest(w: World, occurrences: seq<Json>, entries: Option<seq<Json>>, budget: int,
                                            s: State, depth: nat, items: seq<Json>, byteLength: nat)
    requires Left(s) >= 0 && s.inDiagnostics && byteLength == 2 + ItemsSize(items) <= budget
             && Expandable(occurrences, entries)
    ensures HonestExceptions(s, budget, items,
                             WholeItems(w, Rows(occurrences, entries), depth, true, s.rowsBeforeMetadata),
                             BuildExceptions(w, occurrences, entries, budget, s, depth, items, byteLength))
    decreases |occurrences|
  {
    hide BuildValue, Embed, ExceptionAt, ItemsSize, Extends, HonestOut, HonestExceptions, Rows, Exact, Need, WholeItems,
         Unusable;
    var x := WholeItems(w, Rows(occurrences, entries), depth, true, s.rowsBeforeMetadata);
    var childBudget := budget - byteLength - CommaSize(items);
    if occurrences == [] {
      NoExceptions(w, entries, budget, s, depth, items, byteLength);
    } else if s.visitedNodes >= s.limits.maxResultNodes {
      ReasonStays(s, MaxResultNodes);
      Stopped(s, budget, items, x, AddReason(s, MaxResultNodes), byteLength);
    } else if depth + 2 > MAX_RESULT_DEPTH {
      ReasonStays(s, MaxResultDepth);
      Stopped(s, budget, items, x, AddReason(s, MaxResultDepth), byteLength);
    } else if childBudget < 2 {
      ReasonStays(s, MaxResultBytes);
      Stopped(s, budget, items, x, AddReason(s, MaxResultBytes), byteLength);
    } else {
      var entry := ExceptionAt(occurrences[0], entries).value;
      var v := Embed(entry);
      var o := BuildValue(w, v, childBudget, s, depth + 1, MAX_SAFE_INTEGER, false);
      BuildValueSound(w, v, childBudget, s, depth + 1, MAX_SAFE_INTEGER, false);
      KeepsContext(s, o.st);
      EntryIs(w, entry);
      UsableIs(s, o);
      if Usable(s, o) {
        RowSize(items, o.built, childBudget);
        var n := byteLength + CommaSize(items) + o.built.byteLength;
        ExceptionsHonest(w, occurrences[1..], entries, budget, o.st, depth, items + [o.built.value], n);
        BuildExceptionsSound(w, occurrences[1..], entries, budget, o.st, depth, items + [o.built.value], n);
        BuildValueHonest(w, v, childBudget, s, depth + 1, MAX_SAFE_INTEGER, false);
        RowsStep(occurrences, entries);
        var r := BuildExceptions(w, occurrences[1..], entries, budget, o.st, depth, items + [o.built.value], n);
        ExceptionMore(w, occurrences, entries, budget, s, depth, items, childBudget, o, r);
      } else {
        UnusableReason(w, v, childBudget, s, depth + 1, MAX_SAFE_INTEGER, true);
        Stopped(s, budget, items, x, o.st.(retainedNodes := s.retainedNodes), byteLength);
      }
    }
  }

  lemma NoExceptions(w: World, entries: Option<seq<Json>>, budget: int, s: State, depth: nat, items: seq<Json>,
                     byteLength: nat)
    requires Left(s) >= 0 && s.inDiagnostics
    ensures HonestExceptions(s, budget, items, WholeItems(w, Rows([], entries), depth, true, s.rowsBeforeMetadata),
                             Out(s, Built(byteLength, JArray(items))))
  {
    hide WholeItems;
    NoRowsHonest(w, s, budget, depth, MAX_SAFE_INTEGER, items, byteLength);
  }

  lemma ExceptionMore(w: World, occurrences: seq<Json>, entries: Option<seq<Json>>, budget: int, s: State, depth: nat,
                      items: seq<Json>, childBudget: int, o: Out, r: Out)
    requires s.inDiagnostics && Expandable(occurrences, entries) && occurrences != [] && depth + 2 <= MAX_RESULT_DEPTH
    requires childBudget == budget - 2 - ItemsSize(items) - CommaSize(items)
    requires Extends(s, o.st) && Extends(o.st, r.st) && o.built.Built?
    requires HonestOut(s, childBudget, MAX_SAFE_INTEGER,
                       WholeValue(w, Embed(ExceptionAt(occurrences[0], entries).value), depth + 1, true,
                                  s.rowsBeforeMetadata, false), o)
    requires HonestExceptions(o.st, budget, items + [o.built.value],
                              WholeItems(w, Rows(occurrences[1..], entries), depth, true, s.rowsBeforeMetadata), r)
    ensures HonestExceptions(s, budget, items,
                             WholeItems(w, Rows(occurrences, entries), depth, true, s.rowsBeforeMetadata), r)
  {
    hide ExceptionAt, Embed, ItemsSize, Extends, HonestOut, HonestRows, Rows, WholeItems;
    RowsStep(occurrences, entries);
    EntryIs(w, ExceptionAt(occurrences[0], entries).value);
    if r.st.reasons == {} {
      NoReasons(o.st, r.st);
      RowHonest(w, Rows(occurrences, entries), budget, s, depth, MAX_SAFE_INTEGER, items, childBudget, o, AsRows(r));
    } else {
      RowReason(s, budget, MAX_SAFE_INTEGER, items,
                WholeItems(w, Rows(occurrences, entries), depth, true, s.rowsBeforeMetadata),
                AsRows(r));
    }
  }

  lemma ObjectNeed(j: Json)
    requires j.JObject?
    ensures Need(j) >= 2
  {
  }

  lemma OneVisit(w: World, v: Value, depth: nat, rbm: bool)
    ensures var x := WholeValue(w, v, depth, true, rbm, false); x.Full? ==> x.cost.visits >= 1
  {
    hide WholeNode;
  }

  /** The exceptions fit one by one if all of them do. */
  ghost predicate Fitting(s: State, budget: int, items: seq<Json>, x: WholeList<Json>) {
    x.FullList? && NeedItems(items + x.list) <= budget && Affords(s, MAX_SAFE_INTEGER, x.cost)
  }

  /** The first exception of a list that fits is an object that fits. */
  lemma FirstFits(w: World, occurrences: seq<Json>, entries: Option<seq<Json>>, budget: int, s: State, depth: nat,
                  items: seq<Json>)
    requires Left(s) >= 0 && s.inDiagnostics && Expandable(occurrences, entries) && occurrences != []
    requires Fitting(s, budget, items, WholeItems(w, Rows(occurrences, entries), depth, true, s.rowsBeforeMetadata))
    ensures var v := Embed(ExceptionAt(occurrences[0], entries).value);
            var x := WholeValue(w, v, depth + 1, true, s.rowsBeforeMetadata, false);
            var y := WholeItems(w, Rows(occurrences[1..], entries), depth, true, s.rowsBeforeMetadata);
            && x.Full? && x.json.JObject? && y.FullList?
            && WholeItems(w, Rows(occurrences, entries), depth, true, s.rowsBeforeMetadata)
               == FullList([x.json] + y.list, Then(x.cost, y.cost))
            && depth + 2 <= MAX_RESULT_DEPTH
            && 2 <= Need(x.json) <= budget - 2 - ItemsSize(items) - CommaSize(items)
            && NeedItems(items + [x.json] + y.list) <= budget
            && items + [x.json] + y.list == items + ([x.json] + y.list)
            && s.visitedNodes < s.limits.maxResultNodes && Affords(s, MAX_SAFE_INTEGER, Then(x.cost, y.cost))
  {
    hide ExceptionAt, Embed, ItemsSize, NeedItems, Need, Rows, WholeItem, Then, Atomic;
    RowsStep(occurrences, entries);
    var entry := ExceptionAt(occurrences[0], entries).value;
    EntryIs(w, entry);
    var elems := Rows(occurrences, entries);
    AtomicPlain(w, s, elems[0]);
    WholeItemParts(w, elems[0], s, depth);
    var a := WholeItem(w, elems[0], depth, true, s.rowsBeforeMetadata);
    var y := WholeItems(w, Rows(occurrences[1..], entries), depth, true, s.rowsBeforeMetadata);
    NeedOfRows(items, a.list, y.list, budget);
    ObjectNeed(a.list[0]);
    OneVisit(w, Embed(entry), depth + 1, s.rowsBeforeMetadata);
    TwoVisits(a.cost, y.cost);
  }

  lemma {:induction false} ExceptionsComplete(w: World, occurrences: seq<Json>, entries: Option<seq<Json>>, budget: int,
                                              s: State, depth: nat, items: seq<Json>, byteLength: nat)
    requires Left(s) >= 0 && s.inDiagnostics && byteLength == 2 + ItemsSize(items) <= budget
             && Expandable(occurrences, entries)
    requires Fitting(s, budget, items, WholeItems(w, Rows(occurrences, entries), depth, true, s.rowsBeforeMetadata))
    ensures var x := WholeItems(w, Rows(occurrences, entries), depth, true, s.rowsBeforeMetadata);
            var o := BuildExceptions(w, occurrences, entries, budget, s, depth, items, byteLength);
            o.built.Built? && o.built.value == JArray(items + x.list) && Unhurt(s, x.cost, o.st)
    decreases |occurrences|
  {
    hide BuildValue, Embed, ExceptionAt, ItemsSize, NeedItems, Need, Extends, Rows, WholeItems, WholeValue, Then,
         Affords, Unhurt,
         Intact, Exact, Clear, RefFree, Unusable;
    if occurrences == [] {
      NoneComplete(w, entries, s, depth, items);
    } else {
      FirstFits(w, occurrences, entries, budget, s, depth, items);
      var v := Embed(ExceptionAt(occurrences[0], entries).value);
      var x := WholeValue(w, v, depth + 1, true, s.rowsBeforeMetadata, false);
      var y := WholeItems(w, Rows(occurrences[1..], entries), depth, true, s.rowsBeforeMetadata);
      var childBudget := budget - byteLength - CommaSize(items);
      var o := BuildValue(w, v, childBudget, s, depth + 1, MAX_SAFE_INTEGER, false);
      BuildValueSound(w, v, childBudget, s, depth + 1, MAX_SAFE_INTEGER, false);
      KeepsContext(s, o.st);
      AffordsSplit(s, MAX_SAFE_INTEGER, x.cost, y.cost, o.st);
      EmbedFree(ExceptionAt(occurrences[0], entries).value);
      BuildValueComplete(w, v, childBudget, s, depth + 1, MAX_SAFE_INTEGER, false);
      UsableIntact(true, s, x.json, x.cost, o);
      UsableIs(s, o);
      RowSize(items, o.built, childBudget);
      var n := byteLength + CommaSize(items) + o.built.byteLength;
      ExceptionsComplete(w, occurrences[1..], entries, budget, o.st, depth, items + [x.json], n);
      UnhurtThen(s, x.cost, o.st, y.cost,
                 BuildExceptions(w, occurrences[1..], entries, budget, o.st, depth, items + [x.json], n).st);
    }
  }

  lemma NoneComplete(w: World, entries: Option<seq<Json>>, s: State, depth: nat, items: seq<Json>)
    ensures var x := WholeItems(w, Rows([], entries), depth, true, s.rowsBeforeMetadata);
            x.FullList? && items + x.list == items && Unhurt(s, x.cost, s)
  {
    assert items + [] == items;
    UnhurtNothing(s);
  }

  // ----- a list of exceptions -----

  /** The whole form of an expanded list in terms of its rows. */
  lemma ListedIs(w: World, occurrences: seq<Json>, entries: Option<seq<Json>>, depth: nat, rbm: bool)
    requires Expandable(occurrences, entries) && depth <= MAX_RESULT_DEPTH
    ensures var x := WholeItems(w, Rows(occurrences, entries), depth, true, rbm);
            WholeListed(w, occurrences, entries, depth, rbm)
            == match x
               case LossyList => Lossy
               case SpecialList => Special
               case FullList(items, cost) => Full(JArray(items), Then(VISIT, cost))
  {
    hide WholeItems, WholeTable, Expanded, DataElems, Then;
    var elems := Rows(occurrences, entries);
    var node := Node(KArray(elems), []);
    assert !HasArrayMetadata(node);
    assert WholeListed(w, occurrences, entries, depth, rbm)
           == Charge(VISIT, WholeNode(w, node, depth, true, rbm, false));
    assert WholeNode(w, node, depth, true, rbm, false) == WholeRows(w, elems, depth, true, rbm, false);
  }

  lemma ListHonest(w: World, occurrences: seq<Json>, entries: Option<seq<Json>>, budget: int, s: State, depth: nat)
    requires Left(s) >= 0 && s.inDiagnostics && Expandable(occurrences, entries)
    ensures HonestOut(s, budget, MAX_SAFE_INTEGER, WholeListed(w, occurrences, entries, depth, s.rowsBeforeMetadata),
                      BuildExceptionArray(w, occurrences, entries, budget, s, depth))
  {
    hide BuildExceptions, ExceptionAt, WholeListed, WholeItems, Rows, HonestOut, HonestRows;
    var x := WholeListed(w, occurrences, entries, depth, s.rowsBeforeMetadata);
    if s.visitedNodes >= s.limits.maxResultNodes {
      ReasonStays(s, MaxResultNodes);
      ReasonHonest(s, budget, MAX_SAFE_INTEGER, x, Out(AddReason(s, MaxResultNodes), Omit));
    } else {
      var t := s.(visitedNodes := s.visitedNodes + 1);
      if depth > MAX_RESULT_DEPTH {
        ReasonStays(t, MaxResultDepth);
        ReasonHonest(s, budget, MAX_SAFE_INTEGER, x, Out(AddReason(t, MaxResultDepth), Omit));
      } else if budget < 2 {
        ReasonStays(t, MaxResultBytes);
        ReasonHonest(s, budget, MAX_SAFE_INTEGER, x, Out(AddReason(t, MaxResultBytes), Omit));
      } else {
        var u := t.(retainedNodes := t.retainedNodes + 1);
        ExceptionsHonest(w, occurrences, entries, budget, u, depth, [], 2);
        ListedIs(w, occurrences, entries, depth, s.rowsBeforeMetadata);
        RowsAsList(s, budget, WholeItems(w, Rows(occurrences, entries), depth, true, s.rowsBeforeMetadata),
                   BuildExceptions(w, occurrences, entries, budget, u, depth, [], 2));
      }
    }
  }

  lemma RowsAsList(s: State, budget: int, x: WholeList<Json>, o: Out)
    requires budget >= 2 && s.visitedNodes < s.limits.maxResultNodes
    requires HonestExceptions(s.(visitedNodes := s.visitedNodes + 1, retainedNodes := s.retainedNodes + 1), budget, [],
                              x, o)
    ensures HonestOut(s, budget, MAX_SAFE_INTEGER,
                      match x
                      case LossyList => Lossy
                      case SpecialList => Special
                      case FullList(items, cost) => Full(JArray(items), Then(VISIT, cost)), o)
  {
    assert NeedItems([]) == 0;
    hide NeedItems, Then, Paid;
    if x.FullList? {
      assert [] + x.list == x.list;
      if o.st.reasons == {} { PaidVisit(s, x.cost, o.st); }
    }
  }

  lemma PaidVisit(s: State, c: Cost, t: State)
    requires Paid(s.(visitedNodes := s.visitedNodes + 1, retainedNodes := s.retainedNodes + 1), MAX_SAFE_INTEGER, c, t)
    ensures Paid(s, MAX_SAFE_INTEGER, Then(VISIT, c), t) && Then(VISIT, c).upstream == c.upstream
  {
    hide Then;
    ThenFree(c);
  }

  lemma ListComplete(w: World, occurrences: seq<Json>, entries: Option<seq<Json>>, budget: int, s: State, depth: nat)
    requires Left(s) >= 0 && s.inDiagnostics && Expandable(occurrences, entries)
    requires var x := WholeListed(w, occurrences, entries, depth, s.rowsBeforeMetadata);
             x.Full? && Need(x.json) <= budget && Affords(s, MAX_SAFE_INTEGER, x.cost)
    ensures Intact(s, WholeListed(w, occurrences, entries, depth, s.rowsBeforeMetadata),
                   BuildExceptionArray(w, occurrences, entries, budget, s, depth))
  {
    hide BuildExceptions, ExceptionAt, WholeListed, WholeItems, Rows, Unhurt, Affords, NeedItems;
    if depth > MAX_RESULT_DEPTH {
      DeepListed(w, occurrences, entries, depth, s.rowsBeforeMetadata);
    }
    ListedIs(w, occurrences, entries, depth, s.rowsBeforeMetadata);
    var x := WholeItems(w, Rows(occurrences, entries), depth, true, s.rowsBeforeMetadata);
    AffordsVisit(s, MAX_SAFE_INTEGER, x.cost);
    var t := s.(visitedNodes := s.visitedNodes + 1);
    var u := t.(retainedNodes := t.retainedNodes + 1);
    AffordsShift(t, u, MAX_SAFE_INTEGER, x.cost);
    assert [] + x.list == x.list;
    ExceptionsComplete(w, occurrences, entries, budget, u, depth, [], 2);
    var o := BuildExceptions(w, occurrences, entries, budget, u, depth, [], 2);
    UnhurtShift(u, t, x.cost, o.st, o.st);
    ChargeComplete(s, Full(JArray(x.list), x.cost), o);
  }

  lemma DeepListed(w: World, occurrences: seq<Json>, entries: Option<seq<Json>>, depth: nat, rbm: bool)
    requires Expandable(occurrences, entries) && depth > MAX_RESULT_DEPTH
    ensures WholeListed(w, occurrences, entries, depth, rbm).Lossy?
  {
    hide Embed, Expanded;
  }

  // ----- the securities -----

  function Securities(securities: seq<Member>): seq<Str> {
    seq(|securities|, i requires 0 <= i < |securities| => securities[i].key)
  }

  /** A security with its list, appended like a property. */
  lemma SecurityHonest(w: World, m: Member, entries: Option<seq<Json>>, acc: Acc, budget: int, childBudget: int,
                       s: State, depth: nat)
    requires Left(s) >= 0 && s.inDiagnostics && ValidList(m.value, entries) && AccOk(acc, budget) && childBudget >= 2
    requires childBudget == budget - acc.byteLength - CommaSize(acc.props) - 1 - StringSize(m.key)
    ensures var o := BuildExceptionArray(w, m.value.items, entries, childBudget, s, depth + 1);
            o.built.Built? ==>
              var p := Append(acc, m.key, o.built, budget, o.st);
              && p.ok && p.st == o.st && AccOk(p.acc, budget)
              && HonestProps(s, budget, MAX_SAFE_INTEGER, [m.key], acc,
                             WholeSecurity(w, m, entries, depth, s.rowsBeforeMetadata), p)
  {
    hide BuildExceptionArray, Append, StringSize, PropsSize, Size, Extends, ExceptionAt, WholeListed, Need, NeedProps,
         Paid, Fresh;
    var o := BuildExceptionArray(w, m.value.items, entries, childBudget, s, depth + 1);
    BuildExceptionArraySound(w, m.value.items, entries, childBudget, s, depth + 1);
    ListHonest(w, m.value.items, entries, childBudget, s, depth + 1);
    if o.built.Built? {
      AppendAfterBuildSucceeds(acc, m.key, o.built, budget, o.st);
      AppendSound(acc, m.key, o.built, budget, o.st);
      var x := WholeListed(w, m.value.items, entries, depth + 1, s.rowsBeforeMetadata);
      if o.st.reasons == {} && x.Full? && Fresh([m.key], acc.props) {
        AppendNew(acc, m.key, o.built, budget, o.st);
        if NeedProps(acc.props) <= budget { NeedAppend(acc, m.key, x.json, budget, childBudget); }
      }
    }
  }

  lemma WholeSecurityKey(w: World, m: Member, entries: Option<seq<Json>>, depth: nat, rbm: bool)
    requires ValidList(m.value, entries)
    ensures var x := WholeSecurity(w, m, entries, depth, rbm); x.FullList? ==> |x.list| == 1 && x.list[0].key == m.key
  {
    hide WholeListed, ExceptionAt;
  }

  lemma RefusedProps(s: State, budget: int, keys: seq<Str>, acc: Acc, x: WholeList<Member>, o: PropOut)
    requires o.st.reasons != {}
    ensures HonestProps(s, budget, MAX_SAFE_INTEGER, keys, acc, x, o)
  {
  }

  lemma {:induction false} SecuritiesHonest(w: World, securities: seq<Member>, entries: Option<seq<Json>>, acc: Acc,
                                            budget: int, s: State, depth: nat)
    requires Left(s) >= 0 && s.inDiagnostics && ValidLists(securities, entries) && AccOk(acc, budget)
    ensures HonestProps(s, budget, MAX_SAFE_INTEGER, Securities(securities), acc,
                        WholeSecurities(w, securities, entries, depth, s.rowsBeforeMetadata),
                        BuildSecurities(w, securities, entries, acc, budget, s, depth))
    decreases |securities|
  {
    hide BuildExceptionArray, Append, StringSize, AccOk, Extends, ExceptionAt, WholeSecurity, HonestProps, Join;
    var x := WholeSecurities(w, securities, entries, depth, s.rowsBeforeMetadata);
    var keys := Securities(securities);
    var out := BuildSecurities(w, securities, entries, acc, budget, s, depth);
    if securities == [] {
      NoSecurities(s, budget, acc);
    } else {
      assert ValidList(securities[0].value, entries);
      var key, comma := securities[0].key, CommaSize(acc.props);
      var childBudget := budget - acc.byteLength - comma - StringSize(key) - 1;
      if childBudget < 2 {
        ReasonStays(s, MaxResultBytes);
        RefusedProps(s, budget, keys, acc, x, out);
      } else {
        SizeAtLeast(key);
        var o := BuildExceptionArray(w, securities[0].value.items, entries, childBudget, s, depth + 1);
        BuildExceptionArraySound(w, securities[0].value.items, entries, childBudget, s, depth + 1);
        SecurityHonest(w, securities[0], entries, acc, budget, childBudget, s, depth);
        KeepsContext(s, o.st);
        if o.built.Built? {
          var p := Append(acc, key, o.built, budget, o.st);
          SecuritiesHonest(w, securities[1..], entries, p.acc, budget, p.st, depth);
          BuildSecuritiesSound(w, securities[1..], entries, p.acc, budget, p.st, depth);
          assert keys[1..] == Securities(securities[1..]);
          WholeSecurityKey(w, securities[0], entries, depth, s.rowsBeforeMetadata);
          if out.st.reasons == {} {
            NoReasons(p.st, out.st);
            JoinHonest(s, budget, MAX_SAFE_INTEGER, keys, acc,
                       WholeSecurity(w, securities[0], entries, depth, s.rowsBeforeMetadata), p,
                       WholeSecurities(w, securities[1..], entries, depth, s.rowsBeforeMetadata), out);
          } else {
            RefusedProps(s, budget, keys, acc, x, out);
          }
        } else {
          BlockedReasons(o.st, depth + 1);
          RefusedProps(s, budget, keys, acc, x, out);
        }
      }
    }
  }

  lemma BlockedReasons(s: State, depth: nat)
    requires BlockedAt(s, depth)
    ensures s.reasons != {}
  {
  }

  lemma NoSecurities(s: State, budget: int, acc: Acc)
    requires Left(s) >= 0
    ensures HonestProps(s, budget, MAX_SAFE_INTEGER, Securities([]), acc, FullList([], FREE), PropOut(s, acc, true))
  {
    assert acc.props + [] == acc.props;
  }

  lemma SizeAtLeast(text: Str)
    ensures StringSize(text) >= 2
  {
  }

  /** Everything that completeness asks of the securities. */
  ghost predicate Roomy(s: State, budget: int, keys: seq<Str>, acc: Acc, x: WholeList<Member>) {
    && Left(s) >= 0 && s.inDiagnostics && AccOk(acc, budget) && Fresh(keys, acc.props)
    && x.FullList? && NeedProps(acc.props + x.list) <= budget && Affords(s, MAX_SAFE_INTEGER, x.cost)
  }

  lemma {:induction false} SecuritiesComplete(w: World, securities: seq<Member>, entries: Option<seq<Json>>, acc: Acc,
                                              budget: int, s: State, depth: nat)
    requires ValidLists(securities, entries)
    requires Roomy(s, budget, Securities(securities), acc,
                   WholeSecurities(w, securities, entries, depth, s.rowsBeforeMetadata))
    ensures IntactProps(s, acc, WholeSecurities(w, securities, entries, depth, s.rowsBeforeMetadata),
                        BuildSecurities(w, securities, entries, acc, budget, s, depth))
    decreases |securities|
  {
    hide BuildExceptionArray, Append, StringSize, PropsSize, Extends, ExceptionAt, WholeListed, Need, NeedProps, Fresh,
         Affords, Then,
         Unhurt, Size;
    if securities == [] {
      assert acc.props + [] == acc.props;
      UnhurtNothing(s);
    } else {
      assert ValidList(securities[0].value, entries);
      var m, keys := securities[0], Securities(securities);
      var x := WholeListed(w, m.value.items, entries, depth + 1, s.rowsBeforeMetadata);
      var y := WholeSecurities(w, securities[1..], entries, depth, s.rowsBeforeMetadata);
      var one := [Member(m.key, x.json)];
      assert acc.props + one + y.list == acc.props + (one + y.list);
      NeedPrefix(acc.props + one, y.list);
      NeedOfProperty(acc, m.key, x.json, budget);
      assert keys[0] == m.key && keys[1..] == Securities(securities[1..]);
      FreshRest(keys, acc.props, one);
      var childBudget := budget - acc.byteLength - CommaSize(acc.props) - StringSize(m.key) - 1;
      SizeAtLeast(m.key);
      var o := BuildExceptionArray(w, m.value.items, entries, childBudget, s, depth + 1);
      BuildExceptionArraySound(w, m.value.items, entries, childBudget, s, depth + 1);
      KeepsContext(s, o.st);
      AffordsSplit(s, MAX_SAFE_INTEGER, x.cost, y.cost, o.st);
      ListComplete(w, m.value.items, entries, childBudget, s, depth + 1);
      UnhurtCharged(s, x.cost, o.st);
      AppendAfterBuildSucceeds(acc, m.key, o.built, budget, o.st);
      AppendSound(acc, m.key, o.built, budget, o.st);
      AppendNew(acc, m.key, o.built, budget, o.st);
      var p := Append(acc, m.key, o.built, budget, o.st);
      SecuritiesComplete(w, securities[1..], entries, p.acc, budget, p.st, depth);
      UnhurtThen(s, x.cost, o.st, y.cost, BuildSecurities(w, securities[1..], entries, p.acc, budget, p.st, depth).st);
    }
  }

  // ----- the document -----

  function DocumentOf(w: World, raw: Str): (doc: Option<Document>)
    ensures doc.Some? ==> ValidDocument(doc.value)
  {
    var parsed := w.parse(raw);
    if parsed.Some? then ReadDocument(parsed.value) else None
  }

  /** The budgets that the document needs, besides those of its whole form. */
  predicate Admits(s: State, raw: Str) {
    StringSize(raw) <= s.limits.maxResultBytes
  }

  /** The state in which the securities are built. */
  function AfterReading(s: State, raw: Str, doc: Document): State {
    s.(visitedNodes := s.visitedNodes + 1 + |raw|, hasErrors := s.hasErrors || HasOccurrences(doc.securities),
       retainedNodes := s.retainedNodes + 1)
  }

  function RawOf(o: PropOut): RawOut { RawBuilt(o.st, o.acc.byteLength, JObject(o.acc.props)) }

  /** Past the checks on the text, the document is built from its securities. */
  lemma RawIs(w: World, raw: Str, budget: int, s: State, depth: nat)
    requires Left(s) >= 0 && DocumentOf(w, raw).Some?
    ensures var doc, r := DocumentOf(w, raw).value, BuildRaw(w, raw, budget, s, depth);
            if Left(s) >= 1 + |raw| && depth <= MAX_RESULT_DEPTH && budget >= 2 && Admits(s, raw)
            then r == RawOf(BuildSecurities(w, doc.securities, doc.entries, EMPTY_ACC, budget,
                                            AfterReading(s, raw, doc), depth))
            else r.RawOmit? && r.st.reasons != {}
  {
    hide Ascii, BuildSecurities, StringSize, ReadDocument, HasOccurrences, ValidDocument;
    GaveUp(s, {MaxResultNodes}, MaxResultNodes);
    if s.visitedNodes < s.limits.maxResultNodes {
      var t := s.(visitedNodes := s.visitedNodes + 1);
      GaveUp(t, {MaxResultDepth}, MaxResultDepth);
      GaveUp(t, {MaxResultBytes}, MaxResultBytes);
      var bytesFit, nodesFit := Admits(s, raw), |raw| <= Left(t);
      if !bytesFit || !nodesFit {
        GaveUp(t, (if bytesFit then {} else {MaxResultBytes}) + (if nodesFit then {} else {MaxResultNodes}),
               if bytesFit then MaxResultNodes else MaxResultBytes);
      }
    }
  }

  lemma SecuritiesFresh(doc: Document)
    requires DistinctSecurities(doc)
    ensures Fresh(Securities(doc.securities), [])
  {
  }

  /** Without a reason the document came out whole, and every budget covered it. */
  lemma DocumentHonest(w: World, raw: Str, budget: int, s: State, depth: nat)
    requires Left(s) >= 0 && s.inDiagnostics && DocumentOf(w, raw).Some? && DistinctSecurities(DocumentOf(w, raw).value)
    requires BuildRaw(w, raw, budget, s, depth).st.reasons == {}
    ensures var r, x := BuildRaw(w, raw, budget, s, depth), WholeDocument(w, raw, DocumentOf(w, raw).value, depth,
                                                                          s.rowsBeforeMetadata);
            && r.RawBuilt? && !x.Lossy? && Admits(s, raw)
            && (x.Full? ==>
                  && r.value == x.json && Need(x.json) <= budget && !x.cost.upstream
                  && Paid(s, MAX_SAFE_INTEGER, x.cost, r.st))
  {
    hide Ascii, BuildSecurities, ReadDocument, HasOccurrences, ValidDocument, WholeSecurities, Admits, BuildRaw, Fresh,
         NeedProps,
         DistinctSecurities;
    RawIs(w, raw, budget, s, depth);
    var doc := DocumentOf(w, raw).value;
    var t := AfterReading(s, raw, doc);
    EmptyAccOk(budget);
    DocumentLists(doc);
    SecuritiesHonest(w, doc.securities, doc.entries, EMPTY_ACC, budget, t, depth);
    SecuritiesFresh(doc);
    var x := WholeSecurities(w, doc.securities, doc.entries, depth, s.rowsBeforeMetadata);
    ReadingThen(s, raw, doc, budget, x, BuildSecurities(w, doc.securities, doc.entries, EMPTY_ACC, budget, t, depth));
  }

  lemma ReadingThen(s: State, raw: Str, doc: Document, budget: int, x: WholeList<Member>, o: PropOut)
    requires budget >= 2 && o.st.reasons == {} && Fresh(Securities(doc.securities), []) && Left(s) >= 1 + |raw|
    requires HonestProps(AfterReading(s, raw, doc), budget, MAX_SAFE_INTEGER, Securities(doc.securities), EMPTY_ACC, x,
                         o)
    ensures !x.LossyList?
    ensures x.FullList? ==>
              && o.acc.props == x.list && Need(JObject(x.list)) <= budget && !Then(Reading(raw), x.cost).upstream
              && Paid(s, MAX_SAFE_INTEGER, Then(Reading(raw), x.cost), o.st)
  {
    assert NeedProps([]) == 0;
    hide HasOccurrences, Fresh, NeedProps, Paid, Then;
    if x.FullList? {
      assert [] + x.list == x.list;
      PaidReading(s, raw, doc, x.cost, o.st);
    }
  }

  lemma PaidReading(s: State, raw: Str, doc: Document, c: Cost, t: State)
    requires Paid(AfterReading(s, raw, doc), MAX_SAFE_INTEGER, c, t) && !c.upstream
    ensures !Then(Reading(raw), c).upstream && Paid(s, MAX_SAFE_INTEGER, Then(Reading(raw), c), t)
  {
    hide HasOccurrences;
  }

  /** With budgets that cover its whole form the document comes out whole, with no new reason and exactly its visits. */
  lemma DocumentComplete(w: World, raw: Str, budget: int, s: State, depth: nat)
    requires Left(s) >= 0 && s.inDiagnostics && DocumentOf(w, raw).Some? && DistinctSecurities(DocumentOf(w, raw).value)
    requires var x := WholeDocument(w, raw, DocumentOf(w, raw).value, depth, s.rowsBeforeMetadata);
             x.Full? && Need(x.json) <= budget && Affords(s, MAX_SAFE_INTEGER, x.cost) && Admits(s, raw)
    ensures var r, x := BuildRaw(w, raw, budget, s, depth), WholeDocument(w, raw, DocumentOf(w, raw).value, depth,
                                                                          s.rowsBeforeMetadata);
            r.RawBuilt? && r.value == x.json && Unhurt(s, x.cost, r.st)
  {
    hide Ascii, BuildSecurities, ReadDocument, HasOccurrences, ValidDocument, WholeSecurities, Admits, BuildRaw, Fresh,
         NeedProps,
         DistinctSecurities, Unhurt;
    var doc := DocumentOf(w, raw).value;
    DocumentLists(doc);
    var x := WholeSecurities(w, doc.securities, doc.entries, depth, s.rowsBeforeMetadata);
    var t := AfterReading(s, raw, doc);
    RawIs(w, raw, budget, s, depth);
    SecuritiesFresh(doc);
    EmptyAccOk(budget);
    assert [] + x.list == x.list;
    SecuritiesComplete(w, doc.securities, doc.entries, EMPTY_ACC, budget, t, depth);
    ReadingUnhurt(s, raw, doc, x.cost, BuildSecurities(w, doc.securities, doc.entries, EMPTY_ACC, budget, t, depth).st);
  }

  lemma ReadingUnhurt(s: State, raw: Str, doc: Document, c: Cost, u: State)
    requires Unhurt(AfterReading(s, raw, doc), c, u)
    ensures Unhurt(s, Then(Reading(raw), c), u)
  {
    hide HasOccurrences, Noted;
    assert [] + c.trace.notes == c.trace.notes;
  }

  /**
   A stored document with a whole form leaves no reason exactly if its text fits the byte
   limit, the budgets cover the whole form and it reports no truncation itself; then it is
   emitted whole, for exactly its visits. Without a whole form it always leaves a reason.
   */
  lemma DocumentExactly(w: World, raw: Str, budget: int, s: State, depth: nat)
    requires Left(s) >= 0 && s.inDiagnostics && s.reasons == {}
    requires DocumentOf(w, raw).Some? && DistinctSecurities(DocumentOf(w, raw).value)
    ensures var r, x := BuildRaw(w, raw, budget, s, depth), WholeDocument(w, raw, DocumentOf(w, raw).value, depth,
                                                                          s.rowsBeforeMetadata);
            && (x.Lossy? ==> r.st.reasons != {})
            && (x.Full? ==>
                  && (r.st.reasons == {}
                      <==> && Admits(s, raw) && Need(x.json) <= budget && Affords(s, MAX_SAFE_INTEGER,
                                                                                  x.cost) && !x.cost.upstream)
                  && (r.st.reasons == {} ==> r.RawBuilt? && r.value == x.json && Charged(s, x.cost, r.st)))
  {
    hide Ascii, BuildRaw, WholeDocument, Admits, DocumentOf, DistinctSecurities, Need;
    var r, x := BuildRaw(w, raw, budget, s, depth),
        WholeDocument(w, raw, DocumentOf(w, raw).value, depth, s.rowsBeforeMetadata);
    if r.st.reasons == {} { DocumentHonest(w, raw, budget, s, depth); }
    if x.Full? && Admits(s, raw) && Need(x.json) <= budget && Affords(s, MAX_SAFE_INTEGER, x.cost) {
      DocumentComplete(w, raw, budget, s, depth);
    }
  }
}
