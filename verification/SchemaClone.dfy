/**
 Cloning and freezing a raw JSON schema (`langchain-tool.ts`). The source is any
 finite object graph, shared and possibly cyclic; the clone is a graph of new
 objects, numbered in the order of their creation.
 */
module SchemaClone {

  type Ref = nat
  type Id = nat

  datatype Leaf = Null | Bool(b: bool) | Text(s: string) | Number(token: string)

  datatype Value = Leaf(leaf: Leaf) | NonFinite | Unsupported | Object(ref: Ref)

  datatype Slot = Data(value: Value) | Accessor

  datatype Property = Property(key: string, slot: Slot)

  /** An object with its own enumerable properties in enumeration order. */
  datatype Node = Node(isArray: bool, props: seq<Property>)

  type Heap = map<Ref, Node>

  datatype NewValue = NewLeaf(leaf: Leaf) | NewObject(id: Id)

  datatype NewProperty = NewProperty(key: string, value: NewValue)

  datatype NewNode = NewNode(isArray: bool, props: seq<NewProperty>)

  datatype TypeError = NotFinite | NotSupported | HasAccessor | HasCycle

  datatype Outcome<+T> = Ok(value: T) | Throws(error: TypeError)

  // ----- the source graph -----

  predicate Known(heap: Heap, v: Value) { v.Object? ==> v.ref in heap }

  /** Every referenced object exists. */
  predicate Closed(heap: Heap) {
    forall r, i :: r in heap && 0 <= i < |heap[r].props| && heap[r].props[i].slot.Data? ==>
      Known(heap, heap[r].props[i].slot.value)
  }

  ghost predicate Edge(heap: Heap, a: Ref, b: Ref) {
    a in heap && exists i :: 0 <= i < |heap[a].props| && heap[a].props[i].slot == Data(Object(b))
  }

  ghost predicate Path(heap: Heap, p: seq<Ref>) {
    p != [] && forall i :: 0 <= i < |p| - 1 ==> Edge(heap, p[i], p[i + 1])
  }

  ghost predicate Starts(v: Value, p: seq<Ref>) { p != [] && v == Object(p[0]) }

  ghost predicate Reaches(heap: Heap, v: Value, r: Ref) {
    exists p :: Path(heap, p) && Starts(v, p) && p[|p| - 1] == r
  }

  /** A path that comes back to one of its objects. */
  ghost predicate Looping(heap: Heap, v: Value, p: seq<Ref>) {
    Path(heap, p) && Starts(v, p) && exists i :: 0 <= i < |p| - 1 && p[i] == p[|p| - 1]
  }

  ghost predicate Cyclic(heap: Heap, v: Value) { exists p :: Looping(heap, v, p) }

  predicate BadValue(v: Value) { v.NonFinite? || v.Unsupported? }

  predicate BadSlot(s: Slot) { s.Accessor? || BadValue(s.value) }

  ghost predicate BadNode(heap: Heap, r: Ref) {
    r in heap && exists i :: 0 <= i < |heap[r].props| && BadSlot(heap[r].props[i].slot)
  }

  /** Something that is not JSON can be reached. */
  ghost predicate Spoiled(heap: Heap, v: Value) {
    BadValue(v) || exists r :: Reaches(heap, v, r) && BadNode(heap, r)
  }

  ghost predicate Broken(heap: Heap, v: Value) { Cyclic(heap, v) || Spoiled(heap, v) }

  lemma ReachesStart(heap: Heap, r: Ref)
    ensures Reaches(heap, Object(r), r)
  {
    var p := [r];
    assert Path(heap, p) && Starts(Object(r), p);
  }

  lemma ReachesStep(heap: Heap, v: Value, a: Ref, b: Ref)
    requires Reaches(heap, v, a) && Edge(heap, a, b)
    ensures Reaches(heap, v, b)
  {
    var p :| Path(heap, p) && Starts(v, p) && p[|p| - 1] == a;
    var q := p + [b];
    assert Path(heap, q) && Starts(v, q);
  }

  // ----- the clone -----

  predicate Mapped(seen: map<Ref, Id>, v: Value, n: NewValue) {
    match v
    case Leaf(leaf) => n == NewLeaf(leaf)
    case Object(r) => r in seen && n == NewObject(seen[r])
    case _ => false
  }

  predicate MappedProperty(seen: map<Ref, Id>, p: Property, q: NewProperty) {
    p.key == q.key && p.slot.Data? && Mapped(seen, p.slot.value, q.value)
  }

  predicate MappedProps(seen: map<Ref, Id>, ps: seq<Property>, qs: seq<NewProperty>) {
    |ps| == |qs| && forall i :: 0 <= i < |ps| ==> MappedProperty(seen, ps[i], qs[i])
  }

  predicate MappedNode(seen: map<Ref, Id>, a: Node, b: NewNode) {
    a.isArray == b.isArray && MappedProps(seen, a.props, b.props)
  }

  predicate Injective(seen: map<Ref, Id>) {
    forall a, b :: a in seen && b in seen && seen[a] == seen[b] ==> a == b
  }

  /** Every number below `n` is taken. */
  ghost predicate Onto(seen: map<Ref, Id>, n: nat) {
    forall id :: 0 <= id < n ==> Taken(seen, id)
  }

  ghost predicate Taken(seen: map<Ref, Id>, id: Id) { exists r :: r in seen && seen[r] == id }

  predicate Distinct(s: seq<Ref>) { forall i, j :: 0 <= i < j < |s| ==> s[i] != s[j] }

  /** All objects that `node` refers to are in `done`. */
  predicate RefersTo(node: Node, done: seq<Ref>) {
    forall i :: 0 <= i < |node.props| && node.props[i].slot.Data? && node.props[i].slot.value.Object? ==>
      node.props[i].slot.value.ref in done
  }

  // ----- the state of a clone in progress -----

  /**
   `stack` lists the active objects, outermost first, and `finished` the objects whose
   clone is complete, in the order in which they finished.
   */
  datatype Progress = Progress(seen: map<Ref, Id>, active: set<Ref>, created: seq<NewNode>, stack: seq<Ref>,
                               finished: seq<Ref>)

  ghost predicate Stacked(heap: Heap, root: Value, p: Progress) {
    && (forall r :: r in p.active <==> r in p.stack)
    && (p.stack != [] ==> Path(heap, p.stack) && Starts(root, p.stack))
  }

  ghost predicate Numbered(heap: Heap, root: Value, p: Progress) {
    && p.seen.Keys <= heap.Keys
    && p.active <= p.seen.Keys
    && Injective(p.seen)
    && Onto(p.seen, |p.created|)
    && (forall r :: r in p.seen ==> p.seen[r] < |p.created|)
    && (forall r :: r in p.seen ==> Reaches(heap, root, r))
  }

  ghost predicate Complete(heap: Heap, p: Progress, r: Ref) {
    r in heap && r in p.seen && p.seen[r] < |p.created| && MappedNode(p.seen, heap[r], p.created[p.seen[r]])
  }

  ghost predicate Done(heap: Heap, p: Progress) {
    && (forall r :: r in p.finished <==> r in p.seen && r !in p.active)
    && Distinct(p.finished)
    && (forall i :: 0 <= i < |p.finished| ==> p.finished[i] in heap && RefersTo(heap[p.finished[i]], p.finished[..i]))
    && (forall r :: r in p.finished ==> Complete(heap, p, r))
  }

  ghost predicate Sound(heap: Heap, root: Value, p: Progress) {
    Stacked(heap, root, p) && Numbered(heap, root, p) && Done(heap, p)
  }

  /** Cloning only adds: the mapping grows, unfinished objects and the context are left alone. */
  ghost predicate Grown(p: Progress, q: Progress) {
    && q.stack == p.stack && q.active == p.active
    && p.seen.Keys <= q.seen.Keys && (forall r :: r in p.seen ==> q.seen[r] == p.seen[r])
    && |p.created| <= |q.created|
    && (forall r :: r in p.active && r in p.seen && p.seen[r] < |p.created| ==>
          q.created[p.seen[r]] == p.created[p.seen[r]])
    && p.finished <= q.finished
  }

  /** `value` is the root, or a child of the innermost active object. */
  ghost predicate Next(heap: Heap, root: Value, p: Progress, value: Value) {
    if p.stack == [] then value == root
    else
      var top := p.stack[|p.stack| - 1];
      top in heap && exists i :: 0 <= i < |heap[top].props| && heap[top].props[i].slot == Data(value)
  }

  lemma MappedGrown(heap: Heap, p: Progress, q: Progress, ps: seq<Property>, qs: seq<NewProperty>)
    requires Grown(p, q) && MappedProps(p.seen, ps, qs)
    ensures MappedProps(q.seen, ps, qs)
  {
    forall i | 0 <= i < |ps| ensures MappedProperty(q.seen, ps[i], qs[i]) {
      assert MappedProperty(p.seen, ps[i], qs[i]);
    }
  }

  // ----- steps -----

  function Enter(heap: Heap, p: Progress, r: Ref): Progress
    requires r in heap
  {
    p.(seen := p.seen[r := |p.created|], active := p.active + {r},
       created := p.created + [NewNode(heap[r].isArray, [])],
       stack := p.stack + [r])
  }

  lemma EnterReaches(heap: Heap, root: Value, p: Progress, r: Ref)
    requires Sound(heap, root, p) && Next(heap, root, p, Object(r))
    ensures Reaches(heap, root, r)
    ensures Path(heap, p.stack + [r]) && Starts(root, p.stack + [r])
  {
    if p.stack == [] {
      ReachesStart(heap, r);
      assert p.stack + [r] == [r];
    } else {
      var top := p.stack[|p.stack| - 1];
      assert top in p.stack;
      assert Edge(heap, top, r);
      ReachesStep(heap, root, top, r);
      var q := p.stack + [r];
      forall i | 0 <= i < |q| - 1 ensures Edge(heap, q[i], q[i + 1]) {
        if i < |p.stack| - 1 { assert Edge(heap, p.stack[i], p.stack[i + 1]); }
      }
    }
  }

  lemma EnterSound(heap: Heap, root: Value, p: Progress, r: Ref)
    requires Sound(heap, root, p) && Next(heap, root, p, Object(r)) && r in heap && r !in p.seen
    ensures Sound(heap, root, Enter(heap, p, r))
  {
    var q := Enter(heap, p, r);
    EnterReaches(heap, root, p, r);
    EnterNumbered(heap, root, p, r);
    EnterDone(heap, root, p, r);
    assert Stacked(heap, root, q);
  }

  lemma InjectiveAdd(seen: map<Ref, Id>, r: Ref, id: Id)
    requires Injective(seen) && r !in seen && forall a :: a in seen ==> seen[a] < id
    ensures Injective(seen[r := id])
    ensures Onto(seen, id) ==> Onto(seen[r := id], id + 1)
  {
    var seen' := seen[r := id];
    if Onto(seen, id) {
      forall k: nat | k < id + 1 ensures Taken(seen', k) {
        if k < id {
          assert Taken(seen, k);
          var a :| a in seen && seen[a] == k;
          assert a in seen' && seen'[a] == k;
        } else {
          assert r in seen' && seen'[r] == k;
        }
      }
    }
  }

  lemma EnterNumbered(heap: Heap, root: Value, p: Progress, r: Ref)
    requires Numbered(heap, root, p) && r in heap && r !in p.seen && Reaches(heap, root, r)
    ensures Numbered(heap, root, Enter(heap, p, r))
  {
    hide Reaches, Injective, Onto;
    InjectiveAdd(p.seen, r, |p.created|);
  }

  lemma EnterDone(heap: Heap, root: Value, p: Progress, r: Ref)
    requires Sound(heap, root, p) && r in heap && r !in p.seen
    ensures Done(heap, Enter(heap, p, r))
  {
    hide Reaches, Stacked;
    var q := Enter(heap, p, r);
    forall a | a in q.finished ensures Complete(heap, q, a) {
      assert Complete(heap, p, a);
      var ps, qs := heap[a].props, p.created[p.seen[a]].props;
      forall i | 0 <= i < |ps|
        ensures MappedProperty(q.seen, ps[i], qs[i]) { assert MappedProperty(p.seen, ps[i], qs[i]); }
    }
  }

  function Define(p: Progress, id: Id, m: NewProperty): Progress
    requires id < |p.created|
  {
    p.(created := p.created[id := p.created[id].(props := p.created[id].props + [m])])
  }

  lemma DefineSound(heap: Heap, root: Value, p: Progress, r: Ref, m: NewProperty)
    requires Sound(heap, root, p) && r in p.active && r in p.seen && p.seen[r] < |p.created|
    ensures Sound(heap, root, Define(p, p.seen[r], m))
  {
    hide Reaches;
    var q := Define(p, p.seen[r], m);
    forall a | a in q.finished ensures Complete(heap, q, a) {
      assert Complete(heap, p, a);
      assert a != r;
    }
    assert Stacked(heap, root, q) by { assert Stacked(heap, root, p); }
  }

  function Exit(p: Progress, r: Ref): Progress
    requires p.stack != []
  {
    p.(active := p.active - {r}, stack := p.stack[..|p.stack| - 1], finished := p.finished + [r])
  }

  lemma ExitStacked(heap: Heap, root: Value, p: Progress, r: Ref)
    requires Stacked(heap, root, p) && p.stack != [] && r == p.stack[|p.stack| - 1] && r !in p.stack[..|p.stack| - 1]
    ensures Stacked(heap, root, Exit(p, r)) && r in p.active
  {
    var q := Exit(p, r);
    assert p.stack == q.stack + [r];
    forall i | 0 <= i < |q.stack| - 1 ensures Edge(heap, q.stack[i], q.stack[i + 1]) {
      assert Edge(heap, p.stack[i], p.stack[i + 1]);
    }
  }

  lemma ExitDone(heap: Heap, p: Progress, r: Ref)
    requires Done(heap, p) && p.stack != [] && r in p.active && r in p.seen
    requires Complete(heap, p, r) && RefersTo(heap[r], p.finished)
    ensures Done(heap, Exit(p, r))
  {
    hide MappedNode, RefersTo;
    var q := Exit(p, r);
    forall i | 0 <= i < |q.finished| ensures q.finished[i] in heap && RefersTo(heap[q.finished[i]], q.finished[..i]) {
      assert q.finished[..i] == p.finished[..i];
      assert p.finished[..|p.finished|] == p.finished;
    }
    forall a | a in q.finished ensures Complete(heap, q, a) { assert Complete(heap, p, a); }
  }

  lemma ExitSound(heap: Heap, root: Value, p: Progress, r: Ref)
    requires Sound(heap, root, p) && p.stack != [] && r == p.stack[|p.stack| - 1] && r !in p.stack[..|p.stack| - 1]
    requires Complete(heap, p, r) && RefersTo(heap[r], p.finished)
    ensures Sound(heap, root, Exit(p, r))
  {
    hide Stacked, Done, RefersTo, MappedNode, Reaches;
    ExitStacked(heap, root, p, r);
    ExitDone(heap, p, r);
  }

  // ----- why a clone fails -----

  lemma CycleFound(heap: Heap, root: Value, p: Progress, r: Ref)
    requires Sound(heap, root, p) && Next(heap, root, p, Object(r)) && r in p.active
    ensures Broken(heap, root)
  {
    EnterReaches(heap, root, p, r);
    var q := p.stack + [r];
    var i :| 0 <= i < |p.stack| && p.stack[i] == r;
    assert q[i] == q[|q| - 1];
    assert Looping(heap, root, q);
  }

  lemma BadFound(heap: Heap, root: Value, p: Progress, slot: Slot)
    requires Sound(heap, root, p) && BadSlot(slot)
    requires if slot.Data? then Next(heap, root, p, slot.value)
             else p.stack != [] && var top := p.stack[|p.stack| - 1];
                  top in heap && exists i :: 0 <= i < |heap[top].props| && heap[top].props[i].slot == slot
    ensures Broken(heap, root)
  {
    if p.stack != [] {
      var top := p.stack[|p.stack| - 1];
      assert top in p.stack;
      assert Reaches(heap, root, top) && BadNode(heap, top);
    }
  }

  /** The first `n` properties of the innermost active object are cloned. */
  ghost predicate Filled(heap: Heap, p: Progress, ref: Ref, id: Id, n: nat) {
    && ref in heap && n <= |heap[ref].props|
    && ref in p.seen && p.seen[ref] == id < |p.created|
    && p.created[id].isArray == heap[ref].isArray
    && MappedProps(p.seen, heap[ref].props[..n], p.created[id].props)
    && RefersTo(Node(false, heap[ref].props[..n]), p.finished)
  }

  lemma SeenFinished(heap: Heap, root: Value, p: Progress, r: Ref)
    requires Sound(heap, root, p) && r in p.seen && r !in p.active
    ensures r in p.finished
  {
  }

  /** How far `q` has come since `ref` was entered from `p`. */
  ghost predicate Working(p: Progress, q: Progress, ref: Ref) {
    && q.stack == p.stack + [ref] && q.active == p.active + {ref} && ref !in p.stack
    && p.active <= p.seen.Keys
    && p.seen.Keys <= q.seen.Keys && (forall r :: r in p.seen ==> q.seen[r] == p.seen[r] < |p.created|)
    && |p.created| <= |q.created|
    && (forall r :: r in p.active ==> q.created[p.seen[r]] == p.created[p.seen[r]])
    && p.finished <= q.finished
  }

  lemma EnterContext(heap: Heap, root: Value, p: Progress, ref: Ref)
    requires Sound(heap, root, p) && ref in heap && ref !in p.seen
    ensures var q := Enter(heap, p, ref);
            Filled(heap, q, ref, |p.created|, 0) && Working(p, q, ref)
  {
    hide Reaches;
    assert heap[ref].props[..0] == [];
    assert ref in p.stack ==> ref in p.active;
  }

  lemma WorkingGrown(p: Progress, q: Progress, r: Progress, ref: Ref)
    requires Working(p, q, ref) && Grown(q, r)
    ensures Working(p, r, ref)
  {
  }

  lemma TopChild(heap: Heap, root: Value, p: Progress, ref: Ref, i: nat)
    requires ref in heap && i < |heap[ref].props| && p.stack != [] && p.stack[|p.stack| - 1] == ref
    ensures heap[ref].props[i].slot.Data? ==> Next(heap, root, p, heap[ref].props[i].slot.value)
    ensures Closed(heap) && heap[ref].props[i].slot.Data? ==> Known(heap, heap[ref].props[i].slot.value)
  {
  }

  /** One more property: what was filled stays, and the new one is mapped. */
  lemma FilledMore(heap: Heap, root: Value, before: Progress, at: Progress, p: Progress, ref: Ref, i: nat, n: NewValue)
    requires Sound(heap, root, at) && Sound(heap, root, p) && Working(before, at, ref) && Grown(at, p)
    requires Filled(heap, at, ref, |before.created|, i) && i < |heap[ref].props| && heap[ref].props[i].slot.Data?
    requires Mapped(p.seen, heap[ref].props[i].slot.value, n)
    requires heap[ref].props[i].slot.value.Object? ==> heap[ref].props[i].slot.value.ref in p.finished
    ensures var id := |before.created|;
            && id < |p.created|
            && var q := Define(p, id, NewProperty(heap[ref].props[i].key, n));
               Sound(heap, root, q) && Filled(heap, q, ref, id, i + 1) && Working(before, q, ref)
  {
    hide Reaches, Sound;
    var id, m := |before.created|, NewProperty(heap[ref].props[i].key, n);
    assert ref in at.active && p.seen[ref] == id && id < |p.created|;
    DefineSound(heap, root, p, ref, m);
    WorkingGrown(before, at, p, ref);
    var ps := heap[ref].props;
    MappedGrown(heap, at, p, ps[..i], at.created[id].props);
    assert ps[..i + 1] == ps[..i] + [ps[i]];
    assert p.created[id] == at.created[id];
  }

  lemma FilledExit(heap: Heap, root: Value, before: Progress, p: Progress, ref: Ref)
    requires Sound(heap, root, p) && Working(before, p, ref) && ref in heap
    requires Filled(heap, p, ref, |before.created|, |heap[ref].props|)
    ensures p.stack != []
    ensures Sound(heap, root, Exit(p, ref)) && Grown(before, Exit(p, ref)) && Exit(p, ref).stack == before.stack
  {
    hide Reaches, Sound;
    var ps := heap[ref].props;
    assert ps[..|ps|] == ps;
    assert p.stack[..|p.stack| - 1] == before.stack;
    assert RefersTo(heap[ref], p.finished);
    assert ref !in before.active ==> before.active + {ref} - {ref} == before.active;
    ExitSound(heap, root, p, ref);
  }

  class Cloner {
    const heap: Heap
    ghost const root: Value
    var seen: map<Ref, Id>
    var active: set<Ref>
    var created: seq<NewNode>
    ghost var stack: seq<Ref>
    ghost var finished: seq<Ref>

    ghost function State(): Progress
      reads this
    {
      Progress(seen, active, created, stack, finished)
    }

    ghost predicate Valid()
      reads this
    {
      Closed(heap) && Sound(heap, root, State())
    }

    constructor (heap: Heap, root: Value)
      requires Closed(heap) && Known(heap, root)
      ensures Valid() && State() == Progress(map[], {}, [], [], [])
      ensures this.heap == heap && this.root == root
    {
      this.heap, this.root := heap, root;
      seen, active, created := map[], {}, [];
      stack, finished := [], [];
    }

    method CloneValue(value: Value) returns (r: Outcome<NewValue>)
      requires Valid() && Next(heap, root, State(), value) && Known(heap, value)
      modifies this
      ensures r.Ok? ==> Valid() && Grown(old(State()), State())
      ensures r.Ok? ==> Mapped(seen, value, r.value) && (value.Object? ==> value.ref in finished)
      ensures r.Throws? ==> Broken(heap, root) && active == old(active)
      decreases heap.Keys - seen.Keys, 1
    {
      hide Sound, Broken, Next;
      match value
      case Leaf(leaf) => return Ok(NewLeaf(leaf));
      case NonFinite =>
        BadFound(heap, root, State(), Data(value));
        return Throws(NotFinite);
      case Unsupported =>
        BadFound(heap, root, State(), Data(value));
        return Throws(NotSupported);
      case Object(ref) =>
        if ref in seen {
          if ref in active {
            CycleFound(heap, root, State(), ref);
            return Throws(HasCycle);
          }
          SeenFinished(heap, root, State(), ref);
          return Ok(NewObject(seen[ref]));
        }
        r := CloneObject(ref);
    }

    method CloneObject(ref: Ref) returns (r: Outcome<NewValue>)
      requires Valid() && Next(heap, root, State(), Object(ref)) && ref in heap && ref !in seen
      modifies this
      ensures r.Ok? ==> Valid() && Grown(old(State()), State())
      ensures r.Ok? ==> Mapped(seen, Object(ref), r.value) && ref in finished
      ensures r.Throws? ==> Broken(heap, root) && active == old(active)
      decreases heap.Keys - seen.Keys, 0
    {
      hide Sound, Broken, Next, Closed, Reaches;
      var id := |created|;
      ghost var before := State();
      EnterSound(heap, root, State(), ref);
      seen := seen[ref := id];
      created := created + [NewNode(heap[ref].isArray, [])];
      active := active + {ref};
      stack := stack + [ref];
      var props := heap[ref].props;
      EnterContext(heap, root, before, ref);
      for i := 0 to |props|
        invariant Valid() && Working(before, State(), ref) && Filled(heap, State(), ref, id, i)
      {
        TopChild(heap, root, State(), ref, i);
        if props[i].slot.Accessor? {
          BadFound(heap, root, State(), props[i].slot);
          active := active - {ref};
          return Throws(HasAccessor);
        }
        ghost var at := State();
        var child := CloneValue(props[i].slot.value);
        if child.Throws? {
          active := active - {ref};
          return Throws(child.error);
        }
        FilledMore(heap, root, before, at, State(), ref, i, child.value);
        created := created[id := NewNode(created[id].isArray,
                                         created[id].props + [NewProperty(props[i].key, child.value)])];
      }
      FilledExit(heap, root, before, State(), ref);
      active := active - {ref};
      stack := stack[..|stack| - 1];
      finished := finished + [ref];
      return Ok(NewObject(id));
    }
  }

  // ----- a clone that succeeds -----

  function IndexOf(s: seq<Ref>, r: Ref): (i: nat)
    requires r in s
    ensures i < |s| && s[i] == r
  {
    if s[0] == r then 0 else 1 + IndexOf(s[1..], r)
  }

  lemma IndexUnique(s: seq<Ref>, i: nat)
    requires Distinct(s) && i < |s|
    ensures IndexOf(s, s[i]) == i
  {
    var k := IndexOf(s, s[i]);
    assert s[k] == s[i];
  }

  lemma EdgeDescends(heap: Heap, p: Progress, a: Ref, b: Ref)
    requires Done(heap, p) && a in p.finished && Edge(heap, a, b)
    ensures b in p.finished && IndexOf(p.finished, b) < IndexOf(p.finished, a)
  {
    hide MappedNode;
    var i := IndexOf(p.finished, a);
    assert RefersTo(heap[a], p.finished[..i]);
    var k :| 0 <= k < |heap[a].props| && heap[a].props[k].slot == Data(Object(b));
    assert b in p.finished[..i];
    var j :| 0 <= j < i && p.finished[..i][j] == b;
    IndexUnique(p.finished, j);
  }

  /** Along a path the finishing order goes strictly down. */
  lemma {:induction false} PathDescends(heap: Heap, p: Progress, q: seq<Ref>, j: nat)
    requires Done(heap, p) && Path(heap, q) && q[0] in p.finished && j < |q|
    ensures q[j] in p.finished
    ensures forall i :: 0 <= i < j ==> q[i] in p.finished && IndexOf(p.finished, q[j]) < IndexOf(p.finished, q[i])
  {
    hide Done, Edge;
    if j > 0 {
      PathDescends(heap, p, q, j - 1);
      assert Edge(heap, q[j - 1], q[j - 1 + 1]);
      EdgeDescends(heap, p, q[j - 1], q[j]);
    }
  }

  lemma FinishedUnbroken(heap: Heap, root: Value, p: Progress)
    requires Done(heap, p) && (root.Leaf? || (root.Object? && root.ref in p.finished))
    ensures !Broken(heap, root)
    ensures forall r :: Reaches(heap, root, r) ==> r in p.finished
  {
    hide Done, Path;
    forall q | Path(heap, q) && Starts(root, q) ensures !Looping(heap, root, q) && q[|q| - 1] in p.finished {
      PathDescends(heap, p, q, |q| - 1);
    }
    forall r | Reaches(heap, root, r) ensures r in p.finished && !BadNode(heap, r) {
      FinishedGood(heap, p, r);
    }
  }

  lemma FinishedGood(heap: Heap, p: Progress, r: Ref)
    requires Done(heap, p) && r in p.finished
    ensures !BadNode(heap, r)
  {
    assert Complete(heap, p, r);
    var props := heap[r].props;
    forall i | 0 <= i < |props| ensures !BadSlot(props[i].slot) {
      assert MappedProperty(p.seen, props[i], p.created[p.seen[r]].props[i]);
    }
  }

  // ----- freezing -----

  predicate NewClosed(graph: seq<NewNode>) {
    forall id, i :: 0 <= id < |graph| && 0 <= i < |graph[id].props| && graph[id].props[i].value.NewObject? ==>
      graph[id].props[i].value.id < |graph|
  }

  ghost predicate NewEdge(graph: seq<NewNode>, a: Id, b: Id) {
    a < |graph| && exists i :: 0 <= i < |graph[a].props| && graph[a].props[i].value == NewObject(b)
  }

  ghost predicate NewPath(graph: seq<NewNode>, p: seq<Id>) {
    p != [] && forall i :: 0 <= i < |p| - 1 ==> NewEdge(graph, p[i], p[i + 1])
  }

  ghost predicate NewReaches(graph: seq<NewNode>, root: Id, id: Id) {
    exists p :: NewPath(graph, p) && p[0] == root && p[|p| - 1] == id
  }

  lemma NewReachesStep(graph: seq<NewNode>, root: Id, a: Id, b: Id)
    requires NewReaches(graph, root, a) && NewEdge(graph, a, b)
    ensures NewReaches(graph, root, b)
  {
    var p :| NewPath(graph, p) && p[0] == root && p[|p| - 1] == a;
    assert NewPath(graph, p + [b]);
  }

  lemma NewReachesStart(graph: seq<NewNode>, root: Id)
    ensures NewReaches(graph, root, root)
  {
    assert NewPath(graph, [root]);
  }

  /** Children of frozen objects are frozen or waiting. */
  ghost predicate Frontier(graph: seq<NewNode>, seen: set<Id>, pending: seq<Id>) {
    forall a, b :: a in seen && NewEdge(graph, a, b) ==> b in seen || b in pending
  }

  lemma {:induction false} ClosedPath(graph: seq<NewNode>, seen: set<Id>, p: seq<Id>, j: nat)
    requires Frontier(graph, seen, []) && NewPath(graph, p) && p[0] in seen && j < |p|
    ensures p[j] in seen
  {
    hide NewEdge;
    if j > 0 {
      ClosedPath(graph, seen, p, j - 1);
      assert NewEdge(graph, p[j - 1], p[j - 1 + 1]);
    }
  }

  ghost function Below(n: nat): (s: set<Id>)
    ensures forall id: nat :: id in s <==> id < n
  {
    if n == 0 then {} else Below(n - 1) + {n - 1}
  }

  /** The worklist freezes exactly the reachable objects. */
  method FreezeJsonSchema(graph: seq<NewNode>, root: Id) returns (frozen: set<Id>)
    requires NewClosed(graph) && root < |graph|
    ensures forall id :: id in frozen <==> NewReaches(graph, root, id)
  {
    hide NewReaches, NewEdge, Frontier, Found;
    var pending: seq<Id>, seen: set<Id> := [root], {};
    frozen := {};
    ghost var all := Below(|graph|);
    NothingSeen(graph, root);
    while pending != []
      invariant frozen == seen && seen <= all
      invariant root in seen || root in pending
      invariant Frontier(graph, seen, pending)
      invariant Found(graph, root, seen, pending)
      decreases all - seen, |pending|
    {
      var value := pending[|pending| - 1];
      ghost var before := pending;
      pending := pending[..|pending| - 1];
      assert before == pending + [value] && value in before;
      FoundOne(graph, root, seen, pending, value);
      if value in seen {
        FrontierSkip(graph, seen, pending, value);
        continue;
      }
      ghost var rest := pending;
      pending := PushChildren(graph, value, pending);
      FrontierStep(graph, seen, rest, value, pending);
      FoundMore(graph, root, seen, rest, value, pending);
      seen := seen + {value};
      frozen := frozen + {value};
    }
    forall id | NewReaches(graph, root, id) ensures id in frozen { ReachedFrozen(graph, seen, root, id); }
    forall id | id in frozen ensures NewReaches(graph, root, id) { FoundReaches(graph, root, seen, pending, id); }
  }

  /** Everything frozen or waiting is an object that can be reached. */
  ghost predicate Found(graph: seq<NewNode>, root: Id, seen: set<Id>, pending: seq<Id>) {
    forall id :: id in seen || id in pending ==> id < |graph| && NewReaches(graph, root, id)
  }

  lemma FoundReaches(graph: seq<NewNode>, root: Id, seen: set<Id>, pending: seq<Id>, id: Id)
    requires Found(graph, root, seen, pending) && id in seen
    ensures NewReaches(graph, root, id)
  {
    hide NewReaches;
  }

  lemma FoundOne(graph: seq<NewNode>, root: Id, seen: set<Id>, rest: seq<Id>, value: Id)
    requires Found(graph, root, seen, rest + [value])
    ensures value < |graph| && NewReaches(graph, root, value) && Found(graph, root, seen, rest)
  {
    hide NewReaches;
    var all := rest + [value];
    assert value in all;
    forall id | id in seen || id in rest ensures id < |graph| && NewReaches(graph, root, id) {
      assert id in seen || id in all;
    }
  }

  lemma FoundMore(graph: seq<NewNode>, root: Id, seen: set<Id>, rest: seq<Id>, value: Id, pending: seq<Id>)
    requires Found(graph, root, seen, rest) && value < |graph| && NewReaches(graph, root, value)
    requires forall id :: id in pending <==> id in rest || NewEdge(graph, value, id)
    requires forall id :: id in pending && id !in rest ==> id < |graph|
    ensures Found(graph, root, seen + {value}, pending)
  {
    hide NewReaches, NewEdge;
    forall id | id in pending && id !in rest
      ensures NewReaches(graph, root, id) { NewReachesStep(graph, root, value, id); }
  }

  lemma NothingSeen(graph: seq<NewNode>, root: Id)
    requires root < |graph|
    ensures Frontier(graph, {}, [root]) && Found(graph, root, {}, [root])
  {
    hide NewReaches;
    NewReachesStart(graph, root);
  }

  lemma FrontierSkip(graph: seq<NewNode>, seen: set<Id>, rest: seq<Id>, value: Id)
    requires Frontier(graph, seen, rest + [value]) && value in seen
    ensures Frontier(graph, seen, rest)
  {
    hide NewEdge;
  }

  lemma FrontierStep(graph: seq<NewNode>, seen: set<Id>, rest: seq<Id>, value: Id, pending: seq<Id>)
    requires Frontier(graph, seen, rest + [value])
    requires forall id :: id in pending <==> id in rest || NewEdge(graph, value, id)
    ensures Frontier(graph, seen + {value}, pending)
  {
    hide NewEdge;
    forall a, b | a in seen + {value} && NewEdge(graph, a, b) ensures b in seen + {value} || b in pending {
      if a in seen && b !in seen && b != value { assert b in rest + [value]; }
    }
  }

  lemma ReachedFrozen(graph: seq<NewNode>, seen: set<Id>, root: Id, id: Id)
    requires Frontier(graph, seen, []) && root in seen && NewReaches(graph, root, id)
    ensures id in seen
  {
    hide Frontier;
    var p :| NewPath(graph, p) && p[0] == root && p[|p| - 1] == id;
    ClosedPath(graph, seen, p, |p| - 1);
  }

  method PushChildren(graph: seq<NewNode>, value: Id, pending: seq<Id>) returns (r: seq<Id>)
    requires NewClosed(graph) && value < |graph|
    ensures forall id :: id in r <==> id in pending || NewEdge(graph, value, id)
    ensures forall id :: id in r && id !in pending ==> id < |graph|
  {
    r := pending;
    var props := graph[value].props;
    for i := 0 to |props|
      invariant forall id :: id in r <==> id in pending || exists k :: 0 <= k < i && props[k].value == NewObject(id)
    {
      if props[i].value.NewObject? {
        r := r + [props[i].value.id];
      }
    }
  }

  // ----- cloning and freezing a schema -----

  /** The clone: its objects, the one that stands for the root, and the frozen ones. */
  datatype Clone = Clone(objects: seq<NewNode>, root: Id, frozen: set<Id>)

  /** `objects` is a copy of everything reachable from `root`, with the same sharing. */
  ghost predicate Isomorphic(heap: Heap, root: Ref, c: Clone, image: map<Ref, Id>) {
    && (forall r :: r in image <==> Reaches(heap, Object(root), r))
    && Injective(image)
    && Onto(image, |c.objects|)
    && (forall r :: r in image ==>
          r in heap && image[r] < |c.objects| && MappedNode(image, heap[r], c.objects[image[r]]))
    && root in image && c.root == image[root]
  }

  lemma {:induction false} PathImage(heap: Heap, root: Ref, c: Clone, image: map<Ref, Id>, q: seq<Ref>, j: nat)
    requires Isomorphic(heap, root, c, image) && Path(heap, q) && q[0] == root && j < |q|
    ensures q[j] in image && NewReaches(c.objects, c.root, image[q[j]])
  {
    hide NewReaches, Reaches, Injective, Onto;
    NewReachesStart(c.objects, c.root);
    if j > 0 {
      PathImage(heap, root, c, image, q, j - 1);
      var a, b := q[j - 1], q[j - 1 + 1];
      assert Edge(heap, a, b);
      var i :| 0 <= i < |heap[a].props| && heap[a].props[i].slot == Data(Object(b));
      assert MappedProperty(image, heap[a].props[i], c.objects[image[a]].props[i]);
      assert NewEdge(c.objects, image[a], image[b]);
      NewReachesStep(c.objects, c.root, image[a], image[b]);
    }
  }

  /** Every object of a copy can be reached from its root. */
  lemma AllReached(heap: Heap, root: Ref, c: Clone, image: map<Ref, Id>, id: Id)
    requires Isomorphic(heap, root, c, image) && id < |c.objects|
    ensures NewReaches(c.objects, c.root, id)
  {
    hide NewReaches, Injective, MappedNode;
    assert Taken(image, id);
    var r :| r in image && image[r] == id;
    assert Reaches(heap, Object(root), r);
    var q :| Path(heap, q) && Starts(Object(root), q) && q[|q| - 1] == r;
    PathImage(heap, root, c, image, q, |q| - 1);
  }

  lemma CopyClosed(heap: Heap, root: Ref, c: Clone, image: map<Ref, Id>)
    requires Isomorphic(heap, root, c, image)
    ensures NewClosed(c.objects)
  {
    hide Reaches, Injective;
    forall id, i | 0 <= id < |c.objects| && 0 <= i < |c.objects[id].props| && c.objects[id].props[i].value.NewObject?
      ensures c.objects[id].props[i].value.id < |c.objects|
    {
      assert Taken(image, id);
      var r :| r in image && image[r] == id;
      assert MappedProperty(image, heap[r].props[i], c.objects[id].props[i]);
    }
  }

  /**
   A schema is cloned exactly when no cycle and nothing that is not JSON can be reached
   from it; then the clone is a copy with the same sharing, and all of it is frozen.
   */
  method CloneAndFreeze(heap: Heap, root: Ref) returns (r: Outcome<Clone>, ghost image: map<Ref, Id>)
    requires Closed(heap) && root in heap
    ensures r.Ok? <==> !Broken(heap, Object(root))
    ensures r.Ok? ==> Isomorphic(heap, root, r.value, image)
    ensures r.Ok? ==> forall id: nat :: id in r.value.frozen <==> id < |r.value.objects|
  {
    hide Broken, NewReaches, MappedNode, Injective, Onto, Reaches;
    var cloner := new Cloner(heap, Object(root));
    var v := cloner.CloneValue(Object(root));
    image := cloner.seen;
    if v.Throws? {
      return Throws(v.error), image;
    }
    var c := Clone(cloner.created, v.value.id, {});
    FinishedUnbroken(heap, Object(root), cloner.State());
    ClonerDone(heap, root, cloner.State(), c);
    CopyClosed(heap, root, c, image);
    var frozen := FreezeJsonSchema(c.objects, c.root);
    forall id: nat | id < |c.objects| ensures id in frozen { AllReached(heap, root, c, image, id); }
    forall id | id in frozen ensures id < |c.objects| { ReachedInside(c.objects, c.root, id); }
    r := Ok(Clone(c.objects, c.root, frozen));
  }

  lemma ReachedInside(graph: seq<NewNode>, root: Id, id: Id)
    requires NewClosed(graph) && root < |graph| && NewReaches(graph, root, id)
    ensures id < |graph|
  {
    var p :| NewPath(graph, p) && p[0] == root && p[|p| - 1] == id;
    if |p| > 1 {
      assert NewEdge(graph, p[|p| - 2], p[|p| - 2 + 1]);
    }
  }

  lemma ClonerDone(heap: Heap, root: Ref, p: Progress, c: Clone)
    requires Sound(heap, Object(root), p) && p.stack == [] && root in p.finished
    requires c.objects == p.created && root in p.seen && c.root == p.seen[root]
    requires forall r :: Reaches(heap, Object(root), r) ==> r in p.finished
    ensures Isomorphic(heap, root, c, p.seen)
  {
    hide MappedNode, Reaches, Injective, Onto, RefersTo;
    forall r | r in p.seen ensures r in heap && p.seen[r] < |c.objects|
        && MappedNode(p.seen, heap[r], c.objects[p.seen[r]]) {
      assert r !in p.stack;
      assert r in p.finished;
      assert Complete(heap, p, r);
    }
  }
}
