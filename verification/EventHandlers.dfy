/** The list of event handlers that is walked while handlers are added, removed and tombstoned
    (src/logid/backend/EventHandlerList.h).

    A node is identified by its iterator.  `run_all` passes hold the list mutex shared, so `remove`
    and `cleanup` erase only when no pass is active; otherwise `remove` only clears the node's flag.
    Add, remove, cleanup and the two halves of one loop turn are the atomic steps. */
module EventHandlers {
  import opened Common

  datatype Node = Node(id: nat, live: bool)

  function Ids(list: seq<Node>): (r: seq<nat>)
    ensures |r| == |list|
  {
    seq(|list|, i requires 0 <= i < |list| => list[i].id)
  }

  predicate Distinct(list: seq<Node>) {
    forall i, j :: 0 <= i < j < |list| ==> list[i].id != list[j].id
  }

  predicate Has(list: seq<Node>, id: nat) {
    exists i :: 0 <= i < |list| && list[i].id == id
  }

  predicate IsLive(list: seq<Node>, id: nat) {
    exists i :: 0 <= i < |list| && list[i] == Node(id, true)
  }

  /** The nodes a cleanup keeps. */
  function LiveOnly(list: seq<Node>): seq<Node> {
    if list == [] then []
    else if list[0].live then [list[0]] + LiveOnly(list[1..])
    else LiveOnly(list[1..])
  }

  /** list::erase of the node with this identity. */
  function Erase(list: seq<Node>, id: nat): seq<Node> {
    if list == [] then []
    else if list[0].id == id then list[1..]
    else [list[0]] + Erase(list[1..], id)
  }

  function Tombstone(list: seq<Node>, id: nat): (r: seq<Node>)
    ensures |r| == |list|
  {
    seq(|list|, i requires 0 <= i < |list| =>
      if list[i].id == id then Node(id, false) else list[i])
  }

  function IndexOf(list: seq<Node>, id: nat): (i: nat)
    requires Has(list, id)
    ensures i < |list| && list[i].id == id
    ensures forall j :: 0 <= j < i ==> list[j].id != id
  {
    if list[0].id == id then 0
    else
      assert Has(list[1..], id) by {
        var i :| 0 <= i < |list| && list[i].id == id;
        assert list[1..][i - 1].id == id;
      }
      1 + IndexOf(list[1..], id)
  }

  /** `++it`: the node after `id`, None for end(). */
  function NextOf(list: seq<Node>, id: nat): Option<nat>
    requires Has(list, id)
  {
    var i := IndexOf(list, id);
    if i + 1 < |list| then Some(list[i + 1].id) else None
  }

  function First(list: seq<Node>): Option<nat> {
    if list == [] then None else Some(list[0].id)
  }

  lemma {:induction false} LiveOnlyNodes(list: seq<Node>)
    requires Distinct(list)
    ensures Distinct(LiveOnly(list))
    ensures forall n :: n in LiveOnly(list) <==> n in list && n.live
  {
    if list == [] {
    } else {
      LiveOnlyNodes(list[1..]);
      HeadIsNew(list, LiveOnly(list[1..]));
    }
  }

  lemma {:induction false} EraseNodes(list: seq<Node>, id: nat)
    requires Distinct(list)
    ensures Distinct(Erase(list, id))
    ensures forall n :: n in Erase(list, id) <==> n in list && n.id != id
    ensures Has(list, id) ==> |Erase(list, id)| == |list| - 1
    ensures !Has(list, id) ==> Erase(list, id) == list
  {
    if list == [] {
    } else {
      EraseNodes(list[1..], id);
      HeadIsNew(list, list[1..]);
      if list[0].id != id {
        HeadIsNew(list, Erase(list[1..], id));
        HasTail(list, id);
      } else {
        assert Has(list, id);
      }
    }
  }

  lemma HasTail(list: seq<Node>, id: nat)
    requires list != []
    ensures Has(list, id) <==> list[0].id == id || Has(list[1..], id)
  {
    if Has(list, id) && list[0].id != id {
      var i := IndexOf(list, id);
      assert list[1..][i - 1].id == id;
    }
    if Has(list[1..], id) {
      var i := IndexOf(list[1..], id);
      assert list[i + 1].id == id;
    }
  }

  lemma HeadIsNew(list: seq<Node>, part: seq<Node>)
    requires list != [] && Distinct(list) && forall n :: n in part ==> n in list[1..]
    ensures forall j :: 0 <= j < |part| ==> part[j].id != list[0].id
  {
    forall j | 0 <= j < |part|
      ensures part[j].id != list[0].id
    {
      assert part[j] in list[1..];
      var k :| 0 <= k < |list[1..]| && list[1..][k] == part[j];
      assert list[k + 1] == part[j];
    }
  }

  // ---------------------------------------------------------------------------------------------
  // The list object
  // ---------------------------------------------------------------------------------------------

  lemma {:induction false} LiveOnlyAppend(list: seq<Node>, n: Node)
    ensures LiveOnly(list + [n]) == LiveOnly(list) + if n.live then [n] else []
  {
    if list == [] {
      assert list + [n] == [n];
    } else {
      assert (list + [n])[1..] == list[1..] + [n];
      LiveOnlyAppend(list[1..], n);
    }
  }

  function EraseAll(list: seq<Node>, ids: seq<nat>): seq<Node> {
    if ids == [] then list else Erase(EraseAll(list, ids[..|ids| - 1]), ids[|ids| - 1])
  }

  function DeadIds(list: seq<Node>): seq<nat> {
    if list == [] then []
    else DeadIds(list[..|list| - 1]) + if list[|list| - 1].live then [] else [list[|list| - 1].id]
  }

  lemma {:induction false} EraseOfAppend(a: seq<Node>, n: Node, id: nat)
    requires n.id != id
    ensures Erase(a + [n], id) == Erase(a, id) + [n]
  {
    if a == [] {
      assert a + [n] == [n];
    } else {
      assert (a + [n])[1..] == a[1..] + [n];
      EraseOfAppend(a[1..], n, id);
    }
  }

  lemma {:induction false} EraseAllOfAppend(a: seq<Node>, n: Node, ids: seq<nat>)
    requires n.id !in ids
    ensures EraseAll(a + [n], ids) == EraseAll(a, ids) + [n]
    decreases |ids|
  {
    if ids == [] {
    } else {
      EraseAllOfAppend(a, n, ids[..|ids| - 1]);
      EraseOfAppend(EraseAll(a, ids[..|ids| - 1]), n, ids[|ids| - 1]);
    }
  }

  lemma {:induction false} DeadIdsAreIds(list: seq<Node>)
    ensures forall id :: id in DeadIds(list) ==> Has(list, id)
    decreases |list|
  {
    if list == [] {
    } else {
      var front := list[..|list| - 1];
      DeadIdsAreIds(front);
      forall id | id in DeadIds(list)
        ensures Has(list, id)
      {
        if id in DeadIds(front) {
          var i := IndexOf(front, id);
          assert list[i].id == id;
        } else {
          assert list[|list| - 1].id == id;
        }
      }
    }
  }

  lemma {:induction false} EraseAtEnd(list: seq<Node>, n: Node)
    requires !Has(list, n.id)
    ensures Erase(list + [n], n.id) == list
  {
    if list == [] {
      assert list + [n] == [n];
    } else {
      assert list[0].id != n.id;
      assert (list + [n])[1..] == list[1..] + [n];
      HasTail(list, n.id);
      EraseAtEnd(list[1..], n);
    }
  }

  /** Erasing the collected iterators one by one leaves exactly the live nodes, in order. */
  lemma {:induction false} EraseDead(list: seq<Node>)
    requires Distinct(list)
    ensures EraseAll(list, DeadIds(list)) == LiveOnly(list)
    decreases |list|
  {
    if list == [] {
    } else {
      var front, n := list[..|list| - 1], list[|list| - 1];
      assert list == front + [n];
      EraseDead(front);
      LiveOnlyAppend(front, n);
      DeadIdsAreIds(front);
      forall id | id in DeadIds(front)
        ensures id != n.id
      {
        var i := IndexOf(front, id);
        assert list[i].id != list[|list| - 1].id;
      }
      EraseAllOfAppend(front, n, DeadIds(front));
      if !n.live {
        assert LiveOnly(front) + [] == LiveOnly(front);
        EraseDeadLast(front, n);
      } else {
        assert DeadIds(list) == DeadIds(front) + [] == DeadIds(front);
      }
    }
  }

  lemma {:induction false} EraseDeadLast(front: seq<Node>, n: Node)
    requires Distinct(front + [n]) && !n.live
    requires EraseAll(front + [n], DeadIds(front)) == LiveOnly(front) + [n]
    ensures EraseAll(front + [n], DeadIds(front + [n])) == LiveOnly(front)
  {
    var list := front + [n];
    var ids := DeadIds(list);
    assert list[..|list| - 1] == front;
    assert ids[..|ids| - 1] == DeadIds(front);
    LiveOnlyNodes(front);
    forall j | 0 <= j < |LiveOnly(front)|
      ensures LiveOnly(front)[j].id != n.id
    {
      assert LiveOnly(front)[j] in front;
      var m :| 0 <= m < |front| && front[m] == LiveOnly(front)[j];
      assert list[m].id != list[|front|].id;
    }
    EraseAtEnd(LiveOnly(front), n);
  }

  class HandlerList {
    var list: seq<Node>
    var readers: nat
    var nextId: nat

    ghost predicate Valid()
      reads this
    {
      Distinct(list) && forall n :: n in list ==> n.id < nextId
    }

    constructor ()
      ensures Valid() && list == [] && readers == 0
    {
      list, readers, nextId := [], 0, 0;
    }

    /** emplace_front; the iterator returned is one no other node ever had. */
    method Add() returns (id: nat)
      requires Valid()
      modifies this
      ensures Valid() && readers == old(readers)
      ensures id == old(nextId) && nextId == id + 1
      ensures list == [Node(id, true)] + old(list)
    {
      id := nextId;
      nextId := nextId + 1;
      list := [Node(id, true)] + list;
    }

    /** Erases the node if the mutex can be had exclusively, clears its flag otherwise. */
    method Remove(id: nat, spurious: bool)
      requires Valid() && Has(list, id)
      modifies this
      ensures Valid() && readers == old(readers) && nextId == old(nextId)
      ensures list == if old(readers) == 0 && !spurious then Erase(old(list), id) else Tombstone(old(list), id)
      ensures !IsLive(list, id)
      ensures forall n: Node :: n.id != id ==> (n in list <==> n in old(list))
    {
      EraseNodes(list, id);
      TombstoneNodes(list, id);
      if readers == 0 && !spurious {
        list := Erase(list, id);
      } else {
        list := Tombstone(list, id);
      }
    }

    method Cleanup(spurious: bool)
      requires Valid()
      modifies this
      ensures Valid() && readers == old(readers) && nextId == old(nextId)
      ensures list == if old(readers) == 0 && !spurious then LiveOnly(old(list)) else old(list)
    {
      if readers != 0 || spurious {
        return;
      }
      LiveOnlyNodes(list);
      var toRemove: seq<nat> := [];
      var i := 0;
      while i < |list|
        invariant 0 <= i <= |list|
        invariant toRemove == DeadIds(list[..i])
      {
        assert list[..i + 1][..i] == list[..i];
        if !list[i].live {
          toRemove := toRemove + [list[i].id];
        }
        i := i + 1;
      }
      assert list[..i] == list;
      EraseDead(list);
      i := 0;
      while i < |toRemove|
        invariant 0 <= i <= |toRemove|
        invariant list == EraseAll(old(list), toRemove[..i])
        invariant unchanged(`readers) && unchanged(`nextId)
      {
        assert toRemove[..i + 1][..i] == toRemove[..i];
        list := Erase(list, toRemove[i]);
        i := i + 1;
      }
      assert toRemove[..i] == toRemove;
    }

    /** Taking the mutex shared and evaluating begin(). */
    method BeginPass() returns (cursor: Option<nat>)
      modifies this
      ensures readers == old(readers) + 1 && list == old(list) && nextId == old(nextId)
      ensures cursor == First(list)
    {
      readers := readers + 1;
      cursor := if list == [] then None else Some(list[0].id);
    }

    method EndPass()
      requires readers > 0
      modifies this
      ensures readers == old(readers) - 1 && list == old(list) && nextId == old(nextId)
    {
      readers := readers - 1;
    }

    method Advance(id: nat) returns (cursor: Option<nat>)
      requires Has(list, id)
      ensures cursor == NextOf(list, id)
    {
      var i := 0;
      ghost var k := IndexOf(list, id);
      while list[i].id != id
        invariant i <= k < |list|
        decreases k - i
      {
        i := i + 1;
      }
      assert i == IndexOf(list, id);
      cursor := if i + 1 < |list| then Some(list[i + 1].id) else None;
    }
  }

  lemma TombstoneNodes(list: seq<Node>, id: nat)
    ensures Ids(Tombstone(list, id)) == Ids(list)
    ensures Distinct(list) ==> Distinct(Tombstone(list, id))
    ensures !IsLive(Tombstone(list, id), id)
    ensures forall n: Node :: n.id != id ==> (n in Tombstone(list, id) <==> n in list)
  {
    var r := Tombstone(list, id);
    forall n: Node | n.id != id && n in list
      ensures n in r
    {
      var i :| 0 <= i < |list| && list[i] == n;
      assert r[i] == n;
    }
  }

  // ---------------------------------------------------------------------------------------------
  // Handles, passes, and runs
  // ---------------------------------------------------------------------------------------------

  /** One node reached by a pass: what its flag said, what its condition was once it has been evaluated,
      and whether its callback was started. */
  datatype Visit = Visit(id: nat, live: bool, condition: Option<bool>, called: bool)

  /** Where a pass stands at its node: before reading the flag; with the flag read as live; with the
      condition evaluated as true; inside the callback.  No lock is held between these against a thread
      that removes the handler. */
  datatype Phase = AtNode | Tested | Judged | Calling

  /** A run_all in progress.  `cursor` is its iterator; `snapshot` and `log` record the list at begin()
      and the nodes reached so far. */
  datatype Pass = Pass(snapshot: seq<nat>, cursor: Option<nat>, phase: Phase, log: seq<Visit>)

  /** `handles` are the EventHandlerLock objects that still refer to the list; `erased` and `calls`
      list the nodes erased and the callbacks started so far. */
  datatype State = State(
    list: seq<Node>,
    nextId: nat,
    handles: map<nat, nat>,
    passes: map<nat, Pass>,
    erased: seq<nat>,
    calls: seq<nat>)

  const INIT := State([], 0, map[], map[], [], [])

  datatype Event =
    | AddHandler(h: nat)
    | MoveConstruct(src: nat, dst: nat)
    | MoveAssign(src: nat, dst: nat, spurious: bool)
    | Destroy(h: nat, spurious: bool)
    | Clean(spurious: bool)
    | Begin(p: nat)
    | Test(p: nat)
    | Judge(p: nat, condition: bool)
    | Invoke(p: nat)
    | Return(p: nat)
    | End(p: nat)

  /** The pass is at a node of the list, in this phase. */
  predicate Stands(s: State, p: nat, phase: Phase) {
    p in s.passes && s.passes[p].phase == phase && s.passes[p].cursor.Some? && Has(s.list, s.passes[p].cursor.value)
  }

  predicate Enabled(s: State, e: Event) {
    match e
    case AddHandler(h) => h !in s.handles
    case MoveConstruct(src, dst) => dst !in s.handles && dst != src
    case MoveAssign(_, _, _) => true
    case Destroy(_, _) => true
    case Clean(_) => true
    case Begin(p) => p !in s.passes
    case Test(p) => Stands(s, p, AtNode)
    case Judge(p, _) => Stands(s, p, Tested) && s.passes[p].log != []
    case Invoke(p) => Stands(s, p, Judged) && s.passes[p].log != []
    case Return(p) => Stands(s, p, Calling)
    case End(p) => p in s.passes && s.passes[p].phase.AtNode? && s.passes[p].cursor.None?
  }

  /** EventHandlerList::remove, called for the node of a handle that goes away. */
  function Removed(s: State, h: nat, spurious: bool): State {
    if h !in s.handles then s
    else
      var id := s.handles[h];
      var s1 := s.(handles := s.handles - {h});
      if s.passes == map[] && !spurious
      then s1.(list := Erase(s.list, id), erased := s.erased + [id])
      else s1.(list := Tombstone(s.list, id))
  }

  /** Moving from `src`, whose list pointer is reset; an empty handle stays empty. */
  function Moved(s: State, src: nat, dst: nat): State {
    if src in s.handles
    then s.(handles := (s.handles - {src})[dst := s.handles[src]])
    else s
  }

  function Cleaned(s: State, spurious: bool): State {
    if s.passes == map[] && !spurious
    then s.(list := LiveOnly(s.list), erased := s.erased + DeadIds(s.list))
    else s
  }

  /** The pass after reading the flag of its cursor's node. */
  function TestedPass(list: seq<Node>, pass: Pass): Pass
    requires pass.cursor.Some? && Has(list, pass.cursor.value)
  {
    var id := pass.cursor.value;
    var live := list[IndexOf(list, id)].live;
    var log := pass.log + [Visit(id, live, None, false)];
    if live then pass.(phase := Tested, log := log) else pass.(cursor := NextOf(list, id), log := log)
  }

  /** The pass after leaving its node. */
  function LeftPass(list: seq<Node>, pass: Pass): Pass
    requires pass.cursor.Some? && Has(list, pass.cursor.value)
  {
    pass.(phase := AtNode, cursor := NextOf(list, pass.cursor.value))
  }

  /** The pass after evaluating the condition. */
  function JudgedPass(list: seq<Node>, pass: Pass, condition: bool): Pass
    requires pass.cursor.Some? && Has(list, pass.cursor.value) && pass.log != []
  {
    var n := |pass.log| - 1;
    var pass' := pass.(log := pass.log[n := pass.log[n].(condition := Some(condition))]);
    if condition then pass'.(phase := Judged) else LeftPass(list, pass')
  }

  /** The pass entering the callback. */
  function InvokedPass(pass: Pass): Pass
    requires pass.log != []
  {
    var n := |pass.log| - 1;
    pass.(phase := Calling, log := pass.log[n := pass.log[n].(called := true)])
  }

  function Apply(s: State, e: Event): State
    requires Enabled(s, e)
  {
    match e
    case AddHandler(h) =>
      s.(list := [Node(s.nextId, true)] + s.list, nextId := s.nextId + 1, handles := s.handles[h := s.nextId])
    case MoveConstruct(src, dst) => Moved(s, src, dst)
    case MoveAssign(src, dst, spurious) =>
      if src == dst then s else Moved(Removed(s, dst, spurious), src, dst)
    case Destroy(h, spurious) => Removed(s, h, spurious)
    case Clean(spurious) => Cleaned(s, spurious)
    case Begin(p) => s.(passes := s.passes[p := Pass(Ids(s.list), First(s.list), AtNode, [])])
    case Test(p) => s.(passes := s.passes[p := TestedPass(s.list, s.passes[p])])
    case Judge(p, condition) => s.(passes := s.passes[p := JudgedPass(s.list, s.passes[p], condition)])
    case Invoke(p) =>
      s.(passes := s.passes[p := InvokedPass(s.passes[p])], calls := s.calls + [s.passes[p].cursor.value])
    case Return(p) => s.(passes := s.passes[p := LeftPass(s.list, s.passes[p])])
    case End(p) => s.(passes := s.passes - {p})
  }

  ghost predicate Leads(s: State, run: seq<Event>, s': State)
    decreases |run|
  {
    if run == [] then s == s'
    else Enabled(s, run[0]) && Leads(Apply(s, run[0]), run[1..], s')
  }

  // ---------------------------------------------------------------------------------------------
  // The invariant
  // ---------------------------------------------------------------------------------------------

  ghost predicate ListOk(s: State) {
    && Distinct(s.list)
    && (forall n :: n in s.list ==> n.id < s.nextId)
    && (forall i, j :: 0 <= i < j < |s.erased| ==> s.erased[i] != s.erased[j])
    && (forall id :: id in s.erased ==> id < s.nextId && !Has(s.list, id))
  }

  ghost predicate HandlesOk(s: State) {
    && (forall h :: h in s.handles ==> Node(s.handles[h], true) in s.list)
    && (forall h, h' :: h in s.handles && h' in s.handles && s.handles[h] == s.handles[h'] ==> h == h')
    && (forall n :: n in s.list && n.live ==> exists h :: h in s.handles && s.handles[h] == n.id)
  }

  /** The log names the snapshot so far, with no live node logged as dead. */
  predicate LogOk(list: seq<Node>, snapshot: seq<nat>, log: seq<Visit>) {
    && |log| <= |snapshot|
    && (forall i :: 0 <= i < |log| ==> log[i].id == snapshot[i])
    && (forall i :: 0 <= i < |log| && !log[i].live ==> Node(log[i].id, true) !in list)
  }

  /** The pass calls exactly the nodes that it finds live and whose condition is true. */
  predicate Decided(v: Visit) {
    && (v.live <==> v.condition.Some?)
    && (v.called <==> v.live && v.condition == Some(true))
  }

  /** What is known of the node the pass stands at. */
  predicate UnderWay(v: Visit, phase: Phase) {
    && v.live
    && v.condition == (if phase.Tested? then None else Some(true))
    && (v.called <==> phase.Calling?)
  }

  predicate VisitsOk(pass: Pass) {
    && (forall i :: 0 <= i < |pass.log| - 1 ==> Decided(pass.log[i]))
    && (pass.log != [] ==>
          var last := pass.log[|pass.log| - 1];
          if pass.phase.AtNode? then Decided(last) else UnderWay(last, pass.phase))
  }

  /** The iterator is at the first node not logged, or, past the reading of its flag, at the last logged. */
  predicate CursorOk(pass: Pass)
    requires |pass.log| <= |pass.snapshot|
  {
    var n := |pass.log|;
    if pass.phase.AtNode? then pass.cursor == if n < |pass.snapshot| then Some(pass.snapshot[n]) else None
    else
      && n > 0
      && pass.cursor == Some(pass.snapshot[n - 1])
  }

  predicate Placed(list: seq<Node>, pass: Pass) {
    && |pass.snapshot| <= |list|
    && Ids(list)[|list| - |pass.snapshot|..] == pass.snapshot
    && LogOk(list, pass.snapshot, pass.log)
    && CursorOk(pass)
  }

  predicate PassOk(list: seq<Node>, pass: Pass) {
    Placed(list, pass) && VisitsOk(pass)
  }

  ghost predicate Inv(s: State) {
    && ListOk(s)
    && HandlesOk(s)
    && (forall p :: p in s.passes ==> PassOk(s.list, s.passes[p]))
  }

  lemma PassSurvivesAdd(list: seq<Node>, n: Node, pass: Pass)
    requires PassOk(list, pass) && n !in list && forall m :: m in list ==> m.id != n.id
    ensures PassOk([n] + list, pass)
  {
    var list' := [n] + list;
    var k := |list| - |pass.snapshot|;
    assert Ids(list') == [n.id] + Ids(list);
    forall i | 0 <= i < |pass.log| && !pass.log[i].live
      ensures Node(pass.log[i].id, true) !in list'
    {
      assert Ids(list)[k + i] == pass.snapshot[i];
      assert list[k + i] in list;
    }
  }

  lemma PassSurvivesTombstone(list: seq<Node>, id: nat, pass: Pass)
    requires PassOk(list, pass)
    ensures PassOk(Tombstone(list, id), pass)
  {
    TombstoneNodes(list, id);
  }

  /** Where the iterator of a pass stands in the list. */
  lemma {:induction false} CursorPosition(list: seq<Node>, pass: Pass)
    requires Distinct(list) && Placed(list, pass) && pass.cursor.Some?
    ensures Has(list, pass.cursor.value)
    ensures IndexOf(list, pass.cursor.value) ==
            |list| - |pass.snapshot| + |pass.log| - if pass.phase.AtNode? then 0 else 1
  {
    var i := |list| - |pass.snapshot| + |pass.log| - if pass.phase.AtNode? then 0 else 1;
    assert Ids(list)[i] == list[i].id == pass.cursor.value;
  }

  /** `++it` leads to the next node of the snapshot, whatever was added meanwhile. */
  lemma NextIsNext(list: seq<Node>, pass: Pass, i: nat)
    requires Distinct(list) && Placed(list, pass) && pass.cursor.Some?
    requires i == |pass.log| - if pass.phase.AtNode? then 0 else 1
    ensures Has(list, pass.cursor.value)
    ensures NextOf(list, pass.cursor.value) ==
            if i + 1 < |pass.snapshot| then Some(pass.snapshot[i + 1]) else None
  {
    CursorPosition(list, pass);
    var k := |list| - |pass.snapshot|;
    if i + 1 < |pass.snapshot| {
      assert Ids(list)[k + i + 1] == pass.snapshot[i + 1];
    }
  }

  lemma HolderHas(s: State, h: nat)
    requires ListOk(s) && HandlesOk(s) && h in s.handles
    ensures Has(s.list, s.handles[h]) && s.handles[h] < s.nextId && s.handles[h] !in s.erased
    ensures IsLive(s.list, s.handles[h])
  {
    var i :| 0 <= i < |s.list| && s.list[i] == Node(s.handles[h], true);
    assert s.list[i].id == s.handles[h];
  }

  lemma SameIdsSameHas(a: seq<Node>, b: seq<Node>, id: nat)
    requires Ids(a) == Ids(b)
    ensures Has(a, id) <==> Has(b, id)
  {
    assert forall i :: 0 <= i < |a| ==> Ids(a)[i] == a[i].id && Ids(b)[i] == b[i].id;
    if Has(a, id) {
      var i := IndexOf(a, id);
      assert b[i].id == id;
    }
    if Has(b, id) {
      var i := IndexOf(b, id);
      assert a[i].id == id;
    }
  }

  /** A node that was erased, or is being erased, is not among the nodes kept. */
  lemma ErasedStaysOut(s: State, s': State, e: nat)
    requires ListOk(s) && s'.nextId == s.nextId && e in s'.erased
    requires forall n :: n in s'.list ==> n in s.list
    requires e in s.erased || (e < s.nextId && forall n :: n in s'.list ==> n.id != e)
    ensures e < s'.nextId && !Has(s'.list, e)
  {
    forall i | 0 <= i < |s'.list|
      ensures s'.list[i].id != e
    {
      assert s'.list[i] in s'.list;
      if e in s.erased {
        var k :| 0 <= k < |s.list| && s.list[k] == s'.list[i];
        assert !Has(s.list, e) && s.list[k].id != e;
      }
    }
  }

  lemma HandlesAfterRemoval(s: State, h: nat, list': seq<Node>)
    requires HandlesOk(s) && h in s.handles
    requires forall n: Node :: n.id != s.handles[h] ==> (n in list' <==> n in s.list)
    requires Node(s.handles[h], true) !in list'
    ensures HandlesOk(s.(list := list', handles := s.handles - {h}))
  {
    var s' := s.(list := list', handles := s.handles - {h});
    forall n | n in list' && n.live
      ensures exists g :: g in s'.handles && s'.handles[g] == n.id
    {
      assert n.id != s.handles[h] && n in s.list;
      var g :| g in s.handles && s.handles[g] == n.id;
      assert g in s'.handles;
    }
  }

  lemma RemovedByErasing(s: State, h: nat)
    requires Inv(s) && h in s.handles && s.passes == map[]
    ensures Inv(Removed(s, h, false))
  {
    var id := s.handles[h];
    var s' := Removed(s, h, false);
    HolderHas(s, h);
    EraseNodes(s.list, id);
    HandlesAfterRemoval(s, h, s'.list);
    forall e | e in s'.erased
      ensures e < s'.nextId && !Has(s'.list, e)
    {
      ErasedStaysOut(s, s', e);
    }
  }

  lemma RemovedByTombstone(s: State, h: nat, spurious: bool)
    requires Inv(s) && h in s.handles && (s.passes != map[] || spurious)
    ensures Inv(Removed(s, h, spurious))
  {
    var id := s.handles[h];
    var s' := Removed(s, h, spurious);
    TombstoneNodes(s.list, id);
    assert Node(id, true) !in s'.list by {
      assert !IsLive(s'.list, id);
    }
    HandlesAfterRemoval(s, h, s'.list);
    forall e | e in s'.erased
      ensures e < s'.nextId && !Has(s'.list, e)
    {
      SameIdsSameHas(s.list, s'.list, e);
    }
    forall n | n in s'.list
      ensures n.id < s'.nextId
    {
      HolderHas(s, h);
      assert n.id == id || n in s.list;
    }
    forall p | p in s'.passes
      ensures PassOk(s'.list, s'.passes[p])
    {
      PassSurvivesTombstone(s.list, id, s.passes[p]);
    }
  }

  lemma RemovedKeepsInv(s: State, h: nat, spurious: bool)
    requires Inv(s)
    ensures Inv(Removed(s, h, spurious))
    ensures Removed(s, h, spurious).passes == s.passes
    ensures h !in Removed(s, h, spurious).handles
  {
    if h in s.handles {
      if s.passes == map[] && !spurious {
        RemovedByErasing(s, h);
      } else {
        RemovedByTombstone(s, h, spurious);
      }
    }
  }

  lemma CleanedKeepsInv(s: State, spurious: bool)
    requires Inv(s)
    ensures Inv(Cleaned(s, spurious))
  {
    var s' := Cleaned(s, spurious);
    if s.passes == map[] && !spurious {
      LiveOnlyNodes(s.list);
      DeadIdsAreIds(s.list);
      DeadIdsDistinct(s.list);
      forall e | e in s'.erased
        ensures e < s'.nextId && !Has(s'.list, e)
      {
        if e !in s.erased {
          var i := IndexOf(s.list, e);
          assert s.list[i] in s.list;
        }
        ErasedStaysOut(s, s', e);
      }
      assert forall i :: 0 <= i < |DeadIds(s.list)| ==> DeadIds(s.list)[i] in DeadIds(s.list);
      assert forall i :: 0 <= i < |s.erased| ==> s.erased[i] in s.erased;
    }
  }

  lemma {:induction false} DeadIdsDistinct(list: seq<Node>)
    requires Distinct(list)
    ensures forall i, j :: 0 <= i < j < |DeadIds(list)| ==> DeadIds(list)[i] != DeadIds(list)[j]
    ensures forall n :: n in list && n.id in DeadIds(list) ==> !n.live
    decreases |list|
  {
    if list == [] {
    } else {
      var front, n := list[..|list| - 1], list[|list| - 1];
      assert list == front + [n];
      DeadIdsDistinct(front);
      DeadIdsAreIds(front);
      forall id | id in DeadIds(front)
        ensures id != n.id
      {
        var i := IndexOf(front, id);
        assert list[i].id != list[|list| - 1].id;
      }
      assert forall i :: 0 <= i < |DeadIds(front)| ==> DeadIds(front)[i] in DeadIds(front);
      forall m | m in front
        ensures m.id != n.id
      {
        var i :| 0 <= i < |front| && front[i] == m;
        assert list[i].id != list[|list| - 1].id;
      }
    }
  }

  lemma MovedKeepsInv(s: State, src: nat, dst: nat)
    requires Inv(s) && dst !in s.handles
    ensures Inv(Moved(s, src, dst))
  {
    var s' := Moved(s, src, dst);
    forall n | n in s'.list && n.live
      ensures exists g :: g in s'.handles && s'.handles[g] == n.id
    {
      var g :| g in s.handles && s.handles[g] == n.id;
      assert g == src ==> dst in s'.handles;
      assert g != src ==> g in s'.handles;
    }
  }

  lemma AddKeepsInv(s: State, h: nat)
    requires Inv(s) && h !in s.handles
    ensures Inv(Apply(s, AddHandler(h)))
  {
    var s' := Apply(s, AddHandler(h));
    var n := Node(s.nextId, true);
    forall e | e in s'.erased
      ensures !Has(s'.list, e)
    {
      HasTail(s'.list, e);
    }
    forall m | m in s'.list && m.live
      ensures exists g :: g in s'.handles && s'.handles[g] == m.id
    {
      if m == n {
        assert h in s'.handles;
      } else {
        var g :| g in s.handles && s.handles[g] == m.id;
        assert g in s'.handles;
      }
    }
    forall p | p in s'.passes
      ensures PassOk(s'.list, s'.passes[p])
    {
      PassSurvivesAdd(s.list, n, s.passes[p]);
    }
  }

  lemma LogGrows(list: seq<Node>, snapshot: seq<nat>, log: seq<Visit>, v: Visit)
    requires LogOk(list, snapshot, log) && |log| < |snapshot| && v.id == snapshot[|log|]
    requires !v.live ==> Node(v.id, true) !in list
    ensures LogOk(list, snapshot, log + [v])
  {
  }

  lemma {:induction false} DeadAtIndex(list: seq<Node>, id: nat)
    requires Distinct(list) && Has(list, id) && !list[IndexOf(list, id)].live
    ensures Node(id, true) !in list
  {
    var k := IndexOf(list, id);
    forall j | 0 <= j < |list|
      ensures list[j] != Node(id, true)
    {
      assert j != k ==> list[j].id != list[k].id;
    }
  }

  lemma TestedIsPlaced(list: seq<Node>, pass: Pass)
    requires Distinct(list) && Placed(list, pass) && pass.cursor.Some? && pass.phase.AtNode?
    ensures Has(list, pass.cursor.value)
    ensures Placed(list, TestedPass(list, pass))
  {
    NextIsNext(list, pass, |pass.log|);
    var id := pass.cursor.value;
    var live := list[IndexOf(list, id)].live;
    if !live {
      DeadAtIndex(list, id);
    }
    LogGrows(list, pass.snapshot, pass.log, Visit(id, live, None, false));
  }

  lemma TestedVisits(list: seq<Node>, pass: Pass)
    requires VisitsOk(pass) && pass.phase.AtNode? && pass.cursor.Some? && Has(list, pass.cursor.value)
    ensures VisitsOk(TestedPass(list, pass))
  {
    var n := |pass.log|;
    forall i | 0 <= i < n
      ensures Decided(TestedPass(list, pass).log[i])
    {
      assert i == n - 1 || Decided(pass.log[i]);
    }
  }

  lemma TestedPassOk(list: seq<Node>, pass: Pass)
    requires Distinct(list) && PassOk(list, pass) && pass.cursor.Some? && pass.phase.AtNode?
    ensures Has(list, pass.cursor.value)
    ensures PassOk(list, TestedPass(list, pass))
  {
    TestedIsPlaced(list, pass);
    TestedVisits(list, pass);
  }

  /** Recording what is learnt of the last node changes nothing of where the pass is. */
  lemma RecordKeepsPlace(list: seq<Node>, pass: Pass, visit: Visit, phase: Phase)
    requires Placed(list, pass) && !pass.phase.AtNode? && !phase.AtNode? && visit.live
    requires pass.log[|pass.log| - 1].id == visit.id
    ensures Placed(list, pass.(phase := phase, log := pass.log[|pass.log| - 1 := visit]))
  {
  }

  lemma InvokedPassOk(list: seq<Node>, pass: Pass)
    requires PassOk(list, pass) && pass.phase.Judged?
    ensures pass.log != [] && PassOk(list, InvokedPass(pass))
  {
    var n := |pass.log| - 1;
    RecordKeepsPlace(list, pass, pass.log[n].(called := true), Calling);
  }

  lemma LeftIsPlaced(list: seq<Node>, pass: Pass)
    requires Distinct(list) && Placed(list, pass) && !pass.phase.AtNode?
    ensures pass.cursor.Some? && Has(list, pass.cursor.value)
    ensures Placed(list, LeftPass(list, pass))
  {
    NextIsNext(list, pass, |pass.log| - 1);
  }

  lemma LeftPassOk(list: seq<Node>, pass: Pass)
    requires Distinct(list) && PassOk(list, pass) && pass.phase.Calling?
    ensures pass.cursor.Some? && Has(list, pass.cursor.value)
    ensures PassOk(list, LeftPass(list, pass))
  {
    LeftIsPlaced(list, pass);
  }

  lemma JudgedVisits(list: seq<Node>, pass: Pass, condition: bool)
    requires VisitsOk(pass) && pass.phase.Tested? && pass.cursor.Some? && Has(list, pass.cursor.value)
    requires pass.log != []
    ensures VisitsOk(JudgedPass(list, pass, condition))
  {
  }

  lemma JudgedIsPlaced(list: seq<Node>, pass: Pass, condition: bool)
    requires Distinct(list) && Placed(list, pass) && pass.phase.Tested? && pass.log != []
    requires pass.cursor.Some? && Has(list, pass.cursor.value) && pass.log[|pass.log| - 1].live
    ensures Placed(list, JudgedPass(list, pass, condition))
  {
    var n := |pass.log| - 1;
    var visit := pass.log[n].(condition := Some(condition));
    RecordKeepsPlace(list, pass, visit, if condition then Judged else Tested);
    if !condition {
      LeftIsPlaced(list, pass.(phase := Tested, log := pass.log[n := visit]));
    }
  }

  lemma JudgedPassOk(list: seq<Node>, pass: Pass, condition: bool)
    requires Distinct(list) && PassOk(list, pass) && pass.phase.Tested?
    ensures pass.cursor.Some? && Has(list, pass.cursor.value) && pass.log != []
    ensures PassOk(list, JudgedPass(list, pass, condition))
  {
    LeftIsPlaced(list, pass);
    JudgedVisits(list, pass, condition);
    JudgedIsPlaced(list, pass, condition);
  }

  /** A step that replaces one pass by another that fits the list. */
  lemma PassUpdateKeepsInv(s: State, s': State, p: nat, pass: Pass)
    requires Inv(s) && PassOk(s.list, pass)
    requires s' == s.(passes := s.passes[p := pass], calls := s'.calls)
    ensures Inv(s')
  {
  }

  lemma BeginKeepsInv(s: State, p: nat)
    requires Inv(s) && p !in s.passes
    ensures Inv(Apply(s, Begin(p)))
  {
    assert Ids(s.list)[|s.list| - |s.list|..] == Ids(s.list);
    PassUpdateKeepsInv(s, Apply(s, Begin(p)), p, Pass(Ids(s.list), First(s.list), AtNode, []));
  }

  lemma TestKeepsInv(s: State, p: nat)
    requires Inv(s) && Stands(s, p, AtNode)
    ensures Inv(Apply(s, Test(p)))
  {
    TestedPassOk(s.list, s.passes[p]);
    PassUpdateKeepsInv(s, Apply(s, Test(p)), p, TestedPass(s.list, s.passes[p]));
  }

  lemma JudgeKeepsInv(s: State, p: nat, condition: bool)
    requires Inv(s) && Enabled(s, Judge(p, condition))
    ensures Inv(Apply(s, Judge(p, condition)))
  {
    JudgedPassOk(s.list, s.passes[p], condition);
    PassUpdateKeepsInv(s, Apply(s, Judge(p, condition)), p, JudgedPass(s.list, s.passes[p], condition));
  }

  lemma InvokeKeepsInv(s: State, p: nat)
    requires Inv(s) && Enabled(s, Invoke(p))
    ensures Inv(Apply(s, Invoke(p)))
  {
    InvokedPassOk(s.list, s.passes[p]);
    PassUpdateKeepsInv(s, Apply(s, Invoke(p)), p, InvokedPass(s.passes[p]));
  }

  lemma ReturnKeepsInv(s: State, p: nat)
    requires Inv(s) && Stands(s, p, Calling)
    ensures Inv(Apply(s, Return(p)))
  {
    LeftPassOk(s.list, s.passes[p]);
    PassUpdateKeepsInv(s, Apply(s, Return(p)), p, LeftPass(s.list, s.passes[p]));
  }

  lemma StepKeepsInv(s: State, e: Event)
    requires Inv(s) && Enabled(s, e)
    ensures Inv(Apply(s, e))
  {
    match e {
      case AddHandler(h) => AddKeepsInv(s, h);
      case MoveConstruct(src, dst) => MovedKeepsInv(s, src, dst);
      case MoveAssign(src, dst, spurious) =>
        if src != dst {
          RemovedKeepsInv(s, dst, spurious);
          MovedKeepsInv(Removed(s, dst, spurious), src, dst);
        }
      case Destroy(h, spurious) => RemovedKeepsInv(s, h, spurious);
      case Clean(spurious) => CleanedKeepsInv(s, spurious);
      case Begin(p) => BeginKeepsInv(s, p);
      case Test(p) => TestKeepsInv(s, p);
      case Judge(p, condition) => JudgeKeepsInv(s, p, condition);
      case Invoke(p) => InvokeKeepsInv(s, p);
      case Return(p) => ReturnKeepsInv(s, p);
      case End(_) =>
    }
  }

  lemma {:induction false} RunKeepsInv(s: State, run: seq<Event>, s': State)
    requires Inv(s) && Leads(s, run, s')
    ensures Inv(s')
    decreases |run|
  {
    if run == [] {
    } else {
      StepKeepsInv(s, run[0]);
      RunKeepsInv(Apply(s, run[0]), run[1..], s');
    }
  }

  // ---------------------------------------------------------------------------------------------
  // Main results
  // ---------------------------------------------------------------------------------------------

  function Reached(pass: Pass): seq<nat> {
    seq(|pass.log|, i requires 0 <= i < |pass.log| => pass.log[i].id)
  }

  lemma PassFacts(list: seq<Node>, pass: Pass)
    requires Distinct(list) && PassOk(list, pass)
    ensures Reached(pass) <= pass.snapshot
    ensures pass.cursor.Some? ==> Has(list, pass.cursor.value)
    ensures pass.cursor.None? ==> Reached(pass) == pass.snapshot
    ensures forall i, j :: 0 <= i < j < |pass.log| ==> pass.log[i].id != pass.log[j].id
  {
    if pass.cursor.Some? {
      CursorPosition(list, pass);
    }
    var k := |list| - |pass.snapshot|;
    forall i, j | 0 <= i < j < |pass.log|
      ensures pass.log[i].id != pass.log[j].id
    {
      assert Ids(list)[k + i] == list[k + i].id && Ids(list)[k + j] == list[k + j].id;
    }
  }

  /** Where the pass stands, and that it has called, of the nodes it has left, exactly those that it found
      live and whose condition was true. */
  predicate Faithful(pass: Pass) {
    var left := if pass.phase.AtNode? then |pass.log| else |pass.log| - 1;
    && (!pass.phase.AtNode? ==>
          && pass.cursor.Some? && pass.log != []
          && pass.log[|pass.log| - 1].id == pass.cursor.value
          && (pass.log[|pass.log| - 1].called <==> pass.phase.Calling?))
    && (forall i :: 0 <= i < left ==>
          (pass.log[i].called <==> pass.log[i].live && pass.log[i].condition == Some(true)))
  }

  lemma PassOkIsFaithful(list: seq<Node>, pass: Pass)
    requires PassOk(list, pass)
    ensures Faithful(pass)
  {
    var n := |pass.log|;
    forall i | 0 <= i < if pass.phase.AtNode? then n else n - 1
      ensures pass.log[i].called <==> pass.log[i].live && pass.log[i].condition == Some(true)
    {
      assert Decided(pass.log[i]);
    }
  }

  /** In every run, whatever adds, removals, cleanups and nested passes interleave: a pass has
      reached, in list order and each once, a prefix of the handlers present when it began, and all
      of them when its iterator is at the end; of the nodes it has left it has called exactly those
      whose flag it read as live and whose condition was true; the node under its iterator is in the
      list, so it is never erased under it; and a node is erased at most once. */
  lemma {:induction false} PassesAreFaithful(run: seq<Event>, s: State, p: nat)
    requires Leads(INIT, run, s) && p in s.passes
    ensures var pass := s.passes[p];
            && Reached(pass) <= pass.snapshot
            && (forall i, j :: 0 <= i < j < |pass.log| ==> pass.log[i].id != pass.log[j].id)
            && (pass.cursor.Some? ==> Has(s.list, pass.cursor.value))
            && (pass.cursor.None? ==> Reached(pass) == pass.snapshot)
            && Faithful(pass)
    ensures forall i, j :: 0 <= i < j < |s.erased| ==> s.erased[i] != s.erased[j]
    ensures forall id :: id in s.erased ==> !Has(s.list, id)
  {
    RunKeepsInv(INIT, run, s);
    PassFacts(s.list, s.passes[p]);
    PassOkIsFaithful(s.list, s.passes[p]);
  }

  /** Every handle refers to a live node of the list and no two handles to the same one, so erasing
      through a handle is always valid; a cleanup outside all passes leaves exactly the nodes some
      handle holds. */
  lemma {:induction false} HandlesAreValid(run: seq<Event>, s: State, h: nat)
    requires Leads(INIT, run, s) && h in s.handles
    ensures Has(s.list, s.handles[h]) && IsLive(s.list, s.handles[h]) && s.handles[h] !in s.erased
    ensures forall g :: g in s.handles && s.handles[g] == s.handles[h] ==> g == h
    ensures s.passes == map[] ==>
              forall n :: n in Cleaned(s, false).list <==>
                          n.live && n in s.list && exists g :: g in s.handles && s.handles[g] == n.id
  {
    RunKeepsInv(INIT, run, s);
    HolderHas(s, h);
    LiveOnlyNodes(s.list);
  }

  function Count(calls: seq<nat>, id: nat): nat {
    multiset(calls)[id]
  }

  /** The passes that have read this handler's flag as live and not yet started its callback or left it. */
  function Armed(s: State, id: nat): set<nat> {
    set p | p in s.passes && IsArmed(s.passes[p], id)
  }

  predicate IsArmed(pass: Pass, id: nat) {
    pass.cursor == Some(id) && (pass.phase.Tested? || pass.phase.Judged?)
  }

  lemma DeadStaysDead(s: State, e: Event, id: nat)
    requires Inv(s) && Enabled(s, e) && id < s.nextId && Node(id, true) !in s.list
    ensures id < Apply(s, e).nextId && Node(id, true) !in Apply(s, e).list
  {
    match e {
      case MoveAssign(src, dst, spurious) =>
        if src != dst && dst in s.handles {
          EraseNodes(s.list, s.handles[dst]);
          TombstoneNodes(s.list, s.handles[dst]);
          TombstoneIsDead(s.list, s.handles[dst]);
        }
      case Destroy(h, spurious) =>
        if h in s.handles {
          EraseNodes(s.list, s.handles[h]);
          TombstoneNodes(s.list, s.handles[h]);
          TombstoneIsDead(s.list, s.handles[h]);
        }
      case Clean(spurious) => LiveOnlyNodes(s.list);
      case _ =>
    }
  }

  lemma TombstoneIsDead(list: seq<Node>, id: nat)
    ensures Node(id, true) !in Tombstone(list, id)
  {
    TombstoneNodes(list, id);
    assert !IsLive(Tombstone(list, id), id);
  }

  /** No pass arms itself for a dead handler. */
  lemma NotNewlyArmed(s: State, e: Event, id: nat, p: nat)
    requires ListOk(s) && Enabled(s, e) && Node(id, true) !in s.list
    requires p in Apply(s, e).passes && IsArmed(Apply(s, e).passes[p], id)
    ensures p in s.passes && IsArmed(s.passes[p], id)
  {
    match e {
      case MoveAssign(_, _, _) => assert Apply(s, e).passes == s.passes;
      case Test(q) =>
        var k := IndexOf(s.list, s.passes[q].cursor.value);
        assert s.list[k] in s.list;
      case _ =>
    }
  }

  lemma NoNewlyArmed(s: State, e: Event, id: nat)
    requires ListOk(s) && Enabled(s, e) && Node(id, true) !in s.list
    ensures Armed(Apply(s, e), id) <= Armed(s, id)
  {
    forall p | p in Armed(Apply(s, e), id)
      ensures p in Armed(s, id)
    {
      NotNewlyArmed(s, e, id, p);
    }
  }

  lemma InvokeDisarms(s: State, p: nat, id: nat)
    requires Enabled(s, Invoke(p)) && s.passes[p].cursor == Some(id)
    ensures p in Armed(s, id) && Armed(Apply(s, Invoke(p)), id) == Armed(s, id) - {p}
    ensures Count(Apply(s, Invoke(p)).calls, id) == Count(s.calls, id) + 1
  {
  }

  lemma StepSpendsArmed(s: State, e: Event, id: nat)
    requires Inv(s) && Enabled(s, e) && Node(id, true) !in s.list
    ensures Count(s.calls, id) <= Count(Apply(s, e).calls, id)
    ensures Count(Apply(s, e).calls, id) + |Armed(Apply(s, e), id)| <= Count(s.calls, id) + |Armed(s, id)|
  {
    if e.Invoke? && s.passes[e.p].cursor == Some(id) {
      InvokeDisarms(s, e.p, id);
    } else {
      NoNewlyArmed(s, e, id);
      SubsetSize(Armed(Apply(s, e), id), Armed(s, id));
    }
  }

  /** Once a handle is gone its handler is called at most as often again as there were passes that had
      already read its flag as live and not started the callback. */
  lemma {:induction false} CallsAfterRemoval(s: State, run: seq<Event>, s': State, id: nat)
    requires Inv(s) && Leads(s, run, s') && id < s.nextId && Node(id, true) !in s.list
    ensures Count(s.calls, id) <= Count(s'.calls, id) <= Count(s.calls, id) + |Armed(s, id)|
    decreases |run|
  {
    if run == [] {
    } else {
      DeadStaysDead(s, run[0], id);
      StepKeepsInv(s, run[0]);
      StepSpendsArmed(s, run[0], id);
      CallsAfterRemoval(Apply(s, run[0]), run[1..], s', id);
    }
  }

  /** Any pass that stands so can still start the callback. */
  lemma ArmedCanCall(s: State, p: nat, id: nat) returns (run: seq<Event>, s': State)
    requires Inv(s) && p in Armed(s, id)
    ensures Leads(s, run, s') && Count(s'.calls, id) == Count(s.calls, id) + 1
  {
    var pass := s.passes[p];
    CursorPosition(s.list, pass);
    if pass.phase.Judged? {
      run, s' := [Invoke(p)], Apply(s, Invoke(p));
      InvokeDisarms(s, p, id);
      assert run[1..] == [];
    } else {
      var s1 := Apply(s, Judge(p, true));
      run, s' := [Judge(p, true), Invoke(p)], Apply(s1, Invoke(p));
      InvokeDisarms(s1, p, id);
      assert run[1..] == [Invoke(p)] && [Invoke(p)][1..] == [];
    }
  }

  ghost predicate NeverCalledAgain(s: State, id: nat) {
    forall run, s' :: Leads(s, run, s') ==> Count(s'.calls, id) == Count(s.calls, id)
  }

  lemma UnarmedIsSilent(s: State, id: nat)
    requires Inv(s) && id < s.nextId && Node(id, true) !in s.list && Armed(s, id) == {}
    ensures NeverCalledAgain(s, id)
  {
    forall run, s' | Leads(s, run, s')
      ensures Count(s'.calls, id) == Count(s.calls, id)
    {
      CallsAfterRemoval(s, run, s', id);
    }
  }

  lemma ArmedIsNotSilent(s: State, id: nat)
    requires Inv(s) && Armed(s, id) != {}
    ensures !NeverCalledAgain(s, id)
  {
    var p :| p in Armed(s, id);
    var run, s' := ArmedCanCall(s, p, id);
    assert Leads(s, run, s') && Count(s'.calls, id) != Count(s.calls, id);
  }

  /** Exact condition: a handler whose handle is gone is never called again, in any continuation, if and
      only if no pass had read its flag as live and not yet started its callback or left it. */
  lemma NoCallAfterRemoval(s: State, id: nat)
    requires Inv(s) && id < s.nextId && Node(id, true) !in s.list
    ensures NeverCalledAgain(s, id) <==> Armed(s, id) == {}
  {
    if Armed(s, id) == {} {
      UnarmedIsSilent(s, id);
    } else {
      ArmedIsNotSilent(s, id);
    }
  }

  lemma {:induction false} LeadsInFour(s: State, a: Event, b: Event, c: Event, d: Event)
    requires Enabled(s, a) && Enabled(Apply(s, a), b) && Enabled(Apply(Apply(s, a), b), c)
    requires Enabled(Apply(Apply(Apply(s, a), b), c), d)
    ensures Leads(s, [a, b, c, d], Apply(Apply(Apply(Apply(s, a), b), c), d))
  {
    var s1 := Apply(s, a);
    var s2 := Apply(s1, b);
    var s3 := Apply(s2, c);
    var s4 := Apply(s3, d);
    assert [a, b, c, d][1..] == [b, c, d] && [b, c, d][1..] == [c, d] && [c, d][1..] == [d] && [d][1..] == [];
    assert Leads(s3, [d], s4);
    assert Leads(s2, [c, d], s4);
    assert Leads(s1, [b, c, d], s4);
  }

  lemma RemovedWhileTested() returns (run: seq<Event>, s: State)
    ensures Leads(INIT, run, s) && s.handles == map[] && 0 in Armed(s, 0)
    ensures s.list == [Node(0, false)] && s.calls == []
  {
    var s1 := Apply(INIT, AddHandler(0));
    assert s1.list == [Node(0, true)];
    var s2 := Apply(s1, Begin(0));
    var s3 := Apply(s2, Test(0));
    LeadsInFour(INIT, AddHandler(0), Begin(0), Test(0), Destroy(0, false));
    run, s := [AddHandler(0), Begin(0), Test(0), Destroy(0, false)], Apply(s3, Destroy(0, false));
  }

  /** Such a run exists: the handle is destroyed between the pass reading the flag and calling. */
  lemma CallAfterRemovalExample() returns (before: seq<Event>, s: State, after: seq<Event>, s': State)
    ensures Leads(INIT, before, s) && s.handles == map[] && Node(0, true) !in s.list
    ensures Leads(s, after, s') && Count(s.calls, 0) == 0 && Count(s'.calls, 0) == 1
  {
    before, s := RemovedWhileTested();
    RunKeepsInv(INIT, before, s);
    after, s' := ArmedCanCall(s, 0, 0);
  }

  /** Destroying a handle makes its handler dead in that sense, and arms and disarms no pass. */
  lemma DestroyedHandlerIsDead(s: State, h: nat, spurious: bool)
    requires Inv(s) && h in s.handles
    ensures var id := s.handles[h];
            && id < s.nextId && Node(id, true) !in Removed(s, h, spurious).list
            && Armed(Removed(s, h, spurious), id) == Armed(s, id)
  {
    HolderHas(s, h);
    EraseNodes(s.list, s.handles[h]);
    TombstoneIsDead(s.list, s.handles[h]);
  }

  /** Reading a flag finds whether the handler is registered. */
  lemma TestReads(s: State, p: nat)
    requires ListOk(s) && Enabled(s, Test(p))
    ensures var pass, id := s.passes[p], s.passes[p].cursor.value;
            Apply(s, Test(p)).passes[p].log == pass.log + [Visit(id, Node(id, true) in s.list, None, false)]
  {
    var id := s.passes[p].cursor.value;
    var node := s.list[IndexOf(s.list, id)];
    assert node in s.list;
    if !node.live {
      DeadAtIndex(s.list, id);
    }
  }

  /** What a visit records is what happened: the flag in the list, the condition of `Judge`, the call. */
  lemma VisitsAreRecords(s: State, e: Event, p: nat)
    requires ListOk(s) && Enabled(s, e) && p in s.passes && p in Apply(s, e).passes
    ensures var log, log', n := s.passes[p].log, Apply(s, e).passes[p].log, |s.passes[p].log|;
            if e == Test(p) then
              var id := s.passes[p].cursor.value;
              log' == log + [Visit(id, Node(id, true) in s.list, None, false)]
            else if e.Judge? && e.p == p then
              n > 0 && log' == log[n - 1 := log[n - 1].(condition := Some(e.condition))]
            else if e == Invoke(p) then
              n > 0 && log' == log[n - 1 := log[n - 1].(called := true)]
            else
              log' == log
    ensures Apply(s, e).calls == if e.Invoke? then s.calls + [s.passes[e.p].cursor.value] else s.calls
  {
    match e
    case Test(q) =>
      if q == p {
        TestReads(s, p);
      }
    case MoveAssign(src, dst, spurious) =>
      assert Apply(s, e).passes == s.passes;
    case _ =>
  }

  lemma FinishedVisit(list: seq<Node>, pass: Pass, i: nat)
    requires PassOk(list, pass) && pass.cursor.None? && i < |pass.snapshot|
    requires Node(pass.snapshot[i], true) in list
    ensures i < |pass.log| && pass.log[i].id == pass.snapshot[i]
    ensures pass.log[i].live && Decided(pass.log[i])
  {
  }

  lemma {:induction false} SnapshotStays(s: State, run: seq<Event>, s': State, p: nat)
    requires Leads(s, run, s') && p in s.passes && End(p) !in run
    ensures p in s'.passes && s'.passes[p].snapshot == s.passes[p].snapshot
    decreases |run|
  {
    if run == [] {
    } else {
      assert run[0] in run;
      SnapshotStays(Apply(s, run[0]), run[1..], s', p);
    }
  }

  /** A handler registered when a pass begins and still registered when its iterator is at the end was
      called by it if and only if its condition, which the pass did evaluate, was true. */
  lemma {:induction false} RegisteredHandlerIsCalled(
    before: seq<Event>, s: State, p: nat, h: nat, run: seq<Event>, s': State)
    requires Leads(INIT, before, s) && h in s.handles && Enabled(s, Begin(p))
    requires Leads(Apply(s, Begin(p)), run, s') && End(p) !in run
    requires p in s'.passes && s'.passes[p].cursor.None? && Node(s.handles[h], true) in s'.list
    ensures exists visit ::
              && visit in s'.passes[p].log && visit.id == s.handles[h] && visit.live && visit.condition.Some?
              && visit.called == visit.condition.value
  {
    RunKeepsInv(INIT, before, s);
    var i := BeginTakesAll(s, p, h);
    RunKeepsInv(Apply(s, Begin(p)), run, s');
    SnapshotStays(Apply(s, Begin(p)), run, s', p);
    FinishedPassVisits(s', p, i, s.handles[h]);
  }

  /** The handlers a pass is to reach are all those registered when it begins. */
  lemma BeginTakesAll(s: State, p: nat, h: nat) returns (i: nat)
    requires Inv(s) && h in s.handles && Enabled(s, Begin(p))
    ensures var t := Apply(s, Begin(p));
            Inv(t) && p in t.passes && i < |t.passes[p].snapshot| && t.passes[p].snapshot[i] == s.handles[h]
  {
    HolderHas(s, h);
    StepKeepsInv(s, Begin(p));
    i := IndexOf(s.list, s.handles[h]);
  }

  lemma FinishedPassVisits(s: State, p: nat, i: nat, id: nat)
    requires Inv(s) && p in s.passes && s.passes[p].cursor.None?
    requires i < |s.passes[p].snapshot| && s.passes[p].snapshot[i] == id && Node(id, true) in s.list
    ensures exists visit ::
              && visit in s.passes[p].log && visit.id == id && visit.live && visit.condition.Some?
              && visit.called == visit.condition.value
  {
    FinishedVisit(s.list, s.passes[p], i);
    assert s.passes[p].log[i] in s.passes[p].log;
  }
}
