/** Nicknames of devices and receivers (src/logid/DeviceManager.cpp, src/logid/Device.cpp): small
    numbers, handed out when an object is made and given back when it is destroyed. */
module Nicknames {
  import opened Common

  // ---------------------------------------------------------------------------------------------
  // The allocator
  // ---------------------------------------------------------------------------------------------

  function Elements(s: seq<nat>): set<nat> {
    set x | x in s
  }

  /** Nothing below r is free and r is. */
  predicate LeastUnused(used: set<nat>, r: nat) {
    r !in used && forall n: nat :: n < r ==> n in used
  }

  lemma ElementsConcat(a: seq<nat>, b: seq<nat>)
    ensures Elements(a + b) == Elements(a) + Elements(b)
  {
  }

  lemma InsertedAscending(s: seq<nat>, pos: nat, n: nat)
    requires StrictlyAscending(s) && pos <= |s|
    requires pos > 0 ==> s[pos - 1] < n
    requires pos < |s| ==> n < s[pos]
    ensures StrictlyAscending(s[..pos] + [n] + s[pos..])
  {
    var t := s[..pos] + [n] + s[pos..];
    assert forall k :: 0 <= k < pos ==> t[k] == s[k] && s[k] < n;
    assert t[pos] == n;
    assert forall k :: pos < k < |t| ==> t[k] == s[k - 1] && n < s[k - 1];
  }

  lemma InsertedElements(s: seq<nat>, pos: nat, n: nat)
    requires pos <= |s|
    ensures Elements(s[..pos] + [n] + s[pos..]) == Elements(s) + {n}
  {
    ElementsConcat(s[..pos], s[pos..]);
    ElementsConcat(s[..pos], [n]);
    ElementsConcat(s[..pos] + [n], s[pos..]);
    assert s == s[..pos] + s[pos..];
  }

  lemma Erased(s: seq<nat>, pos: nat)
    requires StrictlyAscending(s) && pos < |s|
    ensures StrictlyAscending(s[..pos] + s[pos + 1..])
    ensures Elements(s[..pos] + s[pos + 1..]) == Elements(s) - {s[pos]}
  {
    ElementsConcat(s[..pos], s[pos + 1..]);
    ElementsConcat(s[..pos], [s[pos]]);
    ElementsConcat(s[..pos] + [s[pos]], s[pos + 1..]);
    assert s == s[..pos] + [s[pos]] + s[pos + 1..];
    assert forall k :: pos < k < |s| ==> s[k] > s[pos];
    assert s[pos] !in s[..pos] && s[pos] !in s[pos + 1..];
  }

  /** One of the manager's two std::set<int>, kept in the order in which it is iterated. */
  class NicknameSet {
    var nicknames: seq<nat>

    ghost predicate Valid()
      reads this
    {
      StrictlyAscending(nicknames)
    }

    constructor ()
      ensures Valid() && Elements(nicknames) == {}
    {
      nicknames := [];
    }

    method InsertAt(pos: nat, n: nat)
      requires Valid() && pos <= |nicknames|
      requires pos > 0 ==> nicknames[pos - 1] < n
      requires pos < |nicknames| ==> n < nicknames[pos]
      modifies this
      ensures Valid() && Elements(nicknames) == Elements(old(nicknames)) + {n}
    {
      InsertedAscending(nicknames, pos, n);
      InsertedElements(nicknames, pos, n);
      nicknames := nicknames[..pos] + [n] + nicknames[pos..];
    }

    /** newDeviceNickname and newReceiverNickname. */
    method New() returns (r: nat)
      requires Valid()
      modifies this
      ensures Valid()
      ensures LeastUnused(Elements(old(nicknames)), r)
      ensures Elements(nicknames) == Elements(old(nicknames)) + {r}
    {
      if nicknames != [] && nicknames[0] != 0 {
        assert forall k :: 0 <= k < |nicknames| ==> nicknames[k] > 0;
        InsertAt(0, 0);
        return 0;
      }
      var i := 0;
      while i + 1 < |nicknames| && !(nicknames[i] + 1 < nicknames[i + 1])
        invariant nicknames == old(nicknames)
        invariant nicknames != [] ==> i < |nicknames|
        invariant forall k :: 0 <= k <= i < |nicknames| ==> nicknames[k] == k
      {
        i := i + 1;
      }
      if i + 1 >= |nicknames| {
        if nicknames != [] {
          r := nicknames[|nicknames| - 1] + 1;
        } else {
          r := 0;
        }
        InsertAt(|nicknames|, r);
      } else {
        r := nicknames[i] + 1;
        InsertAt(i + 1, r);
      }
      GapIsLeast(old(nicknames), i, r);
    }

    /** What the destructor of a nickname does. */
    method Erase(n: nat)
      requires Valid()
      modifies this
      ensures Valid() && Elements(nicknames) == Elements(old(nicknames)) - {n}
    {
      var i := 0;
      while i < |nicknames| && nicknames[i] != n
        invariant nicknames == old(nicknames)
        invariant i <= |nicknames| && n !in nicknames[..i]
      {
        i := i + 1;
      }
      if i < |nicknames| {
        Erased(nicknames, i);
        nicknames := nicknames[..i] + nicknames[i + 1..];
      }
    }
  }

  /** When the numbers up to index i have no gap and the next one leaves r out, r is the least unused. */
  lemma GapIsLeast(s: seq<nat>, i: nat, r: nat)
    requires StrictlyAscending(s) && r == (if s == [] then 0 else i + 1) && (s != [] ==> i < |s|)
    requires forall k :: 0 <= k <= i < |s| ==> s[k] == k
    requires i + 1 < |s| ==> r < s[i + 1]
    ensures LeastUnused(Elements(s), r)
  {
    forall n: nat | n < r
      ensures n in Elements(s)
    {
      assert s[n] == n;
    }
    forall k | 0 <= k < |s|
      ensures s[k] != r
    {
      if k > i + 1 {
        assert s[k] > s[i + 1];
      }
    }
  }

  lemma LeastUnusedIsUnique(used: set<nat>, r: nat, q: nat)
    requires LeastUnused(used, r) && LeastUnused(used, q)
    ensures r == q
  {
  }

  lemma {:induction false} Below(n: nat) returns (s: set<nat>)
    ensures |s| == n && forall x: nat :: x in s <==> x < n
    decreases n
  {
    if n == 0 {
      s := {};
    } else {
      s := Below(n - 1);
      s := s + {n - 1};
    }
  }

  /** The pigeonhole bound: with m numbers in use the least unused one is at most m. */
  lemma AtMostInUse(used: set<nat>, r: nat)
    requires LeastUnused(used, r)
    ensures r <= |used|
  {
    var low := Below(r);
    SubsetSize(low, used);
  }

  // ---------------------------------------------------------------------------------------------
  // Any run of making and destroying
  // ---------------------------------------------------------------------------------------------

  /** The live objects with their nicknames, and the numbers in use. */
  datatype State = State(names: map<nat, nat>, used: set<nat>)

  datatype Event = Made(id: nat, nickname: nat) | Destroyed(id: nat)

  predicate Enabled(s: State, e: Event) {
    match e
    case Made(id, nickname) => id !in s.names && LeastUnused(s.used, nickname)
    case Destroyed(id) => id in s.names
  }

  function Apply(s: State, e: Event): State
    requires Enabled(s, e)
  {
    match e
    case Made(id, nickname) => State(s.names[id := nickname], s.used + {nickname})
    case Destroyed(id) => State(s.names - {id}, s.used - {s.names[id]})
  }

  ghost predicate Leads(s: State, run: seq<Event>, s': State)
    decreases |run|
  {
    if run == [] then s == s'
    else Enabled(s, run[0]) && Leads(Apply(s, run[0]), run[1..], s')
  }

  function Range(names: map<nat, nat>): set<nat> {
    set id | id in names :: names[id]
  }

  ghost predicate Distinct(names: map<nat, nat>) {
    forall a, b :: a in names && b in names && names[a] == names[b] ==> a == b
  }

  /** Live nicknames are distinct, and the numbers in use are exactly theirs. */
  ghost predicate Inv(s: State) {
    Distinct(s.names) && s.used == Range(s.names) && |s.used| == |s.names|
  }

  lemma RangeAdd(names: map<nat, nat>, id: nat, n: nat)
    requires id !in names && n !in Range(names) && Distinct(names)
    ensures Distinct(names[id := n]) && Range(names[id := n]) == Range(names) + {n}
    ensures |names[id := n]| == |names| + 1
  {
    var more := names[id := n];
    assert forall a :: a in names ==> names[a] in Range(names);
    assert more[id] == n;
    assert forall a :: a in names ==> more[a] == names[a];
    assert more.Keys == names.Keys + {id};
    assert |more.Keys| == |names.Keys| + 1;
  }

  lemma RangeRemove(names: map<nat, nat>, id: nat)
    requires id in names && Distinct(names)
    ensures Distinct(names - {id}) && Range(names - {id}) == Range(names) - {names[id]}
    ensures names[id] in Range(names) && |names - {id}| == |names| - 1
  {
    var fewer := names - {id};
    assert forall a :: a in fewer ==> fewer[a] == names[a];
    assert fewer.Keys == names.Keys - {id};
    assert |fewer.Keys| == |names.Keys| - 1;
    assert forall a :: a in names && a != id ==> a in fewer;
  }

  lemma StepKeepsInv(s: State, e: Event)
    requires Inv(s) && Enabled(s, e)
    ensures Inv(Apply(s, e))
  {
    match e
    case Made(id, nickname) => RangeAdd(s.names, id, nickname);
    case Destroyed(id) => RangeRemove(s.names, id);
  }

  const EMPTY := State(map[], {})

  lemma {:induction false} RunKeepsInv(s: State, run: seq<Event>, s': State)
    requires Inv(s) && Leads(s, run, s')
    ensures Inv(s')
    decreases |run|
  {
    if run == [] {
    } else {
      StepKeepsInv(s, run[0]);
      RunKeepsInv(Apply(s, run[0]), run[1..], s');
    }
  }

  /** After any run live nicknames are distinct, a new one is always on offer, none of the live ones has
      it, and it is at most the number of objects then alive. */
  lemma NicknamesAreDistinct(run: seq<Event>, s: State) returns (next: nat)
    requires Leads(EMPTY, run, s)
    ensures Distinct(s.names)
    ensures forall id: nat, n: nat :: id !in s.names ==> (Enabled(s, Made(id, n)) <==> n == next)
    ensures next !in Range(s.names) && next <= |s.names|
  {
    RunKeepsInv(EMPTY, run, s);
    next := Search(s.used, 0);
    AtMostInUse(s.used, next);
    forall id: nat, n: nat | Enabled(s, Made(id, n))
      ensures n == next
    {
      LeastUnusedIsUnique(s.used, n, next);
    }
  }

  lemma {:induction false} Search(used: set<nat>, from: nat) returns (r: nat)
    requires forall n: nat :: n < from ==> n in used
    ensures LeastUnused(used, r)
    decreases |used| - from
  {
    var low := Below(from);
    SubsetSize(low, used);
    if from !in used {
      r := from;
    } else {
      SubsetSize(low + {from}, used);
      r := Search(used, from + 1);
    }
  }

  /** Whether at most k objects are alive before each step and at the end. */
  ghost predicate AtMostAlive(s: State, run: seq<Event>, k: nat)
    decreases |run|
  {
    && |s.names| <= k
    && (run != [] ==> Enabled(s, run[0]) && AtMostAlive(Apply(s, run[0]), run[1..], k))
  }

  ghost predicate AllBelow(s: State, k: nat) {
    forall id :: id in s.names ==> s.names[id] < k
  }

  lemma MadeStaysSmall(s: State, id: nat, n: nat, k: nat)
    requires Inv(s) && AllBelow(s, k) && Enabled(s, Made(id, n)) && |Apply(s, Made(id, n)).names| <= k
    ensures AllBelow(Apply(s, Made(id, n)), k)
  {
    AtMostInUse(s.used, n);
    RangeAdd(s.names, id, n);
  }

  /** In a run that never has more than k objects alive at once no nickname reaches k, however many
      objects come and go. */
  lemma {:induction false} NicknamesStaySmall(s: State, run: seq<Event>, s': State, k: nat)
    requires Inv(s) && AllBelow(s, k) && Leads(s, run, s') && AtMostAlive(s, run, k)
    ensures AllBelow(s', k)
    decreases |run|
  {
    if run == [] {
    } else {
      StepKeepsInv(s, run[0]);
      match run[0] {
        case Made(id, n) => MadeStaysSmall(s, id, n, k);
        case Destroyed(_) =>
      }
      NicknamesStaySmall(Apply(s, run[0]), run[1..], s', k);
    }
  }
}
