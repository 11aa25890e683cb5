/** Saving and loading configuration values (src/logid/config/types.h, src/logid/config/group.h).

    `Load` is config::get; None stands for a thrown libconfig::SettingException.  `SetNamed`,
    `SetInto` and `Fresh` are the three ways of config::set: into an entry of a parent, into a
    setting already there, and, through append, into a new setting. */
module ConfigIO {
  import opened Common
  import opened Settings

  // ---------------------------------------------------------------------------------------------
  // Loading
  // ---------------------------------------------------------------------------------------------

  function Load(ty: Ty, s: Setting): Option<Value>
    decreases ty, 0, 0
  {
    match ty
    case One(k) => LoadScalar(k, s)
    case ListOf(elem) => Some(VList(LoadItems(elem, Children(s))))
    case SetOf(k) => Some(VSet(Keys(LoadMembers(k, Children(s)))))
    case MapOf(_, _, _, _) => Some(VMap(LoadPairs(ty.keyName, ty.key, ty.caseless, ty.value, Children(s))))
    case Variant(alts) => TryEach(alts, s, 0)
    case Group(signature, fields) =>
      if signature.None? || SignatureMatches(signature.value, s)
      then
        var members :- LoadFields(fields, s);
        Some(VGroup(members))
      else None
  }

  predicate SignatureMatches(signature: Signature, s: Setting) {
    var found := Lookup(s, signature.field);
    found.Some? && found.value.SString? && Lower(found.value.s) == Lower(signature.text)
  }

  /** A list keeps the items that load and drops the others. */
  function LoadItems(elem: Ty, items: seq<Setting>): seq<Value>
    decreases elem, 1, |items|
  {
    if items == [] then []
    else
      var front := LoadItems(elem, items[..|items| - 1]);
      match Load(elem, items[|items| - 1])
      case Some(v) => front + [v]
      case None => front
  }

  function LoadMembers(k: Scalar, items: seq<Setting>): seq<Pair>
    decreases |items|
  {
    if items == [] then []
    else
      var front := LoadMembers(k, items[..|items| - 1]);
      match LoadScalar(k, items[|items| - 1])
      case Some(v) => Emplace(false, front, Pair(v, v))
      case None => front
  }

  /** One element of a keyed list: the key is an entry of the group that holds the value. */
  function LoadPair(keyName: string, key: Scalar, value: Ty, s: Setting): Option<Pair>
    decreases value, 1, 0
  {
    var found :- Lookup(s, keyName);
    var k :- LoadScalar(key, found);
    var v :- Load(value, s);
    Some(Pair(k, v))
  }

  function LoadPairs(keyName: string, key: Scalar, caseless: bool, value: Ty, items: seq<Setting>): seq<Pair>
    decreases value, 2, |items|
  {
    if items == [] then []
    else
      var front := LoadPairs(keyName, key, caseless, value, items[..|items| - 1]);
      match LoadPair(keyName, key, value, items[|items| - 1])
      case Some(p) => Emplace(caseless, front, p)
      case None => front
  }

  /** Ordered choice: the first alternative that loads wins. */
  function TryEach(alts: Alts, s: Setting, index: nat): Option<Value>
    decreases alts, 0, 0
  {
    match alts
    case Last(ty) =>
      var v :- Load(ty, s);
      Some(VAlt(index, v))
    case Or(ty, rest) =>
      match Load(ty, s)
      case Some(v) => Some(VAlt(index, v))
      case None => TryEach(rest, s, index + 1)
  }

  /** group_io::get: a missing or unloadable optional member becomes empty, a missing or unloadable
      plain member makes the whole group fail. */
  function LoadFields(fields: Fields, s: Setting): Option<seq<Option<Value>>>
    decreases fields, 0, 0
  {
    match fields
    case End => Some([])
    case Field(name, optional, ty, rest) =>
      var found := Lookup(s, name);
      var v := if found.Some? then Load(ty, found.value) else None;
      if v.None? && !optional then None
      else
        var members :- LoadFields(rest, s);
        Some([v] + members)
  }

  // ---------------------------------------------------------------------------------------------
  // Saving
  // ---------------------------------------------------------------------------------------------

  predicate HasType(ty: Ty, v: Value)
    decreases ty, 0, v
  {
    match ty
    case One(k) => ScalarValue(k, v)
    case ListOf(elem) => v.VList? && forall i :: 0 <= i < |v.items| ==> HasType(elem, v.items[i])
    case SetOf(k) =>
      && v.VSet?
      && (forall i :: 0 <= i < |v.members| ==> ScalarValue(k, v.members[i]))
      && Ascending(false, v.members)
    case MapOf(_, _, _, _) =>
      && v.VMap?
      && (forall i :: 0 <= i < |v.pairs| ==>
            ScalarValue(ty.key, v.pairs[i].key) && HasType(ty.value, v.pairs[i].value))
      && Ascending(ty.caseless, Keys(v.pairs))
    case Variant(alts) => v.VAlt? && AltHasType(alts, v.index, v.v)
    case Group(_, fields) => v.VGroup? && FieldsHaveType(fields, v.members_)
  }

  predicate AltHasType(alts: Alts, index: nat, v: Value)
    decreases alts, 0, v
  {
    match alts
    case Last(ty) => index == 0 && HasType(ty, v)
    case Or(ty, rest) => if index == 0 then HasType(ty, v) else AltHasType(rest, index - 1, v)
  }

  predicate FieldsHaveType(fields: Fields, members: seq<Option<Value>>)
    decreases fields, 0, members
  {
    match fields
    case End => members == []
    case Field(_, optional, ty, rest) =>
      && members != []
      && (if members[0].None? then optional else HasType(ty, members[0].value))
      && FieldsHaveType(rest, members[1..])
  }

  /** The setting `add` creates for a value: a scalar of the right kind, or an empty container. */
  function Blank(ty: Ty, v: Value): Setting
    decreases ty, 0
  {
    match ty
    case One(k) =>
      (match ScalarKind(k)
       case KBool => SBool(false)
       case KInt => SInt(0)
       case KInt64 => SInt64(0)
       case KFloat => SFloat(0.0)
       case _ => SString(""))
    case Group(_, _) => SGroup([])
    case Variant(alts) => if v.VAlt? then BlankAlt(alts, v.index, v.v) else SGroup([])
    case _ => SList([])
  }

  function BlankAlt(alts: Alts, index: nat, v: Value): Setting
    decreases alts, 0
  {
    match alts
    case Last(ty) => Blank(ty, v)
    case Or(ty, rest) => if index == 0 then Blank(ty, v) else BlankAlt(rest, index - 1, v)
  }

  /** append: adds a new setting and saves the value into it. */
  function Fresh(ty: Ty, v: Value): Option<Setting>
    requires HasType(ty, v)
    decreases ty, 1, 0
  {
    SetInto(ty, Blank(ty, v), v)
  }

  /** set(setting, value): into a setting of whatever kind is there. */
  function SetInto(ty: Ty, s: Setting, v: Value): Option<Setting>
    requires HasType(ty, v)
    decreases ty, 0, 0
  {
    match ty
    case One(k) => if KindOf(s) == ScalarKind(k) then Some(SaveScalar(k, v)) else None
    case ListOf(elem) =>
      if s.SList? then
        var items :- SaveItems(elem, v.items);
        Some(SList(items))
      else None
    case SetOf(_) =>
      // Each member is assigned to a new group, which is not a scalar.
      if v.members != [] then None
      else if s.SList? then Some(SList([])) else if s.SArray? then Some(SArray([])) else None
    case MapOf(_, _, _, _) =>
      if s.SList? then
        var items :- SavePairs(ty.keyName, ty.key, ty.value, v.pairs);
        Some(SList(items))
      else if s.SArray? && v.pairs == [] then Some(SArray([])) else None
    case Variant(alts) => SetIntoAlt(alts, s, v.index, v.v)
    case Group(signature, fields) =>
      if !s.SGroup? then None
      else
        var entries := if signature.Some? then SetSignature(s.entries, signature.value) else s.entries;
        var entries' :- SetFields(fields, entries, v.members_);
        Some(SGroup(entries'))
  }

  function SetIntoAlt(alts: Alts, s: Setting, index: nat, v: Value): Option<Setting>
    requires AltHasType(alts, index, v)
    decreases alts, 0, 0
  {
    match alts
    case Last(ty) => SetInto(ty, s, v)
    case Or(ty, rest) => if index == 0 then SetInto(ty, s, v) else SetIntoAlt(rest, s, index - 1, v)
  }

  function SaveItems(elem: Ty, items: seq<Value>): Option<seq<Setting>>
    requires forall i :: 0 <= i < |items| ==> HasType(elem, items[i])
    decreases elem, 2, |items|
  {
    if items == [] then Some([])
    else
      var front :- SaveItems(elem, items[..|items| - 1]);
      var last :- Fresh(elem, items[|items| - 1]);
      Some(front + [last])
  }

  /** The value goes into a new group first, the key is added to it afterwards. */
  function SavePair(keyName: string, key: Scalar, value: Ty, p: Pair): Option<Setting>
    requires ScalarValue(key, p.key) && HasType(value, p.value)
    decreases value, 2, 0
  {
    var s :- SetInto(value, SGroup([]), p.value);
    if s.SGroup? then Some(SGroup(SetScalarNamed(s.entries, keyName, key, p.key))) else None
  }

  function SavePairs(keyName: string, key: Scalar, value: Ty, pairs: seq<Pair>): Option<seq<Setting>>
    requires forall i :: 0 <= i < |pairs| ==> ScalarValue(key, pairs[i].key) && HasType(value, pairs[i].value)
    decreases value, 3, |pairs|
  {
    if pairs == [] then Some([])
    else
      var front :- SavePairs(keyName, key, value, pairs[..|pairs| - 1]);
      var last :- SavePair(keyName, key, value, pairs[|pairs| - 1]);
      Some(front + [last])
  }

  function SetScalarNamed(entries: seq<Entry>, name: string, k: Scalar, v: Value): seq<Entry>
    requires ScalarValue(k, v)
  {
    var found := Find(entries, name);
    if found.Some? && KindOf(found.value) == ScalarKind(k)
    then Replace(entries, name, SaveScalar(k, v))
    else Without(entries, name) + [Entry(name, SaveScalar(k, v))]
  }

  function SetSignature(entries: seq<Entry>, signature: Signature): seq<Entry> {
    SetScalarNamed(entries, signature.field, Text, VText(Lower(signature.text)))
  }

  /** Whether set(parent, name, value) saves into the entry that is there, rather than removing it
      and adding a new one at the end. */
  predicate Kept(ty: Ty, s: Setting) {
    match ty
    case One(k) => KindOf(s) == ScalarKind(k)
    case Group(_, _) => s.SGroup?
    case ListOf(_) => s.SList?
    case _ => s.SArray?
  }

  function SetNamed(ty: Ty, entries: seq<Entry>, name: string, v: Value): Option<seq<Entry>>
    requires HasType(ty, v)
    decreases ty, 2, 0
  {
    if ty.Variant? then SetNamedAlt(ty.alts, entries, name, v.index, v.v)
    else
      var found := Find(entries, name);
      if found.Some? && Kept(ty, found.value) then
        var s :- SetInto(ty, found.value, v);
        Some(Replace(entries, name, s))
      else
        var s :- Fresh(ty, v);
        Some(Without(entries, name) + [Entry(name, s)])
  }

  function SetNamedAlt(alts: Alts, entries: seq<Entry>, name: string, index: nat, v: Value): Option<seq<Entry>>
    requires AltHasType(alts, index, v)
    decreases alts, 2, 0
  {
    match alts
    case Last(ty) => SetNamed(ty, entries, name, v)
    case Or(ty, rest) =>
      if index == 0 then SetNamed(ty, entries, name, v) else SetNamedAlt(rest, entries, name, index - 1, v)
  }

  /** group_io::set, and for an empty optional nothing at all. */
  function SetFields(fields: Fields, entries: seq<Entry>, members: seq<Option<Value>>): Option<seq<Entry>>
    requires FieldsHaveType(fields, members)
    decreases fields, 0, 0
  {
    match fields
    case End => Some(entries)
    case Field(name, _, ty, rest) =>
      if members[0].None? then SetFields(rest, entries, members[1..])
      else
        var entries' :- SetNamed(ty, entries, name, members[0].value);
        SetFields(rest, entries', members[1..])
  }

  // ---------------------------------------------------------------------------------------------
  // The loops of the source
  // ---------------------------------------------------------------------------------------------

  /** The items of a setting: those of an array or a list, the values of a group's entries, none of
      a scalar. */
  predicate HasItems(s: Setting, xs: seq<Setting>) {
    || s == SArray(xs)
    || s == SList(xs)
    || (s.SGroup? && |s.entries| == |xs| && forall i :: 0 <= i < |xs| ==> s.entries[i].value == xs[i])
    || (!s.SArray? && !s.SList? && !s.SGroup? && xs == [])
  }

  /** What each item of a list loads as. */
  function LoadedItems(elem: Ty, xs: seq<Setting>): (r: seq<Option<Value>>)
    ensures |r| == |xs| && forall i :: 0 <= i < |r| ==> r[i] == Load(elem, xs[i])
  {
    seq(|xs|, i requires 0 <= i < |xs| => Load(elem, xs[i]))
  }

  function CountLoaded(loaded: seq<Option<Value>>): nat {
    if loaded == [] then 0
    else CountLoaded(loaded[..|loaded| - 1]) + if loaded[|loaded| - 1].Some? then 1 else 0
  }

  /** `t` is what the items that loaded gave, in order: each stands after as many others as loaded
      before it, and there is nothing else. */
  predicate Selects(loaded: seq<Option<Value>>, t: seq<Value>) {
    && |t| == CountLoaded(loaded)
    && forall i :: 0 <= i < |loaded| && loaded[i].Some? ==>
         CountLoaded(loaded[..i]) < |t| && t[CountLoaded(loaded[..i])] == loaded[i].value
  }

  lemma SelectedFront(front: seq<Option<Value>>, x: Option<Value>, t: seq<Value>)
    requires Selects(front, t)
    ensures Selects(front + [x], if x.Some? then t + [x.value] else t)
  {
    var all := front + [x];
    assert forall i :: 0 <= i <= |front| ==> all[..i] == front[..i];
    assert front[..|front|] == front;
  }

  lemma {:induction false} LoadItemsStep(elem: Ty, xs: seq<Setting>, x: Setting)
    ensures LoadItems(elem, xs + [x]) ==
            var front, v := LoadItems(elem, xs), Load(elem, x);
            if v.Some? then front + [v.value] else front
    ensures LoadedItems(elem, xs + [x]) == LoadedItems(elem, xs) + [Load(elem, x)]
  {
    assert (xs + [x])[..|xs|] == xs;
  }

  lemma {:induction false} ItemsAreSelected(elem: Ty, xs: seq<Setting>)
    ensures Selects(LoadedItems(elem, xs), LoadItems(elem, xs))
    decreases |xs|
  {
    if xs == [] {
    } else {
      var front, x := xs[..|xs| - 1], xs[|xs| - 1];
      assert xs == front + [x];
      ItemsAreSelected(elem, front);
      SelectedFront(LoadedItems(elem, front), Load(elem, x), LoadItems(elem, front));
      LoadItemsStep(elem, front, x);
    }
  }

  lemma {:induction false} LoadItemsNext(elem: Ty, items: seq<Setting>, i: nat)
    requires i < |items|
    ensures LoadItems(elem, items[..i + 1]) ==
            var front, v := LoadItems(elem, items[..i]), Load(elem, items[i]);
            if v.Some? then front + [v.value] else front
  {
    assert items[..i + 1] == items[..i] + [items[i]];
    LoadItemsStep(elem, items[..i], items[i]);
  }

  /** Of the items of this setting, the list holds what loads, in order. */
  ghost predicate ItemsSelected(elem: Ty, setting: Setting, t: seq<Value>) {
    forall xs :: HasItems(setting, xs) ==> Selects(LoadedItems(elem, xs), t)
  }

  lemma {:induction false} LoadedList(elem: Ty, setting: Setting)
    ensures var t := LoadItems(elem, Children(setting));
            && Load(ListOf(elem), setting) == Some(VList(t))
            && ItemsSelected(elem, setting, t)
  {
    ItemsAreSelected(elem, Children(setting));
    ItemsOf(setting);
  }

  method GetList(elem: Ty, setting: Setting) returns (t: seq<Value>)
    ensures ItemsSelected(elem, setting, t)
    ensures Load(ListOf(elem), setting) == Some(VList(t))
  {
    var items := Children(setting);
    t := [];
    for i := 0 to |items|
      invariant t == LoadItems(elem, items[..i])
    {
      LoadItemsNext(elem, items, i);
      var x := Load(elem, items[i]);
      if x.Some? {
        t := t + [x.value];
      }
      assert t == LoadItems(elem, items[..i + 1]);
    }
    assert items[..|items|] == items;
    LoadedList(elem, setting);
  }

  /** Every setting has one sequence of items, and it is what indexing it ranges over. */
  lemma ItemsOf(s: Setting)
    ensures forall xs :: HasItems(s, xs) <==> xs == Children(s)
  {
    forall xs | HasItems(s, xs)
      ensures xs == Children(s)
    {
    }
  }

  lemma {:induction false} LoadPairsStep(
    keyName: string, key: Scalar, caseless: bool, value: Ty, items: seq<Setting>, i: nat)
    requires i < |items|
    ensures LoadPairs(keyName, key, caseless, value, items[..i + 1]) ==
            var front := LoadPairs(keyName, key, caseless, value, items[..i]);
            match LoadPair(keyName, key, value, items[i])
            case Some(p) => Emplace(caseless, front, p)
            case None => front
  {
    assert items[..i + 1][..i] == items[..i];
  }

  /** A scalar loads from a setting of its kind and no other.  What it loads has its type: an integer is
      brought into the range of its width by multiples of 2 to the power of that width. */
  lemma LoadedScalar(k: Scalar, s: Setting)
    ensures LoadScalar(k, s).Some? ==> ScalarValue(k, LoadScalar(k, s).value)
    ensures LoadScalar(k, s).Some? <==>
            match k
            case Bool => s.SBool?
            case Narrow(_, _) => s.SInt?
            case Wide(_) => s.SInt64?
            case Real => s.SFloat?
            case Text => s.SString?
    ensures k.Narrow? && s.SInt? ==>
              && (k.bits == 8 ==> LoadScalar(k, s).value.i % 0x100 == s.i % 0x100)
              && (k.bits == 16 ==> LoadScalar(k, s).value.i % 0x1_0000 == s.i % 0x1_0000)
              && (k.bits == 32 ==> LoadScalar(k, s).value.i % 0x1_0000_0000 == s.i % 0x1_0000_0000)
    ensures k.Wide? && s.SInt64? ==> LoadScalar(k, s).value.i % 0x1_0000_0000_0000_0000 == s.l % 0x1_0000_0000_0000_0000
    ensures k.Bool? && s.SBool? ==> LoadScalar(k, s) == Some(VBool(s.b))
    ensures k.Real? && s.SFloat? ==> LoadScalar(k, s) == Some(VReal(s.f))
    ensures k.Text? && s.SString? ==> LoadScalar(k, s) == Some(VText(s.s))
  {
    match k
    case Narrow(bits, signed) =>
      if s.SInt? {
        CastLands(s.i, bits, signed);
        CastCongruent(s.i, bits, signed);
      }
    case Wide(signed) =>
      if s.SInt64? {
        CastLands(s.l, 64, signed);
        CastCongruent(s.l, 64, signed);
      }
    case _ =>
  }

  /** What each item of a keyed list loads as. */
  function LoadedPairs(keyName: string, key: Scalar, value: Ty, items: seq<Setting>): (r: seq<Option<Pair>>)
    ensures |r| == |items| && forall i :: 0 <= i < |r| ==> r[i] == LoadPair(keyName, key, value, items[i])
  {
    seq(|items|, i requires 0 <= i < |items| => LoadPair(keyName, key, value, items[i]))
  }

  lemma {:induction false} PairsAreEmplaced(
    keyName: string, key: Scalar, caseless: bool, value: Ty, items: seq<Setting>)
    ensures LoadPairs(keyName, key, caseless, value, items) ==
            EmplaceAll(caseless, LoadedPairs(keyName, key, value, items))
    decreases |items|
  {
    if items == [] {
    } else {
      var front := items[..|items| - 1];
      PairsAreEmplaced(keyName, key, caseless, value, front);
      var loaded := LoadedPairs(keyName, key, value, items);
      assert loaded[..|loaded| - 1] == LoadedPairs(keyName, key, value, front);
    }
  }

  lemma LoadedKeysTyped(keyName: string, key: Scalar, value: Ty, items: seq<Setting>)
    ensures KeysTyped(key, LoadedPairs(keyName, key, value, items))
  {
    var loaded := LoadedPairs(keyName, key, value, items);
    forall i | 0 <= i < |loaded| && loaded[i].Some?
      ensures ScalarValue(key, loaded[i].value.key)
    {
      PairKeyTyped(keyName, key, value, items[i]);
    }
  }

  lemma {:induction false} PairKeyTyped(keyName: string, key: Scalar, value: Ty, s: Setting)
    ensures LoadPair(keyName, key, value, s).Some? ==> ScalarValue(key, LoadPair(keyName, key, value, s).value.key)
  {
    if Lookup(s, keyName).Some? {
      LoadedScalar(key, Lookup(s, keyName).value);
    }
  }

  /** A loaded keyed list is in ascending order of its keys, and holds exactly the items that load, the
      first of those with equivalent keys. */
  lemma {:induction false} PairsLoaded(keyName: string, key: Scalar, caseless: bool, value: Ty, items: seq<Setting>)
    ensures Ascending(caseless, Keys(LoadPairs(keyName, key, caseless, value, items)))
    ensures HoldsFirsts(caseless, LoadedPairs(keyName, key, value, items),
                        LoadPairs(keyName, key, caseless, value, items))
  {
    PairsAreEmplaced(keyName, key, caseless, value, items);
    LoadedKeysTyped(keyName, key, value, items);
    EmplacedAreFirsts(key, caseless, LoadedPairs(keyName, key, value, items));
  }

  /** Of the items of this setting, the map holds those that load and are the first with their key. */
  ghost predicate FirstsHeld(
    keyName: string, key: Scalar, caseless: bool, value: Ty, setting: Setting, t: seq<Pair>)
  {
    forall xs :: HasItems(setting, xs) ==> HoldsFirsts(caseless, LoadedPairs(keyName, key, value, xs), t)
  }

  lemma {:induction false} LoadedMap(keyName: string, key: Scalar, caseless: bool, value: Ty, setting: Setting)
    ensures var t := LoadPairs(keyName, key, caseless, value, Children(setting));
            && Load(MapOf(keyName, key, caseless, value), setting) == Some(VMap(t))
            && Ascending(caseless, Keys(t))
            && FirstsHeld(keyName, key, caseless, value, setting, t)
  {
    ItemsOf(setting);
    PairsLoaded(keyName, key, caseless, value, Children(setting));
  }

  method GetMap(keyName: string, key: Scalar, caseless: bool, value: Ty, setting: Setting) returns (t: seq<Pair>)
    ensures Load(MapOf(keyName, key, caseless, value), setting) == Some(VMap(t))
    ensures Ascending(caseless, Keys(t))
    ensures FirstsHeld(keyName, key, caseless, value, setting, t)
  {
    var items := Children(setting);
    t := [];
    for i := 0 to |items|
      invariant t == LoadPairs(keyName, key, caseless, value, items[..i])
    {
      LoadPairsStep(keyName, key, caseless, value, items, i);
      var p := LoadPair(keyName, key, value, items[i]);
      if p.Some? {
        t := Emplace(caseless, t, p.value);
      }
    }
    assert items[..|items|] == items;
    LoadedMap(keyName, key, caseless, value, setting);
  }

  /** A list setting, emptied and filled in place. */
  class ListSetting {
    var items: seq<Setting>

    constructor (items: seq<Setting>)
      ensures this.items == items
    {
      this.items := items;
    }

    method Clear()
      modifies this
      ensures items == []
    {
      while |items| != 0
        decreases |items|
      {
        items := items[1..];
      }
    }

    /** set(setting, list); `ok` is false when saving an item throws. */
    method SetList(elem: Ty, t: seq<Value>) returns (ok: bool)
      requires forall i :: 0 <= i < |t| ==> HasType(elem, t[i])
      modifies this
      ensures ok <==> SaveItems(elem, t).Some?
      ensures ok ==> items == SaveItems(elem, t).value
    {
      Clear();
      for i := 0 to |t|
        invariant SaveItems(elem, t[..i]) == Some(items)
      {
        assert t[..i + 1][..i] == t[..i];
        var s := Fresh(elem, t[i]);
        if s.None? {
          SaveItemsFails(elem, t, i + 1);
          return false;
        }
        items := items + [s.value];
      }
      assert t[..|t|] == t;
      return true;
    }

    method SetMap(keyName: string, key: Scalar, value: Ty, t: seq<Pair>) returns (ok: bool)
      requires forall i :: 0 <= i < |t| ==> ScalarValue(key, t[i].key) && HasType(value, t[i].value)
      modifies this
      ensures ok <==> SavePairs(keyName, key, value, t).Some?
      ensures ok ==> items == SavePairs(keyName, key, value, t).value
    {
      Clear();
      for i := 0 to |t|
        invariant SavePairs(keyName, key, value, t[..i]) == Some(items)
      {
        assert t[..i + 1][..i] == t[..i];
        var s := SavePair(keyName, key, value, t[i]);
        if s.None? {
          SavePairsFails(keyName, key, value, t, i + 1);
          return false;
        }
        items := items + [s.value];
      }
      assert t[..|t|] == t;
      return true;
    }
  }

  lemma {:induction false} SaveItemsFails(elem: Ty, t: seq<Value>, i: nat)
    requires forall j :: 0 <= j < |t| ==> HasType(elem, t[j])
    requires i <= |t| && SaveItems(elem, t[..i]).None?
    ensures SaveItems(elem, t).None?
    decreases |t| - i
  {
    if i < |t| {
      assert t[..i + 1][..i] == t[..i];
      SaveItemsFails(elem, t, i + 1);
    } else {
      assert t[..i] == t;
    }
  }

  lemma {:induction false} SavePairsFails(keyName: string, key: Scalar, value: Ty, t: seq<Pair>, i: nat)
    requires forall j :: 0 <= j < |t| ==> ScalarValue(key, t[j].key) && HasType(value, t[j].value)
    requires i <= |t| && SavePairs(keyName, key, value, t[..i]).None?
    ensures SavePairs(keyName, key, value, t).None?
    decreases |t| - i
  {
    if i < |t| {
      assert t[..i + 1][..i] == t[..i];
      SavePairsFails(keyName, key, value, t, i + 1);
    } else {
      assert t[..i] == t;
    }
  }

  // ---------------------------------------------------------------------------------------------
  // What is loaded has its type
  // ---------------------------------------------------------------------------------------------

  /** Whatever setting a type loads, the value is one of that type: in range, its keys in order. */
  lemma {:induction false} LoadHasType(ty: Ty, s: Setting)
    ensures Load(ty, s).Some? ==> HasType(ty, Load(ty, s).value)
    decreases ty, 1, 0
  {
    match ty
    case One(k) => LoadedScalar(k, s);
    case ListOf(elem) => ItemsHaveType(elem, Children(s));
    case SetOf(k) => MembersHaveType(k, Children(s));
    case MapOf(_, _, _, _) =>
      PairsHaveType(ty.keyName, ty.key, ty.caseless, ty.value, Children(s));
      PairsLoaded(ty.keyName, ty.key, ty.caseless, ty.value, Children(s));
    case Variant(alts) => AltsHaveType(alts, s, 0);
    case Group(_, fields) => LoadedFieldsHaveType(fields, s);
  }

  lemma {:induction false} ItemsHaveType(elem: Ty, items: seq<Setting>)
    ensures forall i :: 0 <= i < |LoadItems(elem, items)| ==> HasType(elem, LoadItems(elem, items)[i])
    decreases elem, 2, |items|
  {
    if items == [] {
    } else {
      ItemsHaveType(elem, items[..|items| - 1]);
      LoadHasType(elem, items[|items| - 1]);
    }
  }

  lemma {:induction false} MembersHaveType(k: Scalar, items: seq<Setting>)
    ensures var pairs := LoadMembers(k, items);
            && Ascending(false, Keys(pairs))
            && forall i :: 0 <= i < |pairs| ==> ScalarValue(k, pairs[i].key)
    decreases |items|
  {
    if items == [] {
    } else {
      var front := LoadMembers(k, items[..|items| - 1]);
      var last := LoadScalar(k, items[|items| - 1]);
      MembersHaveType(k, items[..|items| - 1]);
      LoadedScalar(k, items[|items| - 1]);
      if last.Some? {
        EmplaceKeeps(false, front, Pair(last.value, last.value));
        var pairs := LoadMembers(k, items);
        assert forall i :: 0 <= i < |pairs| ==> pairs[i] in pairs;
      }
    }
  }

  lemma {:induction false} PairsHaveType(keyName: string, key: Scalar, caseless: bool, value: Ty, items: seq<Setting>)
    ensures forall p :: p in LoadPairs(keyName, key, caseless, value, items) ==>
              ScalarValue(key, p.key) && HasType(value, p.value)
    decreases value, 2, |items|
  {
    PairsLoaded(keyName, key, caseless, value, items);
    forall p | p in LoadPairs(keyName, key, caseless, value, items)
      ensures ScalarValue(key, p.key) && HasType(value, p.value)
    {
      var i :| FirstOfKey(caseless, LoadedPairs(keyName, key, value, items), i, p);
      PairKeyTyped(keyName, key, value, items[i]);
      LoadHasType(value, items[i]);
    }
  }

  lemma {:induction false} AltsHaveType(alts: Alts, s: Setting, offset: nat)
    ensures var v := TryEach(alts, s, offset);
            v.Some? ==> v.value.VAlt? && v.value.index >= offset && AltHasType(alts, v.value.index - offset, v.value.v)
    decreases alts, 1, 0
  {
    match alts
    case Last(ty) => LoadHasType(ty, s);
    case Or(ty, rest) =>
      LoadHasType(ty, s);
      AltsHaveType(rest, s, offset + 1);
  }

  lemma {:induction false} LoadedFieldsHaveType(fields: Fields, s: Setting)
    ensures LoadFields(fields, s).Some? ==> FieldsHaveType(fields, LoadFields(fields, s).value)
    decreases fields, 1, 0
  {
    match fields
    case End =>
    case Field(name, optional, ty, rest) =>
      var found := Lookup(s, name);
      if found.Some? {
        LoadHasType(ty, found.value);
      }
      LoadedFieldsHaveType(rest, s);
      if LoadFields(fields, s).Some? {
        var members := LoadFields(rest, s).value;
        assert ([LoadFields(fields, s).value[0]] + members)[1..] == members;
      }
  }

  // ---------------------------------------------------------------------------------------------
  // What a setting loads as, whoever wrote it
  // ---------------------------------------------------------------------------------------------

  predicate LoadedBySome(k: Scalar, xs: seq<Setting>, v: Value) {
    exists i :: 0 <= i < |xs| && LoadScalar(k, xs[i]) == Some(v)
  }

  lemma LoadedByMore(k: Scalar, xs: seq<Setting>, x: Setting)
    ensures forall v :: LoadedBySome(k, xs + [x], v) <==> LoadedBySome(k, xs, v) || LoadScalar(k, x) == Some(v)
  {
    var all := xs + [x];
    assert all[|xs|] == x && forall i :: 0 <= i < |xs| ==> all[i] == xs[i];
    forall v | LoadedBySome(k, xs, v)
      ensures LoadedBySome(k, all, v)
    {
      var i :| 0 <= i < |xs| && LoadScalar(k, xs[i]) == Some(v);
      assert LoadScalar(k, all[i]) == Some(v);
    }
  }

  lemma {:induction false} MembersAre(k: Scalar, xs: seq<Setting>)
    ensures forall p :: p in LoadMembers(k, xs) <==> p.key == p.value && LoadedBySome(k, xs, p.key)
    decreases |xs|
  {
    if xs == [] {
    } else {
      var n := |xs| - 1;
      var front, last := LoadMembers(k, xs[..n]), LoadScalar(k, xs[n]);
      MembersAre(k, xs[..n]);
      MembersHaveType(k, xs[..n]);
      assert xs == xs[..n] + [xs[n]];
      LoadedByMore(k, xs[..n], xs[n]);
      if last.Some? {
        LoadedScalar(k, xs[n]);
        EmplaceKeeps(false, front, Pair(last.value, last.value));
        forall r | r in front
          ensures Equivalent(false, last.value, r.key) <==> last.value == r.key
        {
          EquivalentIs(k, false, last.value, r.key);
        }
      }
    }
  }

  /** Containers load the same from a list and an array of the same items.  A list keeps the items
      that load, in order; a set is what they load as, in ascending order; a keyed list is in
      ascending order of keys, with the first item of each key. */
  lemma {:induction false} LoadedFromItems(ty: Ty, setting: Setting, xs: seq<Setting>)
    requires HasItems(setting, xs)
    ensures ty.ListOf? ==>
              exists t :: Load(ty, setting) == Some(VList(t)) && Selects(LoadedItems(ty.elem, xs), t)
    ensures ty.SetOf? ==>
              exists t :: && Load(ty, setting) == Some(VSet(t)) && Ascending(false, t)
                          && forall v :: v in t <==> LoadedBySome(ty.member, xs, v)
    ensures ty.MapOf? ==>
              exists t :: && Load(ty, setting) == Some(VMap(t)) && Ascending(ty.caseless, Keys(t))
                          && HoldsFirsts(ty.caseless, LoadedPairs(ty.keyName, ty.key, ty.value, xs), t)
  {
    ItemsOf(setting);
    match ty
    case ListOf(elem) =>
      ItemsAreSelected(elem, xs);
      var t := LoadItems(elem, xs);
      assert Load(ty, setting) == Some(VList(t));
    case SetOf(k) =>
      MembersAre(k, xs);
      MembersHaveType(k, xs);
      var pairs := LoadMembers(k, xs);
      var t := Keys(pairs);
      assert Load(ty, setting) == Some(VSet(t));
      forall v
        ensures v in t <==> LoadedBySome(k, xs, v)
      {
        if v in t {
          var j :| 0 <= j < |t| && t[j] == v;
          assert pairs[j] in pairs;
        }
        if LoadedBySome(k, xs, v) {
          assert Pair(v, v) in pairs;
          var j :| 0 <= j < |pairs| && pairs[j] == Pair(v, v);
          assert t[j] == v;
        }
      }
    case MapOf(_, _, _, _) =>
      PairsLoaded(ty.keyName, ty.key, ty.caseless, ty.value, xs);
      var t := LoadPairs(ty.keyName, ty.key, ty.caseless, ty.value, xs);
      assert Load(ty, setting) == Some(VMap(t));
    case _ =>
  }

  /** The alternatives of a variant, counted from zero. */
  function Alternatives(alts: Alts): (r: seq<Ty>)
    ensures |r| > 0
  {
    match alts
    case Last(ty) => [ty]
    case Or(ty, rest) => [ty] + Alternatives(rest)
  }

  /** What each alternative loads a setting as. */
  function LoadedAs(tys: seq<Ty>, s: Setting): (r: seq<Option<Value>>)
    ensures |r| == |tys| && forall i :: 0 <= i < |tys| ==> r[i] == Load(tys[i], s)
  {
    seq(|tys|, i requires 0 <= i < |tys| => Load(tys[i], s))
  }

  /** Number i is the first that loaded. */
  predicate FirstLoads(loaded: seq<Option<Value>>, i: nat) {
    i < |loaded| && loaded[i].Some? && forall j :: 0 <= j < i ==> loaded[j].None?
  }

  lemma FirstLoadsCons(x: Option<Value>, loaded: seq<Option<Value>>, i: nat)
    ensures FirstLoads([x] + loaded, i) <==>
            if i == 0 then x.Some? else x.None? && FirstLoads(loaded, i - 1)
  {
    var all := [x] + loaded;
    assert all[0] == x && forall j :: 0 <= j < |loaded| ==> loaded[j] == all[j + 1];
  }

  lemma {:induction false} LoadedAsCons(ty: Ty, tys: seq<Ty>, s: Setting)
    ensures LoadedAs([ty] + tys, s) == [Load(ty, s)] + LoadedAs(tys, s)
  {
  }

  lemma {:induction false} TryEachFrom(alts: Alts, s: Setting, offset: nat)
    ensures var r, loaded := TryEach(alts, s, offset), LoadedAs(Alternatives(alts), s);
            && (r.Some? ==>
                  && r.value.VAlt? && r.value.index >= offset
                  && FirstLoads(loaded, r.value.index - offset)
                  && loaded[r.value.index - offset] == Some(r.value.v))
            && (r.None? ==> forall i :: 0 <= i < |loaded| ==> loaded[i].None?)
    decreases alts
  {
    match alts
    case Last(ty) =>
    case Or(ty, rest) =>
      TryEachFrom(rest, s, offset + 1);
      var x, loaded, r := Load(ty, s), LoadedAs(Alternatives(rest), s), TryEach(rest, s, offset + 1);
      LoadedAsCons(ty, Alternatives(rest), s);
      if x.None? && r.Some? {
        FirstLoadsCons(x, loaded, r.value.index - offset);
      }
  }

  /** A variant loads as its first alternative that loads, and fails exactly when none does. */
  lemma {:induction false} FirstAlternative(alts: Alts, s: Setting)
    ensures var loaded := LoadedAs(Alternatives(alts), s);
            && (forall i: nat, v :: Load(Variant(alts), s) == Some(VAlt(i, v)) <==>
                  FirstLoads(loaded, i) && loaded[i] == Some(v))
            && (Load(Variant(alts), s).None? <==> forall i :: 0 <= i < |loaded| ==> loaded[i].None?)
  {
    TryEachFrom(alts, s, 0);
  }

  datatype Member = Member(name: string, optional: bool, ty: Ty)

  function Members(fields: Fields): seq<Member> {
    match fields
    case End => []
    case Field(name, optional, ty, rest) => [Member(name, optional, ty)] + Members(rest)
  }

  /** What one member loads as: nothing when its entry is missing or cannot be loaded. */
  function MemberIn(m: Member, s: Setting): Option<Value> {
    var found :- Lookup(s, m.name);
    Load(m.ty, found)
  }

  predicate Filled(m: Member, s: Setting) {
    m.optional || MemberIn(m, s).Some?
  }

  predicate AllFilled(ms: seq<Member>, s: Setting) {
    forall i :: 0 <= i < |ms| ==> Filled(ms[i], s)
  }

  lemma AllFilledCons(m: Member, ms: seq<Member>, s: Setting)
    ensures AllFilled([m] + ms, s) <==> Filled(m, s) && AllFilled(ms, s)
  {
    var all := [m] + ms;
    assert all[0] == m && forall i :: 0 <= i < |ms| ==> ms[i] == all[i + 1];
  }

  lemma {:induction false} FieldsAre(fields: Fields, s: Setting)
    ensures LoadFields(fields, s).Some? <==> AllFilled(Members(fields), s)
    ensures LoadFields(fields, s).Some? ==>
              var ms, loaded := Members(fields), LoadFields(fields, s).value;
              |loaded| == |ms| && forall i :: 0 <= i < |ms| ==> loaded[i] == MemberIn(ms[i], s)
    decreases fields
  {
    match fields
    case End =>
    case Field(name, optional, ty, rest) =>
      var m, found := Member(name, optional, ty), Lookup(s, name);
      FieldsAre(rest, s);
      AllFilledCons(m, Members(rest), s);
      assert MemberIn(m, s) == if found.Some? then Load(ty, found.value) else None;
      assert Filled(m, s) <==> optional || MemberIn(m, s).Some?;
  }

  /** A signed group is recognised by its signature in any case. */
  predicate Signed(signature: Option<Signature>, s: Setting) {
    signature.Some? ==>
      var found := Lookup(s, signature.value.field);
      found.Some? && found.value.SString? && SameLetters(found.value.s, signature.value.text)
  }

  /** A group loads if and only if it is signed as it should be and every member that is not
      optional is there and loads; then each member is what its own entry loads as, or empty. */
  lemma {:induction false} LoadedGroup(signature: Option<Signature>, fields: Fields, s: Setting)
    ensures var ms := Members(fields);
            && (Load(Group(signature, fields), s).Some? <==>
                Signed(signature, s) && AllFilled(ms, s))
            && (Load(Group(signature, fields), s).Some? ==>
                  var v := Load(Group(signature, fields), s).value;
                  && v.VGroup? && |v.members_| == |ms|
                  && forall i :: 0 <= i < |ms| ==> v.members_[i] == MemberIn(ms[i], s))
  {
    FieldsAre(fields, s);
    if signature.Some? && Lookup(s, signature.value.field).Some? && Lookup(s, signature.value.field).value.SString? {
      LowerIgnoresCase(Lookup(s, signature.value.field).value.s, signature.value.text);
    }
  }
}
