/** Loading what was saved gives back the same value, for every well-formed type. */
module ConfigRoundTrip {
  import opened Common
  import opened Settings
  import opened ConfigIO

  // ---------------------------------------------------------------------------------------------
  // Well-formed types
  // ---------------------------------------------------------------------------------------------

  function FieldNames(fields: Fields): set<string> {
    match fields
    case End => {}
    case Field(name, _, _, rest) => {name} + FieldNames(rest)
  }

  /** Names of all entries a saved group, or a variant of groups, may have. */
  function Names(ty: Ty): set<string>
    decreases ty, 0
  {
    match ty
    case Group(signature, fields) =>
      FieldNames(fields) + if signature.Some? then {signature.value.field} else {}
    case Variant(alts) => AltNames(alts)
    case _ => {}
  }

  function AltNames(alts: Alts): set<string>
    decreases alts, 0
  {
    match alts
    case Last(ty) => Names(ty)
    case Or(ty, rest) => Names(ty) + AltNames(rest)
  }

  /** The kinds of setting a value of the type may be saved as. */
  function Kinds(ty: Ty): set<Kind>
    decreases ty, 0
  {
    match ty
    case One(k) => {ScalarKind(k)}
    case Group(_, _) => {KGroup}
    case Variant(alts) => AltKinds(alts)
    case _ => {KList}
  }

  function AltKinds(alts: Alts): set<Kind>
    decreases alts, 0
  {
    match alts
    case Last(ty) => Kinds(ty)
    case Or(ty, rest) => Kinds(ty) + AltKinds(rest)
  }

  predicate GroupLike(ty: Ty) {
    ty.Group? || (ty.Variant? && GroupLikeAlts(ty.alts))
  }

  predicate GroupLikeAlts(alts: Alts) {
    match alts
    case Last(ty) => GroupLike(ty)
    case Or(ty, rest) => GroupLike(ty) && GroupLikeAlts(rest)
  }

  /** Some plain member of the group is one that nothing saved under `names` provides. */
  predicate NeedsMore(fields: Fields, names: set<string>) {
    match fields
    case End => false
    case Field(name, optional, _, rest) => (!optional && name !in names) || NeedsMore(rest, names)
  }

  /** A test on the types alone: `a` fails to load whatever a value of type `b` is saved as. */
  predicate Rejects(a: Ty, b: Ty)
    decreases a, 0, b
  {
    match a
    case One(k) => ScalarKind(k) !in Kinds(b)
    case Variant(alts) => AltsReject(alts, b)
    case Group(signature, fields) => GroupRejects(signature, fields, b)
    case _ => false
  }

  predicate AltsReject(alts: Alts, b: Ty)
    decreases alts, 0, b
  {
    match alts
    case Last(ty) => Rejects(ty, b)
    case Or(ty, rest) => Rejects(ty, b) && AltsReject(rest, b)
  }

  predicate GroupRejects(signature: Option<Signature>, fields: Fields, b: Ty)
    decreases b, 0
  {
    match b
    case Variant(alts) => GroupRejectsAlts(signature, fields, alts)
    case Group(signature', _) =>
      || (signature.Some? && signature.value.field !in Names(b))
      || (signature.Some? && signature'.Some?
          && signature.value.field == signature'.value.field
          && Lower(signature.value.text) != Lower(signature'.value.text))
      || NeedsMore(fields, Names(b))
    case _ => signature.Some? || NeedsMore(fields, {})
  }

  predicate GroupRejectsAlts(signature: Option<Signature>, fields: Fields, alts: Alts)
    decreases alts, 0
  {
    match alts
    case Last(ty) => GroupRejects(signature, fields, ty)
    case Or(ty, rest) => GroupRejects(signature, fields, ty) && GroupRejectsAlts(signature, fields, rest)
  }

  predicate RejectsAll(a: Ty, later: Alts) {
    match later
    case Last(ty) => Rejects(a, ty)
    case Or(ty, rest) => Rejects(a, ty) && RejectsAll(a, rest)
  }

  /** Every alternative rejects what the later ones save. */
  predicate Disjoint(alts: Alts) {
    match alts
    case Last(_) => true
    case Or(ty, rest) => RejectsAll(ty, rest) && Disjoint(rest)
  }

  predicate WellFormed(ty: Ty)
    decreases ty, 0
  {
    match ty
    case One(k) => ScalarOk(k)
    case ListOf(elem) => WellFormed(elem)
    case SetOf(k) => ScalarOk(k)
    case MapOf(keyName, key, _, value) =>
      ScalarOk(key) && WellFormed(value) && GroupLike(value) && keyName !in Names(value)
    case Variant(alts) => WellFormedAlts(alts) && Disjoint(alts)
    case Group(signature, fields) =>
      WellFormedFields(fields) && (signature.Some? ==> signature.value.field !in FieldNames(fields))
  }

  predicate WellFormedAlts(alts: Alts)
    decreases alts, 0
  {
    match alts
    case Last(ty) => WellFormed(ty)
    case Or(ty, rest) => WellFormed(ty) && WellFormedAlts(rest)
  }

  predicate WellFormedFields(fields: Fields)
    decreases fields, 0
  {
    match fields
    case End => true
    case Field(name, _, ty, rest) => WellFormed(ty) && name !in FieldNames(rest) && WellFormedFields(rest)
  }

  // ---------------------------------------------------------------------------------------------
  // What a saved value looks like
  // ---------------------------------------------------------------------------------------------

  function FreshAlt(alts: Alts, index: nat, v: Value): Option<Setting>
    requires AltHasType(alts, index, v)
  {
    match alts
    case Last(ty) => Fresh(ty, v)
    case Or(ty, rest) => if index == 0 then Fresh(ty, v) else FreshAlt(rest, index - 1, v)
  }

  lemma {:induction false} FreshVariant(alts: Alts, index: nat, v: Value)
    requires AltHasType(alts, index, v)
    ensures SetIntoAlt(alts, BlankAlt(alts, index, v), index, v) == FreshAlt(alts, index, v)
  {
    if alts.Or? && index > 0 {
      FreshVariant(alts.rest, index - 1, v);
    }
  }

  /** The entries a group's members are saved as, in order; empty optionals leave none. */
  function FieldEntries(fields: Fields, members: seq<Option<Value>>): Option<seq<Entry>>
    requires FieldsHaveType(fields, members)
  {
    match fields
    case End => Some([])
    case Field(name, _, ty, rest) =>
      if members[0].None? then FieldEntries(rest, members[1..])
      else
        var s :- Fresh(ty, members[0].value);
        var entries :- FieldEntries(rest, members[1..]);
        Some([Entry(name, s)] + entries)
  }

  function Prefixed(front: seq<Entry>, entries: Option<seq<Entry>>): Option<seq<Entry>> {
    match entries
    case None => None
    case Some(es) => Some(front + es)
  }

  lemma {:induction false} WithoutAbsent(entries: seq<Entry>, name: string)
    requires Find(entries, name).None?
    ensures Without(entries, name) == entries
  {
    if entries == [] {
    } else {
      WithoutAbsent(entries[1..], name);
    }
  }

  lemma {:induction false} SetNamedAbsent(ty: Ty, entries: seq<Entry>, name: string, v: Value)
    requires HasType(ty, v) && Find(entries, name).None?
    ensures SetNamed(ty, entries, name, v) ==
            match Fresh(ty, v) { case None => None case Some(s) => Some(entries + [Entry(name, s)]) }
    decreases ty, 1
  {
    WithoutAbsent(entries, name);
    if ty.Variant? {
      FreshVariant(ty.alts, v.index, v.v);
      SetNamedAbsentAlt(ty.alts, entries, name, v.index, v.v);
    }
  }

  lemma {:induction false} SetNamedAbsentAlt(alts: Alts, entries: seq<Entry>, name: string, index: nat, v: Value)
    requires AltHasType(alts, index, v) && Find(entries, name).None?
    ensures SetNamedAlt(alts, entries, name, index, v) ==
            match FreshAlt(alts, index, v) { case None => None case Some(s) => Some(entries + [Entry(name, s)]) }
    decreases alts, 0
  {
    match alts
    case Last(ty) => SetNamedAbsent(ty, entries, name, v);
    case Or(ty, rest) =>
      if index == 0 {
        SetNamedAbsent(ty, entries, name, v);
      } else {
        SetNamedAbsentAlt(rest, entries, name, index - 1, v);
      }
  }

  predicate NoneOf(entries: seq<Entry>, names: set<string>) {
    forall n :: n in names ==> Find(entries, n).None?
  }

  lemma NoneOfAppend(entries: seq<Entry>, e: Entry, names: set<string>)
    requires NoneOf(entries, names) && e.name !in names
    ensures NoneOf(entries + [e], names)
  {
    forall n | n in names
      ensures Find(entries + [e], n).None?
    {
      FindAppend(entries, e, n);
    }
  }

  lemma PrefixedAssociates(entries: seq<Entry>, e: Entry, more: Option<seq<Entry>>)
    ensures Prefixed(entries + [e], more) == Prefixed(entries, Prefixed([e], more))
  {
    if more.Some? {
      assert (entries + [e]) + more.value == entries + ([e] + more.value);
    }
  }

  /** Saving members into a group that has none of their names appends their entries. */
  lemma {:induction false} SetFieldsAppends(fields: Fields, entries: seq<Entry>, members: seq<Option<Value>>)
    requires FieldsHaveType(fields, members) && WellFormedFields(fields)
    requires NoneOf(entries, FieldNames(fields))
    ensures SetFields(fields, entries, members) == Prefixed(entries, FieldEntries(fields, members))
  {
    match fields
    case End => assert entries + [] == entries;
    case Field(name, _, ty, rest) =>
      if members[0].None? {
        SetFieldsAppends(rest, entries, members[1..]);
      } else {
        SetNamedAbsent(ty, entries, name, members[0].value);
        var saved := Fresh(ty, members[0].value);
        if saved.Some? {
          var e := Entry(name, saved.value);
          NoneOfAppend(entries, e, FieldNames(rest));
          SetFieldsAppends(rest, entries + [e], members[1..]);
          PrefixedAssociates(entries, e, FieldEntries(rest, members[1..]));
        }
      }
  }

  function SignatureEntries(signature: Option<Signature>): seq<Entry> {
    if signature.None? then []
    else [Entry(signature.value.field, SString(Lower(signature.value.text)))]
  }

  /** A new group holds its signature and then its members. */
  lemma {:induction false} FreshGroup(signature: Option<Signature>, fields: Fields, v: Value)
    requires WellFormed(Group(signature, fields)) && HasType(Group(signature, fields), v)
    ensures Fresh(Group(signature, fields), v) ==
            match FieldEntries(fields, v.members_) {
              case None => None
              case Some(es) => Some(SGroup(SignatureEntries(signature) + es))
            }
  {
    var front := SignatureEntries(signature);
    if signature.Some? {
      assert SetSignature([], signature.value) == [] + front == front;
    }
    forall n | n in FieldNames(fields)
      ensures Find(front, n).None?
    {
    }
    SetFieldsAppends(fields, front, v.members_);
  }

  lemma {:induction false} FindPrefixed(front: seq<Entry>, entries: seq<Entry>, name: string)
    ensures Find(front + entries, name) == if Find(front, name).Some? then Find(front, name) else Find(entries, name)
  {
    if front == [] {
      assert front + entries == entries;
    } else {
      assert (front + entries)[1..] == front[1..] + entries;
      FindPrefixed(front[1..], entries, name);
    }
  }

  lemma {:induction false} FieldEntriesNames(fields: Fields, members: seq<Option<Value>>, name: string)
    requires FieldsHaveType(fields, members) && FieldEntries(fields, members).Some?
    requires name !in FieldNames(fields)
    ensures Find(FieldEntries(fields, members).value, name).None?
  {
    if fields.End? {
    } else {
      FieldEntriesNames(fields.rest, members[1..], name);
    }
  }

  lemma {:induction false} FreshKind(ty: Ty, v: Value)
    requires HasType(ty, v) && Fresh(ty, v).Some?
    ensures KindOf(Fresh(ty, v).value) in Kinds(ty)
    decreases ty, 1
  {
    if ty.Variant? {
      FreshVariant(ty.alts, v.index, v.v);
      FreshKindAlt(ty.alts, v.index, v.v);
    }
  }

  lemma {:induction false} FreshKindAlt(alts: Alts, index: nat, v: Value)
    requires AltHasType(alts, index, v) && FreshAlt(alts, index, v).Some?
    ensures KindOf(FreshAlt(alts, index, v).value) in AltKinds(alts)
    decreases alts, 0
  {
    match alts
    case Last(ty) => FreshKind(ty, v);
    case Or(ty, rest) =>
      if index == 0 {
        FreshKind(ty, v);
      } else {
        FreshKindAlt(rest, index - 1, v);
      }
  }

  // ---------------------------------------------------------------------------------------------
  // Loading ignores entries of other names
  // ---------------------------------------------------------------------------------------------

  lemma {:induction false} LoadIgnores(ty: Ty, entries: seq<Entry>, e: Entry)
    requires GroupLike(ty) && e.name !in Names(ty)
    ensures Load(ty, SGroup(entries + [e])) == Load(ty, SGroup(entries))
    decreases ty, 0
  {
    match ty
    case Variant(alts) => LoadIgnoresAlts(alts, entries, e, 0);
    case Group(signature, fields) =>
      if signature.Some? {
        FindAppend(entries, e, signature.value.field);
      }
      LoadIgnoresFields(fields, entries, e);
  }

  lemma {:induction false} LoadIgnoresAlts(alts: Alts, entries: seq<Entry>, e: Entry, index: nat)
    requires GroupLikeAlts(alts) && e.name !in AltNames(alts)
    ensures TryEach(alts, SGroup(entries + [e]), index) == TryEach(alts, SGroup(entries), index)
    decreases alts, 0
  {
    match alts
    case Last(ty) => LoadIgnores(ty, entries, e);
    case Or(ty, rest) =>
      LoadIgnores(ty, entries, e);
      LoadIgnoresAlts(rest, entries, e, index + 1);
  }

  lemma {:induction false} LoadIgnoresFields(fields: Fields, entries: seq<Entry>, e: Entry)
    requires e.name !in FieldNames(fields)
    ensures LoadFields(fields, SGroup(entries + [e])) == LoadFields(fields, SGroup(entries))
  {
    if fields.End? {
    } else {
      FindAppend(entries, e, fields.name);
      LoadIgnoresFields(fields.rest, entries, e);
    }
  }

  /** A saved group, or variant of groups, is a group with entries of its own names only. */
  lemma {:induction false} FreshNames(ty: Ty, v: Value, name: string)
    requires WellFormed(ty) && GroupLike(ty) && HasType(ty, v) && Fresh(ty, v).Some? && name !in Names(ty)
    ensures Fresh(ty, v).value.SGroup? && Find(Fresh(ty, v).value.entries, name).None?
    decreases ty, 1
  {
    match ty
    case Variant(alts) =>
      FreshVariant(alts, v.index, v.v);
      FreshNamesAlt(alts, v.index, v.v, name);
    case Group(signature, fields) =>
      FreshGroup(signature, fields, v);
      FieldEntriesNames(fields, v.members_, name);
      FindPrefixed(SignatureEntries(signature), FieldEntries(fields, v.members_).value, name);
  }

  lemma {:induction false} FreshNamesAlt(alts: Alts, index: nat, v: Value, name: string)
    requires WellFormedAlts(alts) && GroupLikeAlts(alts) && AltHasType(alts, index, v)
    requires FreshAlt(alts, index, v).Some? && name !in AltNames(alts)
    ensures FreshAlt(alts, index, v).value.SGroup? && Find(FreshAlt(alts, index, v).value.entries, name).None?
    decreases alts, 0
  {
    match alts
    case Last(ty) => FreshNames(ty, v, name);
    case Or(ty, rest) =>
      if index == 0 {
        FreshNames(ty, v, name);
      } else {
        FreshNamesAlt(rest, index - 1, v, name);
      }
  }

  // ---------------------------------------------------------------------------------------------
  // Rejection
  // ---------------------------------------------------------------------------------------------

  lemma {:induction false} NeedsMoreFails(fields: Fields, names: set<string>, s: Setting)
    requires NeedsMore(fields, names)
    requires forall n :: n !in names ==> Lookup(s, n).None?
    ensures LoadFields(fields, s).None?
  {
    if fields.optional || fields.name in names {
      NeedsMoreFails(fields.rest, names, s);
    }
  }

  /** The test on types is sound: a rejecting type loads nothing the other type saves. */
  lemma {:induction false} RejectsSound(a: Ty, b: Ty, v: Value, s: Setting)
    requires Rejects(a, b) && WellFormed(b) && HasType(b, v) && Fresh(b, v) == Some(s)
    ensures Load(a, s).None?
    decreases a, 1
  {
    match a
    case One(k) => FreshKind(b, v);
    case Variant(alts) => AltsRejectSound(alts, b, v, s, 0);
    case Group(signature, fields) => GroupRejectsSound(signature, fields, b, v, s);
    case _ =>
  }

  lemma {:induction false} AltsRejectSound(alts: Alts, b: Ty, v: Value, s: Setting, index: nat)
    requires AltsReject(alts, b) && WellFormed(b) && HasType(b, v) && Fresh(b, v) == Some(s)
    ensures TryEach(alts, s, index).None?
    decreases alts, 0
  {
    match alts
    case Last(ty) => RejectsSound(ty, b, v, s);
    case Or(ty, rest) =>
      RejectsSound(ty, b, v, s);
      AltsRejectSound(rest, b, v, s, index + 1);
  }

  lemma {:induction false} GroupRejectsSound(signature: Option<Signature>, fields: Fields, b: Ty, v: Value, s: Setting)
    requires GroupRejects(signature, fields, b) && WellFormed(b) && HasType(b, v) && Fresh(b, v) == Some(s)
    ensures Load(Group(signature, fields), s).None?
    decreases b, 1
  {
    match b
    case Variant(alts) =>
      FreshVariant(alts, v.index, v.v);
      GroupRejectsAltsSound(signature, fields, alts, v.index, v.v, s);
    case Group(signature', fields') =>
      FreshGroup(signature', fields', v);
      var es := FieldEntries(fields', v.members_).value;
      forall n | n !in Names(b)
        ensures Lookup(s, n).None?
      {
        FreshNames(b, v, n);
      }
      if NeedsMore(fields, Names(b)) {
        NeedsMoreFails(fields, Names(b), s);
      } else if signature.value.field in Names(b) {
        FindPrefixed(SignatureEntries(signature'), es, signature.value.field);
        LowerIdempotent(signature'.value.text);
      }
    case _ =>
      FreshKind(b, v);
      if signature.None? {
        NeedsMoreFails(fields, {}, s);
      }
  }

  lemma {:induction false} GroupRejectsAltsSound(
    signature: Option<Signature>, fields: Fields, alts: Alts, index: nat, v: Value, s: Setting)
    requires GroupRejectsAlts(signature, fields, alts) && WellFormedAlts(alts)
    requires AltHasType(alts, index, v) && FreshAlt(alts, index, v) == Some(s)
    ensures Load(Group(signature, fields), s).None?
    decreases alts, 0
  {
    match alts
    case Last(ty) => GroupRejectsSound(signature, fields, ty, v, s);
    case Or(ty, rest) =>
      if index == 0 {
        GroupRejectsSound(signature, fields, ty, v, s);
      } else {
        GroupRejectsAltsSound(signature, fields, rest, index - 1, v, s);
      }
  }

  // ---------------------------------------------------------------------------------------------
  // The round trip
  // ---------------------------------------------------------------------------------------------

  /** Main result.  For every well-formed type and every value of it: if the value can be saved into
      a fresh setting, loading that setting gives the value back. */
  lemma {:induction false} RoundTrip(ty: Ty, v: Value, s: Setting)
    requires WellFormed(ty) && HasType(ty, v) && Fresh(ty, v) == Some(s)
    ensures Load(ty, s) == Some(v)
    decreases ty, 3, 0
  {
    match ty
    case One(k) => ScalarRoundTrip(k, v);
    case ListOf(elem) => RoundTripItems(elem, v.items);
    case SetOf(_) =>
    case MapOf(_, _, _, _) => RoundTripPairs(ty.keyName, ty.key, ty.caseless, ty.value, v.pairs);
    case Variant(alts) =>
      FreshVariant(alts, v.index, v.v);
      RoundTripAlts(alts, v.index, v.v, s, 0);
    case Group(signature, fields) =>
      FreshGroup(signature, fields, v);
      var front := SignatureEntries(signature);
      var es := FieldEntries(fields, v.members_).value;
      if signature.Some? {
        FindPrefixed(front, es, signature.value.field);
        LowerIdempotent(signature.value.text);
      }
      RoundTripFields(fields, v.members_, front, s);
  }

  lemma {:induction false} LoadItemsAppend(elem: Ty, front: seq<Setting>, last: Setting)
    ensures LoadItems(elem, front + [last]) ==
            match Load(elem, last)
            case Some(v) => LoadItems(elem, front) + [v]
            case None => LoadItems(elem, front)
  {
    assert (front + [last])[..|front|] == front;
  }

  lemma {:induction false} LoadPairsAppend(
    keyName: string, key: Scalar, caseless: bool, value: Ty, front: seq<Setting>, last: Setting)
    ensures LoadPairs(keyName, key, caseless, value, front + [last]) ==
            match LoadPair(keyName, key, value, last)
            case Some(p) => Emplace(caseless, LoadPairs(keyName, key, caseless, value, front), p)
            case None => LoadPairs(keyName, key, caseless, value, front)
  {
    assert (front + [last])[..|front|] == front;
  }

  lemma SaveItemsLast(elem: Ty, items: seq<Value>)
    requires items != [] && forall i :: 0 <= i < |items| ==> HasType(elem, items[i])
    requires SaveItems(elem, items).Some?
    ensures var front, last := items[..|items| - 1], items[|items| - 1];
            && SaveItems(elem, front).Some? && Fresh(elem, last).Some?
            && SaveItems(elem, items).value == SaveItems(elem, front).value + [Fresh(elem, last).value]
  {
  }

  lemma {:induction false} RoundTripItems(elem: Ty, items: seq<Value>)
    requires WellFormed(elem) && (forall i :: 0 <= i < |items| ==> HasType(elem, items[i]))
    requires SaveItems(elem, items).Some?
    ensures LoadItems(elem, SaveItems(elem, items).value) == items
    decreases elem, 4, |items|
  {
    if items == [] {
    } else {
      var front, last := items[..|items| - 1], items[|items| - 1];
      assert items == front + [last];
      SaveItemsLast(elem, items);
      RoundTripItems(elem, front);
      RoundTrip(elem, last, Fresh(elem, last).value);
      LoadItemsAppend(elem, SaveItems(elem, front).value, Fresh(elem, last).value);
    }
  }

  lemma {:induction false} RoundTripPair(keyName: string, key: Scalar, value: Ty, p: Pair)
    requires ScalarOk(key) && WellFormed(value) && GroupLike(value) && keyName !in Names(value)
    requires ScalarValue(key, p.key) && HasType(value, p.value)
    requires SavePair(keyName, key, value, p).Some?
    ensures LoadPair(keyName, key, value, SavePair(keyName, key, value, p).value) == Some(p)
    decreases value, 4, 0
  {
    GroupLikeBlank(value, p.value);
    var s := Fresh(value, p.value).value;
    FreshNames(value, p.value, keyName);
    WithoutAbsent(s.entries, keyName);
    var e := Entry(keyName, SaveScalar(key, p.key));
    assert SavePair(keyName, key, value, p) == Some(SGroup(s.entries + [e]));
    FindAppend(s.entries, e, keyName);
    ScalarRoundTrip(key, p.key);
    LoadIgnores(value, s.entries, e);
    RoundTrip(value, p.value, s);
  }

  lemma {:induction false} GroupLikeBlank(ty: Ty, v: Value)
    requires GroupLike(ty) && HasType(ty, v)
    ensures Blank(ty, v) == SGroup([])
    decreases ty, 1
  {
    if ty.Variant? {
      GroupLikeBlankAlt(ty.alts, v.index, v.v);
    }
  }

  lemma {:induction false} GroupLikeBlankAlt(alts: Alts, index: nat, v: Value)
    requires GroupLikeAlts(alts) && AltHasType(alts, index, v)
    ensures BlankAlt(alts, index, v) == SGroup([])
    decreases alts, 0
  {
    match alts
    case Last(ty) => GroupLikeBlank(ty, v);
    case Or(ty, rest) =>
      if index == 0 {
        GroupLikeBlank(ty, v);
      } else {
        GroupLikeBlankAlt(rest, index - 1, v);
      }
  }

  lemma {:induction false} RoundTripPairs(keyName: string, key: Scalar, caseless: bool, value: Ty, pairs: seq<Pair>)
    requires ScalarOk(key) && WellFormed(value) && GroupLike(value) && keyName !in Names(value)
    requires forall i :: 0 <= i < |pairs| ==> ScalarValue(key, pairs[i].key) && HasType(value, pairs[i].value)
    requires Ascending(caseless, Keys(pairs))
    requires SavePairs(keyName, key, value, pairs).Some?
    ensures LoadPairs(keyName, key, caseless, value, SavePairs(keyName, key, value, pairs).value) == pairs
    decreases value, 5, |pairs|
  {
    if pairs == [] {
    } else {
      var front, last := pairs[..|pairs| - 1], pairs[|pairs| - 1];
      assert pairs == front + [last];
      assert Keys(front) == Keys(pairs)[..|front|];
      RoundTripPairs(keyName, key, caseless, value, front);
      RoundTripPair(keyName, key, value, last);
      LoadPairsAppend(keyName, key, caseless, value,
                      SavePairs(keyName, key, value, front).value, SavePair(keyName, key, value, last).value);
      EmplaceAtEnd(caseless, front, last);
    }
  }

  /** Ordered choice finds the alternative that was saved: the earlier ones reject it. */
  lemma {:induction false} RoundTripAlts(alts: Alts, index: nat, v: Value, s: Setting, offset: nat)
    requires WellFormedAlts(alts) && Disjoint(alts)
    requires AltHasType(alts, index, v) && FreshAlt(alts, index, v) == Some(s)
    ensures TryEach(alts, s, offset) == Some(VAlt(offset + index, v))
    decreases alts, 0, 0
  {
    match alts
    case Last(ty) => RoundTrip(ty, v, s);
    case Or(ty, rest) =>
      if index == 0 {
        RoundTrip(ty, v, s);
      } else {
        RejectsLater(ty, rest, index - 1, v, s);
        RoundTripAlts(rest, index - 1, v, s, offset + 1);
      }
  }

  lemma {:induction false} RejectsLater(a: Ty, later: Alts, index: nat, v: Value, s: Setting)
    requires RejectsAll(a, later) && WellFormedAlts(later)
    requires AltHasType(later, index, v) && FreshAlt(later, index, v) == Some(s)
    ensures Load(a, s).None?
  {
    match later
    case Last(ty) => RejectsSound(a, ty, v, s);
    case Or(ty, rest) =>
      if index == 0 {
        RejectsSound(a, ty, v, s);
      } else {
        RejectsLater(a, rest, index - 1, v, s);
      }
  }

  lemma {:induction false} RoundTripFields(
    fields: Fields, members: seq<Option<Value>>, front: seq<Entry>, s: Setting)
    requires WellFormedFields(fields) && FieldsHaveType(fields, members) && FieldEntries(fields, members).Some?
    requires NoneOf(front, FieldNames(fields))
    requires s == SGroup(front + FieldEntries(fields, members).value)
    ensures LoadFields(fields, s) == Some(members)
    decreases fields, 0, 0
  {
    match fields
    case End =>
    case Field(name, _, ty, rest) =>
      FindPrefixed(front, FieldEntries(fields, members).value, name);
      if members[0].None? {
        FieldEntriesNames(rest, members[1..], name);
        RoundTripFields(rest, members[1..], front, s);
      } else {
        var value := Fresh(ty, members[0].value).value;
        var e := Entry(name, value);
        RoundTrip(ty, members[0].value, value);
        NoneOfAppend(front, e, FieldNames(rest));
        var es := FieldEntries(rest, members[1..]).value;
        assert front + ([e] + es) == (front + [e]) + es;
        RoundTripFields(rest, members[1..], front + [e], s);
      }
      assert members == [members[0]] + members[1..];
  }

  // ---------------------------------------------------------------------------------------------
  // Which values can be saved
  // ---------------------------------------------------------------------------------------------

  /** No std::set inside the value has a member. */
  predicate SetsEmpty(ty: Ty, v: Value)
    requires HasType(ty, v)
    decreases ty, 0
  {
    match ty
    case One(_) => true
    case ListOf(elem) => forall i :: 0 <= i < |v.items| ==> SetsEmpty(elem, v.items[i])
    case SetOf(_) => v.members == []
    case MapOf(_, _, _, value) => forall i :: 0 <= i < |v.pairs| ==> SetsEmpty(value, v.pairs[i].value)
    case Variant(alts) => AltSetsEmpty(alts, v.index, v.v)
    case Group(_, fields) => FieldSetsEmpty(fields, v.members_)
  }

  predicate AltSetsEmpty(alts: Alts, index: nat, v: Value)
    requires AltHasType(alts, index, v)
    decreases alts, 0
  {
    match alts
    case Last(ty) => SetsEmpty(ty, v)
    case Or(ty, rest) => if index == 0 then SetsEmpty(ty, v) else AltSetsEmpty(rest, index - 1, v)
  }

  predicate FieldSetsEmpty(fields: Fields, members: seq<Option<Value>>)
    requires FieldsHaveType(fields, members)
    decreases fields, 0
  {
    match fields
    case End => true
    case Field(_, _, ty, rest) =>
      (members[0].Some? ==> SetsEmpty(ty, members[0].value)) && FieldSetsEmpty(rest, members[1..])
  }

  /** Exact condition for saving to succeed: it throws precisely when the value holds a non-empty
      std::set, whose members the code tries to assign to group settings. */
  lemma {:induction false} SavesIffSetsEmpty(ty: Ty, v: Value)
    requires WellFormed(ty) && HasType(ty, v)
    ensures Fresh(ty, v).Some? <==> SetsEmpty(ty, v)
    decreases ty, 3, 0
  {
    match ty
    case One(_) =>
    case ListOf(elem) => SavesItems(elem, v.items);
    case SetOf(_) =>
    case MapOf(_, _, _, _) => SavesPairs(ty.keyName, ty.key, ty.value, v.pairs);
    case Variant(alts) =>
      FreshVariant(alts, v.index, v.v);
      SavesAlt(alts, v.index, v.v);
    case Group(signature, fields) =>
      FreshGroup(signature, fields, v);
      SavesFields(fields, v.members_);
  }

  lemma {:induction false} SavesItems(elem: Ty, items: seq<Value>)
    requires WellFormed(elem) && (forall i :: 0 <= i < |items| ==> HasType(elem, items[i]))
    ensures SaveItems(elem, items).Some? <==> forall i :: 0 <= i < |items| ==> SetsEmpty(elem, items[i])
    decreases elem, 4, |items|
  {
    if items == [] {
    } else {
      SavesItems(elem, items[..|items| - 1]);
      SavesIffSetsEmpty(elem, items[|items| - 1]);
    }
  }

  lemma {:induction false} SavesPairs(keyName: string, key: Scalar, value: Ty, pairs: seq<Pair>)
    requires WellFormed(value) && GroupLike(value)
    requires forall i :: 0 <= i < |pairs| ==> ScalarValue(key, pairs[i].key) && HasType(value, pairs[i].value)
    ensures SavePairs(keyName, key, value, pairs).Some? <==>
            forall i :: 0 <= i < |pairs| ==> SetsEmpty(value, pairs[i].value)
    decreases value, 4, |pairs|
  {
    if pairs == [] {
    } else {
      var last := pairs[|pairs| - 1];
      SavesPairs(keyName, key, value, pairs[..|pairs| - 1]);
      SavesIffSetsEmpty(value, last.value);
      GroupLikeBlank(value, last.value);
      if Fresh(value, last.value).Some? {
        FreshIsGroup(value, last.value);
      }
    }
  }

  lemma {:induction false} FreshIsGroup(ty: Ty, v: Value)
    requires GroupLike(ty) && HasType(ty, v) && Fresh(ty, v).Some?
    ensures Fresh(ty, v).value.SGroup?
    decreases ty, 2
  {
    if ty.Variant? {
      FreshVariant(ty.alts, v.index, v.v);
      FreshIsGroupAlt(ty.alts, v.index, v.v);
    }
  }

  lemma {:induction false} FreshIsGroupAlt(alts: Alts, index: nat, v: Value)
    requires GroupLikeAlts(alts) && AltHasType(alts, index, v) && FreshAlt(alts, index, v).Some?
    ensures FreshAlt(alts, index, v).value.SGroup?
    decreases alts, 0
  {
    match alts
    case Last(ty) => FreshIsGroup(ty, v);
    case Or(ty, rest) =>
      if index == 0 {
        FreshIsGroup(ty, v);
      } else {
        FreshIsGroupAlt(rest, index - 1, v);
      }
  }

  lemma {:induction false} SavesAlt(alts: Alts, index: nat, v: Value)
    requires WellFormedAlts(alts) && AltHasType(alts, index, v)
    ensures FreshAlt(alts, index, v).Some? <==> AltSetsEmpty(alts, index, v)
    decreases alts, 0, 0
  {
    match alts
    case Last(ty) => SavesIffSetsEmpty(ty, v);
    case Or(ty, rest) =>
      if index == 0 {
        SavesIffSetsEmpty(ty, v);
      } else {
        SavesAlt(rest, index - 1, v);
      }
  }

  lemma {:induction false} SavesFields(fields: Fields, members: seq<Option<Value>>)
    requires WellFormedFields(fields) && FieldsHaveType(fields, members)
    ensures FieldEntries(fields, members).Some? <==> FieldSetsEmpty(fields, members)
    decreases fields, 0, 0
  {
    if fields.End? {
    } else {
      if members[0].Some? {
        SavesIffSetsEmpty(fields.ty, members[0].value);
      }
      SavesFields(fields.rest, members[1..]);
    }
  }

  /** The type has no std::set anywhere in it. */
  predicate NoSets(ty: Ty)
    decreases ty, 0
  {
    match ty
    case One(_) => true
    case ListOf(elem) => NoSets(elem)
    case SetOf(_) => false
    case MapOf(_, _, _, value) => NoSets(value)
    case Variant(alts) => NoSetsAlts(alts)
    case Group(_, fields) => NoSetsFields(fields)
  }

  predicate NoSetsAlts(alts: Alts)
    decreases alts, 0
  {
    NoSets(alts.ty) && (alts.Or? ==> NoSetsAlts(alts.rest))
  }

  predicate NoSetsFields(fields: Fields)
    decreases fields, 0
  {
    fields.Field? ==> NoSets(fields.ty) && NoSetsFields(fields.rest)
  }

  lemma {:induction false} NoSetsAreEmpty(ty: Ty, v: Value)
    requires NoSets(ty) && HasType(ty, v)
    ensures SetsEmpty(ty, v)
    decreases ty, 1
  {
    match ty
    case ListOf(elem) =>
      forall i | 0 <= i < |v.items|
        ensures SetsEmpty(elem, v.items[i])
      {
        NoSetsAreEmpty(elem, v.items[i]);
      }
    case MapOf(_, _, _, value) =>
      forall i | 0 <= i < |v.pairs|
        ensures SetsEmpty(value, v.pairs[i].value)
      {
        NoSetsAreEmpty(value, v.pairs[i].value);
      }
    case Variant(alts) => NoSetsAreEmptyAlt(alts, v.index, v.v);
    case Group(_, fields) => NoSetsAreEmptyFields(fields, v.members_);
    case _ =>
  }

  lemma {:induction false} NoSetsAreEmptyAlt(alts: Alts, index: nat, v: Value)
    requires NoSetsAlts(alts) && AltHasType(alts, index, v)
    ensures AltSetsEmpty(alts, index, v)
    decreases alts, 0
  {
    if index == 0 {
      NoSetsAreEmpty(alts.ty, v);
    } else {
      NoSetsAreEmptyAlt(alts.rest, index - 1, v);
    }
  }

  lemma {:induction false} NoSetsAreEmptyFields(fields: Fields, members: seq<Option<Value>>)
    requires NoSetsFields(fields) && FieldsHaveType(fields, members)
    ensures FieldSetsEmpty(fields, members)
    decreases fields, 0
  {
    if fields.End? {
    } else {
      if members[0].Some? {
        NoSetsAreEmpty(fields.ty, members[0].value);
      }
      NoSetsAreEmptyFields(fields.rest, members[1..]);
    }
  }

  // ---------------------------------------------------------------------------------------------
  // Saving over a tree that is already there
  // ---------------------------------------------------------------------------------------------

  predicate NoDuplicates(entries: seq<Entry>) {
    forall i, j :: 0 <= i < j < |entries| ==> entries[i].name != entries[j].name
  }

  /** Saving into an old entry leaves nothing of it behind. */
  predicate Overwrites(ty: Ty) {
    ty.One? || ty.ListOf? || ty.MapOf? || ty.SetOf?
  }

  predicate FlatFields(fields: Fields) {
    fields.Field? ==> Overwrites(fields.ty) && FlatFields(fields.rest)
  }

  /** Every empty member's name is free in the old group, or names something that does not load. */
  predicate NoLeftovers(fields: Fields, s: Setting, members: seq<Option<Value>>)
    requires FieldsHaveType(fields, members)
  {
    fields.Field? ==>
      && (members[0].None? ==>
            Lookup(s, fields.name).None? || Load(fields.ty, Lookup(s, fields.name).value).None?)
      && NoLeftovers(fields.rest, s, members[1..])
  }

  lemma {:induction false} WithoutIsPart(entries: seq<Entry>, name: string)
    ensures forall e :: e in Without(entries, name) ==> e in entries
    decreases |entries|
  {
    if entries == [] {
    } else {
      WithoutIsPart(entries[1..], name);
      assert entries == [entries[0]] + entries[1..];
    }
  }

  lemma HeadIsDistinct(entries: seq<Entry>)
    requires entries != [] && NoDuplicates(entries)
    ensures forall e :: e in entries[1..] ==> e.name != entries[0].name
    ensures NoDuplicates(entries[1..])
  {
    forall e | e in entries[1..]
      ensures e.name != entries[0].name
    {
      var k :| 0 <= k < |entries[1..]| && entries[1..][k] == e;
      assert entries[k + 1] == e;
    }
  }

  lemma DistinctCons(head: Entry, rest: seq<Entry>)
    requires NoDuplicates(rest) && forall e :: e in rest ==> e.name != head.name
    ensures NoDuplicates([head] + rest)
  {
    assert forall i :: 0 <= i < |rest| ==> rest[i] in rest && rest[i].name != head.name;
  }

  lemma {:induction false} FindWithout(entries: seq<Entry>, name: string, other: string)
    requires NoDuplicates(entries)
    ensures NoDuplicates(Without(entries, name))
    ensures Find(Without(entries, name), other) == if other == name then None else Find(entries, other)
  {
    if entries == [] {
    } else {
      HeadIsDistinct(entries);
      FindWithout(entries[1..], name, other);
      if entries[0].name == name {
        AbsentIfDistinct(entries[1..], name);
      } else {
        WithoutIsPart(entries[1..], name);
        var rest := Without(entries[1..], name);
        DistinctCons(entries[0], rest);
      }
    }
  }

  lemma {:induction false} AbsentIfDistinct(entries: seq<Entry>, name: string)
    requires forall i :: 0 <= i < |entries| ==> entries[i].name != name
    ensures Find(entries, name).None?
  {
    if entries == [] {
    } else {
      AbsentIfDistinct(entries[1..], name);
    }
  }

  lemma {:induction false} FindReplace(entries: seq<Entry>, name: string, value: Setting, other: string)
    ensures |Replace(entries, name, value)| == |entries|
    ensures forall i :: 0 <= i < |entries| ==> Replace(entries, name, value)[i].name == entries[i].name
    ensures Find(Replace(entries, name, value), other) ==
            if other == name && Find(entries, name).Some? then Some(value) else Find(entries, other)
  {
    if entries == [] {
    } else {
      FindReplace(entries[1..], name, value, other);
    }
  }

  lemma {:induction false} NoneFound(entries: seq<Entry>, name: string)
    requires Find(entries, name).None?
    ensures forall i :: 0 <= i < |entries| ==> entries[i].name != name
  {
    if entries == [] {
    } else {
      NoneFound(entries[1..], name);
    }
  }

  lemma {:induction false} KeptOverwrites(ty: Ty, s: Setting, v: Value, t: Setting)
    requires WellFormed(ty) && Overwrites(ty) && HasType(ty, v) && Kept(ty, s) && SetInto(ty, s, v) == Some(t)
    ensures Load(ty, t) == Some(v)
  {
    if t == SArray([]) && ty.MapOf? {
      assert Load(ty, t) == Some(VMap([]));
    } else if ty.SetOf? {
      assert Load(ty, t) == Some(VSet([]));
    } else {
      assert Fresh(ty, v) == Some(t);
      RoundTrip(ty, v, t);
    }
  }

  /** Saving one member changes its own entry only, and leaves there what loads back to it. */
  lemma {:induction false} SetNamedOverwrites(ty: Ty, entries: seq<Entry>, name: string, v: Value, other: string)
    requires WellFormed(ty) && Overwrites(ty) && HasType(ty, v) && NoDuplicates(entries)
    requires SetNamed(ty, entries, name, v).Some?
    ensures var entries' := SetNamed(ty, entries, name, v).value;
            && NoDuplicates(entries')
            && Find(entries', name).Some? && Load(ty, Find(entries', name).value) == Some(v)
            && (other != name ==> Find(entries', other) == Find(entries, other))
  {
    var found := Find(entries, name);
    if found.Some? && Kept(ty, found.value) {
      var s := SetInto(ty, found.value, v).value;
      FindReplace(entries, name, s, name);
      FindReplace(entries, name, s, other);
      KeptOverwrites(ty, found.value, v, s);
    } else {
      var s := Fresh(ty, v).value;
      FindWithout(entries, name, name);
      FindWithout(entries, name, other);
      FindAppend(Without(entries, name), Entry(name, s), name);
      FindAppend(Without(entries, name), Entry(name, s), other);
      NoneFound(Without(entries, name), name);
      RoundTrip(ty, v, s);
    }
  }

  function EntryNames(entries: seq<Entry>): seq<string> {
    if entries == [] then [] else [entries[0].name] + EntryNames(entries[1..])
  }

  lemma {:induction false} ReplacedInPlace(entries: seq<Entry>, name: string, value: Setting)
    ensures EntryNames(Replace(entries, name, value)) == EntryNames(entries)
    decreases |entries|
  {
    if entries == [] {
    } else if entries[0].name == name {
      assert ([Entry(name, value)] + entries[1..])[1..] == entries[1..];
    } else {
      ReplacedInPlace(entries[1..], name, value);
      var rest := Replace(entries[1..], name, value);
      assert ([entries[0]] + rest)[1..] == rest;
    }
  }

  /** The kinds of setting that a saved value takes the place of.  Sets and keyed lists take that of an
      array only, although they are added as lists: such an entry moves to the end each time. */
  function KeptKinds(ty: Ty): set<Kind> {
    match ty
    case One(Bool) => {KBool}
    case One(Narrow(_, _)) => {KInt}
    case One(Wide(_)) => {KInt64}
    case One(Real) => {KFloat}
    case One(Text) => {KString}
    case Group(_, _) => {KGroup}
    case ListOf(_) => {KList}
    case SetOf(_) => {KArray}
    case MapOf(_, _, _, _) => {KArray}
    case Variant(_) => {}
  }

  lemma KeptIs(ty: Ty, s: Setting)
    requires !ty.Variant?
    ensures Kept(ty, s) <==> KindOf(s) in KeptKinds(ty)
  {
  }

  /** Saving a member leaves all entries where they are if its own is of a kind it takes the place of;
      otherwise its entry ends up last. */
  lemma {:induction false} SavedInPlace(ty: Ty, entries: seq<Entry>, name: string, v: Value)
    requires HasType(ty, v) && !ty.Variant? && SetNamed(ty, entries, name, v).Some?
    ensures var saved, found := SetNamed(ty, entries, name, v).value, Find(entries, name);
            if found.Some? && KindOf(found.value) in KeptKinds(ty) then EntryNames(saved) == EntryNames(entries)
            else saved != [] && saved[|saved| - 1].name == name && saved[..|saved| - 1] == Without(entries, name)
  {
    var found := Find(entries, name);
    if found.Some? {
      KeptIs(ty, found.value);
    }
    if found.Some? && Kept(ty, found.value) {
      ReplacedInPlace(entries, name, SetInto(ty, found.value, v).value);
    }
  }

  /** Keys and signatures are saved as scalar members are. */
  lemma {:induction false} ScalarSavedAlike(k: Scalar, entries: seq<Entry>, name: string, v: Value)
    requires ScalarValue(k, v)
    ensures SetNamed(One(k), entries, name, v) == Some(SetScalarNamed(entries, name, k, v))
  {
    var found := Find(entries, name);
    assert KindOf(Blank(One(k), v)) == ScalarKind(k);
    assert Fresh(One(k), v) == Some(SaveScalar(k, v));
    if found.Some? && Kept(One(k), found.value) {
      assert SetInto(One(k), found.value, v) == Some(SaveScalar(k, v));
    }
  }

  lemma {:induction false} SetFieldsKeeps(
    fields: Fields, entries: seq<Entry>, members: seq<Option<Value>>, name: string)
    requires WellFormedFields(fields) && FlatFields(fields) && FieldsHaveType(fields, members)
    requires NoDuplicates(entries) && SetFields(fields, entries, members).Some? && name !in FieldNames(fields)
    ensures Find(SetFields(fields, entries, members).value, name) == Find(entries, name)
  {
    if fields.End? {
    } else {
      if members[0].None? {
        SetFieldsKeeps(fields.rest, entries, members[1..], name);
      } else {
        SetNamedOverwrites(fields.ty, entries, fields.name, members[0].value, name);
        var entries' := SetNamed(fields.ty, entries, fields.name, members[0].value).value;
        SetFieldsKeeps(fields.rest, entries', members[1..], name);
      }
    }
  }

  lemma {:induction false} LeftoversUnchanged(fields: Fields, a: Setting, b: Setting, members: seq<Option<Value>>)
    requires FieldsHaveType(fields, members)
    requires forall n :: n in FieldNames(fields) ==> Lookup(a, n) == Lookup(b, n)
    ensures NoLeftovers(fields, a, members) <==> NoLeftovers(fields, b, members)
  {
    if fields.End? {
    } else {
      LeftoversUnchanged(fields.rest, a, b, members[1..]);
    }
  }

  lemma {:induction false} OverwriteFields(
    fields: Fields, entries: seq<Entry>, members: seq<Option<Value>>, entries': seq<Entry>)
    requires WellFormedFields(fields) && FlatFields(fields) && FieldsHaveType(fields, members)
    requires NoDuplicates(entries) && SetFields(fields, entries, members) == Some(entries')
    ensures LoadFields(fields, SGroup(entries')) == Some(members) <==> NoLeftovers(fields, SGroup(entries), members)
  {
    if fields.End? {
    } else {
      var name, ty, rest := fields.name, fields.ty, fields.rest;
      assert members == [members[0]] + members[1..];
      if members[0].None? {
        SetFieldsKeeps(rest, entries, members[1..], name);
        OverwriteFields(rest, entries, members[1..], entries');
      } else {
        SetNamedOverwrites(ty, entries, name, members[0].value, name);
        var mid := SetNamed(ty, entries, name, members[0].value).value;
        SetFieldsKeeps(rest, mid, members[1..], name);
        OverwriteFields(rest, mid, members[1..], entries');
        forall n | n in FieldNames(rest)
          ensures Find(mid, n) == Find(entries, n)
        {
          SetNamedOverwrites(ty, entries, name, members[0].value, n);
        }
        LeftoversUnchanged(rest, SGroup(entries), SGroup(mid), members[1..]);
      }
    }
  }

  /** Saving a group whose members are scalars, lists or keyed lists over an arbitrary old group
      loads back the same value if and only if no empty optional member finds a loadable leftover
      under its name: saving an empty optional removes nothing. */
  lemma {:induction false} OverwriteRoundTrip(fields: Fields, entries: seq<Entry>, v: Value, s: Setting)
    requires WellFormed(Group(None, fields)) && FlatFields(fields) && HasType(Group(None, fields), v)
    requires NoDuplicates(entries) && SetInto(Group(None, fields), SGroup(entries), v) == Some(s)
    ensures Load(Group(None, fields), s) == Some(v) <==> NoLeftovers(fields, SGroup(entries), v.members_)
  {
    OverwriteFields(fields, entries, v.members_, s.entries);
  }

  /** What was loaded from a tree has no leftovers in it: an empty member was missing there or did not load. */
  lemma {:induction false} LoadedHasNoLeftovers(fields: Fields, s: Setting, members: seq<Option<Value>>)
    requires LoadFields(fields, s) == Some(members) && FieldsHaveType(fields, members)
    ensures NoLeftovers(fields, s, members)
    decreases fields
  {
    match fields
    case End =>
    case Field(_, _, _, rest) =>
      var tail := LoadFields(rest, s).value;
      assert members == [members[0]] + tail && members[1..] == tail;
      LoadedHasNoLeftovers(rest, s, tail);
  }

  /** A concrete leftover: an optional integer that was 5 in the file and is now empty. */
  lemma LeftoverExample()
    ensures var fields := Field("threshold", true, One(Narrow(32, true)), End);
            var ty := Group(None, fields);
            var empty := VGroup([None]);
            && WellFormed(ty) && HasType(ty, empty)
            && SetInto(ty, SGroup([Entry("threshold", SInt(5))]), empty).Some?
            && Load(ty, SetInto(ty, SGroup([Entry("threshold", SInt(5))]), empty).value)
               == Some(VGroup([Some(VInt(5))]))
  {
    var fields := Field("threshold", true, One(Narrow(32, true)), End);
    var s := SGroup([Entry("threshold", SInt(5))]);
    CastInRange(5, 32, true);
    assert SetFields(fields, s.entries, [None]) == SetFields(End, s.entries, [None][1..]) == Some(s.entries);
    assert LoadFields(End, s) == Some([]);
    assert Lookup(s, "threshold") == Some(SInt(5));
    assert [Some(VInt(5))] + [] == [Some(VInt(5))];
    assert LoadFields(fields, s) == Some([Some(VInt(5))]);
    assert Load(Group(None, fields), s) == Some(VGroup([Some(VInt(5))]));
    assert SetInto(Group(None, fields), s, VGroup([None])) == Some(s);
  }
}
