/** The libconfig tree and the shapes of configuration values
    (src/logid/config/types.h, src/logid/config/group.h, src/logid/config/map.h). */
module Settings {
  import opened Common

  // ---------------------------------------------------------------------------------------------
  // Settings
  // ---------------------------------------------------------------------------------------------

  datatype Setting =
    | SBool(b: bool)
    | SInt(i: int)
    | SInt64(l: int)
    | SFloat(f: real)
    | SString(s: string)
    | SArray(scalars: seq<Setting>)
    | SList(items: seq<Setting>)
    | SGroup(entries: seq<Entry>)

  datatype Entry = Entry(name: string, value: Setting)

  datatype Kind = KBool | KInt | KInt64 | KFloat | KString | KArray | KList | KGroup

  function KindOf(s: Setting): Kind {
    match s
    case SBool(_) => KBool
    case SInt(_) => KInt
    case SInt64(_) => KInt64
    case SFloat(_) => KFloat
    case SString(_) => KString
    case SArray(_) => KArray
    case SList(_) => KList
    case SGroup(_) => KGroup
  }

  /** What `setting[i]` ranges over; a scalar has length zero. */
  function Children(s: Setting): (r: seq<Setting>)
    ensures forall i :: 0 <= i < |r| ==> r[i] < s
  {
    match s
    case SArray(scalars) => scalars
    case SList(items) => items
    case SGroup(entries) => seq(|entries|, i requires 0 <= i < |entries| => entries[i].value)
    case _ => []
  }

  function Find(entries: seq<Entry>, name: string): Option<Setting> {
    if entries == [] then None
    else if entries[0].name == name then Some(entries[0].value)
    else Find(entries[1..], name)
  }

  /** Setting::lookup: None where the library throws, because the setting is no group or has no
      such entry.  Setting::exists is this being Some. */
  function Lookup(s: Setting, name: string): Option<Setting> {
    if s.SGroup? then Find(s.entries, name) else None
  }

  function Without(entries: seq<Entry>, name: string): seq<Entry> {
    if entries == [] then []
    else if entries[0].name == name then entries[1..]
    else [entries[0]] + Without(entries[1..], name)
  }

  /** Changes the value of an entry in place. */
  function Replace(entries: seq<Entry>, name: string, value: Setting): seq<Entry> {
    if entries == [] then []
    else if entries[0].name == name then [Entry(name, value)] + entries[1..]
    else [entries[0]] + Replace(entries[1..], name, value)
  }

  lemma {:induction false} FindAppend(entries: seq<Entry>, e: Entry, name: string)
    ensures Find(entries + [e], name) ==
            if Find(entries, name).Some? then Find(entries, name)
            else if e.name == name then Some(e.value) else None
  {
    if entries == [] {
      assert entries + [e] == [e];
    } else {
      assert (entries + [e])[1..] == entries[1..] + [e];
      FindAppend(entries[1..], e, name);
    }
  }

  // ---------------------------------------------------------------------------------------------
  // Types and values
  // ---------------------------------------------------------------------------------------------

  /** Scalars: `Narrow` integers are kept as a 32-bit setting, `Wide` ones as a 64-bit setting. */
  datatype Scalar = Bool | Narrow(bits: nat, signed: bool) | Wide(signed: bool) | Real | Text

  /** The configurable types: `Fields` is the member list of group_io, `Alts` the parameter pack of
      a variant. */
  datatype Ty =
    | One(scalar: Scalar)
    | ListOf(elem: Ty)
    | SetOf(member: Scalar)
    | MapOf(keyName: string, key: Scalar, caseless: bool, value: Ty)
    | Variant(alts: Alts)
    | Group(signature: Option<Signature>, fields: Fields)

  datatype Alts = Last(ty: Ty) | Or(ty: Ty, rest: Alts)

  datatype Fields = End | Field(name: string, optional: bool, ty: Ty, rest: Fields)

  /** Name and declared value of the entry that identifies a signed group. */
  datatype Signature = Signature(field: string, text: string)

  datatype Value =
    | VBool(b: bool)
    | VInt(i: int)
    | VReal(r: real)
    | VText(s: string)
    | VList(items: seq<Value>)
    | VSet(members: seq<Value>)
    | VMap(pairs: seq<Pair>)
    | VAlt(index: nat, v: Value)
    | VGroup(members_: seq<Option<Value>>)

  datatype Pair = Pair(key: Value, value: Value)

  // ---------------------------------------------------------------------------------------------
  // Scalars
  // ---------------------------------------------------------------------------------------------

  function Modulus(bits: nat): (m: nat)
    ensures m > 0
  {
    if bits == 8 then 0x100 else if bits == 16 then 0x1_0000
    else if bits == 32 then 0x1_0000_0000 else 0x1_0000_0000_0000_0000
  }

  /** static_cast to an integer type of the given width. */
  function Cast(v: int, bits: nat, signed: bool): int {
    var m := Modulus(bits);
    var low := v % m;
    if signed && low >= m / 2 then low - m else low
  }

  predicate InRange(v: int, bits: nat, signed: bool) {
    var m := Modulus(bits);
    if signed then -(m / 2) <= v < m / 2 else 0 <= v < m
  }

  predicate ScalarValue(k: Scalar, v: Value) {
    match k
    case Bool => v.VBool?
    case Narrow(bits, signed) => v.VInt? && InRange(v.i, bits, signed)
    case Wide(signed) => v.VInt? && InRange(v.i, 64, signed)
    case Real => v.VReal?
    case Text => v.VText?
  }

  function ScalarKind(k: Scalar): Kind {
    match k
    case Bool => KBool
    case Narrow(_, _) => KInt
    case Wide(_) => KInt64
    case Real => KFloat
    case Text => KString
  }

  /** primitive_io and reinterpret_io: libconfig checks the type, logid casts the width. */
  function LoadScalar(k: Scalar, s: Setting): Option<Value> {
    if KindOf(s) != ScalarKind(k) then None
    else
      match k
      case Bool => Some(VBool(s.b))
      case Narrow(bits, signed) => Some(VInt(Cast(s.i, bits, signed)))
      case Wide(signed) => Some(VInt(Cast(s.l, 64, signed)))
      case Real => Some(VReal(s.f))
      case Text => Some(VText(s.s))
  }

  function SaveScalar(k: Scalar, v: Value): (s: Setting)
    requires ScalarValue(k, v)
    ensures KindOf(s) == ScalarKind(k)
  {
    match k
    case Bool => SBool(v.b)
    case Narrow(_, _) => SInt(Cast(v.i, 32, true))
    case Wide(_) => SInt64(Cast(v.i, 64, true))
    case Real => SFloat(v.r)
    case Text => SString(v.s)
  }

  predicate ScalarOk(k: Scalar) {
    k.Narrow? ==> k.bits == 8 || k.bits == 16 || k.bits == 32
  }

  lemma ModShift(v: int, m: int)
    requires m > 0 && -m <= v < m
    ensures v % m == if v < 0 then v + m else v
  {
    if v < 0 {
      assert v + m == (v + m) % m;
    }
  }

  lemma CastInRange(v: int, bits: nat, signed: bool)
    requires InRange(v, bits, signed)
    ensures Cast(v, bits, signed) == v
  {
    ModShift(v, Modulus(bits));
  }

  lemma CastLands(v: int, bits: nat, signed: bool)
    ensures InRange(Cast(v, bits, signed), bits, signed)
  {
    var m := Modulus(bits);
    assert 0 <= v % m < m;
  }

  lemma CastCongruent(v: int, bits: nat, signed: bool)
    ensures Cast(v, bits, signed) % Modulus(bits) == v % Modulus(bits)
  {
    var m := Modulus(bits);
    ModShift(v % m, m);
    ModShift(v % m - m, m);
  }

  /** An unsigned value of the setting's own width goes through the signed type and back. */
  lemma CastThroughSigned(v: int, bits: nat)
    requires InRange(v, bits, false)
    ensures Cast(Cast(v, bits, true), bits, false) == v
  {
    var m := Modulus(bits);
    ModShift(v, m);
    ModShift(Cast(v, bits, true), m);
  }

  /** Unsigned integers are stored through the signed type of the setting and come back unharmed. */
  lemma ScalarRoundTrip(k: Scalar, v: Value)
    requires ScalarOk(k) && ScalarValue(k, v)
    ensures LoadScalar(k, SaveScalar(k, v)) == Some(v)
  {
    match k
    case Narrow(bits, signed) =>
      if bits == 32 && !signed {
        CastThroughSigned(v.i, 32);
      } else {
        CastInRange(v.i, 32, true);
        CastInRange(v.i, bits, signed);
      }
    case Wide(signed) =>
      if signed {
        CastInRange(v.i, 64, true);
      } else {
        CastThroughSigned(v.i, 64);
      }
    case _ =>
  }

  // ---------------------------------------------------------------------------------------------
  // Text and key order
  // ---------------------------------------------------------------------------------------------

  /** ::tolower in the C locale. */
  function LowerChar(c: char): char {
    if 'A' <= c <= 'Z' then c - 'A' + 'a' else c
  }

  function Lower(s: string): (r: string)
    ensures |r| == |s|
    ensures forall i :: 0 <= i < |s| ==> r[i] == LowerChar(s[i])
  {
    seq(|s|, i requires 0 <= i < |s| => LowerChar(s[i]))
  }

  /** The upper and the lower form of one letter. */
  predicate CasePair(upper: char, lower: char) {
    'A' <= upper <= 'Z' && lower as int == upper as int + 32
  }

  predicate SameLetter(a: char, b: char) {
    a == b || CasePair(a, b) || CasePair(b, a)
  }

  /** The same text but for the case of its letters. */
  predicate SameLetters(a: string, b: string) {
    |a| == |b| && forall i :: 0 <= i < |a| ==> SameLetter(a[i], b[i])
  }

  /** Texts are equal in lower case exactly when they differ in the case of letters only. */
  lemma LowerIgnoresCase(a: string, b: string)
    ensures Lower(a) == Lower(b) <==> SameLetters(a, b)
  {
    assert forall c: char, d: char :: LowerChar(c) == LowerChar(d) <==> SameLetter(c, d);
    if Lower(a) == Lower(b) {
      forall i | 0 <= i < |a|
        ensures SameLetter(a[i], b[i])
      {
        assert Lower(a)[i] == Lower(b)[i];
      }
    }
  }

  lemma LowerIdempotent(s: string)
    ensures Lower(Lower(s)) == Lower(s)
  {
  }

  /** Lexicographic order, as std::less and, on lower-cased text, less_caseless have it. */
  predicate TextLess(a: string, b: string) {
    b != [] && (a == [] || a[0] < b[0] || (a[0] == b[0] && TextLess(a[1..], b[1..])))
  }

  lemma {:induction false} TextLessAsymmetric(a: string, b: string)
    requires TextLess(a, b)
    ensures !TextLess(b, a)
    decreases |a|
  {
    if a == [] || a[0] != b[0] {
    } else {
      TextLessAsymmetric(a[1..], b[1..]);
    }
  }

  predicate Less(caseless: bool, a: Value, b: Value) {
    match (a, b)
    case (VInt(i), VInt(j)) => i < j
    case (VReal(x), VReal(y)) => x < y
    case (VBool(b), VBool(c)) => !b && c
    case (VText(s), VText(t)) => if caseless then TextLess(Lower(s), Lower(t)) else TextLess(s, t)
    case _ => false
  }

  lemma LessAsymmetric(caseless: bool, a: Value, b: Value)
    requires Less(caseless, a, b)
    ensures !Less(caseless, b, a)
  {
    if a.VText? {
      if caseless {
        TextLessAsymmetric(Lower(a.s), Lower(b.s));
      } else {
        TextLessAsymmetric(a.s, b.s);
      }
    }
  }

  /** Keys of a std::map or std::set in iteration order. */
  predicate Ascending(caseless: bool, keys: seq<Value>) {
    forall i, j :: 0 <= i < j < |keys| ==> Less(caseless, keys[i], keys[j])
  }

  function Keys(pairs: seq<Pair>): (r: seq<Value>)
    ensures |r| == |pairs|
    ensures forall i :: 0 <= i < |pairs| ==> r[i] == pairs[i].key
  {
    seq(|pairs|, i requires 0 <= i < |pairs| => pairs[i].key)
  }

  /** std::map::emplace: keeps what is there when an equivalent key exists. */
  function Emplace(caseless: bool, pairs: seq<Pair>, p: Pair): seq<Pair> {
    if pairs == [] then [p]
    else if Less(caseless, p.key, pairs[0].key) then [p] + pairs
    else if Less(caseless, pairs[0].key, p.key) then [pairs[0]] + Emplace(caseless, pairs[1..], p)
    else pairs
  }

  lemma {:induction false} EmplaceAtEnd(caseless: bool, pairs: seq<Pair>, p: Pair)
    requires Ascending(caseless, Keys(pairs + [p]))
    ensures Emplace(caseless, pairs, p) == pairs + [p]
  {
    if pairs == [] {
      assert pairs + [p] == [p];
    } else {
      var keys := Keys(pairs + [p]);
      assert keys[0] == pairs[0].key && keys[|pairs|] == p.key;
      LessAsymmetric(caseless, pairs[0].key, p.key);
      assert Keys(pairs[1..] + [p]) == keys[1..];
      EmplaceAtEnd(caseless, pairs[1..], p);
      assert pairs + [p] == [pairs[0]] + (pairs[1..] + [p]);
    }
  }

  // ---------------------------------------------------------------------------------------------
  // What emplacing keeps
  // ---------------------------------------------------------------------------------------------

  lemma {:induction false} TextLessTransitive(a: string, b: string, c: string)
    requires TextLess(a, b) && TextLess(b, c)
    ensures TextLess(a, c)
    decreases |a|
  {
    if a == [] {
    } else if a[0] == b[0] && b[0] == c[0] {
      TextLessTransitive(a[1..], b[1..], c[1..]);
    }
  }

  lemma {:induction false} TextLessTotal(a: string, b: string)
    requires !TextLess(a, b) && !TextLess(b, a)
    ensures a == b
    decreases |a|
  {
    if a == [] || b == [] {
    } else {
      TextLessTotal(a[1..], b[1..]);
      assert a == [a[0]] + a[1..] && b == [b[0]] + b[1..];
    }
  }

  lemma LessTransitive(caseless: bool, a: Value, b: Value, c: Value)
    requires Less(caseless, a, b) && Less(caseless, b, c)
    ensures Less(caseless, a, c)
  {
    if a.VText? {
      if caseless {
        TextLessTransitive(Lower(a.s), Lower(b.s), Lower(c.s));
      } else {
        TextLessTransitive(a.s, b.s, c.s);
      }
    }
  }

  /** Keys that a std::map takes for the same. */
  predicate Equivalent(caseless: bool, a: Value, b: Value) {
    !Less(caseless, a, b) && !Less(caseless, b, a)
  }

  /** Two keys are the same to a map exactly when they are equal, but for the case of letters if it is caseless. */
  lemma EquivalentIs(k: Scalar, caseless: bool, a: Value, b: Value)
    requires ScalarValue(k, a) && ScalarValue(k, b)
    ensures Equivalent(caseless, a, b) <==>
            if caseless && k == Text then SameLetters(a.s, b.s) else a == b
  {
    if k == Text {
      var s, t := if caseless then Lower(a.s) else a.s, if caseless then Lower(b.s) else b.s;
      if !TextLess(s, t) && !TextLess(t, s) {
        TextLessTotal(s, t);
      } else if TextLess(s, t) {
        TextLessAsymmetric(s, t);
      } else {
        TextLessAsymmetric(t, s);
      }
      LowerIgnoresCase(a.s, b.s);
    }
  }

  lemma EquivalentTransitive(k: Scalar, caseless: bool, a: Value, b: Value, c: Value)
    requires ScalarValue(k, a) && ScalarValue(k, b) && ScalarValue(k, c)
    requires Equivalent(caseless, a, b) && Equivalent(caseless, b, c)
    ensures Equivalent(caseless, a, c)
  {
    EquivalentIs(k, caseless, a, b);
    EquivalentIs(k, caseless, b, c);
    EquivalentIs(k, caseless, a, c);
    if caseless && k == Text {
      LowerIgnoresCase(a.s, b.s);
      LowerIgnoresCase(b.s, c.s);
      LowerIgnoresCase(a.s, c.s);
    }
  }

  lemma AscendingTail(caseless: bool, pairs: seq<Pair>)
    requires pairs != [] && Ascending(caseless, Keys(pairs))
    ensures Ascending(caseless, Keys(pairs[1..]))
    ensures forall q :: q in pairs[1..] ==> Less(caseless, pairs[0].key, q.key)
  {
    var keys := Keys(pairs);
    assert Keys(pairs[1..]) == keys[1..];
    forall q | q in pairs[1..]
      ensures Less(caseless, pairs[0].key, q.key)
    {
      var i :| 0 <= i < |pairs[1..]| && pairs[1..][i] == q;
      assert keys[i + 1] == q.key && keys[0] == pairs[0].key;
    }
  }

  lemma AscendingCons(caseless: bool, p: Pair, pairs: seq<Pair>)
    requires Ascending(caseless, Keys(pairs)) && forall q :: q in pairs ==> Less(caseless, p.key, q.key)
    ensures Ascending(caseless, Keys([p] + pairs))
  {
    var all := [p] + pairs;
    var keys, rest := Keys(all), Keys(pairs);
    forall i, j | 0 <= i < j < |keys|
      ensures Less(caseless, keys[i], keys[j])
    {
      assert all[j] == pairs[j - 1] && pairs[j - 1] in pairs;
      if i > 0 {
        assert keys[i] == rest[i - 1] && keys[j] == rest[j - 1];
      }
    }
  }

  /** A key below the first is below all, so no key is equivalent to it. */
  lemma BelowFirst(caseless: bool, pairs: seq<Pair>, p: Pair)
    requires pairs != [] && Ascending(caseless, Keys(pairs)) && Less(caseless, p.key, pairs[0].key)
    ensures forall q :: q in pairs ==> Less(caseless, p.key, q.key)
  {
    AscendingTail(caseless, pairs);
    forall q | q in pairs
      ensures Less(caseless, p.key, q.key)
    {
      if q != pairs[0] {
        assert pairs == [pairs[0]] + pairs[1..] && q in pairs[1..];
        LessTransitive(caseless, p.key, pairs[0].key, q.key);
      }
    }
  }

  /** Emplacing keeps the order and every pair there, and adds the new one unless its key is taken. */
  lemma {:induction false} EmplaceKeeps(caseless: bool, pairs: seq<Pair>, p: Pair)
    requires Ascending(caseless, Keys(pairs))
    ensures Ascending(caseless, Keys(Emplace(caseless, pairs, p)))
    ensures forall q :: q in Emplace(caseless, pairs, p) <==>
              q in pairs || (q == p && forall r :: r in pairs ==> !Equivalent(caseless, p.key, r.key))
    decreases |pairs|
  {
    if pairs == [] {
    } else {
      var first, rest := pairs[0], pairs[1..];
      assert pairs == [first] + rest;
      AscendingTail(caseless, pairs);
      if Less(caseless, p.key, first.key) {
        BelowFirst(caseless, pairs, p);
        AscendingCons(caseless, p, pairs);
      } else if Less(caseless, first.key, p.key) {
        EmplaceKeeps(caseless, rest, p);
        AscendingCons(caseless, first, Emplace(caseless, rest, p));
      } else {
        assert first in pairs && Equivalent(caseless, p.key, first.key);
      }
    }
  }

  /** Emplacing, one after the other, whatever is there. */
  function EmplaceAll(caseless: bool, loaded: seq<Option<Pair>>): seq<Pair> {
    if loaded == [] then []
    else
      var front, last := EmplaceAll(caseless, loaded[..|loaded| - 1]), loaded[|loaded| - 1];
      if last.Some? then Emplace(caseless, front, last.value) else front
  }

  /** Number i is this pair and no earlier one has an equivalent key. */
  predicate FirstOfKey(caseless: bool, loaded: seq<Option<Pair>>, i: int, p: Pair) {
    && 0 <= i < |loaded|
    && loaded[i] == Some(p)
    && forall j :: 0 <= j < i && loaded[j].Some? ==> !Equivalent(caseless, p.key, loaded[j].value.key)
  }

  predicate KeysTyped(k: Scalar, loaded: seq<Option<Pair>>) {
    forall i :: 0 <= i < |loaded| && loaded[i].Some? ==> ScalarValue(k, loaded[i].value.key)
  }

  lemma EquivalentToItself(caseless: bool, a: Value)
    ensures Equivalent(caseless, a, a)
  {
    if Less(caseless, a, a) {
      LessAsymmetric(caseless, a, a);
    }
  }

  /** A key is equivalent to that of the first pair of its kind. */
  lemma {:induction false} FirstOfKeyExists(k: Scalar, caseless: bool, loaded: seq<Option<Pair>>, i: nat)
      returns (f: nat)
    requires KeysTyped(k, loaded) && i < |loaded| && loaded[i].Some?
    ensures f <= i && loaded[f].Some? && FirstOfKey(caseless, loaded, f, loaded[f].value)
    ensures Equivalent(caseless, loaded[f].value.key, loaded[i].value.key)
    decreases i
  {
    if FirstOfKey(caseless, loaded, i, loaded[i].value) {
      EquivalentToItself(caseless, loaded[i].value.key);
      f := i;
    } else {
      var j: nat :| j < i && loaded[j].Some? && Equivalent(caseless, loaded[i].value.key, loaded[j].value.key);
      f := FirstOfKeyExists(k, caseless, loaded, j);
      EquivalentTransitive(k, caseless, loaded[f].value.key, loaded[j].value.key, loaded[i].value.key);
    }
  }

  ghost predicate HoldsFirsts(caseless: bool, loaded: seq<Option<Pair>>, pairs: seq<Pair>) {
    forall p :: p in pairs <==> exists i :: FirstOfKey(caseless, loaded, i, p)
  }

  /** The last pair is the first of its key exactly when none of the first ones before it is equivalent. */
  lemma LastIsFirst(k: Scalar, caseless: bool, loaded: seq<Option<Pair>>, pairs: seq<Pair>, p: Pair)
    requires KeysTyped(k, loaded + [Some(p)]) && HoldsFirsts(caseless, loaded, pairs)
    ensures FirstOfKey(caseless, loaded + [Some(p)], |loaded|, p) <==>
            forall r :: r in pairs ==> !Equivalent(caseless, p.key, r.key)
  {
    var all := loaded + [Some(p)];
    assert all[|loaded|] == Some(p) && forall j :: 0 <= j < |loaded| ==> all[j] == loaded[j];
    if r :| r in pairs && Equivalent(caseless, p.key, r.key) {
      var i :| FirstOfKey(caseless, loaded, i, r);
      assert all[i] == Some(r);
    } else {
      forall j | 0 <= j < |loaded| && loaded[j].Some?
        ensures !Equivalent(caseless, p.key, loaded[j].value.key)
      {
        var f := FirstOfKeyExists(k, caseless, loaded, j);
        var r := loaded[f].value;
        assert r in pairs;
        if Equivalent(caseless, p.key, loaded[j].value.key) {
          EquivalentTransitive(k, caseless, p.key, loaded[j].value.key, r.key);
        }
      }
    }
  }

  lemma FirstsOfFront(caseless: bool, loaded: seq<Option<Pair>>, last: Option<Pair>, i: int, p: Pair)
    ensures FirstOfKey(caseless, loaded + [last], i, p) <==>
            FirstOfKey(caseless, loaded, i, p) ||
            (i == |loaded| && last == Some(p) && FirstOfKey(caseless, loaded + [last], |loaded|, p))
  {
    assert forall j :: 0 <= j < |loaded| ==> (loaded + [last])[j] == loaded[j];
  }

  /** The result is in ascending order of keys and holds exactly the first pair of each key. */
  lemma {:induction false} EmplacedAreFirsts(k: Scalar, caseless: bool, loaded: seq<Option<Pair>>)
    requires KeysTyped(k, loaded)
    ensures Ascending(caseless, Keys(EmplaceAll(caseless, loaded)))
    ensures HoldsFirsts(caseless, loaded, EmplaceAll(caseless, loaded))
    decreases |loaded|
  {
    if loaded == [] {
    } else {
      var front, last := loaded[..|loaded| - 1], loaded[|loaded| - 1];
      assert loaded == front + [last];
      EmplacedAreFirsts(k, caseless, front);
      var pairs := EmplaceAll(caseless, front);
      if last.Some? {
        EmplaceKeeps(caseless, pairs, last.value);
        LastIsFirst(k, caseless, front, pairs, last.value);
      }
      forall p: Pair
        ensures p in EmplaceAll(caseless, loaded) <==> exists i :: FirstOfKey(caseless, loaded, i, p)
      {
        forall i: int
          ensures FirstOfKey(caseless, loaded, i, p) <==>
                  FirstOfKey(caseless, front, i, p) ||
                  (i == |front| && last == Some(p) && FirstOfKey(caseless, loaded, |front|, p))
        {
          FirstsOfFront(caseless, front, last, i, p);
        }
      }
    }
  }
}
