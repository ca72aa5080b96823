/**
 * Decoded JSON as PHP sees it after `json_decode($text, true)`: objects and
 * lists both become PHP arrays, read with `$v[key]`, `isset` and `empty`.
 */
module JsonValue {
  import opened Wrappers
  import PhpString

  /**
   * A JSON value. Numbers are kept as exact decimals `mantissa * 10^exponent`
   * (0.7 is JNum(7, -1)); object members keep their textual order.
   */
  datatype Json =
    | JNull
    | JBool(b: bool)
    | JNum(mantissa: int, exponent: int)
    | JStr(s: string)
    | JArr(items: seq<Json>)
    | JObj(members: seq<(string, Json)>)

  /** A PHP array offset: a member name or a list position. */
  datatype Key = Name(name: string) | Index(i: nat)

  /** The decimal numeral of `n`, as PHP writes an integer array key. */
  function Decimal(n: nat): (d: string)
    ensures |d| >= 1
    ensures forall i :: 0 <= i < |d| ==> '0' <= d[i] <= '9'
  {
    var digit := ['0' + (n % 10) as char];
    if n < 10 then digit else Decimal(n / 10) + digit
  }

  /**
   * The value of the LAST member called `name`: `json_decode` lets a
   * repeated member overwrite the value, in the place of the first one.
   */
  function Member(members: seq<(string, Json)>, name: string): (r: Option<Json>) {
    if members == [] then None
    else if members[|members| - 1].0 == name then Some(members[|members| - 1].1)
    else Member(members[..|members| - 1], name)
  }

  /** A member not overwritten by a later one of the same name is the one found. */
  lemma {:induction false} MemberAt(members: seq<(string, Json)>, i: nat)
    requires i < |members|
    requires forall j :: i < j < |members| ==> members[j].0 != members[i].0
    ensures Member(members, members[i].0) == Some(members[i].1)
  {
    if i < |members| - 1 {
      MemberAt(members[..|members| - 1], i);
    }
  }

  /** A name no member carries is not found. */
  lemma {:induction false} MemberAbsent(members: seq<(string, Json)>, name: string)
    requires forall i :: 0 <= i < |members| ==> members[i].0 != name
    ensures Member(members, name).None?
  {
    if members != [] {
      MemberAbsent(members[..|members| - 1], name);
    }
  }

  /** Members after the last one called `name` do not change what `name` finds. */
  lemma {:induction false} MemberSkipsTail(a: seq<(string, Json)>, b: seq<(string, Json)>, name: string)
    requires forall i :: 0 <= i < |b| ==> b[i].0 != name
    ensures Member(a + b, name) == Member(a, name)
    decreases |b|
  {
    if b != [] {
      assert (a + b)[..|a + b| - 1] == a + b[..|b| - 1];
      MemberSkipsTail(a, b[..|b| - 1], name);
    } else {
      assert a + b == a;
    }
  }

  /**
   * `$v[$k]` when it is defined. A list answers positions only; an object
   * answers names, and a position `i` finds the member named by the numeral
   * of `i` (PHP stores such a member under the integer key). Scalars and
   * strings answer nothing: every path the gateway client reads ends in a
   * member name, and a member-name offset into a PHP string is never set.
   */
  function Lookup(v: Json, k: Key): Option<Json> {
    match (v, k)
    case (JArr(items), Index(i)) => if i < |items| then Some(items[i]) else None
    case (JObj(members), Name(n)) => Member(members, n)
    case (JObj(members), Index(i)) => Member(members, Decimal(i))
    case _ => None
  }

  /** `$v[k1]...[kn]` followed as far as it is defined. */
  function Follow(v: Json, path: seq<Key>): Option<Json>
    decreases |path|
  {
    if path == [] then Some(v)
    else match Lookup(v, path[0])
      case None => None
      case Some(w) => Follow(w, path[1..])
  }

  /**
   * PHP `isset($v[k1]...[kn])`: `Some(x)` exactly when every step is defined
   * and the value reached is not null; `x` is that value.
   */
  function Isset(v: Json, path: seq<Key>): (r: Option<Json>)
    ensures r.Some? <==> Follow(v, path).Some? && Follow(v, path).value != JNull
    ensures r.Some? ==> Follow(v, path) == r
  {
    match Follow(v, path)
    case Some(x) => if x == JNull then None else Some(x)
    case None => None
  }

  /** PHP `empty()` on a decoded value. */
  predicate IsEmptyValue(v: Json) {
    match v
    case JNull => true
    case JBool(b) => !b
    case JNum(m, _) => m == 0
    case JStr(s) => PhpString.IsEmpty(s)
    case JArr(items) => items == []
    case JObj(members) => members == []
  }

  /** PHP `is_array()`: a decoded list or object. */
  predicate IsArray(v: Json) {
    v.JArr? || v.JObj?
  }

  /** The member names of an object, in order, repeats included. */
  function Names(members: seq<(string, Json)>): (r: seq<string>)
    ensures |r| == |members| && forall i :: 0 <= i < |r| ==> r[i] == members[i].0
  {
    if members == [] then [] else [members[0].0] + Names(members[1..])
  }

  /** No name appears twice. */
  predicate Distinct(ns: seq<string>) {
    forall i, j :: 0 <= i < j < |ns| ==> ns[i] != ns[j]
  }

  /** The names of `ns` in order of first appearance, each once. */
  function FirstAppearances(ns: seq<string>): seq<string> {
    if ns == [] then []
    else
      var front := FirstAppearances(ns[..|ns| - 1]);
      if ns[|ns| - 1] in front then front else front + [ns[|ns| - 1]]
  }

  /** Every name appearing in `ns` appears in its first appearances, and nothing else does. */
  lemma {:induction false} FirstAppearancesSameNames(ns: seq<string>)
    ensures forall n :: n in FirstAppearances(ns) <==> n in ns
  {
    if ns != [] {
      FirstAppearancesSameNames(ns[..|ns| - 1]);
      assert ns == ns[..|ns| - 1] + [ns[|ns| - 1]];
    }
  }

  /** Appending a name adds it to the first appearances exactly when it is new. */
  lemma FirstAppearancesSnoc(ns: seq<string>, n: string)
    ensures FirstAppearances(ns + [n]) == if n in ns then FirstAppearances(ns) else FirstAppearances(ns) + [n]
  {
    assert (ns + [n])[..|ns|] == ns;
    FirstAppearancesSameNames(ns);
  }

  /** Each name occurs once among the first appearances. */
  lemma {:induction false} FirstAppearancesDistinct(ns: seq<string>)
    ensures Distinct(FirstAppearances(ns))
  {
    if ns != [] {
      FirstAppearancesDistinct(ns[..|ns| - 1]);
    }
  }

  /** A name some member carries is found. */
  lemma {:induction false} MemberPresent(members: seq<(string, Json)>, name: string)
    requires name in Names(members)
    ensures Member(members, name).Some?
  {
    var last := |members| - 1;
    if members[last].0 != name {
      var front := members[..last];
      var k :| 0 <= k < |members| && Names(members)[k] == name;
      assert k < last && Names(front)[k] == name;
      MemberPresent(front, name);
    }
  }

  /**
   * The values `foreach` visits, in order. A decoded object holds one entry
   * per member name: at the place the name first appears, with the value
   * its last occurrence gives.
   */
  function Values(v: Json): (r: seq<Json>)
    requires IsArray(v)
    ensures v.JArr? ==> r == v.items
    ensures v.JObj? ==>
              var ns := FirstAppearances(Names(v.members));
              |r| == |ns| && forall i :: 0 <= i < |ns| ==> Member(v.members, ns[i]) == Some(r[i])
  {
    if v.JArr? then v.items
    else
      FirstAppearancesSameNames(Names(v.members));
      EntryValues(v.members, FirstAppearances(Names(v.members)))
  }

  /** The values found under the names `ns`, in that order. */
  function EntryValues(members: seq<(string, Json)>, ns: seq<string>): (r: seq<Json>)
    requires forall i :: 0 <= i < |ns| ==> ns[i] in Names(members)
    ensures |r| == |ns| && forall i :: 0 <= i < |ns| ==> Member(members, ns[i]) == Some(r[i])
  {
    if ns == [] then []
    else
      MemberPresent(members, ns[0]);
      [Member(members, ns[0]).value] + EntryValues(members, ns[1..])
  }

  /** The result of `json_decode`: the decoder's value, or null when it rejects the text. */
  function PhpDecode(decode: string -> Option<Json>, text: string): (v: Json)
    ensures decode(text).None? ==> v == JNull
    ensures decode(text).Some? ==> v == decode(text).value
  {
    match decode(text)
    case Some(v) => v
    case None => JNull
  }
}
