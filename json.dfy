/**
 * The JSON values the parser utilities walk (what `json.load` yields), with the
 * Python operations on them that the utilities use: `in`, `d.get(k, default)`,
 * truthiness, `len`, iteration and `str`. Numbers are integers.
 */
module Json {
  import opened Wrappers
  import opened Strings

  datatype Json =
    | JNull
    | JBool(b: bool)
    | JNum(n: int)
    | JStr(s: string)
    | JArr(items: seq<Json>)
    | JObj(members: seq<Member>)

  /** One `key: value` pair of a JSON object, in file order. */
  datatype Member = Member(key: string, value: Json)

  /** `key in d` for a dict. */
  predicate HasKey(members: seq<Member>, key: string) {
    exists i :: 0 <= i < |members| && members[i].key == key
  }

  /** `d[key]`: the value of the first member named `key` (a loaded object has one). */
  function Lookup(members: seq<Member>, key: string): (r: Option<Json>)
    ensures r.Some? <==> HasKey(members, key)
    ensures r.Some? ==> exists i :: 0 <= i < |members| && members[i] == Member(key, r.value)
  {
    if |members| == 0 then None
    else if members[0].key == key then Some(members[0].value)
    else
      var r := Lookup(members[1..], key);
      if r.None? then None
      else
        var i :| 0 <= i < |members[1..]| && members[1..][i] == Member(key, r.value);
        assert members[i + 1] == Member(key, r.value);
        r
  }

  /** `d.get(key, default)` on a dict. */
  function GetOr(members: seq<Member>, key: string, default: Json): (r: Json)
    ensures !HasKey(members, key) ==> r == default
    ensures HasKey(members, key) ==> Some(r) == Lookup(members, key)
  {
    match Lookup(members, key)
    case Some(v) => v
    case None => default
  }

  /** `bool(v)`: None, False, 0 and empty containers are falsy. */
  predicate Truthy(v: Json) {
    match v
    case JNull => false
    case JBool(b) => b
    case JNum(n) => n != 0
    case JStr(s) => |s| > 0
    case JArr(items) => |items| > 0
    case JObj(members) => |members| > 0
  }

  /**
   * `part in v` for a string `part`: key membership for a dict, element
   * equality for a list, substring for a string; other values raise (None).
   */
  function In(v: Json, part: string): (r: Option<bool>)
    ensures r.None? <==> !(v.JObj? || v.JArr? || v.JStr?)
    ensures v.JObj? ==> r == Some(HasKey(v.members, part))
    ensures v.JArr? ==> r == Some(JStr(part) in v.items)
    ensures v.JStr? ==> r == Some(Contains(v.s, part))
  {
    match v
    case JObj(members) => Some(HasKey(members, part))
    case JArr(items) => Some(JStr(part) in items)
    case JStr(s) => Some(Contains(s, part))
    case _ => None
  }

  /** `for x in v`: a list's items, a dict's keys, a string's characters; other values raise. */
  function Iter(v: Json): (r: Option<seq<Json>>)
    ensures r.None? <==> !(v.JObj? || v.JArr? || v.JStr?)
    ensures v.JArr? ==> r == Some(v.items)
    ensures v.JObj? ==> (r.Some? && |r.value| == |v.members| &&
      forall i :: 0 <= i < |v.members| ==> r.value[i] == JStr(v.members[i].key))
    ensures v.JStr? ==> (r.Some? && |r.value| == |v.s| &&
      forall i :: 0 <= i < |v.s| ==> r.value[i] == JStr([v.s[i]]))
  {
    match v
    case JArr(items) => Some(items)
    case JObj(members) => Some(seq(|members|, i requires 0 <= i < |members| => JStr(members[i].key)))
    case JStr(s) => Some(seq(|s|, i requires 0 <= i < |s| => JStr([s[i]])))
    case _ => None
  }

  /** `len(v)`; values without a length raise. */
  function Len(v: Json): (r: Option<nat>)
    ensures r.None? <==> !(v.JObj? || v.JArr? || v.JStr?)
    ensures v.JArr? ==> r == Some(|v.items|)
    ensures v.JObj? ==> r == Some(|v.members|)
    ensures v.JStr? ==> r == Some(|v.s|)
  {
    match v
    case JArr(items) => Some(|items|)
    case JObj(members) => Some(|members|)
    case JStr(s) => Some(|s|)
    case _ => None
  }

  /** `str(v)`: a string is itself, everything else its `repr`. */
  function Str(v: Json): (r: string)
    ensures v.JStr? ==> r == v.s
    ensures v.JNum? ==> r == IntToString(v.n)
  {
    if v.JStr? then v.s else Repr(v)
  }

  /** `repr(v)` as Python prints a loaded JSON value (quote escaping aside). */
  function Repr(v: Json): string
    decreases v, 1
  {
    match v
    case JNull => "None"
    case JBool(b) => if b then "True" else "False"
    case JNum(n) => IntToString(n)
    case JStr(s) => "'" + s + "'"
    case JArr(items) => "[" + ReprItems(v, items) + "]"
    case JObj(members) => "{" + ReprMembers(v, members) + "}"
  }

  function ReprItems(whole: Json, items: seq<Json>): string
    requires forall x :: x in items ==> x < whole
    decreases whole, 0, |items|
  {
    if |items| == 0 then ""
    else
      assert items[0] in items;
      if |items| == 1 then Repr(items[0])
      else
        assert forall x :: x in items[1..] ==> x in items;
        Repr(items[0]) + ", " + ReprItems(whole, items[1..])
  }

  function ReprMembers(whole: Json, members: seq<Member>): string
    requires forall m :: m in members ==> m.value < whole
    decreases whole, 0, |members|
  {
    if |members| == 0 then ""
    else
      var m := members[0];
      assert m in members;
      assert forall x :: x in members[1..] ==> x in members;
      var one := "'" + m.key + "': " + Repr(m.value);
      if |members| == 1 then one else one + ", " + ReprMembers(whole, members[1..])
  }
}
