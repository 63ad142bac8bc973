/**
 * The per-profile logic of services/parser/parser_utils.py: the file-name
 * sanitisation of `parse_profile` and the field-frequency counting of
 * `extract_field_statistics` over a loaded batch of profiles. The
 * directory-wide functions are in ParserIndex.
 */
module ParserUtils {
  import opened Wrappers
  import opened Strings
  import opened Json

  // ---------------------------------------------------------------- safe names

  /** The characters `parse_profile` keeps in a file name. */
  predicate SafeChar(c: char) {
    IsAsciiAlnum(c) || c == ' ' || c == '_' || c == '-'
  }

  /** The comprehension of `parse_profile`: every unsafe character becomes '_'. */
  function Sanitize(name: string): (r: string)
    ensures |r| == |name|
    ensures forall i :: 0 <= i < |r| ==> SafeChar(r[i])
    ensures forall i :: 0 <= i < |r| ==> SafeChar(name[i]) ==> r[i] == name[i]
    ensures forall i :: 0 <= i < |r| ==> !SafeChar(name[i]) ==> r[i] == '_'
  {
    seq(|name|, i requires 0 <= i < |name| => if SafeChar(name[i]) then name[i] else '_')
  }

  /** The safe name: the sanitised name, stripped; it keeps only safe characters and has no space at either end. */
  function SafeName(name: string): (r: string)
    ensures |r| <= |name|
    ensures forall i :: 0 <= i < |r| ==> SafeChar(r[i])
    ensures r == [] || (r[0] != ' ' && r[|r| - 1] != ' ')
  {
    var s := Sanitize(name);
    assert forall c :: c in s ==> SafeChar(c);
    var r := Strip(s);
    StripKeeps(s);
    assert forall c :: c in r ==> SafeChar(c);
    r
  }

  /** The file `parse_profile` writes the parsed data of a profile named `name` to. */
  function ParsedFileName(name: string): (r: string)
    ensures EndsWith(r, PARSED_SUFFIX)
  {
    var r := SafeName(name) + PARSED_SUFFIX;
    assert r[|r| - |PARSED_SUFFIX|..] == PARSED_SUFFIX;
    r
  }

  const PARSED_SUFFIX: string := "_parsed_data.json"

  // ---------------------------------------------------------------- field statistics

  /** A dictionary key of the statistics: the hashable JSON values. */
  datatype Key = KNone | KBool(b: bool) | KInt(n: int) | KStr(s: string)

  /** Where a dotted field path leads from a profile. */
  datatype Walked = Resolved(value: Json) | Missing | Raised

  /**
   * The path walk of `extract_field_statistics`: each part is tested with
   * Python `in` and then used as an index. A list or string that "contains"
   * the part raises when indexed by it; a scalar raises on `in`.
   */
  function Walk(current: Json, parts: seq<string>): (r: Walked)
    ensures |parts| == 0 ==> r == Resolved(current)
    ensures |parts| > 0 && In(current, parts[0]) == Some(false) ==> r == Missing
    ensures |parts| > 0 && (current.JNull? || current.JBool? || current.JNum?) ==> r == Raised
    ensures |parts| > 0 && (current.JArr? || current.JStr?) && In(current, parts[0]) == Some(true) ==> r == Raised
    decreases |parts|
  {
    if |parts| == 0 then Resolved(current)
    else match In(current, parts[0])
      case None => Raised
      case Some(false) => Missing
      case Some(true) =>
        if current.JObj? then Walk(Lookup(current.members, parts[0]).value, parts[1..])
        else Raised
  }

  /** Walking down a dict takes the first part's value and walks the rest. */
  lemma WalkDict(members: seq<Member>, parts: seq<string>)
    requires |parts| > 0 && HasKey(members, parts[0])
    ensures Walk(JObj(members), parts) == Walk(Lookup(members, parts[0]).value, parts[1..])
  {
  }

  /** A resolved walk of a non-empty path started from a dict. */
  lemma WalkResolvedFromDict(current: Json, parts: seq<string>)
    requires |parts| > 0 && Walk(current, parts).Resolved?
    ensures current.JObj? && HasKey(current.members, parts[0])
  {
  }

  /** Keys gathered from two steps in turn; None when either raises. */
  function Concat(a: Option<seq<Key>>, b: Option<seq<Key>>): (r: Option<seq<Key>>)
    ensures r.Some? <==> a.Some? && b.Some?
    ensures r.Some? ==> r.value == a.value + b.value
  {
    if a.Some? && b.Some? then Some(a.value + b.value) else None
  }

  /** A truthy value used as a dict key: lists and dicts are unhashable. */
  function HashKey(v: Json): (r: Option<Key>)
    ensures r.None? <==> v.JArr? || v.JObj?
    ensures v.JStr? ==> r == Some(KStr(v.s))
    ensures v.JNum? ==> r == Some(KInt(v.n))
  {
    match v
    case JNull => Some(KNone)
    case JBool(b) => Some(KBool(b))
    case JNum(n) => Some(KInt(n))
    case JStr(s) => Some(KStr(s))
    case _ => None
  }

  /** The key one list item contributes: `item.get(last, "")`, when truthy. */
  function ItemKey(item: Json, last: string): (r: Option<seq<Key>>)
    ensures !item.JObj? ==> r.None?
    ensures r.Some? ==> |r.value| <= 1
  {
    if !item.JObj? then None
    else
      var value := GetOr(item.members, last, JStr(""));
      if !Truthy(value) then Some([])
      else match HashKey(value)
        case None => None
        case Some(k) => Some([k])
  }

  /** The keys the items of a resolved list contribute, in order; None when one raises. */
  function ItemKeys(items: seq<Json>, last: string): Option<seq<Key>> {
    Flatten(seq(|items|, i requires 0 <= i < |items| => ItemKey(items[i], last)))
  }

  /** Keys gathered from a series of steps in turn; None when one of them raises. */
  function Flatten(cs: seq<Option<seq<Key>>>): Option<seq<Key>> {
    if |cs| == 0 then Some([]) else Concat(Flatten(cs[..|cs| - 1]), cs[|cs| - 1])
  }

  lemma {:induction false} FlattenAppend(a: seq<Option<seq<Key>>>, b: seq<Option<seq<Key>>>)
    ensures Flatten(a + b) == Concat(Flatten(a), Flatten(b))
    decreases |b|
  {
    if |b| == 0 {
      assert a + b == a;
      assert Flatten(a).Some? ==> Flatten(a).value + [] == Flatten(a).value;
    } else {
      var b' := b[..|b| - 1];
      FlattenAppend(a, b');
      assert (a + b)[..|a + b| - 1] == a + b';
      var x, y, z := Flatten(a), Flatten(b'), b[|b| - 1];
      if x.Some? && y.Some? && z.Some? {
        assert x.value + y.value + z.value == x.value + (y.value + z.value);
      }
    }
  }

  /** A step that raises makes the whole series raise. */
  lemma {:induction false} FlattenRaises(cs: seq<Option<seq<Key>>>, n: nat)
    requires n <= |cs| && Flatten(cs[..n]).None?
    ensures Flatten(cs).None?
  {
    FlattenAppend(cs[..n], cs[n..]);
    assert cs == cs[..n] + cs[n..];
  }

  /** One more step extends the series. */
  lemma FlattenSnoc(cs: seq<Option<seq<Key>>>, i: nat)
    requires i < |cs|
    ensures Flatten(cs[..i + 1]) == Concat(Flatten(cs[..i]), cs[i])
  {
    assert cs[..i + 1][..i] == cs[..i];
  }

  /**
   * What one profile contributes to the statistics of `parts` (None when it
   * raises): nothing when a part is missing; for a resolved list, the items'
   * values, but only when the path has two parts or more and the
   * second-to-last part is a key of the profile itself; for any other
   * resolved value, its `str` when truthy.
   */
  function ContributionOf(profile: Json, parts: seq<string>): (r: Option<seq<Key>>)
    ensures Walk(profile, parts).Missing? ==> r == Some([])
    ensures Walk(profile, parts).Raised? ==> r.None?
    ensures r.Some? && !(Walk(profile, parts).Resolved? && Walk(profile, parts).value.JArr?) ==> |r.value| <= 1
    ensures var w := Walk(profile, parts); w.Resolved? && !w.value.JArr? ==>
      r == if Truthy(w.value) then Some([KStr(Str(w.value))]) else Some([])
    ensures var w := Walk(profile, parts); w.Resolved? && w.value.JArr? && |parts| <= 1 ==> r == Some([])
    ensures var w := Walk(profile, parts); w.Resolved? && w.value.JArr? && |parts| > 1 ==>
      match In(profile, parts[|parts| - 2])
      case None => r.None?
      case Some(false) => r == Some([])
      case Some(true) => r == ItemKeys(w.value.items, parts[|parts| - 1])
  {
    match Walk(profile, parts)
    case Raised => None
    case Missing => Some([])
    case Resolved(v) =>
      if v.JArr? then
        if |parts| > 1 then
          match In(profile, parts[|parts| - 2])
          case None => None
          case Some(false) => Some([])
          case Some(true) => ItemKeys(v.items, parts[|parts| - 1])
        else Some([])
      else if Truthy(v) then Some([KStr(Str(v))])
      else Some([])
  }

  /** All keys the profiles contribute, in order; None when some profile raises. */
  function AllKeys(profiles: seq<Json>, parts: seq<string>): Option<seq<Key>> {
    Flatten(Contributions(profiles, parts))
  }

  function Contributions(profiles: seq<Json>, parts: seq<string>): (r: seq<Option<seq<Key>>>)
    ensures |r| == |profiles|
    ensures forall i :: 0 <= i < |profiles| ==> r[i] == ContributionOf(profiles[i], parts)
  {
    seq(|profiles|, i requires 0 <= i < |profiles| => ContributionOf(profiles[i], parts))
  }

  /** The contributions of a prefix form a prefix. */
  lemma ContributionsPrefix(profiles: seq<Json>, parts: seq<string>, n: nat)
    requires n <= |profiles|
    ensures Contributions(profiles[..n], parts) == Contributions(profiles, parts)[..n]
  {
  }

  // ---- counting

  /** A field's frequency dict, in insertion order. */
  type Counts = seq<(Key, nat)>

  /** The count of `k`; 0 when absent (`field_stats.get(k, 0)`). */
  function CountOf(c: Counts, k: Key): nat {
    if |c| == 0 then 0 else if c[0].0 == k then c[0].1 else CountOf(c[1..], k)
  }

  predicate HasCount(c: Counts, k: Key) {
    exists i :: 0 <= i < |c| && c[i].0 == k
  }

  /** Keys are distinct and every count is at least 1. */
  predicate WellFormed(c: Counts) {
    && (forall i, j :: 0 <= i < j < |c| ==> c[i].0 != c[j].0)
    && (forall i :: 0 <= i < |c| ==> c[i].1 >= 1)
  }

  /** The sum of the counts. */
  function Total(c: Counts): nat {
    if |c| == 0 then 0 else c[0].1 + Total(c[1..])
  }

  /** `field_stats[k] = field_stats.get(k, 0) + 1`: a present key is incremented in place, a new one appended. */
  function Bump(c: Counts, k: Key): (r: Counts)
    ensures HasCount(c, k) ==> |r| == |c|
    ensures !HasCount(c, k) ==> r == c + [(k, 1)]
    ensures forall i :: 0 <= i < |c| ==> r[i].0 == c[i].0
    ensures forall i :: 0 <= i < |c| && c[i].0 != k ==> r[i] == c[i]
  {
    if |c| == 0 then [(k, 1)]
    else if c[0].0 == k then [(k, c[0].1 + 1)] + c[1..]
    else
      var rest := Bump(c[1..], k);
      assert HasCount(c, k) <==> HasCount(c[1..], k) by {
        if HasCount(c, k) {
          var i :| 0 <= i < |c| && c[i].0 == k;
          assert c[1..][i - 1].0 == k;
        }
        if HasCount(c[1..], k) {
          var i :| 0 <= i < |c[1..]| && c[1..][i].0 == k;
          assert c[i + 1].0 == k;
        }
      }
      [c[0]] + rest
  }

  /** The counts after bumping each key in order. */
  function BumpAll(c: Counts, ks: seq<Key>): Counts {
    if |ks| == 0 then c else Bump(BumpAll(c, ks[..|ks| - 1]), ks[|ks| - 1])
  }

  /** Bumping adds one to `k`'s count and nothing to any other key's. */
  lemma {:induction false} BumpCounts(c: Counts, k: Key, j: Key)
    ensures CountOf(Bump(c, k), j) == CountOf(c, j) + (if j == k then 1 else 0)
  {
    if |c| > 0 && c[0].0 != k {
      BumpCounts(c[1..], k, j);
    }
  }

  /** Bumping adds one to the total. */
  lemma {:induction false} BumpTotal(c: Counts, k: Key)
    ensures Total(Bump(c, k)) == Total(c) + 1
  {
    if |c| > 0 && c[0].0 != k {
      BumpTotal(c[1..], k);
    }
  }

  /** Bumping keeps keys distinct and counts positive. */
  lemma {:induction false} BumpWellFormed(c: Counts, k: Key)
    requires WellFormed(c)
    ensures WellFormed(Bump(c, k))
  {
    if |c| > 0 {
      assert c == [c[0]] + c[1..];
      ConsWellFormed(c[0], c[1..]);
      if c[0].0 == k {
        ConsWellFormed((k, c[0].1 + 1), c[1..]);
      } else {
        BumpWellFormed(c[1..], k);
        BumpKeys(c[1..], k);
        ConsWellFormed(c[0], Bump(c[1..], k));
      }
    }
  }

  /** Bumping adds `k` to the keys. */
  lemma {:induction false} BumpKeys(c: Counts, k: Key)
    ensures KeysOf(Bump(c, k)) == KeysOf(c) + {k}
  {
    if |c| == 0 {
      assert KeysOf([(k, 1)]) == {k} by { assert [(k, 1)][0].0 == k; }
    } else {
      assert c == [c[0]] + c[1..];
      KeysOfCons(c[0], c[1..]);
      if c[0].0 == k {
        KeysOfCons((k, c[0].1 + 1), c[1..]);
      } else {
        BumpKeys(c[1..], k);
        KeysOfCons(c[0], Bump(c[1..], k));
      }
    }
  }

  /** Bumping a list of keys counts each key's occurrences; the total grows by the list's length. */
  lemma {:induction false} BumpAllSpec(c: Counts, ks: seq<Key>)
    requires WellFormed(c)
    ensures WellFormed(BumpAll(c, ks))
    ensures Total(BumpAll(c, ks)) == Total(c) + |ks|
    ensures forall j :: CountOf(BumpAll(c, ks), j) == CountOf(c, j) + multiset(ks)[j]
  {
    if |ks| > 0 {
      var init := ks[..|ks| - 1];
      var k := ks[|ks| - 1];
      BumpAllSpec(c, init);
      var b := BumpAll(c, init);
      BumpWellFormed(b, k);
      BumpTotal(b, k);
      assert ks == init + [k];
      forall j ensures CountOf(BumpAll(c, ks), j) == CountOf(c, j) + multiset(ks)[j] {
        BumpCounts(b, k, j);
      }
    }
  }

  /** Bumping more keys extends the bumping of fewer. */
  lemma {:induction false} BumpAllAppend(c: Counts, a: seq<Key>, b: seq<Key>)
    ensures BumpAll(c, a + b) == BumpAll(BumpAll(c, a), b)
    decreases |b|
  {
    if |b| == 0 {
      assert a + b == a;
    } else {
      var b' := b[..|b| - 1];
      BumpAllAppend(c, a, b');
      assert (a + b)[..|a + b| - 1] == a + b';
    }
  }

  /** In a well-formed dict, the count of an entry's key is that entry's count. */
  lemma {:induction false} CountOfAt(c: Counts, i: nat)
    requires WellFormed(c) && i < |c|
    ensures CountOf(c, c[i].0) == c[i].1
  {
    if i > 0 {
      assert c[1..][i - 1] == c[i];
      CountOfAt(c[1..], i - 1);
    }
  }

  /** A key with a positive count has an entry. */
  lemma {:induction false} CountedHasEntry(c: Counts, k: Key)
    requires CountOf(c, k) > 0
    ensures HasCount(c, k)
  {
    if c[0].0 != k {
      CountedHasEntry(c[1..], k);
      var i :| 0 <= i < |c[1..]| && c[1..][i].0 == k;
      assert c[i + 1].0 == k;
    }
  }

  // ---- ordering

  /** Python's `sorted(items, key=count, reverse=True)`: stable, highest count first. */
  function SortByCount(c: Counts): (r: Counts)
    ensures |r| == |c|
    ensures multiset(r) == multiset(c)
  {
    if |c| == 0 then []
    else
      var init := c[..|c| - 1];
      assert c == init + [c[|c| - 1]];
      InsertByCount(c[|c| - 1], SortByCount(init))
  }

  /** Places `x` after every entry whose count is at least its own. */
  function InsertByCount(x: (Key, nat), s: Counts): (r: Counts)
    ensures |r| == |s| + 1
    ensures multiset(r) == multiset(s) + multiset{x}
  {
    if |s| == 0 then [x]
    else if x.1 > s[0].1 then [x] + s
    else
      assert s == [s[0]] + s[1..];
      [s[0]] + InsertByCount(x, s[1..])
  }

  /** Counts never increase along the list. */
  predicate NonIncreasing(c: Counts) {
    forall i :: 0 <= i < |c| - 1 ==> c[i].1 >= c[i + 1].1
  }

  lemma {:induction false} InsertByCountSorted(x: (Key, nat), s: Counts)
    requires NonIncreasing(s)
    ensures NonIncreasing(InsertByCount(x, s))
    ensures |s| > 0 ==> InsertByCount(x, s)[0] == (if x.1 > s[0].1 then x else s[0])
  {
    if |s| > 0 && x.1 <= s[0].1 {
      InsertByCountSorted(x, s[1..]);
    }
  }

  /** The statistics of a field are ordered by non-increasing count. */
  lemma {:induction false} SortByCountSorted(c: Counts)
    ensures NonIncreasing(SortByCount(c))
  {
    if |c| > 0 {
      SortByCountSorted(c[..|c| - 1]);
      InsertByCountSorted(c[|c| - 1], SortByCount(c[..|c| - 1]));
    }
  }

  /** The keys of a dict. */
  function KeysOf(c: Counts): set<Key> {
    set i | 0 <= i < |c| :: c[i].0
  }

  lemma KeysOfCons(x: (Key, nat), s: Counts)
    ensures KeysOf([x] + s) == {x.0} + KeysOf(s)
  {
    var r := [x] + s;
    forall k | k in KeysOf(r) ensures k in {x.0} + KeysOf(s) {
      var i :| 0 <= i < |r| && r[i].0 == k;
      if i > 0 { assert s[i - 1].0 == k; }
    }
    forall k | k in KeysOf(s) ensures k in KeysOf(r) {
      var i :| 0 <= i < |s| && s[i].0 == k;
      assert r[i + 1].0 == k;
    }
    assert r[0].0 == x.0;
  }

  /** A dict with a first entry: well formed exactly when the rest is, its count is positive and its key is new. */
  lemma ConsWellFormed(x: (Key, nat), s: Counts)
    ensures WellFormed([x] + s) <==> WellFormed(s) && x.1 >= 1 && x.0 !in KeysOf(s)
  {
    var r := [x] + s;
    assert forall i :: 0 < i < |r| ==> r[i] == s[i - 1];
    if WellFormed(r) {
      assert r[0] == x;
      forall i | 0 <= i < |s| ensures s[i].0 != x.0 && s[i].1 >= 1 {
        assert r[i + 1] == s[i];
      }
      forall i, j | 0 <= i < j < |s| ensures s[i].0 != s[j].0 {
        assert r[i + 1] == s[i] && r[j + 1] == s[j];
      }
    }
    if WellFormed(s) && x.1 >= 1 && x.0 !in KeysOf(s) {
      forall i, j | 0 <= i < j < |r| ensures r[i].0 != r[j].0 {
        if i == 0 {
          assert s[j - 1].0 in KeysOf(s);
        } else {
          assert r[i] == s[i - 1] && r[j] == s[j - 1];
        }
      }
      forall i | 0 <= i < |r| ensures r[i].1 >= 1 {
        if i > 0 { assert r[i] == s[i - 1]; }
      }
    }
  }

  /** Inserting an entry with a new key and a positive count keeps the dict well formed. */
  lemma {:induction false} InsertByCountWellFormed(x: (Key, nat), s: Counts)
    requires WellFormed(s) && x.1 >= 1 && x.0 !in KeysOf(s)
    ensures WellFormed(InsertByCount(x, s))
    ensures KeysOf(InsertByCount(x, s)) == KeysOf(s) + {x.0}
  {
    if |s| == 0 || x.1 > s[0].1 {
      assert InsertByCount(x, s) == [x] + s;
      KeysOfCons(x, s);
      ConsWellFormed(x, s);
    } else {
      var t := s[1..];
      assert s == [s[0]] + t;
      KeysOfCons(s[0], t);
      ConsWellFormed(s[0], t);
      InsertByCountWellFormed(x, t);
      var u := InsertByCount(x, t);
      assert InsertByCount(x, s) == [s[0]] + u;
      KeysOfCons(s[0], u);
      ConsWellFormed(s[0], u);
    }
  }

  /** Sorting keeps a dict well formed, with the same keys. */
  lemma {:induction false} SortByCountWellFormed(c: Counts)
    requires WellFormed(c)
    ensures WellFormed(SortByCount(c))
    ensures KeysOf(SortByCount(c)) == KeysOf(c)
  {
    if |c| > 0 {
      var init := c[..|c| - 1];
      var x := c[|c| - 1];
      assert c == init + [x];
      SnocWellFormed(init, x);
      SortByCountWellFormed(init);
      assert SortByCount(c) == InsertByCount(x, SortByCount(init));
      InsertByCountWellFormed(x, SortByCount(init));
    }
  }

  /** The first entries of a well-formed dict form one too, without the key of the last. */
  lemma SnocWellFormed(init: Counts, x: (Key, nat))
    requires WellFormed(init + [x])
    ensures WellFormed(init) && x.1 >= 1 && x.0 !in KeysOf(init)
    ensures KeysOf(init + [x]) == KeysOf(init) + {x.0}
  {
    var c := init + [x];
    assert forall i :: 0 <= i < |init| ==> c[i] == init[i];
    assert c[|init|] == x;
    forall k | k in KeysOf(c) ensures k in KeysOf(init) + {x.0} {
      var i :| 0 <= i < |c| && c[i].0 == k;
      if i < |init| { assert init[i].0 == k; }
    }
    forall k | k in KeysOf(init) ensures k in KeysOf(c) && k != x.0 {
      var i :| 0 <= i < |init| && init[i].0 == k;
      assert c[i].0 == k;
    }
  }

  // ---- one field, and all of them

  /** The sorted frequency dict of one field path over the profiles; None when the walk raises. */
  function FieldStatistics(profiles: seq<Json>, parts: seq<string>): Option<Counts> {
    match AllKeys(profiles, parts)
    case None => None
    case Some(ks) => Some(SortByCount(BumpAll([], ks)))
  }

  /** A dict's keys are distinct. */
  predicate DistinctPaths(acc: seq<(string, Counts)>) {
    forall i, j :: 0 <= i < j < |acc| ==> acc[i].0 != acc[j].0
  }

  /** `statistics[field_path] = stats`: replaces the value of a present path in place, appends a new one. */
  function Put(acc: seq<(string, Counts)>, path: string, stats: Counts): (r: seq<(string, Counts)>)
    requires DistinctPaths(acc)
    ensures DistinctPaths(r)
    ensures (exists i :: 0 <= i < |acc| && acc[i].0 == path) ==> |r| == |acc|
    ensures (forall i :: 0 <= i < |acc| ==> acc[i].0 != path) ==> r == acc + [(path, stats)]
    ensures forall i :: 0 <= i < |acc| ==> r[i] == (if acc[i].0 == path then (path, stats) else acc[i])
  {
    match PathIndex(acc, path)
    case Some(i) => acc[i := (path, stats)]
    case None => acc + [(path, stats)]
  }

  /** Where `path` is stored, if it is. */
  function PathIndex(acc: seq<(string, Counts)>, path: string): (r: Option<nat>)
    ensures r.Some? ==> r.value < |acc| && acc[r.value].0 == path
    ensures r.None? ==> forall i :: 0 <= i < |acc| ==> acc[i].0 != path
  {
    if |acc| == 0 then None
    else if acc[|acc| - 1].0 == path then Some(|acc| - 1)
    else PathIndex(acc[..|acc| - 1], path)
  }

  function Paths(acc: seq<(string, Counts)>): set<string> {
    set i | 0 <= i < |acc| :: acc[i].0
  }

  /**
   * The loop over the field paths: each path's statistics are stored in turn;
   * an exception in the walk ends the function, which returns the paths done
   * so far (the `except` around the whole loop).
   */
  function StatisticsFrom(acc: seq<(string, Counts)>, profiles: Option<seq<Json>>, fields: seq<string>): (r: seq<(string, Counts)>)
    requires DistinctPaths(acc)
    ensures DistinctPaths(r)
    decreases |fields|
  {
    if |fields| == 0 then acc
    else match profiles
      case None => acc
      case Some(ps) =>
        match FieldStatistics(ps, Split(fields[0], '.'))
        case None => acc
        case Some(stats) => StatisticsFrom(Put(acc, fields[0], stats), profiles, fields[1..])
  }

  /** `batch_results.get("data", [])`, iterated; None when it is not iterable or the batch has no `get`. */
  function ProfilesOf(batch: Json): Option<seq<Json>> {
    if batch.JObj? then Iter(GetOr(batch.members, "data", JArr([]))) else None
  }

  /** `extract_field_statistics` as a value. */
  function FieldStatisticsOf(batch: Json, fields: seq<string>): seq<(string, Counts)> {
    StatisticsFrom([], ProfilesOf(batch), fields)
  }

  /** No walk of any requested path raises. */
  predicate NoneRaise(profiles: seq<Json>, fields: seq<string>) {
    forall f :: f in fields ==> FieldStatistics(profiles, Split(f, '.')).Some?
  }

  /** Every stored entry holds the statistics of its own path. */
  predicate EntriesHold(acc: seq<(string, Counts)>, profiles: seq<Json>) {
    forall i :: 0 <= i < |acc| ==> FieldStatistics(profiles, Split(acc[i].0, '.')) == Some(acc[i].1)
  }

  /** Each stored path's entry is that path's statistics. */
  lemma {:induction false} StatisticsHold(acc: seq<(string, Counts)>, profiles: seq<Json>, fields: seq<string>)
    requires DistinctPaths(acc) && EntriesHold(acc, profiles)
    ensures EntriesHold(StatisticsFrom(acc, Some(profiles), fields), profiles)
    decreases |fields|
  {
    if |fields| > 0 {
      match FieldStatistics(profiles, Split(fields[0], '.'))
      case None =>
      case Some(stats) =>
        var acc' := Put(acc, fields[0], stats);
        assert EntriesHold(acc', profiles) by {
          forall i | 0 <= i < |acc'| ensures FieldStatistics(profiles, Split(acc'[i].0, '.')) == Some(acc'[i].1) {
            if i == |acc| { assert acc' == acc + [(fields[0], stats)]; }
          }
        }
        StatisticsHold(acc', profiles, fields[1..]);
    }
  }

  /** When no walk raises, every requested path gets an entry. */
  lemma {:induction false} StatisticsCover(acc: seq<(string, Counts)>, profiles: seq<Json>, fields: seq<string>)
    requires DistinctPaths(acc) && NoneRaise(profiles, fields)
    ensures forall f :: f in fields ==> f in Paths(StatisticsFrom(acc, Some(profiles), fields))
    decreases |fields|
  {
    if |fields| > 0 {
      var f := fields[0];
      var stats := FieldStatistics(profiles, Split(f, '.')).value;
      var acc' := Put(acc, f, stats);
      assert NoneRaise(profiles, fields[1..]) by {
        forall g | g in fields[1..] ensures g in fields { }
      }
      StatisticsCover(acc', profiles, fields[1..]);
      var i: nat :| i < |acc'| && acc'[i].0 == f by {
        if forall i :: 0 <= i < |acc| ==> acc[i].0 != f {
          assert acc'[|acc|].0 == f;
        } else {
          var i :| 0 <= i < |acc| && acc[i].0 == f;
          assert acc'[i].0 == f;
        }
      }
      StatisticsFromKeeps(acc', Some(profiles), fields[1..], i);
      var r := StatisticsFrom(acc', Some(profiles), fields[1..]);
      assert r[i].0 == f;
      assert f in Paths(r);
      forall g | g in fields ensures g in Paths(r) {
        if g != f { assert g in fields[1..]; }
      }
    }
  }

  /** Every entry is a requested path or one stored before. */
  lemma {:induction false} StatisticsOnlyRequested(acc: seq<(string, Counts)>, profiles: Option<seq<Json>>, fields: seq<string>)
    requires DistinctPaths(acc)
    ensures forall p :: p in Paths(StatisticsFrom(acc, profiles, fields)) ==> p in fields || p in Paths(acc)
    decreases |fields|
  {
    if |fields| > 0 && profiles.Some? {
      match FieldStatistics(profiles.value, Split(fields[0], '.'))
      case None =>
      case Some(stats) =>
        var acc' := Put(acc, fields[0], stats);
        StatisticsOnlyRequested(acc', profiles, fields[1..]);
        forall p | p in Paths(acc') ensures p == fields[0] || p in Paths(acc) {
          var i :| 0 <= i < |acc'| && acc'[i].0 == p;
          if i < |acc| && acc[i].0 != fields[0] { assert acc[i].0 == p; }
        }
    }
  }

  /**
   * `extract_field_statistics` when no walk raises: exactly one entry per
   * requested path (a repeated path keeps its first position), holding that
   * path's statistics.
   */
  lemma OneEntryPerField(batch: Json, fields: seq<string>)
    requires ProfilesOf(batch).Some? && NoneRaise(ProfilesOf(batch).value, fields)
    ensures var r := FieldStatisticsOf(batch, fields);
      && DistinctPaths(r)
      && Paths(r) == set f | f in fields
      && EntriesHold(r, ProfilesOf(batch).value)
  {
    var ps := ProfilesOf(batch).value;
    StatisticsHold([], ps, fields);
    StatisticsCover([], ps, fields);
    StatisticsOnlyRequested([], ProfilesOf(batch), fields);
  }

  /** An exception in the walk of a path keeps the entries of the paths before it and nothing more. */
  lemma {:induction false} StopsAtRaise(acc: seq<(string, Counts)>, profiles: seq<Json>, fields: seq<string>, n: nat)
    requires DistinctPaths(acc) && n < |fields|
    requires FieldStatistics(profiles, Split(fields[n], '.')).None?
    ensures StatisticsFrom(acc, Some(profiles), fields) == StatisticsFrom(acc, Some(profiles), fields[..n])
    decreases n
  {
    if n == 0 {
    } else {
      match FieldStatistics(profiles, Split(fields[0], '.'))
      case None =>
      case Some(stats) =>
        assert fields[1..][n - 1] == fields[n];
        assert fields[..n][1..] == fields[1..][..n - 1];
        StopsAtRaise(Put(acc, fields[0], stats), profiles, fields[1..], n - 1);
    }
  }

  /** The loop never drops or reorders a stored path. */
  lemma {:induction false} StatisticsFromKeeps(acc: seq<(string, Counts)>, profiles: Option<seq<Json>>, fields: seq<string>, i: nat)
    requires DistinctPaths(acc) && i < |acc|
    ensures var r := StatisticsFrom(acc, profiles, fields); i < |r| && r[i].0 == acc[i].0
    decreases |fields|
  {
    if |fields| > 0 && profiles.Some? {
      match FieldStatistics(profiles.value, Split(fields[0], '.'))
      case None =>
      case Some(stats) =>
        StatisticsFromKeeps(Put(acc, fields[0], stats), profiles, fields[1..], i);
    }
  }

  /**
   * The statistics of a field count each contributed key exactly as often as
   * it occurs (so every count is at least 1 and they sum to the number of
   * contributed keys), hold exactly the contributed keys, and are ordered
   * highest count first.
   */
  lemma FieldStatisticsCounts(profiles: seq<Json>, parts: seq<string>)
    requires AllKeys(profiles, parts).Some?
    ensures var r := FieldStatistics(profiles, parts).value;
      var ks := AllKeys(profiles, parts).value;
      && WellFormed(r) && NonIncreasing(r) && Total(r) == |ks|
      && (forall i :: 0 <= i < |r| ==> r[i].1 == multiset(ks)[r[i].0])
      && KeysOf(r) == set k | k in ks
  {
    var ks := AllKeys(profiles, parts).value;
    var c := BumpAll([], ks);
    CountsOfKeys(ks);
    SortByCountSorted(c);
    SortByCountWellFormed(c);
    SortTotal(c);
    var r := SortByCount(c);
    forall i | 0 <= i < |r| ensures r[i].1 == multiset(ks)[r[i].0] {
      assert r[i] in multiset(c);
    }
  }

  /** The unsorted dict counts each key by its occurrences and holds exactly the keys seen. */
  lemma CountsOfKeys(ks: seq<Key>)
    ensures var c := BumpAll([], ks);
      && WellFormed(c) && Total(c) == |ks|
      && (forall x :: x in c ==> x.1 == multiset(ks)[x.0])
      && KeysOf(c) == set k | k in ks
  {
    var c := BumpAll([], ks);
    BumpAllSpec([], ks);
    forall x | x in c ensures x.1 == multiset(ks)[x.0] {
      EntryCount(c, ks, x);
    }
    forall k | k in ks ensures k in KeysOf(c) {
      KeyHasEntry(c, ks, k);
    }
  }

  lemma EntryCount(c: Counts, ks: seq<Key>, x: (Key, nat))
    requires WellFormed(c) && x in c
    requires forall j :: CountOf(c, j) == CountOf([], j) + multiset(ks)[j]
    ensures x.1 == multiset(ks)[x.0]
  {
    var a :| 0 <= a < |c| && c[a] == x;
    CountOfAt(c, a);
    assert CountOf(c, x.0) == CountOf([], x.0) + multiset(ks)[x.0];
  }

  lemma KeyHasEntry(c: Counts, ks: seq<Key>, k: Key)
    requires k in ks
    requires forall j :: CountOf(c, j) == CountOf([], j) + multiset(ks)[j]
    ensures k in KeysOf(c)
  {
    assert CountOf(c, k) == CountOf([], k) + multiset(ks)[k];
    CountedHasEntry(c, k);
  }

  /** Reordering keeps the total. */
  lemma {:induction false} SortTotal(c: Counts)
    ensures Total(SortByCount(c)) == Total(c)
  {
    if |c| > 0 {
      var init, x := c[..|c| - 1], c[|c| - 1];
      assert c == init + [x];
      SortTotal(init);
      assert SortByCount(c) == InsertByCount(x, SortByCount(init));
      InsertTotal(x, SortByCount(init));
      TotalAppend(init, [x]);
      assert Total([x]) == x.1;
    }
  }

  lemma {:induction false} TotalAppend(a: Counts, b: Counts)
    ensures Total(a + b) == Total(a) + Total(b)
  {
    if |a| > 0 {
      TotalAppend(a[1..], b);
      assert (a + b)[1..] == a[1..] + b;
    } else {
      assert a + b == b;
    }
  }

  lemma {:induction false} InsertTotal(x: (Key, nat), s: Counts)
    ensures Total(InsertByCount(x, s)) == Total(s) + x.1
  {
    if |s| > 0 && x.1 <= s[0].1 {
      InsertTotal(x, s[1..]);
    }
  }

  /** A profile whose walk misses a part contributes nothing: removing it changes no count. */
  lemma MissingContributesNothing(profiles: seq<Json>, parts: seq<string>, i: nat)
    requires i < |profiles| && Walk(profiles[i], parts).Missing?
    ensures AllKeys(profiles, parts) == AllKeys(profiles[..i] + profiles[i + 1..], parts)
  {
    var cs := Contributions(profiles, parts);
    assert Contributions(profiles[..i] + profiles[i + 1..], parts) == cs[..i] + cs[i + 1..];
    FlattenSkip(cs, i);
  }

  /** A step that gathers nothing can be dropped. */
  lemma FlattenSkip(cs: seq<Option<seq<Key>>>, i: nat)
    requires i < |cs| && cs[i] == Some([])
    ensures Flatten(cs) == Flatten(cs[..i] + cs[i + 1..])
  {
    assert cs == cs[..i] + ([cs[i]] + cs[i + 1..]);
    FlattenAppend(cs[..i], [cs[i]] + cs[i + 1..]);
    FlattenAppend([cs[i]], cs[i + 1..]);
    FlattenAppend(cs[..i], cs[i + 1..]);
    assert Flatten([cs[i]]) == Some([]) by {
      assert [cs[i]][..0] == [];
    }
    var y := Flatten(cs[i + 1..]);
    assert y.Some? ==> [] + y.value == y.value;
  }

  lemma {:induction false} ScalarFieldBound(profiles: seq<Json>, parts: seq<string>)
    requires AllKeys(profiles, parts).Some?
    requires forall i :: 0 <= i < |profiles| ==> !(Walk(profiles[i], parts).Resolved? && Walk(profiles[i], parts).value.JArr?)
    ensures |AllKeys(profiles, parts).value| <= |profiles|
  {
    FlattenBound(Contributions(profiles, parts));
  }

  /** Steps of at most one key each gather at most one key per step. */
  lemma {:induction false} FlattenBound(cs: seq<Option<seq<Key>>>)
    requires Flatten(cs).Some?
    requires forall i :: 0 <= i < |cs| && cs[i].Some? ==> |cs[i].value| <= 1
    ensures |Flatten(cs).value| <= |cs|
  {
    if |cs| > 0 {
      var init := cs[..|cs| - 1];
      assert forall i :: 0 <= i < |init| ==> init[i] == cs[i];
      FlattenBound(init);
    }
  }

  // ---- the loops of `extract_field_statistics`

  /** The `for part in field_parts` loop. */
  method WalkPath(profile: Json, parts: seq<string>) returns (w: Walked)
    ensures w == Walk(profile, parts)
  {
    var current := profile;
    var i := 0;
    while i < |parts|
      invariant 0 <= i <= |parts|
      invariant Walk(profile, parts) == Walk(current, parts[i..])
    {
      assert parts[i..][1..] == parts[i + 1..];
      var present := In(current, parts[i]);
      if present != Some(true) || !current.JObj? {
        return if present == Some(false) then Missing else Raised;
      }
      current := Lookup(current.members, parts[i]).value;
      i := i + 1;
    }
    return Resolved(current);
  }

  /** The `for item in current` loop: bumps each truthy `item.get(last, "")`; None when an item raises. */
  method CountItems(c: Counts, items: seq<Json>, last: string) returns (r: Option<Counts>)
    ensures r == (match ItemKeys(items, last) case None => None case Some(ks) => Some(BumpAll(c, ks)))
  {
    ghost var cs := seq(|items|, i requires 0 <= i < |items| => ItemKey(items[i], last));
    var counts := c;
    ghost var ks: seq<Key> := [];
    var i := 0;
    while i < |items|
      invariant 0 <= i <= |items|
      invariant Flatten(cs[..i]) == Some(ks)
      invariant counts == BumpAll(c, ks)
    {
      FlattenSnoc(cs, i);
      var item := items[i];
      if !item.JObj? {
        FlattenRaises(cs, i + 1);
        return None;
      }
      var value := GetOr(item.members, last, JStr(""));
      if Truthy(value) {
        var k := HashKey(value);
        if k.None? {
          FlattenRaises(cs, i + 1);
          return None;
        }
        assert cs[i] == Some([k.value]);
        assert (ks + [k.value])[..|ks|] == ks;
        counts := Bump(counts, k.value);
        ks := ks + [k.value];
      } else {
        assert cs[i] == Some([]);
        assert ks + [] == ks;
      }
      i := i + 1;
    }
    assert cs[..i] == cs;
    return Some(counts);
  }

  /** The `for profile in profiles` loop for one path, then the sort. */
  method CountField(profiles: seq<Json>, parts: seq<string>) returns (r: Option<Counts>)
    ensures r == FieldStatistics(profiles, parts)
  {
    ghost var cs := Contributions(profiles, parts);
    var counts: Counts := [];
    ghost var ks: seq<Key> := [];
    var i := 0;
    while i < |profiles|
      invariant 0 <= i <= |profiles|
      invariant Flatten(cs[..i]) == Some(ks)
      invariant counts == BumpAll([], ks)
    {
      FlattenSnoc(cs, i);
      var more;
      counts, more := CountProfile(counts, profiles[i], parts);
      if more.None? {
        FlattenRaises(cs, i + 1);
        return None;
      }
      BumpAllAppend([], ks, more.value);
      ks := ks + more.value;
      i := i + 1;
    }
    assert cs[..i] == cs;
    return Some(SortByCount(counts));
  }

  /**
   * The body of the profile loop: walk the path, then count either the list
   * items or the truthy scalar. `keys` is what the profile contributed (None
   * when it raised), and the counts are bumped by exactly those keys.
   */
  method CountProfile(c: Counts, profile: Json, parts: seq<string>) returns (counts: Counts, keys: Option<seq<Key>>)
    ensures keys == ContributionOf(profile, parts)
    ensures keys.Some? ==> counts == BumpAll(c, keys.value)
  {
    counts := c;
    var w := WalkPath(profile, parts);
    if w.Raised? {
      return c, None;
    }
    if w.Missing? {
      return c, Some([]);
    }
    var current := w.value;
    if current.JArr? {
      if |parts| > 1 {
        var has := In(profile, parts[|parts| - 2]);
        if has.None? {
          return c, None;
        }
        if has.value {
          var bumped := CountItems(c, current.items, parts[|parts| - 1]);
          if bumped.None? {
            return c, None;
          }
          return bumped.value, ItemKeys(current.items, parts[|parts| - 1]);
        }
      }
      return c, Some([]);
    }
    if Truthy(current) {
      var k := KStr(Str(current));
      assert [k][..0] == [];
      return Bump(c, k), Some([k]);
    }
    return c, Some([]);
  }

  /** `extract_field_statistics`. */
  method ExtractFieldStatistics(batch: Json, fields: seq<string>) returns (statistics: seq<(string, Counts)>)
    ensures statistics == FieldStatisticsOf(batch, fields)
  {
    statistics := [];
    var profiles := ProfilesOf(batch);
    var i := 0;
    while i < |fields|
      invariant 0 <= i <= |fields|
      invariant DistinctPaths(statistics)
      invariant FieldStatisticsOf(batch, fields) == StatisticsFrom(statistics, profiles, fields[i..])
    {
      if profiles.None? {
        return;
      }
      var stats := CountField(profiles.value, Split(fields[i], '.'));
      if stats.None? {
        return;
      }
      assert fields[i..][1..] == fields[i + 1..];
      statistics := Put(statistics, fields[i], stats.value);
      i := i + 1;
    }
  }
}
