/**
 * The directory-wide part of services/parser/parser_utils.py:
 * `merge_profiles_by_company`, which picks out the profiles with an
 * experience at a company and splits them into current and past employees,
 * and `build_profile_index`, which summarises every parsed profile. The
 * directory is a parameter: `None` when it does not exist, otherwise its
 * entries in listing order, each with what `json.load` makes of the file.
 */
module ParserIndex {
  import opened Wrappers
  import opened Strings
  import opened Json
  import opened ParserUtils

  /** One name `os.listdir` returns, with the decoded file (`None`: it cannot be read or is not JSON). */
  datatype DirEntry = DirEntry(name: string, content: Option<Json>)

  /** `os.path.join(dir, name)`: an absolute name wins, otherwise one '/' separates the two. */
  function JoinPath(dir: string, name: string): (r: string)
    ensures EndsWith(r, name)
    ensures (|dir| == 0 || (|name| > 0 && name[0] == '/')) ==> r == name
    ensures |dir| > 0 && !(|name| > 0 && name[0] == '/') ==>
      && |r| == |dir| + |name| + (if dir[|dir| - 1] == '/' then 0 else 1)
      && r[..|dir|] == dir
      && (|r| > |dir| + |name| ==> r[|dir|] == '/')
  {
    var r := if |dir| == 0 || (|name| > 0 && name[0] == '/') then name
      else if dir[|dir| - 1] == '/' then dir + name
      else dir + "/" + name;
    assert r[|r| - |name|..] == name;
    r
  }

  /** The listing filtered to the files whose names end in `_parsed_data.json`, in listing order. */
  function ParsedFiles(entries: seq<DirEntry>): (r: seq<DirEntry>)
    ensures |r| <= |entries|
    ensures forall e :: e in r <==> e in entries && EndsWith(e.name, PARSED_SUFFIX)
  {
    if |entries| == 0 then []
    else
      var last := entries[|entries| - 1];
      var init := ParsedFiles(entries[..|entries| - 1]);
      assert entries == entries[..|entries| - 1] + [last];
      if EndsWith(last.name, PARSED_SUFFIX) then init + [last] else init
  }

  /** The values of the `Some` entries, in order: the records a file loop appends. */
  function Kept<T>(os: seq<Option<T>>): (r: seq<T>)
    ensures |r| <= |os|
  {
    if |os| == 0 then []
    else
      var init := Kept(os[..|os| - 1]);
      match os[|os| - 1]
      case Some(x) => init + [x]
      case None => init
  }

  /** `[f(x) for x in xs]`. */
  function MapAll<A, B>(xs: seq<A>, f: A -> B): (r: seq<B>)
    ensures |r| == |xs|
    ensures forall i :: 0 <= i < |xs| ==> r[i] == f(xs[i])
  {
    seq(|xs|, i requires 0 <= i < |xs| => f(xs[i]))
  }

  lemma MapAllSnoc<A, B>(xs: seq<A>, f: A -> B, i: nat)
    requires i < |xs|
    ensures MapAll(xs[..i + 1], f) == MapAll(xs[..i], f) + [f(xs[i])]
  {
  }

  lemma KeptSnoc<T>(os: seq<Option<T>>, o: Option<T>)
    ensures Kept(os + [o]) == Kept(os) + (if o.Some? then [o.value] else [])
  {
    assert (os + [o])[..|os|] == os;
  }

  /** A record is kept exactly when some entry holds it. */
  lemma {:induction false} KeptFrom<T>(os: seq<Option<T>>, x: T)
    ensures x in Kept(os) <==> exists i :: 0 <= i < |os| && os[i] == Some(x)
  {
    if |os| > 0 {
      var init := os[..|os| - 1];
      KeptFrom(init, x);
      assert forall i :: 0 <= i < |init| ==> init[i] == os[i];
      if exists i :: 0 <= i < |os| && os[i] == Some(x) {
        var i :| 0 <= i < |os| && os[i] == Some(x);
        if i < |init| { assert init[i] == Some(x); }
      }
    }
  }

  // ---------------------------------------------------------------- ordering by name

  /** Every record's name is a string, so `sort(key=name)` compares strings only. */
  predicate AllNamed<T>(xs: seq<T>, name: T -> Json) {
    forall i :: 0 <= i < |xs| ==> name(xs[i]).JStr?
  }

  /** Names are strings and no record's name is smaller than its predecessor's. */
  predicate Ordered<T>(xs: seq<T>, name: T -> Json) {
    && AllNamed(xs, name)
    && forall i :: 0 < i < |xs| ==> !LexLess(name(xs[i]).s, name(xs[i - 1]).s)
  }

  /** Puts `x` before the first record whose name is greater than its own. */
  function InsertByName<T(==)>(xs: seq<T>, x: T, name: T -> Json): (r: seq<T>)
    requires AllNamed(xs, name) && name(x).JStr?
    ensures |r| == |xs| + 1
    ensures multiset(r) == multiset(xs) + multiset{x}
    ensures AllNamed(r, name)
    ensures r[0] == x || (|xs| > 0 && r[0] == xs[0])
  {
    if |xs| == 0 then [x]
    else if LexLess(name(x).s, name(xs[0]).s) then [x] + xs
    else
      var rest := InsertByName(xs[1..], x, name);
      assert xs == [xs[0]] + xs[1..];
      [xs[0]] + rest
  }

  /** Insertion keeps a list ordered. */
  lemma {:induction false} InsertByNameOrdered<T>(xs: seq<T>, x: T, name: T -> Json)
    requires Ordered(xs, name) && name(x).JStr?
    ensures Ordered(InsertByName(xs, x, name), name)
  {
    if |xs| > 0 && !LexLess(name(x).s, name(xs[0]).s) {
      InsertByNameOrdered(xs[1..], x, name);
      var rest := InsertByName(xs[1..], x, name);
      assert InsertByName(xs, x, name) == [xs[0]] + rest;
      if rest[0] != x {
        assert |xs| > 1 && rest[0] == xs[1];
      }
    } else if |xs| > 0 {
      LexLessAsymmetric(name(x).s, name(xs[0]).s);
    }
  }

  /** A stable insertion sort by name, the records taken in list order. */
  function SortNamed<T(==)>(xs: seq<T>, name: T -> Json): (r: seq<T>)
    requires AllNamed(xs, name)
    ensures |r| == |xs| && multiset(r) == multiset(xs)
    ensures Ordered(r, name)
  {
    if |xs| == 0 then []
    else
      var init := SortNamed(xs[..|xs| - 1], name);
      assert xs == xs[..|xs| - 1] + [xs[|xs| - 1]];
      InsertByNameOrdered(init, xs[|xs| - 1], name);
      InsertByName(init, xs[|xs| - 1], name)
  }

  /**
   * `records.sort(key=lambda p: p["name"])`: ordered by name when every name
   * is a string; other names are left in list order.
   */
  function SortByName<T(==)>(xs: seq<T>, name: T -> Json): (r: seq<T>)
    ensures |r| == |xs| && multiset(r) == multiset(xs)
    ensures AllNamed(xs, name) ==> Ordered(r, name)
  {
    if AllNamed(xs, name) then SortNamed(xs, name) else xs
  }

  /** An ordered list has every later name at least every earlier one. */
  lemma {:induction false} OrderedPairwise<T>(xs: seq<T>, name: T -> Json, i: nat, j: nat)
    requires Ordered(xs, name) && i <= j < |xs|
    ensures !LexLess(name(xs[j]).s, name(xs[i]).s)
    decreases j - i
  {
    if i == j {
      LexLessIrreflexive(name(xs[i]).s);
    } else {
      OrderedPairwise(xs, name, i, j - 1);
      LexLeqTransitive(name(xs[i]).s, name(xs[j - 1]).s, name(xs[j]).s);
    }
  }

  lemma {:induction false} LexLessIrreflexive(a: string)
    ensures !LexLess(a, a)
    decreases |a|
  {
    if |a| > 0 {
      LexLessIrreflexive(a[1..]);
    }
  }

  // ---------------------------------------------------------------- company merge

  /** `exp.get(key, "").lower()`: `None` when `exp` is not a dict or the value is not a string (both raise). */
  function LoweredField(exp: Json, key: string): (r: Option<string>)
    ensures r.Some? <==> exp.JObj? && GetOr(exp.members, key, JStr("")).JStr?
  {
    if exp.JObj? then
      match GetOr(exp.members, key, JStr(""))
      case JStr(s) => Some(Lower(s))
      case _ => None
    else None
  }

  /** The experience's company, lowercased, contains `needle`. */
  predicate Matches(exp: Json, needle: string) {
    exp.JObj? && GetOr(exp.members, "company", JStr("")).JStr?
    && Contains(Lower(GetOr(exp.members, "company", JStr("")).s), needle)
  }

  /** The experience's date range, lowercased, contains "present". */
  predicate Present(exp: Json) {
    exp.JObj? && GetOr(exp.members, "date_range", JStr("")).JStr?
    && Contains(Lower(GetOr(exp.members, "date_range", JStr("")).s), "present")
  }

  /** The scan passes the experience without raising: a dict with a string company, and a string date range when it matches. */
  predicate Scannable(exp: Json, needle: string) {
    exp.JObj? && GetOr(exp.members, "company", JStr("")).JStr?
    && (Matches(exp, needle) ==> GetOr(exp.members, "date_range", JStr("")).JStr?)
  }

  /** What one pass of the experience loop learns: whether it matches and whether it is current. */
  datatype Mark = Mark(matches: bool, current: bool)

  function MarkOf(exp: Json, needle: string): (r: Option<Mark>)
    ensures r.Some? <==> Scannable(exp, needle)
    ensures r.Some? ==> r.value.matches == Matches(exp, needle)
    ensures r.Some? ==> (r.value.current <==> Matches(exp, needle) && Present(exp))
  {
    match LoweredField(exp, "company")
    case None => None
    case Some(company) =>
      if !Contains(company, needle) then Some(Mark(false, false))
      else
        match LoweredField(exp, "date_range")
        case None => None
        case Some(range) => Some(Mark(true, Contains(range, "present")))
  }

  /** The outcome of the experience loop: the matching experiences in order, and `is_current`. */
  datatype Scan = Scan(matched: seq<Json>, current: bool)

  /** What each experience's pass learns, in order. */
  function Marks(exps: seq<Json>, needle: string): (r: seq<Option<Mark>>)
    ensures |r| == |exps|
    ensures forall i :: 0 <= i < |exps| ==> r[i] == MarkOf(exps[i], needle)
  {
    seq(|exps|, i requires 0 <= i < |exps| => MarkOf(exps[i], needle))
  }

  /** The passes combined in order: the first one that raises ends the loop with `None`. */
  function Combine(exps: seq<Json>, marks: seq<Option<Mark>>): Option<Scan>
    requires |marks| == |exps|
  {
    if |exps| == 0 then Some(Scan([], false))
    else
      match Combine(exps[..|exps| - 1], marks[..|exps| - 1])
      case None => None
      case Some(s) =>
        match marks[|exps| - 1]
        case None => None
        case Some(m) => Some(if m.matches then Scan(s.matched + [exps[|exps| - 1]], s.current || m.current) else s)
  }

  /** The experience loop; `None` when some experience raises. */
  function ScanOf(exps: seq<Json>, needle: string): Option<Scan> {
    Combine(exps, Marks(exps, needle))
  }

  lemma {:induction false} CombineRaises(exps: seq<Json>, marks: seq<Option<Mark>>)
    requires |marks| == |exps|
    ensures Combine(exps, marks).None? <==> exists i :: 0 <= i < |marks| && marks[i].None?
  {
    if |exps| > 0 {
      var n := |exps| - 1;
      CombineRaises(exps[..n], marks[..n]);
      assert forall i :: 0 <= i < n ==> marks[..n][i] == marks[i];
    }
  }

  lemma {:induction false} CombineMatched(exps: seq<Json>, marks: seq<Option<Mark>>, e: Json)
    requires |marks| == |exps| && Combine(exps, marks).Some?
    ensures e in Combine(exps, marks).value.matched <==>
      exists i :: 0 <= i < |exps| && exps[i] == e && marks[i].Some? && marks[i].value.matches
  {
    if |exps| > 0 {
      var n := |exps| - 1;
      CombineMatched(exps[..n], marks[..n], e);
      assert forall i :: 0 <= i < n ==> marks[..n][i] == marks[i] && exps[..n][i] == exps[i];
      if exists i :: 0 <= i < |exps| && exps[i] == e && marks[i].Some? && marks[i].value.matches {
        var i :| 0 <= i < |exps| && exps[i] == e && marks[i].Some? && marks[i].value.matches;
        if i < n { assert exps[..n][i] == e && marks[..n][i] == marks[i]; }
      }
    }
  }

  lemma {:induction false} CombineCurrent(exps: seq<Json>, marks: seq<Option<Mark>>)
    requires |marks| == |exps| && Combine(exps, marks).Some?
    ensures Combine(exps, marks).value.current <==>
      exists i :: 0 <= i < |marks| && marks[i].Some? && marks[i].value.matches && marks[i].value.current
  {
    if |exps| > 0 {
      var n := |exps| - 1;
      CombineCurrent(exps[..n], marks[..n]);
      assert forall i :: 0 <= i < n ==> marks[..n][i] == marks[i];
      if exists i :: 0 <= i < |marks| && marks[i].Some? && marks[i].value.matches && marks[i].value.current {
        var i :| 0 <= i < |marks| && marks[i].Some? && marks[i].value.matches && marks[i].value.current;
        if i < n { assert marks[..n][i] == marks[i]; }
      }
    }
  }

  /**
   * The loop raises exactly when some experience cannot be scanned; otherwise
   * it keeps exactly the matching experiences, and `is_current` holds exactly
   * when one of them has a date range containing "present".
   */
  lemma ScanMeaning(exps: seq<Json>, needle: string)
    ensures ScanOf(exps, needle).None? <==> exists i :: 0 <= i < |exps| && !Scannable(exps[i], needle)
    ensures ScanOf(exps, needle).Some? ==>
      forall e :: e in ScanOf(exps, needle).value.matched <==> e in exps && Matches(e, needle)
    ensures ScanOf(exps, needle).Some? ==>
      (ScanOf(exps, needle).value.current <==> exists i :: 0 <= i < |exps| && Matches(exps[i], needle) && Present(exps[i]))
  {
    var marks := Marks(exps, needle);
    CombineRaises(exps, marks);
    if ScanOf(exps, needle).Some? {
      forall e ensures e in ScanOf(exps, needle).value.matched <==> e in exps && Matches(e, needle) {
        CombineMatched(exps, marks, e);
        if e in exps && Matches(e, needle) {
          var i :| 0 <= i < |exps| && exps[i] == e;
          assert marks[i].Some?;
        }
      }
      CombineCurrent(exps, marks);
    }
  }

  /** What the merge adds for one profile. */
  datatype Employee = Employee(
    name: Json, profileUrl: Json, headline: Json, location: Json,
    companyExperiences: seq<Json>, isCurrent: bool, education: Json, skills: Json)

  /** How one file fares: an exception skips it, no matching experience leaves it out, otherwise its record is taken. */
  datatype Outcome<T> = Skipped | Unmatched | Taken(record: T)

  /** `d.get(key, {})` used as a dict afterwards: `None` when the value is not a dict (its `.get` raises). */
  function DictField(members: seq<Member>, key: string): (r: Option<seq<Member>>)
    ensures r.Some? <==> GetOr(members, key, JObj([])).JObj?
  {
    match GetOr(members, key, JObj([]))
    case JObj(ms) => Some(ms)
    case _ => None
  }

  /** The body of the file loop of `merge_profiles_by_company` for one decoded file. */
  function EmployeeOf(content: Option<Json>, companyName: string): Outcome<Employee> {
    if content.None? || !content.value.JObj? then Skipped
    else
      var profile := content.value.members;
      match Iter(GetOr(profile, "experiences", JArr([])))
      case None => Skipped
      case Some(exps) =>
        match ScanOf(exps, Lower(companyName))
        case None => Skipped
        case Some(scan) =>
          if |scan.matched| == 0 then Unmatched
          else
            match (DictField(profile, "metadata"), DictField(profile, "basic_info"))
            case (Some(meta), Some(basic)) =>
              Taken(Employee(
                GetOr(meta, "profile_name", JStr("Unknown")), GetOr(meta, "profile_url", JStr("")),
                GetOr(basic, "headline", JStr("")), GetOr(basic, "location", JStr("")),
                scan.matched, scan.current,
                GetOr(profile, "education", JArr([])), GetOr(profile, "skills", JArr([]))))
            case _ => Skipped
  }

  /**
   * For a profile the loop gets through without an exception, the record is
   * taken exactly when some experience's company contains the company name
   * (both lowercased), and it is current exactly when one of those
   * experiences has a date range containing "present".
   */
  lemma EmployeeInclusion(members: seq<Member>, companyName: string, exps: seq<Json>)
    requires Iter(GetOr(members, "experiences", JArr([]))) == Some(exps)
    requires forall i :: 0 <= i < |exps| ==> Scannable(exps[i], Lower(companyName))
    requires DictField(members, "metadata").Some? && DictField(members, "basic_info").Some?
    ensures var o := EmployeeOf(Some(JObj(members)), companyName);
      && (o.Taken? <==> exists i :: 0 <= i < |exps| && Matches(exps[i], Lower(companyName)))
      && (o.Unmatched? <==> !o.Taken?)
      && (o.Taken? ==> (o.record.isCurrent <==>
            exists i :: 0 <= i < |exps| && Matches(exps[i], Lower(companyName)) && Present(exps[i])))
      && (o.Taken? ==> forall e :: e in o.record.companyExperiences <==> e in exps && Matches(e, Lower(companyName)))
  {
    var needle := Lower(companyName);
    ScanFound(exps, needle);
    var scan := ScanOf(exps, needle).value;
    var meta := DictField(members, "metadata").value;
    var basic := DictField(members, "basic_info").value;
    assert EmployeeOf(Some(JObj(members)), companyName) ==
      if |scan.matched| == 0 then Unmatched
      else Taken(Employee(
        GetOr(meta, "profile_name", JStr("Unknown")), GetOr(meta, "profile_url", JStr("")),
        GetOr(basic, "headline", JStr("")), GetOr(basic, "location", JStr("")),
        scan.matched, scan.current,
        GetOr(members, "education", JArr([])), GetOr(members, "skills", JArr([]))));
  }

  /** A scan that does not raise found something exactly when some experience matches. */
  lemma ScanFound(exps: seq<Json>, needle: string)
    requires forall i :: 0 <= i < |exps| ==> Scannable(exps[i], needle)
    ensures ScanOf(exps, needle).Some?
    ensures |ScanOf(exps, needle).value.matched| > 0 <==> exists i :: 0 <= i < |exps| && Matches(exps[i], needle)
    ensures ScanOf(exps, needle).value.current <==>
      exists i :: 0 <= i < |exps| && Matches(exps[i], needle) && Present(exps[i])
    ensures forall e :: e in ScanOf(exps, needle).value.matched <==> e in exps && Matches(e, needle)
  {
    ScanMeaning(exps, needle);
    var scan := ScanOf(exps, needle).value;
    if exists i :: 0 <= i < |exps| && Matches(exps[i], needle) {
      var i :| 0 <= i < |exps| && Matches(exps[i], needle);
      assert exps[i] in scan.matched;
    }
    if |scan.matched| > 0 {
      assert scan.matched[0] in scan.matched;
    }
  }

  /** The record a file contributes to the merge, if any. */
  function RecordOf(companyName: string): DirEntry -> Option<Employee> {
    (f: DirEntry) => var o := EmployeeOf(f.content, companyName); if o.Taken? then Some(o.record) else None
  }

  /** The records of the files taken, in file order. */
  function Employees(files: seq<DirEntry>, companyName: string): seq<Employee> {
    Kept(MapAll(files, RecordOf(companyName)))
  }

  /** The records whose `is_current` equals `current`, in order: the current or the past list. */
  function Select(es: seq<Employee>, current: bool): (r: seq<Employee>)
    ensures forall e :: e in r <==> e in es && e.isCurrent == current
  {
    if |es| == 0 then []
    else
      var init := Select(es[..|es| - 1], current);
      var e := es[|es| - 1];
      assert es == es[..|es| - 1] + [e];
      if e.isCurrent == current then init + [e] else init
  }

  /** One more record extends the list it belongs to and leaves the other as it was. */
  lemma SelectSnoc(es: seq<Employee>, e: Employee, current: bool)
    ensures Select(es + [e], current) == Select(es, current) + (if e.isCurrent == current then [e] else [])
  {
    assert (es + [e])[..|es|] == es;
  }

  /** The current and the past records together are the records. */
  lemma {:induction false} SelectSplits(es: seq<Employee>)
    ensures multiset(Select(es, true)) + multiset(Select(es, false)) == multiset(es)
  {
    if |es| > 0 {
      var n := |es| - 1;
      var e := es[n];
      SelectSplits(es[..n]);
      assert es == es[..n] + [e];
      assert multiset(es) == multiset(es[..n]) + multiset{e};
      if e.isCurrent {
        assert Select(es, true) == Select(es[..n], true) + [e];
        assert Select(es, false) == Select(es[..n], false);
      } else {
        assert Select(es, true) == Select(es[..n], true);
        assert Select(es, false) == Select(es[..n], false) + [e];
      }
    }
  }

  function EmployeeName(e: Employee): Json {
    e.name
  }

  /** The dictionary `merge_profiles_by_company` returns; the two counts are absent when the directory is missing. */
  datatype CompanyData = CompanyData(
    companyName: string, profilesFound: nat,
    currentEmployees: seq<Employee>, pastEmployees: seq<Employee>, allEmployees: seq<Employee>,
    currentCount: Option<nat>, pastCount: Option<nat>)

  /**
   * The merge of a listing. The full list is sorted first; when that sort fails
   * (a name that is not a string) the exception ends the merge, so none of the
   * three lists is sorted, and the counts set before the sort stay.
   */
  function MergeOf(listing: Option<seq<DirEntry>>, companyName: string): CompanyData {
    match listing
    case None => CompanyData(companyName, 0, [], [], [], None, None)
    case Some(entries) =>
      var all := Employees(ParsedFiles(entries), companyName);
      MergedLists(companyName, all, Select(all, true), Select(all, false))
  }

  /** The dictionary built from the collected lists: counts first, then the three sorts, the full list's first. */
  function MergedLists(companyName: string, all: seq<Employee>, current: seq<Employee>, past: seq<Employee>): CompanyData {
    if AllNamed(all, EmployeeName) then
      CompanyData(companyName, |all|,
        SortByName(current, EmployeeName), SortByName(past, EmployeeName), SortByName(all, EmployeeName),
        Some(|current|), Some(|past|))
    else
      CompanyData(companyName, |all|, current, past, all, Some(|current|), Some(|past|))
  }

  /** Every current or past record is one of the records. */
  lemma SelectedNamed(es: seq<Employee>, current: bool)
    requires AllNamed(es, EmployeeName)
    ensures AllNamed(Select(es, current), EmployeeName)
  {
    var r := Select(es, current);
    forall i | 0 <= i < |r| ensures EmployeeName(r[i]).JStr? {
      assert r[i] in es;
    }
  }

  /** The names of a sorted list are the names of the list. */
  lemma SortedNamed<T>(xs: seq<T>, name: T -> Json)
    requires AllNamed(SortByName(xs, name), name)
    ensures AllNamed(xs, name)
  {
    var r := SortByName(xs, name);
    forall i | 0 <= i < |xs| ensures name(xs[i]).JStr? {
      assert xs[i] in multiset(r);
      var j :| 0 <= j < |r| && r[j] == xs[i];
    }
  }

  /** The three lists built from the taken records. */
  lemma {:induction false} PartitionLists(all: seq<Employee>)
    ensures var current := Select(all, true); var past := Select(all, false);
      && |all| == |current| + |past|
      && multiset(SortByName(all, EmployeeName)) ==
         multiset(SortByName(current, EmployeeName)) + multiset(SortByName(past, EmployeeName))
      && (forall e :: e in SortByName(current, EmployeeName) ==> e in SortByName(all, EmployeeName) && e.isCurrent)
      && (forall e :: e in SortByName(past, EmployeeName) ==> e in SortByName(all, EmployeeName) && !e.isCurrent)
      && (forall e :: e in SortByName(all, EmployeeName) ==>
            (e in SortByName(current, EmployeeName) <==> e !in SortByName(past, EmployeeName)))
      && (AllNamed(SortByName(all, EmployeeName), EmployeeName) ==>
            && Ordered(SortByName(all, EmployeeName), EmployeeName)
            && Ordered(SortByName(current, EmployeeName), EmployeeName)
            && Ordered(SortByName(past, EmployeeName), EmployeeName))
  {
    var current := Select(all, true);
    var past := Select(all, false);
    SelectSplits(all);
    assert |multiset(all)| == |multiset(current)| + |multiset(past)|;
    forall e | e in SortByName(current, EmployeeName) ensures e in SortByName(all, EmployeeName) && e.isCurrent {
      assert e in multiset(current);
      assert e in multiset(SortByName(all, EmployeeName));
    }
    forall e | e in SortByName(past, EmployeeName) ensures e in SortByName(all, EmployeeName) && !e.isCurrent {
      assert e in multiset(past);
      assert e in multiset(SortByName(all, EmployeeName));
    }
    forall e | e in SortByName(all, EmployeeName)
      ensures e in SortByName(current, EmployeeName) <==> e !in SortByName(past, EmployeeName)
    {
      assert e in multiset(all);
      assert e in multiset(current) <==> e in current;
      assert e in multiset(past) <==> e in past;
    }
    if AllNamed(SortByName(all, EmployeeName), EmployeeName) {
      SortedNamed(all, EmployeeName);
      SelectedNamed(all, true);
      SelectedNamed(all, false);
    }
  }

  /**
   * The merge of an existing directory: every record is in the full list and in
   * exactly one of the current and past lists, which between them hold the full
   * list; `profiles_found` is the sum of the two counts; each list is ordered by
   * name when the names are strings, and all three keep file order otherwise.
   */
  lemma MergePartition(entries: seq<DirEntry>, companyName: string)
    ensures var d := MergeOf(Some(entries), companyName);
      && d.currentCount == Some(|d.currentEmployees|) && d.pastCount == Some(|d.pastEmployees|)
      && d.profilesFound == |d.allEmployees| == |d.currentEmployees| + |d.pastEmployees|
      && multiset(d.allEmployees) == multiset(d.currentEmployees) + multiset(d.pastEmployees)
      && (forall e :: e in d.currentEmployees ==> e in d.allEmployees && e.isCurrent)
      && (forall e :: e in d.pastEmployees ==> e in d.allEmployees && !e.isCurrent)
      && (forall e :: e in d.allEmployees ==> (e in d.currentEmployees <==> e !in d.pastEmployees))
      && (AllNamed(d.allEmployees, EmployeeName) ==>
            Ordered(d.allEmployees, EmployeeName) && Ordered(d.currentEmployees, EmployeeName)
            && Ordered(d.pastEmployees, EmployeeName))
      && (!AllNamed(d.allEmployees, EmployeeName) ==>
            d.allEmployees == Employees(ParsedFiles(entries), companyName)
            && d.currentEmployees == Select(d.allEmployees, true) && d.pastEmployees == Select(d.allEmployees, false))
  {
    var all := Employees(ParsedFiles(entries), companyName);
    if AllNamed(all, EmployeeName) {
      PartitionLists(all);
    } else {
      SelectSplits(all);
      assert |multiset(all)| == |multiset(Select(all, true))| + |multiset(Select(all, false))|;
      forall e | e in all ensures e in Select(all, true) <==> e !in Select(all, false) {
      }
    }
  }

  /** With no such directory the merge finds nothing and records no counts. */
  lemma MergeMissingDirectory(companyName: string)
    ensures var d := MergeOf(None, companyName);
      d.profilesFound == 0 && d.allEmployees == [] && d.currentCount.None? && d.pastCount.None?
  {
  }

  // ---------------------------------------------------------------- profile index

  /** One entry of the profile index. */
  datatype Summary = Summary(
    name: Json, profileUrl: Json, headline: Json, location: Json, filePath: string,
    scrapeDate: Json, parsingDate: Json, numExperiences: nat, numEducation: nat, numSkills: nat)

  /** The body of the file loop of `build_profile_index`; `None` when it raises. */
  function SummaryOf(dir: string, entry: DirEntry): Option<Summary> {
    if entry.content.None? || !entry.content.value.JObj? then None
    else
      var profile := entry.content.value.members;
      match (DictField(profile, "metadata"), DictField(profile, "basic_info"))
      case (Some(meta), Some(basic)) =>
        var experiences := Len(GetOr(profile, "experiences", JArr([])));
        var education := Len(GetOr(profile, "education", JArr([])));
        var skills := Len(GetOr(profile, "skills", JArr([])));
        if experiences.None? || education.None? || skills.None? then None
        else
          Some(Summary(
            GetOr(meta, "profile_name", JStr("Unknown")), GetOr(meta, "profile_url", JStr("")),
            GetOr(basic, "headline", JStr("")), GetOr(basic, "location", JStr("")),
            JoinPath(dir, entry.name),
            GetOr(meta, "scrape_date", JStr("")), GetOr(profile, "parsing_date", JStr("")),
            experiences.value, education.value, skills.value))
      case _ => None
  }

  /** The summary a file contributes, if any. */
  function SummaryIn(dir: string): DirEntry -> Option<Summary> {
    (f: DirEntry) => SummaryOf(dir, f)
  }

  /**
   * A summary records where its file is and the lengths of the file's
   * experience, education and skill lists.
   */
  lemma SummaryFields(dir: string, entry: DirEntry)
    requires SummaryOf(dir, entry).Some?
    ensures var r := SummaryOf(dir, entry).value;
      && EndsWith(r.filePath, entry.name) && r.filePath == JoinPath(dir, entry.name)
      && entry.content.Some? && entry.content.value.JObj?
      && var profile := entry.content.value.members;
      && Len(GetOr(profile, "experiences", JArr([]))) == Some(r.numExperiences)
      && Len(GetOr(profile, "education", JArr([]))) == Some(r.numEducation)
      && Len(GetOr(profile, "skills", JArr([]))) == Some(r.numSkills)
  {
  }

  /** The summaries of the files that do not raise, in file order. */
  function Summaries(dir: string, files: seq<DirEntry>): seq<Summary> {
    Kept(MapAll(files, SummaryIn(dir)))
  }

  function SummaryName(s: Summary): Json {
    s.name
  }

  /** The dictionary `build_profile_index` returns; `last_updated` is the clock reading it is given. */
  datatype Index = Index(totalProfiles: nat, lastUpdated: string, profiles: seq<Summary>)

  function IndexOf(dir: string, listing: Option<seq<DirEntry>>, lastUpdated: string): Index {
    match listing
    case None => Index(0, lastUpdated, [])
    case Some(entries) =>
      var ps := Summaries(dir, ParsedFiles(entries));
      Index(|ps|, lastUpdated, SortByName(ps, SummaryName))
  }

  /**
   * The index of an existing directory counts its profiles, holds exactly the
   * summaries of the parsed-data files that do not raise, and is ordered by
   * name when the names are strings.
   */
  lemma IndexContents(dir: string, entries: seq<DirEntry>, lastUpdated: string, s: Summary)
    ensures var x := IndexOf(dir, Some(entries), lastUpdated);
      && x.totalProfiles == |x.profiles|
      && (s in x.profiles <==> exists e :: e in entries && EndsWith(e.name, PARSED_SUFFIX) && SummaryOf(dir, e) == Some(s))
      && (AllNamed(x.profiles, SummaryName) ==> Ordered(x.profiles, SummaryName))
  {
    var ps := Summaries(dir, ParsedFiles(entries));
    var x := IndexOf(dir, Some(entries), lastUpdated);
    SummariesListed(dir, entries, s);
    assert s in x.profiles <==> s in multiset(ps);
    if AllNamed(x.profiles, SummaryName) {
      SortedNamed(ps, SummaryName);
    }
  }

  /** The summaries gathered are those of the parsed-data files that do not raise. */
  lemma SummariesListed(dir: string, entries: seq<DirEntry>, s: Summary)
    ensures s in Summaries(dir, ParsedFiles(entries)) <==>
      exists e :: e in entries && EndsWith(e.name, PARSED_SUFFIX) && SummaryOf(dir, e) == Some(s)
  {
    KeptListed(entries, SummaryIn(dir), s);
    assert forall e :: SummaryIn(dir)(e) == SummaryOf(dir, e);
  }

  /** A record is kept from a listing exactly when a parsed-data file of the listing yields it. */
  lemma KeptListed<T>(entries: seq<DirEntry>, f: DirEntry -> Option<T>, x: T)
    ensures x in Kept(MapAll(ParsedFiles(entries), f)) <==>
      exists e :: e in entries && EndsWith(e.name, PARSED_SUFFIX) && f(e) == Some(x)
  {
    var files := ParsedFiles(entries);
    var os := MapAll(files, f);
    KeptFrom(os, x);
    if exists e :: e in entries && EndsWith(e.name, PARSED_SUFFIX) && f(e) == Some(x) {
      var e :| e in entries && EndsWith(e.name, PARSED_SUFFIX) && f(e) == Some(x);
      assert e in files;
      var i :| 0 <= i < |files| && files[i] == e;
      assert os[i] == Some(x);
    }
    if x in Kept(os) {
      var i :| 0 <= i < |os| && os[i] == Some(x);
      assert files[i] in files;
    }
  }

  /** A record is merged exactly when a parsed-data file of the listing yields it. */
  lemma EmployeesListed(entries: seq<DirEntry>, companyName: string, e: Employee)
    ensures e in MergeOf(Some(entries), companyName).allEmployees <==>
      exists f :: f in entries && EndsWith(f.name, PARSED_SUFFIX) && EmployeeOf(f.content, companyName) == Taken(e)
  {
    var all := Employees(ParsedFiles(entries), companyName);
    KeptListed(entries, RecordOf(companyName), e);
    assert forall f :: RecordOf(companyName)(f) == Some(e) <==> EmployeeOf(f.content, companyName) == Taken(e);
    assert e in MergeOf(Some(entries), companyName).allEmployees <==> e in multiset(all);
  }

  // ---------------------------------------------------------------- the loops

  /** The experience loop of `merge_profiles_by_company`. */
  method ScanExperiences(exps: seq<Json>, needle: string) returns (r: Option<Scan>)
    ensures r == ScanOf(exps, needle)
  {
    ghost var marks := Marks(exps, needle);
    var matched: seq<Json> := [];
    var current := false;
    var i := 0;
    while i < |exps|
      invariant 0 <= i <= |exps|
      invariant Combine(exps[..i], marks[..i]) == Some(Scan(matched, current))
    {
      assert exps[..i + 1][..i] == exps[..i] && marks[..i + 1][..i] == marks[..i];
      var company := LoweredField(exps[i], "company");
      if company.None? {
        CombineRaises(exps, marks);
        return None;
      }
      if Contains(company.value, needle) {
        matched := matched + [exps[i]];
        var range := LoweredField(exps[i], "date_range");
        if range.None? {
          CombineRaises(exps, marks);
          return None;
        }
        if Contains(range.value, "present") {
          current := true;
        }
      }
      i := i + 1;
    }
    assert exps[..i] == exps && marks[..i] == marks;
    r := Some(Scan(matched, current));
  }

  /** The file loop of `merge_profiles_by_company`, with the lists appended to and then sorted in place. */
  method MergeProfilesByCompany(listing: Option<seq<DirEntry>>, companyName: string) returns (d: CompanyData)
    ensures d == MergeOf(listing, companyName)
  {
    if listing.None? {
      return CompanyData(companyName, 0, [], [], [], None, None);
    }
    var all, current, past := CollectEmployees(ParsedFiles(listing.value), companyName);
    d := CompanyData(companyName, |all|, current, past, all, Some(|current|), Some(|past|));
    if AllNamed(all, EmployeeName) {
      d := d.(allEmployees := SortByName(all, EmployeeName));
      d := d.(currentEmployees := SortByName(current, EmployeeName));
      d := d.(pastEmployees := SortByName(past, EmployeeName));
    }
  }

  /** The loop over the files: each taken record goes to the full list and to the current or the past one. */
  method CollectEmployees(files: seq<DirEntry>, companyName: string)
    returns (all: seq<Employee>, current: seq<Employee>, past: seq<Employee>)
    ensures all == Employees(files, companyName)
    ensures current == Select(all, true) && past == Select(all, false)
  {
    all, current, past := [], [], [];
    var i := 0;
    while i < |files|
      invariant 0 <= i <= |files|
      invariant all == Employees(files[..i], companyName)
      invariant current == Select(all, true) && past == Select(all, false)
    {
      var o := ProcessEmployee(files[i].content, companyName);
      EmployeesSnoc(files, companyName, i);
      if o.Taken? {
        SelectSnoc(all, o.record, true);
        SelectSnoc(all, o.record, false);
        all := all + [o.record];
        if o.record.isCurrent {
          current := current + [o.record];
        } else {
          past := past + [o.record];
        }
      }
      assert all == Employees(files[..i + 1], companyName);
      i := i + 1;
    }
    assert files[..i] == files;
  }

  lemma EmployeesSnoc(files: seq<DirEntry>, companyName: string, i: nat)
    requires i < |files|
    ensures var o := EmployeeOf(files[i].content, companyName);
      Employees(files[..i + 1], companyName) ==
        Employees(files[..i], companyName) + (if o.Taken? then [o.record] else [])
  {
    var o := EmployeeOf(files[i].content, companyName);
    var r := if o.Taken? then Some(o.record) else None;
    MapAllSnoc(files, RecordOf(companyName), i);
    KeptSnoc(MapAll(files[..i], RecordOf(companyName)), r);
  }

  /** One pass of the file loop of `merge_profiles_by_company`. */
  method ProcessEmployee(content: Option<Json>, companyName: string) returns (o: Outcome<Employee>)
    ensures o == EmployeeOf(content, companyName)
  {
    if content.None? || !content.value.JObj? {
      return Skipped;
    }
    var profile := content.value.members;
    var exps := Iter(GetOr(profile, "experiences", JArr([])));
    if exps.None? {
      return Skipped;
    }
    var scan := ScanExperiences(exps.value, Lower(companyName));
    if scan.None? {
      return Skipped;
    }
    if |scan.value.matched| == 0 {
      return Unmatched;
    }
    var meta := DictField(profile, "metadata");
    var basic := DictField(profile, "basic_info");
    if meta.None? || basic.None? {
      return Skipped;
    }
    o := Taken(Employee(
      GetOr(meta.value, "profile_name", JStr("Unknown")), GetOr(meta.value, "profile_url", JStr("")),
      GetOr(basic.value, "headline", JStr("")), GetOr(basic.value, "location", JStr("")),
      scan.value.matched, scan.value.current,
      GetOr(profile, "education", JArr([])), GetOr(profile, "skills", JArr([]))));
  }

  /** The file loop of `build_profile_index`, then the count and the sort. */
  method BuildProfileIndex(dir: string, listing: Option<seq<DirEntry>>, lastUpdated: string) returns (x: Index)
    ensures x == IndexOf(dir, listing, lastUpdated)
  {
    if listing.None? {
      return Index(0, lastUpdated, []);
    }
    var profiles := CollectSummaries(dir, ParsedFiles(listing.value));
    x := Index(|profiles|, lastUpdated, SortByName(profiles, SummaryName));
  }

  /** The loop over the files, appending each summary that does not raise. */
  method CollectSummaries(dir: string, files: seq<DirEntry>) returns (profiles: seq<Summary>)
    ensures profiles == Summaries(dir, files)
  {
    profiles := [];
    var i := 0;
    while i < |files|
      invariant 0 <= i <= |files|
      invariant profiles == Summaries(dir, files[..i])
    {
      var s := SummaryOf(dir, files[i]);
      SummariesSnoc(dir, files, i);
      if s.Some? {
        profiles := profiles + [s.value];
      }
      assert profiles == Summaries(dir, files[..i + 1]);
      i := i + 1;
    }
    assert files[..i] == files;
  }

  lemma SummariesSnoc(dir: string, files: seq<DirEntry>, i: nat)
    requires i < |files|
    ensures var s := SummaryOf(dir, files[i]);
      Summaries(dir, files[..i + 1]) == Summaries(dir, files[..i]) + (if s.Some? then [s.value] else [])
  {
    var s := SummaryOf(dir, files[i]);
    MapAllSnoc(files, SummaryIn(dir), i);
    KeptSnoc(MapAll(files[..i], SummaryIn(dir)), s);
  }
}
