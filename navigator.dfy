/**
 * The string logic of services/linked_navigator/linkedin_navigator.py: the
 * anchored profile-URL prefix `https?://(www.)?linkedin.com/in/<non-slash+>`
 * written as a string function, section URLs, and the driver-mode choice of
 * the constructor. The browser-driving methods are not part of this model.
 */
module LinkedinNavigator {
  import opened Wrappers

  const SCHEMES: seq<string> := ["https://", "http://"]
  const HOSTS: seq<string> := ["www.linkedin.com/in/", "linkedin.com/in/"]

  predicate IsPrefix(p: string, s: string) {
    |p| <= |s| && s[..|p|] == p
  }

  /** Whether `s` holds `w` at position `i`. */
  predicate At(s: string, i: nat, w: string) {
    i + |w| <= |s| && s[i..i + |w|] == w
  }

  /** The length of the run of non-'/' characters of `s` starting at `i` (what `[^/]+` consumes greedily). */
  function SlugLength(s: string, i: nat): (r: nat)
    requires i <= |s|
    ensures i + r <= |s|
    ensures forall k :: i <= k < i + r ==> s[k] != '/'
    ensures i + r == |s| || s[i + r] == '/'
    decreases |s| - i
  {
    if i == |s| || s[i] == '/' then 0 else 1 + SlugLength(s, i + 1)
  }

  /** The characters `https?://` match at the start of `s`; at most one scheme matches. */
  function SchemeLength(s: string): (r: Option<nat>)
    ensures r.Some? ==> exists i :: 0 <= i < |SCHEMES| && At(s, 0, SCHEMES[i]) && r.value == |SCHEMES[i]|
    ensures r.None? ==> forall i :: 0 <= i < |SCHEMES| ==> !At(s, 0, SCHEMES[i])
  {
    if At(s, 0, SCHEMES[0]) then Some(|SCHEMES[0]|)
    else if At(s, 0, SCHEMES[1]) then Some(|SCHEMES[1]|)
    else None
  }

  /** The characters `(www.)?linkedin.com/in/` match at position `i`; at most one host matches. */
  function HostLength(s: string, i: nat): (r: Option<nat>)
    ensures r.Some? ==> exists j :: 0 <= j < |HOSTS| && At(s, i, HOSTS[j]) && r.value == |HOSTS[j]|
    ensures r.None? ==> forall j :: 0 <= j < |HOSTS| ==> !At(s, i, HOSTS[j])
  {
    if At(s, i, HOSTS[0]) then Some(|HOSTS[0]|)
    else if At(s, i, HOSTS[1]) then Some(|HOSTS[1]|)
    else None
  }

  /** The length of the text group 1 of the anchored match captures, or None when the pattern does not match. */
  function HeadLength(url: string): Option<nat> {
    match SchemeLength(url)
    case None => None
    case Some(a) =>
      match HostLength(url, a)
      case None => None
      case Some(b) =>
        var n := SlugLength(url, a + b);
        if n == 0 then None else Some(a + b + n)
  }

  /** `_normalize_profile_url`: the matched prefix, or the URL itself when the pattern does not match. */
  function NormalizeProfileUrl(url: string): (r: string)
    ensures IsPrefix(r, url)
  {
    match HeadLength(url)
    case Some(n) => url[..n]
    case None => url
  }

  /**
   * `p` is a profile prefix of `url`: a scheme, a host and a non-empty run of
   * non-'/' characters, followed in `url` by '/' or by the end.
   */
  predicate ProfilePrefix(url: string, p: string) {
    && IsPrefix(p, url)
    && (|p| == |url| || url[|p|] == '/')
    && ProfileShaped(p)
  }

  /** `p` is a scheme, a host and a non-empty run of non-'/' characters. */
  predicate ProfileShaped(p: string) {
    exists i, j :: 0 <= i < |SCHEMES| && 0 <= j < |HOSTS| && Shaped(p, SCHEMES[i], HOSTS[j])
  }

  predicate Shaped(p: string, scheme: string, host: string) {
    && |p| > |scheme| + |host|
    && At(p, 0, scheme)
    && At(p, |scheme|, host)
    && forall k :: |scheme| + |host| <= k < |p| ==> p[k] != '/'
  }

  lemma AtPrefix(url: string, p: string, i: nat, w: string)
    requires IsPrefix(p, url) && i + |w| <= |p|
    ensures At(p, i, w) <==> At(url, i, w)
  {
    assert p[i..i + |w|] == url[i..i + |w|];
  }

  /** Whenever the pattern matches, the normalised URL is a profile prefix of the input. */
  lemma {:induction false} NormalizeSound(url: string)
    requires HeadLength(url).Some?
    ensures ProfilePrefix(url, NormalizeProfileUrl(url))
  {
    var a := SchemeLength(url).value;
    var b := HostLength(url, a).value;
    var n := HeadLength(url).value;
    var p := url[..n];
    var i :| 0 <= i < |SCHEMES| && At(url, 0, SCHEMES[i]) && a == |SCHEMES[i]|;
    var j :| 0 <= j < |HOSTS| && At(url, a, HOSTS[j]) && b == |HOSTS[j]|;
    AtPrefix(url, p, 0, SCHEMES[i]);
    AtPrefix(url, p, a, HOSTS[j]);
    assert Shaped(p, SCHEMES[i], HOSTS[j]);
  }

  /** A profile prefix is unique: it is what normalisation returns. */
  lemma {:induction false} NormalizeComplete(url: string, p: string)
    requires ProfilePrefix(url, p)
    ensures NormalizeProfileUrl(url) == p
  {
    var i, j :| 0 <= i < |SCHEMES| && 0 <= j < |HOSTS| && Shaped(p, SCHEMES[i], HOSTS[j]);
    var sl, hl := |SCHEMES[i]|, |HOSTS[j]|;
    AtPrefix(url, p, 0, SCHEMES[i]);
    AtPrefix(url, p, sl, HOSTS[j]);
    SchemeDetermined(url, i);
    HostDetermined(url, sl, j);
    // And the slug runs exactly to the end of `p`.
    SlugUpTo(url, p, sl + hl);
  }

  /** The scheme at the start is determined: "https://" and "http://" differ at index 4. */
  lemma SchemeDetermined(url: string, i: nat)
    requires i < |SCHEMES| && At(url, 0, SCHEMES[i])
    ensures SchemeLength(url) == Some(|SCHEMES[i]|)
  {
    if i == 1 {
      assert url[4] == SCHEMES[1][4] == ':';
      assert !At(url, 0, SCHEMES[0]) by { assert SCHEMES[0][4] == 's'; }
    }
  }

  /** So is the host: "www.…" and "linkedin.…" differ at their first character. */
  lemma HostDetermined(url: string, a: nat, j: nat)
    requires j < |HOSTS| && At(url, a, HOSTS[j])
    ensures HostLength(url, a) == Some(|HOSTS[j]|)
  {
    if j == 1 {
      assert url[a] == HOSTS[1][0] == 'l';
      assert !At(url, a, HOSTS[0]) by { assert HOSTS[0][0] == 'w'; }
    }
  }

  /** Inside a profile prefix the slug, from any position on, ends where the prefix ends. */
  lemma {:induction false} SlugUpTo(url: string, p: string, start: nat)
    requires IsPrefix(p, url) && start <= |p| && (|p| == |url| || url[|p|] == '/')
    requires forall k :: start <= k < |p| ==> p[k] != '/'
    ensures SlugLength(url, start) == |p| - start
    decreases |p| - start
  {
    if start < |p| {
      assert url[start] == p[start];
      SlugUpTo(url, p, start + 1);
    }
  }

  /** Without a profile prefix the URL is returned unchanged. */
  lemma NormalizeUnmatched(url: string)
    requires forall p :: !ProfilePrefix(url, p)
    ensures NormalizeProfileUrl(url) == url
  {
    if HeadLength(url).Some? {
      NormalizeSound(url);
    }
  }

  /** A normalised URL normalises to itself. */
  lemma NormalizeIdempotent(url: string)
    ensures NormalizeProfileUrl(NormalizeProfileUrl(url)) == NormalizeProfileUrl(url)
  {
    var r := NormalizeProfileUrl(url);
    if HeadLength(url).Some? {
      NormalizeSound(url);
      assert ProfilePrefix(r, r) by {
        assert r[..|r|] == r;
        var i, j :| 0 <= i < |SCHEMES| && 0 <= j < |HOSTS| && Shaped(r, SCHEMES[i], HOSTS[j]);
      }
      NormalizeComplete(r, r);
    }
  }

  /** `_build_section_url`. */
  function BuildSectionUrl(profileUrl: string, section: string): string {
    profileUrl + "/details/" + section + "/"
  }

  /**
   * A section URL built from a normalised profile URL normalises back to that
   * profile URL, and the section can be read back off it.
   */
  lemma {:induction false} SectionUrlRoundTrip(url: string, section: string)
    requires HeadLength(url).Some?
    ensures var p := NormalizeProfileUrl(url);
      var s := BuildSectionUrl(p, section);
      && NormalizeProfileUrl(s) == p
      && s[|p| + 9..|s| - 1] == section
  {
    var p := NormalizeProfileUrl(url);
    var s := BuildSectionUrl(p, section);
    NormalizeSound(url);
    assert s[..|p|] == p;
    assert s[|p|] == '/';
    var i, j :| 0 <= i < |SCHEMES| && 0 <= j < |HOSTS| && Shaped(p, SCHEMES[i], HOSTS[j]);
    assert ProfilePrefix(s, p);
    NormalizeComplete(s, p);
  }

  // ---------------------------------------------------------------- constructor

  datatype DriverMode = ProfileMode | CookiesMode | Basic

  /** Python truthiness of an optional path: given and non-empty. */
  predicate Given(path: Option<string>) {
    path.Some? && |path.value| > 0
  }

  /** The driver mode `__init__` selects: a profile path wins over a cookies file. */
  function SelectDriverMode(profilePath: Option<string>, cookiesFile: Option<string>): (r: DriverMode)
    ensures r == ProfileMode <==> Given(profilePath)
    ensures r == CookiesMode <==> !Given(profilePath) && Given(cookiesFile)
    ensures r == Basic <==> !Given(profilePath) && !Given(cookiesFile)
  {
    if Given(profilePath) then ProfileMode
    else if Given(cookiesFile) then CookiesMode
    else Basic
  }

  /** The fields `__init__` assigns; the HTML stores start empty and nothing is authenticated. */
  datatype Navigator = Navigator(
    profileUrl: string, headless: bool, cookiesFile: Option<string>, profilePath: Option<string>,
    driverMode: DriverMode, mainProfileHtml: string, experienceHtml: string,
    educationHtml: string, skillsHtml: string, isAuthenticated: bool)

  function NewNavigator(profileUrl: string, headless: bool, cookiesFile: Option<string>, profilePath: Option<string>): (r: Navigator)
    ensures IsPrefix(r.profileUrl, profileUrl)
    ensures NormalizeProfileUrl(r.profileUrl) == r.profileUrl
    ensures r.driverMode == SelectDriverMode(profilePath, cookiesFile)
    ensures !r.isAuthenticated && r.mainProfileHtml == "" && r.experienceHtml == ""
  {
    NormalizeIdempotent(profileUrl);
    Navigator(NormalizeProfileUrl(profileUrl), headless, cookiesFile, profilePath,
      SelectDriverMode(profilePath, cookiesFile), "", "", "", "", false)
  }
}
