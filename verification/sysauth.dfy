/** The session token in the login response's Set-Cookie values, as the
    authenticator cuts it out with the regular expression
    `sysauth=([^;]+)` (a textual search, not cookie parsing). */
module Sysauth {
  import opened Common

  /** The literal the login code searches for, and the prefix of the
      Cookie header it sends back. */
  const CookieName: string := "sysauth="

  /** The pattern matches at position `i`: the literal, then at least one
      character other than ';'. */
  predicate MatchesAt(cookie: string, i: nat) {
    i + |CookieName| < |cookie|
    && cookie[i..i + |CookieName|] == CookieName
    && cookie[i + |CookieName|] != ';'
  }

  /** `t` is a run of non-';' characters starting at `start` that cannot be
      extended: it ends at the end of the text or just before a ';'. */
  ghost predicate IsMaximalRun(cookie: string, start: nat, t: string) {
    && start + |t| <= |cookie|
    && cookie[start..start + |t|] == t
    && (forall k :: 0 <= k < |t| ==> t[k] != ';')
    && (start + |t| == |cookie| || cookie[start + |t|] == ';')
  }

  /** End of the longest run of non-';' characters that starts at `j`
      (the greedy `[^;]+`). */
  function RunEnd(s: string, j: nat): (e: nat)
    requires j <= |s|
    ensures j <= e <= |s|
    ensures forall k :: j <= k < e ==> s[k] != ';'
    ensures e == |s| || s[e] == ';'
    decreases |s| - j
  {
    if j == |s| || s[j] == ';' then j else RunEnd(s, j + 1)
  }

  /** The leftmost position at or after `from` where the pattern matches
      (how `re.search` scans). */
  function FirstMatchFrom(cookie: string, from: nat): (r: Option<nat>)
    requires from <= |cookie|
    ensures r.Some? ==> from <= r.value < |cookie| && MatchesAt(cookie, r.value)
    ensures r.Some? ==> forall j: nat :: from <= j < r.value ==> !MatchesAt(cookie, j)
    ensures r.None? ==> forall j: nat :: from <= j ==> !MatchesAt(cookie, j)
    decreases |cookie| - from
  {
    if from == |cookie| then None
    else if MatchesAt(cookie, from) then Some(from)
    else FirstMatchFrom(cookie, from + 1)
  }

  /** `re.search(r'sysauth=([^;]+)', cookie).group(1)`, or None when the
      search finds nothing. */
  function SysauthToken(cookie: string): (r: Option<string>)
    ensures r.Some? ==> r.value != [] && forall k :: 0 <= k < |r.value| ==> r.value[k] != ';'
  {
    match FirstMatchFrom(cookie, 0)
    case None => None
    case Some(i) => Some(cookie[i + |CookieName|..RunEnd(cookie, i + |CookieName|)])
  }

  /** The search finds nothing exactly when the pattern matches nowhere. */
  lemma SearchFailsIffNoMatch(cookie: string)
    ensures SysauthToken(cookie).None? <==> forall i: nat :: !MatchesAt(cookie, i)
  {
    var m := FirstMatchFrom(cookie, 0);
    if m.Some? {
      assert MatchesAt(cookie, m.value);
    }
  }

  /** A token found is the group at the leftmost match, and it is the
      longest run of characters other than ';' there. */
  lemma SearchIsLeftmostMaximal(cookie: string)
    requires SysauthToken(cookie).Some?
    ensures exists i: nat ::
      && MatchesAt(cookie, i)
      && (forall j: nat :: j < i ==> !MatchesAt(cookie, j))
      && IsMaximalRun(cookie, i + |CookieName|, SysauthToken(cookie).value)
  {
    var i := FirstMatchFrom(cookie, 0).value;
    assert IsMaximalRun(cookie, i + |CookieName|, SysauthToken(cookie).value);
  }

  /** The guard `'sysauth=' in cookie` in front of the search never rejects
      a cookie the search would match. */
  lemma GuardImplied(cookie: string)
    ensures SysauthToken(cookie).Some? ==> Contains(cookie, CookieName)
  {
    var m := FirstMatchFrom(cookie, 0);
    if m.Some? {
      ContainsAt(cookie, CookieName, m.value);
    }
  }

  /** The token of the first Set-Cookie value, in header order, that
      contains `sysauth=` and matches the pattern. */
  function FirstToken(setCookies: seq<string>): (r: Option<string>)
    ensures r.None? <==> forall k :: 0 <= k < |setCookies| ==> SysauthToken(setCookies[k]).None?
    ensures r.Some? ==> r.value != [] && forall k :: 0 <= k < |r.value| ==> r.value[k] != ';'
  {
    if setCookies == [] then None
    else
      var c := setCookies[0];
      if Contains(c, CookieName) && SysauthToken(c).Some? then SysauthToken(c)
      else
        GuardImplied(c);
        var rest := FirstToken(setCookies[1..]);
        assert forall k :: 1 <= k < |setCookies| ==> setCookies[k] == setCookies[1..][k - 1];
        rest
  }

  /** The token found is that of some value, and every value before it
      has none. */
  lemma {:induction false} FirstTokenIsFirst(setCookies: seq<string>)
    requires FirstToken(setCookies).Some?
    ensures exists k :: (0 <= k < |setCookies|
      && SysauthToken(setCookies[k]) == FirstToken(setCookies)
      && forall j :: 0 <= j < k ==> SysauthToken(setCookies[j]).None?)
  {
    var c := setCookies[0];
    GuardImplied(c);
    if SysauthToken(c).Some? {
      assert SysauthToken(setCookies[0]) == FirstToken(setCookies);
    } else {
      var tail := setCookies[1..];
      FirstTokenIsFirst(tail);
      var k :| 0 <= k < |tail| && SysauthToken(tail[k]) == FirstToken(tail)
        && forall j :: 0 <= j < k ==> SysauthToken(tail[j]).None?;
      assert setCookies[k + 1] == tail[k];
      assert forall j :: 1 <= j < k + 1 ==> setCookies[j] == tail[j - 1];
    }
  }

  /** A cookie that starts with `sysauth=`, then a non-empty token free of
      ';', then either nothing or a ';' yields exactly that token. */
  lemma {:induction false} TokenRoundTrip(t: string, rest: string)
    requires t != [] && forall k :: 0 <= k < |t| ==> t[k] != ';'
    requires rest == [] || rest[0] == ';'
    ensures SysauthToken(CookieName + t + rest) == Some(t)
  {
    var s := CookieName + t + rest;
    var n := |CookieName|;
    assert s[0..n] == CookieName;
    assert s[n] == t[0];
    assert MatchesAt(s, 0);
    var e := RunEnd(s, n);
    assert s[n..n + |t|] == t;
    assert e == n + |t|;
  }

  /** A typical LuCI login cookie, with a path attribute after the token. */
  lemma ExampleCookie()
    ensures SysauthToken("sysauth=abc123; Path=/") == Some("abc123")
  {
    assert "sysauth=abc123; Path=/" == CookieName + "abc123" + "; Path=/";
    TokenRoundTrip("abc123", "; Path=/");
  }
}
