/**
 * The redirect URL unit tests expect, which depends on the installed
 * Django version: releases before 1.9 redirect to absolute URLs, later
 * ones to relative URLs with a leading slash.
 *
 * `django.VERSION` is a parameter: the sequence of its numeric components.
 */
module TestUtil {

  /** The host name absolute redirect URLs use unless another is given. */
  const DefaultHostname: string := "testserver"

  /** The first release that redirects to relative URLs. */
  const RelativeRedirectsSince: seq<int> := [1, 9]

  /** Python's `<` on tuples: the first differing component decides; when
      one tuple is a prefix of the other, the shorter is smaller. */
  predicate TupleLess(a: seq<int>, b: seq<int>): (less: bool)
    ensures |a| < |b| && a == b[..|a|] ==> less
    ensures less && a != [] ==> b != [] && a[0] <= b[0]
    decreases |a|
  {
    if a == [] then b != []
    else if b == [] then false
    else if a[0] != b[0] then a[0] < b[0]
    else TupleLess(a[1..], b[1..])
  }

  /** The tuple order is irreflexive. */
  lemma {:induction false} TupleLessIrreflexive(a: seq<int>)
    ensures !TupleLess(a, a)
    decreases |a|
  {
    if a != [] {
      TupleLessIrreflexive(a[1..]);
    }
  }

  /** The tuple order is transitive. */
  lemma {:induction false} TupleLessTransitive(a: seq<int>, b: seq<int>, c: seq<int>)
    requires TupleLess(a, b) && TupleLess(b, c)
    ensures TupleLess(a, c)
    decreases |a|
  {
    if a != [] && b != [] && c != [] && a[0] == b[0] && b[0] == c[0] {
      TupleLessTransitive(a[1..], b[1..], c[1..]);
    }
  }

  /** Any two different tuples are ordered one way or the other. */
  lemma {:induction false} TupleLessTotal(a: seq<int>, b: seq<int>)
    requires a != b
    ensures TupleLess(a, b) || TupleLess(b, a)
    decreases |a|
  {
    if a != [] && b != [] && a[0] == b[0] {
      assert a == [a[0]] + a[1..] && b == [b[0]] + b[1..];
      TupleLessTotal(a[1..], b[1..]);
    }
  }

  /** Whether the installed version predates relative redirects. */
  predicate RedirectsAbsolute(djangoVersion: seq<int>): (absolute: bool)
    ensures djangoVersion != [] && djangoVersion[0] != 1 ==> (absolute <==> djangoVersion[0] < 1)
  {
    TupleLess(djangoVersion, RelativeRedirectsSince)
  }

  /** Versions before 1.9 are those with a major version below 1, or major
      version 1 and a minor version below 9 (or none); components after
      the minor version never matter. */
  lemma RedirectsAbsoluteVersions(djangoVersion: seq<int>)
    ensures RedirectsAbsolute(djangoVersion) <==>
      djangoVersion == [] || djangoVersion[0] < 1
      || (djangoVersion[0] == 1 && (|djangoVersion| == 1 || djangoVersion[1] < 9))
  {
    var v := djangoVersion;
    if v != [] && v[0] == 1 {
      assert RelativeRedirectsSince[1..] == [9];
      assert RedirectsAbsolute(v) == TupleLess(v[1..], [9]);
      if |v| >= 2 {
        assert v[1..][0] == v[1];
        assert v[1] == 9 ==> TupleLess(v[1..], [9]) == TupleLess(v[1..][1..], []);
      }
    }
  }

  predicate StartsWithSlash(url: string) {
    |url| > 0 && url[0] == '/'
  }

  predicate EndsWith(s: string, suffix: string) {
    |suffix| <= |s| && s[|s| - |suffix|..] == suffix
  }

  /** The redirect URL a test expects for `relativeUrl`. */
  function ExpectedRedirectUrl(djangoVersion: seq<int>, relativeUrl: string, hostname: string := DefaultHostname): (url: string)
    ensures EndsWith(url, relativeUrl)
  {
    if RedirectsAbsolute(djangoVersion) then
      if StartsWithSlash(relativeUrl) then "http://" + hostname + relativeUrl else relativeUrl
    else
      if StartsWithSlash(relativeUrl) then relativeUrl else "/" + relativeUrl
  }

  /** From 1.9 on, a URL with a leading slash is kept and any other gets one. */
  lemma RelativeRedirect(djangoVersion: seq<int>, relativeUrl: string, hostname: string)
    requires !RedirectsAbsolute(djangoVersion)
    ensures StartsWithSlash(relativeUrl) ==> ExpectedRedirectUrl(djangoVersion, relativeUrl, hostname) == relativeUrl
    ensures !StartsWithSlash(relativeUrl) ==> ExpectedRedirectUrl(djangoVersion, relativeUrl, hostname) == "/" + relativeUrl
    ensures StartsWithSlash(ExpectedRedirectUrl(djangoVersion, relativeUrl, hostname))
  {
  }

  /** From 1.9 on, normalising an expected URL again changes nothing. */
  lemma RelativeRedirectIdempotent(djangoVersion: seq<int>, relativeUrl: string, hostname: string)
    requires !RedirectsAbsolute(djangoVersion)
    ensures var once := ExpectedRedirectUrl(djangoVersion, relativeUrl, hostname);
      ExpectedRedirectUrl(djangoVersion, once, hostname) == once
  {
    RelativeRedirect(djangoVersion, relativeUrl, hostname);
  }

  /** Before 1.9, a URL with a leading slash becomes absolute on the host;
      any other is kept. */
  lemma AbsoluteRedirect(djangoVersion: seq<int>, relativeUrl: string, hostname: string)
    requires RedirectsAbsolute(djangoVersion)
    ensures StartsWithSlash(relativeUrl) ==>
      ExpectedRedirectUrl(djangoVersion, relativeUrl, hostname) == "http://" + hostname + relativeUrl
    ensures !StartsWithSlash(relativeUrl) ==> ExpectedRedirectUrl(djangoVersion, relativeUrl, hostname) == relativeUrl
  {
  }

  /** Without a host name, absolute redirects go to `http://testserver`. */
  lemma DefaultHostRedirect(djangoVersion: seq<int>, relativeUrl: string)
    requires RedirectsAbsolute(djangoVersion) && StartsWithSlash(relativeUrl)
    ensures ExpectedRedirectUrl(djangoVersion, relativeUrl) == "http://testserver" + relativeUrl
  {
  }

  /** Django 1.8 redirects to absolute URLs; 1.9, 1.11 and 2.0 to relative ones. */
  lemma KnownVersions()
    ensures RedirectsAbsolute([1, 8, 18])
    ensures !RedirectsAbsolute([1, 9]) && !RedirectsAbsolute([1, 11, 29]) && !RedirectsAbsolute([2, 0, 0])
  {
    RedirectsAbsoluteVersions([1, 8, 18]);
    RedirectsAbsoluteVersions([1, 9]);
    RedirectsAbsoluteVersions([1, 11, 29]);
    RedirectsAbsoluteVersions([2, 0, 0]);
  }
}
