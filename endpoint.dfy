/** How the client derives its push endpoint from the configured API base
    URL: the first "http" is replaced by "ws" (JavaScript's
    `String.prototype.replace` with a string pattern) and "/ws" is appended. */
module Endpoint {
  import opened Wrappers

  const DefaultApiUrl: string := "http://localhost:3000"

  /** `s` has `pat` at position `i`. */
  predicate OccursAt(s: string, pat: string, i: nat) {
    i + |pat| <= |s| && s[i..i + |pat|] == pat
  }

  /** The first position at or after `from` where `pat` occurs. */
  function FindFrom(s: string, pat: string, from: nat): (r: Option<nat>)
    requires from <= |s|
    ensures r.Some? ==> from <= r.value && OccursAt(s, pat, r.value)
    ensures r.Some? ==> forall j :: from <= j < r.value ==> !OccursAt(s, pat, j)
    ensures r.None? ==> forall j :: from <= j <= |s| ==> !OccursAt(s, pat, j)
    decreases |s| - from
  {
    if OccursAt(s, pat, from) then Some(from)
    else if from == |s| then None
    else FindFrom(s, pat, from + 1)
  }

  /** `s.indexOf(pat)`, as an option. */
  function IndexOf(s: string, pat: string): (r: Option<nat>)
    ensures r.Some? ==> OccursAt(s, pat, r.value) && forall j :: 0 <= j < r.value ==> !OccursAt(s, pat, j)
    ensures r.None? ==> forall j :: 0 <= j <= |s| ==> !OccursAt(s, pat, j)
  {
    FindFrom(s, pat, 0)
  }

  /** `s.replace(pat, rep)`: only the first occurrence is replaced. */
  function ReplaceFirst(s: string, pat: string, rep: string): (r: string)
    ensures IndexOf(s, pat).None? ==> r == s
    ensures IndexOf(s, pat).Some? ==>
      var i := IndexOf(s, pat).value;
      r == s[..i] + rep + s[i + |pat|..] && |r| == |s| - |pat| + |rep|
  {
    match IndexOf(s, pat)
    case None => s
    case Some(i) => s[..i] + rep + s[i + |pat|..]
  }

  /** `process.env.NEXT_PUBLIC_API_URL || "http://localhost:3000"`: an unset
      or empty variable selects the default. */
  function ApiUrl(env: Option<string>): (u: string)
    ensures u != ""
    ensures env.Some? && env.value != "" ==> u == env.value
    ensures env.None? || env.value == "" ==> u == DefaultApiUrl
  {
    if env.None? || env.value == "" then DefaultApiUrl else env.value
  }

  /** The endpoint the constructor stores in `url`. */
  function Url(env: Option<string>): (u: string)
    ensures |u| >= 3 && u[|u| - 3..] == "/ws"
  {
    ReplaceFirst(ApiUrl(env), "http", "ws") + "/ws"
  }

  /** A base URL that begins with "http" becomes the same URL beginning with
      "ws" (so "https" becomes "wss"), with "/ws" appended; later
      occurrences of "http" are untouched. */
  lemma HttpSchemeBecomesWs(env: Option<string>)
    requires |ApiUrl(env)| >= 4 && ApiUrl(env)[..4] == "http"
    ensures Url(env) == "ws" + ApiUrl(env)[4..] + "/ws"
  {
    assert OccursAt(ApiUrl(env), "http", 0);
  }

  /** A base URL without "http" is kept as it is, with "/ws" appended. */
  lemma NoHttpKept(base: string)
    requires base != ""
    requires forall j :: 0 <= j <= |base| ==> !OccursAt(base, "http", j)
    ensures Url(Some(base)) == base + "/ws"
  {
  }

  /** Whatever the base, the endpoint ends with "/ws". */
  lemma EndsWithWsPath(env: Option<string>)
    ensures var u := Url(env); |u| >= 3 && u[|u| - 3..] == "/ws"
  {
  }

  /** A base "http" + rest gives "ws" + rest + "/ws". */
  lemma PrefixedUrl(env: Option<string>, rest: string)
    requires ApiUrl(env) == "http" + rest
    ensures Url(env) == "ws" + rest + "/ws"
  {
    assert ApiUrl(env)[..4] == "http" && ApiUrl(env)[4..] == rest;
    HttpSchemeBecomesWs(env);
  }

  /** The default endpoint. */
  lemma DefaultUrl()
    ensures Url(None) == "ws://localhost:3000/ws"
    ensures Url(Some("")) == "ws://localhost:3000/ws"
  {
    DefaultUrlParts();
    DefaultUrlSpelled();
  }

  /** Splits the literal-string reasoning of `DefaultUrl` in two steps for the
      solver: the endpoint as three pieces. */
  lemma DefaultUrlParts()
    ensures Url(None) == "ws" + "://localhost:3000" + "/ws"
    ensures Url(Some("")) == "ws" + "://localhost:3000" + "/ws"
  {
    assert DefaultApiUrl == "http" + "://localhost:3000";
    PrefixedUrl(None, "://localhost:3000");
    PrefixedUrl(Some(""), "://localhost:3000");
  }

  /** Splits the literal-string reasoning of `DefaultUrl` in two steps for the
      solver: the pieces spelled as one literal. */
  lemma DefaultUrlSpelled()
    ensures "ws" + "://localhost:3000" + "/ws" == "ws://localhost:3000/ws"
  {
  }

  /** A secure base URL gives a secure endpoint. */
  lemma SecureUrl()
    ensures Url(Some("https://h")) == "wss://h/ws"
  {
    assert "https://h" == "http" + "s://h";
    PrefixedUrl(Some("https://h"), "s://h");
    assert "ws" + "s://h" + "/ws" == "wss://h/ws";
  }

  /** Only the first "http" is replaced. */
  lemma OnlyFirstReplaced()
    ensures Url(Some("http://http.example")) == "ws://http.example/ws"
  {
    OnlyFirstReplacedParts();
    OnlyFirstReplacedSpelled();
  }

  /** Splits the literal-string reasoning of `OnlyFirstReplaced` in two steps for the
      solver: the endpoint as three pieces. */
  lemma OnlyFirstReplacedParts()
    ensures Url(Some("http://http.example")) == "ws" + "://http.example" + "/ws"
  {
    assert "http://http.example" == "http" + "://http.example";
    PrefixedUrl(Some("http://http.example"), "://http.example");
  }

  /** Splits the literal-string reasoning of `OnlyFirstReplaced` in two steps for the
      solver: the pieces spelled as one literal. */
  lemma OnlyFirstReplacedSpelled()
    ensures "ws" + "://http.example" + "/ws" == "ws://http.example/ws"
  {
  }
}
