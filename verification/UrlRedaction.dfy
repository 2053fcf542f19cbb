/**
  Redaction of URLs in messages (sdk_v2/rust/build_support.rs).

  A URL found in a text keeps its scheme, host and path and loses its user
  information, query and fragment (sections 3.2.1, 3.4 and 3.5 of RFC 3986).
*/
module UrlRedaction {

  datatype Option<+T> = None | Some(value: T)

  /** char::is_whitespace: the Unicode White_Space property. */
  predicate IsWhitespace(c: char) {
    var n := c as int;
    9 <= n <= 13 || n == 32 || n == 0x85 || n == 0xA0 || n == 0x1680 || 0x2000 <= n <= 0x200A
    || n == 0x2028 || n == 0x2029 || n == 0x202F || n == 0x205F || n == 0x3000
  }

  predicate EndsUrl(c: char) { IsWhitespace(c) || c == '"' || c == '\'' || c == '<' || c == '>' }

  predicate EndsAuthority(c: char) { c == '/' || c == '?' || c == '#' }

  predicate IsSensitive(c: char) { c == '?' || c == '#' }

  /** The first position whose character satisfies p, or the length. */
  function IndexOf(s: string, p: char -> bool): (i: nat)
    ensures i <= |s|
    ensures forall k :: 0 <= k < i ==> !p(s[k])
    ensures i < |s| ==> p(s[i])
  {
    if s == [] || p(s[0]) then 0 else 1 + IndexOf(s[1..], p)
  }

  lemma IndexIsUnique(s: string, p: char -> bool, i: nat)
    requires i <= |s| && (forall k :: 0 <= k < i ==> !p(s[k])) && (i < |s| ==> p(s[i]))
    ensures IndexOf(s, p) == i
  {
  }

  predicate SeparatorAt(s: string, i: nat) {
    i + 3 <= |s| && s[i] == ':' && s[i + 1] == '/' && s[i + 2] == '/'
  }

  /** Where "://" first occurs, or the length. */
  function FindSeparator(s: string): (i: nat)
    ensures i <= |s|
    ensures forall k :: 0 <= k < i ==> !SeparatorAt(s, k)
    ensures i < |s| ==> SeparatorAt(s, i)
  {
    if s == [] || SeparatorAt(s, 0) then 0
    else
      var i := FindSeparator(s[1..]);
      assert forall k :: 1 <= k < 1 + i ==> SeparatorAt(s, k) == SeparatorAt(s[1..], k - 1);
      assert SeparatorAt(s[1..], i) ==> SeparatorAt(s, 1 + i);
      1 + i
  }

  predicate IsAt(c: char) { c == '@' }

  /** What follows the last '@', or everything. */
  function AfterLastAt(s: string): (r: string)
    ensures |r| <= |s| && r == s[|s| - |r|..]
    ensures '@' !in r
    ensures |r| < |s| ==> s[|s| - |r| - 1] == '@'
  {
    var i := IndexOf(s, IsAt);
    if i == |s| then
      assert '@' !in s;
      s
    else
      var r := AfterLastAt(s[i + 1..]);
      EndOfEnd(s, i + 1, r);
      r
  }

  lemma EndOfEnd(s: string, i: nat, r: string)
    requires i <= |s| && |r| <= |s| - i && r == s[i..][|s| - i - |r|..]
    ensures r == s[|s| - |r|..]
    ensures |r| < |s| - i ==> s[i..][|s| - i - |r| - 1] == s[|s| - |r| - 1]
  {
  }

  /** The path up to its query or fragment. */
  function StripSensitive(path: string): (r: string)
    ensures r <= path && (forall k :: 0 <= k < |r| ==> !IsSensitive(r[k]))
    ensures |r| < |path| ==> IsSensitive(path[|r|])
  {
    path[..IndexOf(path, IsSensitive)]
  }

  /** What is kept of authority, path, query and fragment. */
  function RedactRemainder(remainder: string): string {
    var end := IndexOf(remainder, EndsAuthority);
    AfterLastAt(remainder[..end]) + StripSensitive(remainder[end..])
  }

  function RedactUrl(url: string): string {
    var i := FindSeparator(url);
    if i == |url| then url else url[..i + 3] + RedactRemainder(url[i + 3..])
  }

  function LowerAscii(c: char): char {
    if 'A' <= c <= 'Z' then (c as int + 32) as char else c
  }

  /** The window at i equals the pattern up to ASCII case. */
  predicate MatchesAt(s: string, pattern: string, i: nat) {
    i + |pattern| <= |s| && forall k :: 0 <= k < |pattern| ==> LowerAscii(s[i + k]) == pattern[k]
  }

  /** `windows(..).position(..)` */
  function Position(s: string, pattern: string, from: nat): (r: Option<nat>)
    ensures r.Some? ==> from <= r.value && MatchesAt(s, pattern, r.value)
    ensures forall k :: from <= k < (if r.Some? then r.value else |s| + 1) ==> !MatchesAt(s, pattern, k)
    decreases |s| + 1 - from
  {
    if from + |pattern| > |s| then None
    else if MatchesAt(s, pattern, from) then Some(from)
    else Position(s, pattern, from + 1)
  }

  const HTTPS := "https://"

  const HTTP := "http://"

  function FindUrlStart(s: string): Option<nat> {
    var secure, plain := Position(s, HTTPS, 0), Position(s, HTTP, 0);
    if secure.None? then plain
    else if plain.None? then secure
    else Some(if secure.value < plain.value then secure.value else plain.value)
  }

  predicate UrlAt(s: string, i: nat) { MatchesAt(s, HTTPS, i) || MatchesAt(s, HTTP, i) }

  lemma FirstUrl(s: string)
    ensures var r := FindUrlStart(s);
            && (r.Some? ==> UrlAt(s, r.value) && forall k :: 0 <= k < r.value ==> !UrlAt(s, k))
            && (r.None? ==> forall k :: 0 <= k <= |s| ==> !UrlAt(s, k))
  {
  }

  lemma FoundFirst(s: string, i: nat)
    requires UrlAt(s, i) && forall k :: 0 <= k < i ==> !UrlAt(s, k)
    ensures FindUrlStart(s) == Some(i)
  {
    FirstUrl(s);
  }

  // ---------------------------------------------------------------------
  // What the scan sees in a text
  // ---------------------------------------------------------------------

  datatype Token = Plain(text: string) | Url(text: string)

  function UrlEnd(s: string, start: nat): nat
    requires start <= |s|
  {
    start + IndexOf(s[start..], EndsUrl)
  }

  lemma UrlIsNotEmpty(s: string, start: nat)
    requires UrlAt(s, start)
    ensures start + 7 <= UrlEnd(s, start) <= |s|
  {
    var tail := s[start..];
    forall k | 0 <= k < 7
      ensures k < |tail| && !EndsUrl(tail[k])
    {
      assert LowerAscii(s[start + k]) == (if MatchesAt(s, HTTPS, start) then HTTPS[k] else HTTP[k]);
    }
  }

  /** Stretches of plain text and URLs in turn, as the scan cuts them out. */
  function Tokens(text: string): seq<Token>
    decreases |text|
  {
    var start := FindUrlStart(text);
    if start.None? then [Plain(text)]
    else
      FirstUrl(text);
      UrlIsNotEmpty(text, start.value);
      var end := UrlEnd(text, start.value);
      [Plain(text[..start.value]), Url(text[start.value..end])] + Tokens(text[end..])
  }

  function Flatten(tokens: seq<Token>): string {
    if tokens == [] then "" else tokens[0].text + Flatten(tokens[1..])
  }

  function RedactToken(t: Token): Token {
    match t
    case Plain(_) => t
    case Url(url) => Url(RedactUrl(url))
  }

  function RedactTokens(tokens: seq<Token>): (r: seq<Token>)
    ensures |r| == |tokens|
    ensures forall i :: 0 <= i < |tokens| ==> r[i] == RedactToken(tokens[i])
  {
    if tokens == [] then [] else [RedactToken(tokens[0])] + RedactTokens(tokens[1..])
  }

  /** The redacted text: every URL of the scan redacted, everything else copied. */
  function Redacted(text: string): string { Flatten(RedactTokens(Tokens(text))) }

  /** The scan of a text cuts it into pre, url and rest. */
  ghost predicate Cut(text: string, pre: string, url: string, rest: string) {
    && text == pre + url + rest
    && UrlAt(text, |pre|) && (forall k :: 0 <= k < |pre| ==> !UrlAt(text, k))
    && |url| >= 7 && (forall k :: 0 <= k < |url| ==> !EndsUrl(url[k]))
    && (rest != [] ==> EndsUrl(rest[0]))
  }

  lemma FirstTokens(text: string, start: nat)
    requires FindUrlStart(text) == Some(start)
    ensures UrlAt(text, start) && start + 7 <= UrlEnd(text, start) <= |text|
    ensures var end := UrlEnd(text, start);
            Tokens(text) == [Plain(text[..start]), Url(text[start..end])] + Tokens(text[end..])
  {
    FirstUrl(text);
    UrlIsNotEmpty(text, start);
    hide FindUrlStart, UrlAt, UrlEnd;
  }

  lemma TextInThree(text: string, start: nat, end: nat)
    requires start <= end <= |text|
    ensures text == text[..start] + text[start..end] + text[end..]
    ensures text[start..end] == text[start..][..end - start] && text[end..] == text[start..][end - start..]
  {
  }

  lemma CutExists(text: string) returns (pre: string, url: string, rest: string)
    requires FindUrlStart(text).Some?
    ensures Cut(text, pre, url, rest)
    ensures Tokens(text) == [Plain(pre), Url(url)] + Tokens(rest)
  {
    var start := FindUrlStart(text).value;
    FirstTokens(text, start);
    FirstUrl(text);
    hide FindUrlStart, UrlAt, Tokens, EndsUrl;
    var end := UrlEnd(text, start);
    TextInThree(text, start, end);
    pre, url, rest := text[..start], text[start..end], text[end..];
    var tail := text[start..];
    assert rest != [] ==> rest[0] == tail[end - start];
  }

  lemma EndIsFound(text: string, pre: string, url: string, rest: string)
    requires text == pre + url + rest && (forall k :: 0 <= k < |url| ==> !EndsUrl(url[k]))
    requires rest != [] ==> EndsUrl(rest[0])
    ensures UrlEnd(text, |pre|) == |pre| + |url|
  {
    var tail := text[|pre|..];
    assert tail == url + rest;
    IndexIsUnique(tail, EndsUrl, |url|);
  }

  lemma Slices(text: string, pre: string, url: string, rest: string)
    requires text == pre + url + rest
    ensures text[..|pre|] == pre && text[|pre|..|pre| + |url|] == url && text[|pre| + |url|..] == rest
  {
  }

  lemma CutIsFound(text: string, pre: string, url: string, rest: string)
    requires Cut(text, pre, url, rest)
    ensures Tokens(text) == [Plain(pre), Url(url)] + Tokens(rest)
  {
    FoundFirst(text, |pre|);
    EndIsFound(text, pre, url, rest);
    Slices(text, pre, url, rest);
    hide UrlAt, FindUrlStart, UrlEnd, EndsUrl;
  }

  lemma FlattenTwo(a: Token, b: Token, rest: seq<Token>)
    ensures Flatten([a, b] + rest) == a.text + b.text + Flatten(rest)
  {
    var all := [a, b] + rest;
    assert all[1..] == [b] + rest && ([b] + rest)[1..] == rest;
    assert a.text + (b.text + Flatten(rest)) == a.text + b.text + Flatten(rest);
  }

  lemma FlattenOne(a: Token)
    ensures Flatten([a]) == a.text
  {
    assert [a][1..] == [];
  }

  /** The tokens are the whole text in order. */
  lemma {:induction false} TokensCover(text: string)
    ensures Flatten(Tokens(text)) == text
    decreases |text|
  {
    if FindUrlStart(text).None? {
      FlattenOne(Plain(text));
    } else {
      var pre, url, rest := CutExists(text);
      hide Tokens, FindUrlStart, UrlAt, Flatten;
      TokensCover(rest);
      FlattenTwo(Plain(pre), Url(url), Tokens(rest));
    }
  }

  lemma RedactTwo(pre: string, url: string, rest: seq<Token>)
    ensures RedactTokens([Plain(pre), Url(url)] + rest) == [Plain(pre), Url(RedactUrl(url))] + RedactTokens(rest)
  {
    var all := [Plain(pre), Url(url)] + rest;
    assert all[1..] == [Url(url)] + rest && ([Url(url)] + rest)[1..] == rest;
  }

  // ---------------------------------------------------------------------
  // Redacting one URL
  // ---------------------------------------------------------------------

  /** No user information in the authority, no query and no fragment. */
  predicate CleanRemainder(remainder: string) {
    '?' !in remainder && '#' !in remainder && '@' !in remainder[..IndexOf(remainder, EndsAuthority)]
  }

  predicate Clean(url: string) {
    var i := FindSeparator(url);
    i < |url| ==> CleanRemainder(url[i + 3..])
  }

  /** The host is what follows the user information, and lies in the authority. */
  lemma HostInAuthority(authority: string)
    requires forall k :: 0 <= k < |authority| ==> !EndsAuthority(authority[k])
    ensures '@' !in AfterLastAt(authority)
    ensures forall k :: 0 <= k < |AfterLastAt(authority)| ==>
              !EndsAuthority(AfterLastAt(authority)[k]) && AfterLastAt(authority)[k] in authority
  {
    var host := AfterLastAt(authority);
    hide EndsAuthority, AfterLastAt;
    forall k | 0 <= k < |host|
      ensures !EndsAuthority(host[k]) && host[k] in authority
    {
      assert host[k] == authority[|authority| - |host| + k];
    }
  }

  lemma PathBehindAuthority(tail: string)
    requires tail != [] ==> EndsAuthority(tail[0])
    ensures var path := StripSensitive(tail);
            && (forall k :: 0 <= k < |path| ==> !IsSensitive(path[k]) && path[k] in tail)
            && (path != [] ==> EndsAuthority(path[0]))
  {
    hide EndsAuthority, IsSensitive;
  }

  /** Host and path of the redacted remainder. */
  lemma RedactedParts(remainder: string) returns (host: string, path: string)
    ensures RedactRemainder(remainder) == host + path
    ensures '@' !in host && (forall k :: 0 <= k < |host| ==> !EndsAuthority(host[k]) && host[k] in remainder)
    ensures forall k :: 0 <= k < |path| ==> !IsSensitive(path[k]) && path[k] in remainder
    ensures path != [] ==> EndsAuthority(path[0])
  {
    var end := IndexOf(remainder, EndsAuthority);
    hide EndsAuthority, IsSensitive, AfterLastAt, StripSensitive, IndexOf;
    var authority, tail := remainder[..end], remainder[end..];
    host, path := AfterLastAt(authority), StripSensitive(tail);
    HostInAuthority(authority);
    PathBehindAuthority(tail);
    assert forall c :: c in authority ==> c in remainder;
    assert forall c :: c in tail ==> c in remainder;
  }

  lemma PartsAreClean(host: string, path: string)
    requires '@' !in host && (forall k :: 0 <= k < |host| ==> !EndsAuthority(host[k]))
    requires (forall k :: 0 <= k < |path| ==> !IsSensitive(path[k])) && (path != [] ==> EndsAuthority(path[0]))
    ensures CleanRemainder(host + path)
  {
    IndexIsUnique(host + path, EndsAuthority, |host|);
    assert (host + path)[..|host|] == host;
  }

  /** The separator of a URL stays the first one whatever follows it. */
  lemma SeparatorStays(url: string, tail: string)
    requires FindSeparator(url) < |url|
    ensures FindSeparator(url[..FindSeparator(url) + 3] + tail) == FindSeparator(url)
  {
    var i := FindSeparator(url);
    var r := url[..i + 3] + tail;
    forall k | 0 <= k < i
      ensures !SeparatorAt(r, k)
    {
      assert !SeparatorAt(url, k);
    }
    assert SeparatorAt(r, i);
  }

  lemma RedactedIsClean(url: string)
    ensures Clean(RedactUrl(url))
  {
    hide FindSeparator, RedactRemainder, CleanRemainder;
    var i := FindSeparator(url);
    if i < |url| {
      var host, path := RedactedParts(url[i + 3..]);
      PartsAreClean(host, path);
      SeparatorStays(url, host + path);
      assert (url[..i + 3] + (host + path))[i + 3..] == host + path;
    }
  }

  lemma NoAt(s: string)
    requires '@' !in s
    ensures AfterLastAt(s) == s
  {
  }

  lemma NothingSensitive(s: string)
    requires '?' !in s && '#' !in s
    ensures StripSensitive(s) == s
  {
  }

  lemma CleanRemainderIsFixed(remainder: string)
    requires CleanRemainder(remainder)
    ensures RedactRemainder(remainder) == remainder
  {
    hide AfterLastAt, StripSensitive, IndexOf;
    var end := IndexOf(remainder, EndsAuthority);
    NoAt(remainder[..end]);
    assert forall c :: c in remainder[end..] ==> c in remainder;
    NothingSensitive(remainder[end..]);
  }

  lemma CleanIsFixed(url: string)
    requires Clean(url)
    ensures RedactUrl(url) == url
  {
    hide FindSeparator, RedactRemainder, CleanRemainder;
    var i := FindSeparator(url);
    if i < |url| { CleanRemainderIsFixed(url[i + 3..]); }
  }

  /** Redaction leaves a string alone exactly if there is nothing to redact. */
  lemma FixedMeansClean(url: string)
    ensures RedactUrl(url) == url <==> Clean(url)
  {
    RedactedIsClean(url);
    if Clean(url) { CleanIsFixed(url); }
  }

  // ---------------------------------------------------------------------
  // What a URL keeps
  // ---------------------------------------------------------------------

  predicate NoneOf(s: string, p: char -> bool) { forall k | 0 <= k < |s| :: !p(s[k]) }

  /** User information as it stands in front of a host. */
  predicate IsUser(user: string) { user == "" || (user[|user| - 1] == '@' && NoneOf(user, EndsAuthority)) }

  predicate IsHost(host: string) { NoneOf(host, EndsAuthority) && '@' !in host }

  predicate IsPath(path: string) { (path == "" || path[0] == '/') && NoneOf(path, IsSensitive) }

  predicate IsTail(tail: string) { tail == "" || IsSensitive(tail[0]) }

  lemma HostBehindUser(user: string, host: string)
    requires IsUser(user) && IsHost(host)
    ensures AfterLastAt(user + host) == host
  {
    var s := user + host;
    assert s[|user|..] == host;
    assert user != "" ==> s[|user| - 1] == user[|user| - 1];
    LastAtIsUnique(s, AfterLastAt(s), host);
  }

  /** At most one suffix without an '@' has one in front of it, or is everything. */
  lemma LastAtIsUnique(s: string, a: string, b: string)
    requires |a| <= |s| && |b| <= |s| && a == s[|s| - |a|..] && b == s[|s| - |b|..]
    requires '@' !in a && '@' !in b
    requires (|a| < |s| ==> s[|s| - |a| - 1] == '@') && (|b| < |s| ==> s[|s| - |b| - 1] == '@')
    ensures a == b
  {
    AtIsInside(s, |a|, |b|);
    AtIsInside(s, |b|, |a|);
  }

  lemma AtIsInside(s: string, n: nat, m: nat)
    ensures n < m <= |s| && s[|s| - n - 1] == '@' ==> '@' in s[|s| - m..]
  {
    if n < m <= |s| {
      assert s[|s| - m..][m - n - 1] == s[|s| - n - 1];
    }
  }

  lemma PathBeforeTail(path: string, tail: string)
    requires IsPath(path) && IsTail(tail)
    ensures StripSensitive(path + tail) == path
  {
    IndexIsUnique(path + tail, IsSensitive, |path|);
  }

  lemma RemainderInParts(user: string, host: string, path: string, tail: string)
    requires IsUser(user) && IsHost(host) && IsPath(path) && IsTail(tail)
    ensures RedactRemainder(user + host + path + tail) == host + path
  {
    var remainder, end := user + host + path + tail, |user + host|;
    IndexIsUnique(remainder, EndsAuthority, end);
    assert remainder[..end] == user + host && remainder[end..] == path + tail;
    hide AfterLastAt, StripSensitive, IndexOf, IsUser, IsHost, IsPath, IsTail;
    HostBehindUser(user, host);
    PathBeforeTail(path, tail);
  }

  lemma NoSeparatorAcross(scheme: string, url: string, k: nat)
    requires k < |scheme| < |url| && url[..|scheme|] == scheme && url[|scheme|] == ':' && !SeparatorAt(scheme, k)
    ensures !SeparatorAt(url, k)
  {
    assert forall j :: 0 <= j < |scheme| ==> url[j] == scheme[j];
  }

  lemma SeparatorIsFound(scheme: string, rest: string)
    requires forall k :: 0 <= k < |scheme| ==> !SeparatorAt(scheme, k)
    ensures FindSeparator(scheme + "://" + rest) == |scheme|
  {
    var url := scheme + "://" + rest;
    assert SeparatorAt(url, |scheme|);
    forall k | 0 <= k < |scheme|
      ensures !SeparatorAt(url, k)
    {
      NoSeparatorAcross(scheme, url, k);
    }
  }

  /** redact_url keeps scheme, host and path to the last character, and nothing else. */
  lemma RedactKeepsHostAndPath(scheme: string, user: string, host: string, path: string, tail: string)
    requires forall k :: 0 <= k < |scheme| ==> !SeparatorAt(scheme, k)
    requires IsUser(user) && IsHost(host) && IsPath(path) && IsTail(tail)
    ensures RedactUrl(scheme + "://" + (user + host + path + tail)) == scheme + "://" + host + path
  {
    var rest := user + host + path + tail;
    SeparatorIsFound(scheme, rest);
    RemainderInParts(user, host, path, tail);
    hide FindSeparator, RedactRemainder, RedactUrl, IsUser, IsHost, IsPath, IsTail, SeparatorAt;
    RedactBehind(scheme + "://", rest);
    assert scheme + "://" + (host + path) == scheme + "://" + host + path;
  }

  lemma RedactBehind(front: string, rest: string)
    requires |front| >= 3 && FindSeparator(front + rest) == |front| - 3
    ensures RedactUrl(front + rest) == front + RedactRemainder(rest)
  {
    hide FindSeparator, RedactRemainder;
    assert (front + rest)[..|front|] == front && (front + rest)[|front|..] == rest;
  }

  /** In a text too: the first URL is cut down to scheme, host and path, and what is around it stays. */
  lemma FirstUrlKeepsHostAndPath(text: string, pre: string, scheme: string, user: string, host: string, path: string,
      tail: string, rest: string)
    requires Cut(text, pre, scheme + "://" + (user + host + path + tail), rest)
    requires forall k :: 0 <= k < |scheme| ==> !SeparatorAt(scheme, k)
    requires IsUser(user) && IsHost(host) && IsPath(path) && IsTail(tail)
    ensures Redacted(text) == pre + (scheme + "://" + host + path) + Redacted(rest)
  {
    hide Cut, Redacted, RedactUrl, IsUser, IsHost, IsPath, IsTail, SeparatorAt;
    RedactKeepsHostAndPath(scheme, user, host, path, tail);
    RedactedCut(text, pre, scheme + "://" + (user + host + path + tail), rest);
  }

  // ---------------------------------------------------------------------
  // Redacting a text
  // ---------------------------------------------------------------------

  lemma NoEarlierSeparator(s: string, i: nat)
    requires SeparatorAt(s, i) && forall k :: 0 <= k < i ==> s[k] != ':'
    ensures FindSeparator(s) == i
  {
  }

  lemma LowerIsOther(c: char, d: char)
    requires LowerAscii(c) == d && (d == ':' || d == '/')
    ensures c == d
  {
  }

  lemma SchemeCharacters(url: string, pattern: string, n: nat)
    requires MatchesAt(url, pattern, 0) && |pattern| == n + 3
    requires SeparatorAt(pattern, n) && forall k :: 0 <= k < n ==> pattern[k] != ':'
    ensures FindSeparator(url) == n
  {
    forall k | 0 <= k < n + 3
      ensures LowerAscii(url[k]) == pattern[k]
    {
      assert LowerAscii(url[0 + k]) == pattern[k];
    }
    LowerIsOther(url[n], ':');
    LowerIsOther(url[n + 1], '/');
    LowerIsOther(url[n + 2], '/');
    NoEarlierSeparator(url, n);
  }

  /** A URL of the scan has its first separator right behind the scheme. */
  lemma SchemeOfUrl(url: string)
    requires UrlAt(url, 0)
    ensures FindSeparator(url) == (if MatchesAt(url, HTTPS, 0) then 5 else 4)
  {
    if MatchesAt(url, HTTPS, 0) { SchemeCharacters(url, HTTPS, 5); } else { SchemeCharacters(url, HTTP, 4); }
  }

  /** No character of a scheme ends a URL. */
  lemma SchemeDoesNotEnd(c: char, pattern: string, k: nat)
    requires pattern == HTTPS || pattern == HTTP
    requires k < |pattern| && LowerAscii(c) == pattern[k]
    ensures !EndsUrl(c)
  {
  }

  lemma MatchShift(pre: string, url: string, rest: string, pattern: string)
    requires pattern == HTTPS || pattern == HTTP
    requires MatchesAt(pre + url + rest, pattern, |pre|) && (rest != [] ==> EndsUrl(rest[0]))
    ensures MatchesAt(url, pattern, 0)
  {
    var text := pre + url + rest;
    assert forall k :: 0 <= k < |pattern| ==> LowerAscii(text[|pre| + k]) == pattern[k];
    if |url| < |pattern| {
      assert text[|pre| + |url|] == rest[0];
      SchemeDoesNotEnd(rest[0], pattern, |url|);
    }
    forall k | 0 <= k < |pattern|
      ensures LowerAscii(url[0 + k]) == pattern[k]
    {
      assert text[|pre| + k] == url[k];
    }
  }

  lemma UrlAtShift(pre: string, url: string, rest: string)
    requires UrlAt(pre + url + rest, |pre|) && (rest != [] ==> EndsUrl(rest[0]))
    ensures UrlAt(url, 0)
  {
    hide MatchesAt, EndsUrl;
    if MatchesAt(pre + url + rest, HTTPS, |pre|) {
      MatchShift(pre, url, rest, HTTPS);
    } else {
      MatchShift(pre, url, rest, HTTP);
    }
  }

  /** Texts that agree up to m agree on every match that ends there. */
  lemma MatchStays(s: string, t: string, m: nat, pattern: string, k: nat)
    requires m <= |s| && m <= |t| && s[..m] == t[..m] && k + |pattern| <= m
    ensures MatchesAt(s, pattern, k) == MatchesAt(t, pattern, k)
  {
    assert forall j :: 0 <= j < m ==> s[j] == s[..m][j] == t[j];
  }

  /** A match over a colon has its own colon there. */
  lemma MatchMeetsColon(s: string, pattern: string, k: nat, c: nat)
    requires pattern == HTTPS || pattern == HTTP
    requires MatchesAt(s, pattern, k) && k <= c < k + |pattern| && s[c] == ':'
    ensures k + |pattern| == c + 3
  {
    assert LowerAscii(s[k + (c - k)]) == pattern[c - k];
  }

  /** In front of a URL whose scheme is kept, no match reaches behind the scheme. */
  lemma MatchIsOld(s: string, t: string, m: nat, pattern: string, k: nat)
    requires pattern == HTTPS || pattern == HTTP
    requires 3 <= m <= |s| && m <= |t| && s[..m] == t[..m] && t[m - 3] == ':' && k + 3 < m
    requires MatchesAt(t, pattern, k)
    ensures MatchesAt(s, pattern, k)
  {
    if k + |pattern| > m { MatchMeetsColon(t, pattern, k, m - 3); }
    MatchStays(s, t, m, pattern, k);
  }

  lemma NoEarlierUrl(s: string, t: string, m: nat, k: nat)
    requires 3 <= m <= |s| && m <= |t| && s[..m] == t[..m] && t[m - 3] == ':' && k + 3 < m
    requires !UrlAt(s, k)
    ensures !UrlAt(t, k)
  {
    hide MatchesAt;
    if MatchesAt(t, HTTPS, k) { MatchIsOld(s, t, m, HTTPS, k); }
    if MatchesAt(t, HTTP, k) { MatchIsOld(s, t, m, HTTP, k); }
  }

  lemma SchemeFits(url: string)
    requires UrlAt(url, 0)
    ensures var i := FindSeparator(url); 4 <= i && i + 3 <= |url| && url[i] == ':'
    ensures MatchesAt(url, if FindSeparator(url) == 5 then HTTPS else HTTP, 0)
    ensures FindSeparator(url) == 4 || FindSeparator(url) == 5
  {
    SchemeOfUrl(url);
  }

  lemma SamePrefix(pre: string, url: string, rest: string, url': string, rest': string, n: nat)
    requires n <= |url| && n <= |url'| && url[..n] == url'[..n]
    ensures (pre + url + rest)[..|pre| + n] == (pre + url' + rest')[..|pre| + n]
  {
    assert (pre + url + rest)[..|pre| + n] == pre + url[..n];
    assert (pre + url' + rest')[..|pre| + n] == pre + url'[..n];
  }

  lemma MatchUnshift(pre: string, url: string, rest: string, pattern: string)
    requires MatchesAt(url, pattern, 0)
    ensures MatchesAt(pre + url + rest, pattern, |pre|)
  {
    var text := pre + url + rest;
    forall k | 0 <= k < |pattern|
      ensures LowerAscii(text[|pre| + k]) == pattern[k]
    {
      assert text[|pre| + k] == url[0 + k];
    }
  }

  lemma ColonStays(pre: string, url: string, rest: string, n: nat)
    requires 3 <= n <= |url| && url[n - 3] == ':'
    ensures (pre + url + rest)[|pre| + n - 3] == ':'
  {
  }

  lemma UrlStays(pre: string, url: string, rest: string, url': string, rest': string, n: nat)
    requires n <= |url| && n <= |url'| && (pre + url + rest)[..|pre| + n] == (pre + url' + rest')[..|pre| + n]
    requires MatchesAt(url, if n == 8 then HTTPS else HTTP, 0) && (n == 7 || n == 8)
    ensures UrlAt(pre + url' + rest', |pre|)
  {
    hide MatchesAt;
    var pattern := if n == 8 then HTTPS else HTTP;
    assert |pattern| == n;
    MatchUnshift(pre, url, rest, pattern);
    MatchStays(pre + url + rest, pre + url' + rest', |pre| + n, pattern, |pre|);
  }

  /** Replacing what stands behind a URL's scheme moves no URL in front of it. */
  lemma StartStays(pre: string, url: string, rest: string, url': string, rest': string, n: nat)
    requires 7 <= n <= 8 && n <= |url| && n <= |url'| && url[..n] == url'[..n]
    requires MatchesAt(url, if n == 8 then HTTPS else HTTP, 0) && url'[n - 3] == ':'
    requires forall k :: 0 <= k < |pre| ==> !UrlAt(pre + url + rest, k)
    ensures UrlAt(pre + url' + rest', |pre|)
    ensures forall k :: 0 <= k < |pre| ==> !UrlAt(pre + url' + rest', k)
  {
    hide MatchesAt, UrlAt;
    var text, text' := pre + url + rest, pre + url' + rest';
    SamePrefix(pre, url, rest, url', rest', n);
    UrlStays(pre, url, rest, url', rest', n);
    ColonStays(pre, url', rest', n);
    forall k | 0 <= k < |pre|
      ensures !UrlAt(text', k)
    {
      NoEarlierUrl(text, text', |pre| + n, k);
    }
  }

  /** The redacted text, one cut at a time. */
  lemma RedactedStep(text: string, pre: string, url: string, rest: string)
    requires Tokens(text) == [Plain(pre), Url(url)] + Tokens(rest)
    ensures Redacted(text) == pre + RedactUrl(url) + Redacted(rest)
  {
    hide Tokens, RedactUrl;
    RedactTwo(pre, url, Tokens(rest));
    FlattenTwo(Plain(pre), Url(RedactUrl(url)), RedactTokens(Tokens(rest)));
  }

  lemma RedactedPlain(text: string)
    requires FindUrlStart(text).None?
    ensures Redacted(text) == text && Tokens(text) == [Plain(text)] && RedactTokens(Tokens(text)) == [Plain(text)]
  {
    hide FindUrlStart;
    assert RedactTokens([Plain(text)]) == [Plain(text)];
    FlattenOne(Plain(text));
  }

  lemma UrlStart(s: string)
    requires UrlAt(s, 0)
    ensures s != [] && !EndsUrl(s[0])
  {
    if MatchesAt(s, HTTPS, 0) {
      assert LowerAscii(s[0 + 0]) == HTTPS[0];
      SchemeDoesNotEnd(s[0], HTTPS, 0);
    } else {
      assert LowerAscii(s[0 + 0]) == HTTP[0];
      SchemeDoesNotEnd(s[0], HTTP, 0);
    }
  }

  /** Text that starts with the character that ended a URL keeps that character. */
  lemma RedactedHead(rest: string)
    ensures rest == [] ==> Redacted(rest) == []
    ensures rest != [] && EndsUrl(rest[0]) ==> Redacted(rest) != [] && Redacted(rest)[0] == rest[0]
  {
    if FindUrlStart(rest).None? {
      RedactedPlain(rest);
    } else {
      var pre, url, tail := CutExists(rest);
      RedactedStep(rest, pre, url, tail);
      hide Redacted, Tokens, EndsUrl, FindUrlStart;
      if pre == [] { UrlStart(rest); }
    }
  }

  /** A redacted URL starts with its scheme and holds no character that ends a URL. */
  lemma RedactedShape(url: string)
    requires FindSeparator(url) < |url| && forall k :: 0 <= k < |url| ==> !EndsUrl(url[k])
    ensures var n := FindSeparator(url) + 3; n <= |url| && n <= |RedactUrl(url)| && RedactUrl(url)[..n] == url[..n]
    ensures forall k :: 0 <= k < |RedactUrl(url)| ==> !EndsUrl(RedactUrl(url)[k])
  {
    hide EndsUrl, RedactRemainder, FindSeparator;
    var n := FindSeparator(url) + 3;
    var host, path := RedactedParts(url[n..]);
    assert forall c :: c in url[n..] ==> c in url;
    assert forall c :: c in url ==> !EndsUrl(c);
    var url' := RedactUrl(url);
    forall k | 0 <= k < |url'|
      ensures url'[k] in url
    {
      if k < n {
        assert url'[k] == url[k];
      } else {
        assert url'[k] == (host + path)[k - n];
      }
    }
  }

  lemma RedactedCut(text: string, pre: string, url: string, rest: string)
    requires Cut(text, pre, url, rest)
    ensures Redacted(text) == pre + RedactUrl(url) + Redacted(rest)
    ensures Cut(Redacted(text), pre, RedactUrl(url), Redacted(rest))
  {
    hide Redacted, RedactUrl, UrlAt, EndsUrl, Tokens, FindSeparator, MatchesAt;
    CutIsFound(text, pre, url, rest);
    RedactedStep(text, pre, url, rest);
    UrlAtShift(pre, url, rest);
    SchemeFits(url);
    RedactedShape(url);
    RedactedHead(rest);
    var n := FindSeparator(url) + 3;
    assert RedactUrl(url)[n - 3] == RedactUrl(url)[..n][n - 3] == url[..n][n - 3];
    StartStays(pre, url, rest, RedactUrl(url), Redacted(rest), n);
  }

  /** Scanning the redacted text finds exactly the old tokens, redacted. */
  lemma {:induction false} ScanOfRedacted(text: string)
    ensures Tokens(Redacted(text)) == RedactTokens(Tokens(text))
    decreases |text|
  {
    hide UrlAt, RedactUrl, FindUrlStart, Redacted, Tokens, EndsUrl;
    if FindUrlStart(text).None? {
      RedactedPlain(text);
    } else {
      var pre, url, rest := CutExists(text);
      RedactedCut(text, pre, url, rest);
      CutIsFound(Redacted(text), pre, RedactUrl(url), Redacted(rest));
      assert |rest| < |text|;
      ScanOfRedacted(rest);
      RedactTwo(pre, url, Tokens(rest));
    }
  }

  /** Redacting twice is redacting once. */
  lemma RedactionIsIdempotent(text: string)
    ensures Redacted(Redacted(text)) == Redacted(text)
  {
    ScanOfRedacted(text);
    var tokens := RedactTokens(Tokens(text));
    forall i | 0 <= i < |tokens|
      ensures RedactToken(tokens[i]) == tokens[i]
    {
      var t := Tokens(text)[i];
      if t.Url? { FixedMeansClean(RedactUrl(t.text)); RedactedIsClean(t.text); }
    }
    assert RedactTokens(tokens) == tokens;
  }

  /** Every URL that the scan finds in the redacted text has nothing left to redact. */
  lemma NothingLeftToRedact(text: string)
    ensures forall t :: t in Tokens(Redacted(text)) && t.Url? ==> Clean(t.text) && RedactUrl(t.text) == t.text
  {
    ScanOfRedacted(text);
    forall t | t in Tokens(Redacted(text)) && t.Url?
      ensures Clean(t.text) && RedactUrl(t.text) == t.text
    {
      var i :| 0 <= i < |Tokens(text)| && RedactTokens(Tokens(text))[i] == t;
      RedactedIsClean(Tokens(text)[i].text);
      FixedMeansClean(t.text);
    }
  }

  lemma Behind(pre: string, url: string, rest: string)
    ensures var text := pre + url + rest;
            text[..|pre|] == pre && text[|pre|..][..|url|] == url && text[|pre|..][|url|..] == rest
  {
    assert (pre + url + rest)[|pre|..] == url + rest;
  }

  /** One round of the loop cuts the remaining text as the scan does. */
  lemma RoundIsCut(remaining: string, start: nat, end: nat)
    requires FindUrlStart(remaining) == Some(start) && start <= |remaining|
    requires end == IndexOf(remaining[start..], EndsUrl)
    ensures var urlAndRest := remaining[start..];
            && Redacted(remaining) == remaining[..start] + RedactUrl(urlAndRest[..end]) + Redacted(urlAndRest[end..])
            && 0 < end
  {
    var pre, url, rest := CutExists(remaining);
    RedactedStep(remaining, pre, url, rest);
    FoundFirst(remaining, |pre|);
    EndIsFound(remaining, pre, url, rest);
    assert |url| == end;
    hide *;
    Behind(pre, url, rest);
  }

  lemma Extend(a: string, b: string, c: string, d: string, all: string)
    requires a + (b + c + d) == all
    ensures a + b + c + d == all
  {
  }

  /** redact_urls_in_text, with its growing buffer. */
  method RedactUrlsInText(text: string) returns (result: string)
    ensures result == Redacted(text)
  {
    hide Redacted, FindUrlStart, RedactUrl, EndsUrl;
    result := "";
    var remaining := text;
    var start := FindUrlStart(remaining);
    while start.Some?
      invariant start == FindUrlStart(remaining)
      invariant result + Redacted(remaining) == Redacted(text)
      decreases |remaining|
    {
      FirstUrl(remaining);
      var urlAndRest := remaining[start.value..];
      var end := IndexOf(urlAndRest, EndsUrl);
      RoundIsCut(remaining, start.value, end);
      Extend(result, remaining[..start.value], RedactUrl(urlAndRest[..end]), Redacted(urlAndRest[end..]),
          Redacted(text));
      result := result + remaining[..start.value];
      result := result + RedactUrl(urlAndRest[..end]);
      remaining := urlAndRest[end..];
      start := FindUrlStart(remaining);
    }
    RedactedPlain(remaining);
    result := result + remaining;
  }
}
