// One key for a repository, however its remote is spelled (src/payload.rs,
// src/paths.rs, src/git.rs).
module RepoKey {
  import opened Events

  // ----- strings -----

  /// Where `c` first is; the length when it is nowhere.
  function IndexOf(s: string, c: char): (i: nat)
    ensures i <= |s| && (forall k :: 0 <= k < i ==> s[k] != c)
    ensures i < |s| ==> s[i] == c
  {
    if s == [] || s[0] == c then 0 else 1 + IndexOf(s[1..], c)
  }

  /// Where "://" first is; the length when it is nowhere.
  function SchemeEnd(s: string): (i: nat)
    ensures i <= |s| && (i < |s| ==> i + 3 <= |s|)
  {
    if s == [] || "://" <= s then 0 else 1 + SchemeEnd(s[1..])
  }

  predicate NamesAScheme(s: string) {
    SchemeEnd(s) < |s|
  }

  /// `rsplit(c).next()`.
  function AfterLast(s: string, c: char): string {
    if s == [] || s[|s| - 1] == c then [] else AfterLast(s[..|s| - 1], c) + [s[|s| - 1]]
  }

  function TrimStart(s: string, c: char): string {
    if s != [] && s[0] == c then TrimStart(s[1..], c) else s
  }

  function TrimEnd(s: string, c: char): string {
    if s != [] && s[|s| - 1] == c then TrimEnd(s[..|s| - 1], c) else s
  }

  predicate EndsInGit(s: string) {
    |s| >= 4 && s[|s| - 4..] == ".git"
  }

  function TrimGit(s: string): string {
    if EndsInGit(s) then TrimGit(s[..|s| - 4]) else s
  }

  /// The pieces of `s` between slashes that are not empty.
  function Pieces(s: string): seq<string>
    decreases |s|
  {
    if s == [] then []
    else
      var end := IndexOf(s, '/');
      (if end == 0 then [] else [s[..end]]) + Pieces(s[if end < |s| then end + 1 else end..])
  }

  function Lowered(c: char): char {
    if 'A' <= c <= 'Z' then 'a' + (c - 'A') else c
  }

  function Lower(s: string): string {
    seq(|s|, i requires 0 <= i < |s| => Lowered(s[i]))
  }

  // ----- git's spellings -----

  /// The bracket that closes the one at `open`, or that one when none does.
  function ClosedAt(s: string, open: nat): (at: nat)
    requires open < |s|
    ensures open <= at < |s|
  {
    var close := IndexOf(s[open..], ']');
    if close < |s| - open then open + close else open
  }

  /// Where a host's colon is searched from: past a bracketed literal, if one
  /// comes before any colon.
  function SearchedFrom(s: string): (from: nat)
    ensures from <= |s|
  {
    if IndexOf(s, '[') < IndexOf(s, ':') < |s| then ClosedAt(s, IndexOf(s, '[')) else 0
  }

  /// The host and the rest, split at that colon.
  function SplitAtHostColon(s: string): Option<(string, string)> {
    var at := SearchedFrom(s) + IndexOf(s[SearchedFrom(s)..], ':');
    if at == |s| then None else Some((s[..at], s[at + 1..]))
  }

  function ScpLikeParts(url: string): Option<(string, string)> {
    if NamesAScheme(url) then None
    else
      match SplitAtHostColon(url)
      case None => None
      case Some((authority, path)) => if '/' in authority then None else Some((authority, path))
  }

  function HostOf(authority: string): string {
    var host := AfterLast(authority, '@');
    match SplitAtHostColon(host)
    case None => host
    case Some((host, _)) => host
  }

  function SplitAtSlash(s: string): Option<(string, string)> {
    var end := IndexOf(s, '/');
    if end == |s| then None else Some((s[..end], s[end + 1..]))
  }

  /// `ssh` and scp-like spellings as HTTPS ones; the rest stay as they are.
  function HttpsEquivalent(url: string): string {
    var parts := if "ssh://" <= url then SplitAtSlash(url[6..]) else ScpLikeParts(url);
    match parts
    case None => url
    case Some((authority, path)) => "https://" + HostOf(authority) + "/" + TrimStart(path, '/')
  }

  // ----- the key -----

  predicate Keyable(segment: string) {
    && segment !in ["", ".", ".."]
    && forall i :: 0 <= i < |segment| ==>
                     var c := segment[i];
                     'a' <= c <= 'z' || 'A' <= c <= 'Z' || '0' <= c <= '9' || c in "._-"
  }

  function PathSegments(path: string): seq<string> {
    Pieces(TrimGit(TrimEnd(path, '/')))
  }

  function Key(host: string, path: string): Option<seq<string>> {
    var segments := [host] + PathSegments(path);
    if |segments| > 1 && (forall s :: s in segments ==> Keyable(s)) then Some(segments) else None
  }

  /// `None` for a remote that cannot be keyed.
  function FromRemoteUrl(url: string): Option<seq<string>> {
    var https := HttpsEquivalent(url);
    var end := SchemeEnd(https);
    if end < |https| then
      var rest := https[end + 3..];
      if https[..end] == "file" then Key("local", rest)
      else
        match SplitAtSlash(rest)
        case None => Key(Lower(HostOf(rest)), "")
        case Some((authority, path)) => Key(Lower(HostOf(authority)), path)
    else if https != [] && https[0] == '/' then Key("local", https)
    else None
  }

  // ----- what a key is -----

  /// A key is a host and at least one more segment, none of which could climb
  /// out of a directory or into another.
  lemma KeysAreSafe(url: string)
    ensures FromRemoteUrl(url).Some? ==>
              var key := FromRemoteUrl(url).value;
              && |key| >= 2
              && forall s :: s in key ==> s != "" && s != "." && s != ".." && '/' !in s
  {
    hide HttpsEquivalent, HostOf, PathSegments, SchemeEnd, IndexOf, Lower;
    forall s: string | Keyable(s) ensures s != "" && s != "." && s != ".." && '/' !in s {
    }
  }

  lemma SchemeAtStart(scheme: string, rest: string)
    requires ':' !in scheme
    ensures SchemeEnd(scheme + "://" + rest) == |scheme|
  {
    var url := scheme + "://" + rest;
    if scheme == [] {
      assert url[..3] == "://";
    } else {
      assert url[0] != ':';
      assert url[1..] == scheme[1..] + "://" + rest;
      SchemeAtStart(scheme[1..], rest);
    }
  }

  lemma HttpsIsItsOwn(rest: string)
    ensures HttpsEquivalent("https://" + rest) == "https://" + rest
  {
    hide SplitAtHostColon, IndexOf;
    var url := "https://" + rest;
    assert url == "https" + "://" + rest;
    SchemeAtStart("https", rest);
    assert url[0] == 'h' && "ssh://"[0] == 's';
  }

  lemma HttpsEquivalentIsIdempotent(url: string)
    ensures HttpsEquivalent(HttpsEquivalent(url)) == HttpsEquivalent(url)
  {
    hide HostOf, TrimStart, IndexOf, ScpLikeParts;
    var parts := if "ssh://" <= url then SplitAtSlash(url[6..]) else ScpLikeParts(url);
    if parts.Some? {
      var (authority, path) := parts.value;
      var rest := HostOf(authority) + "/" + TrimStart(path, '/');
      assert HttpsEquivalent(url) == "https://" + rest;
      HttpsIsItsOwn(rest);
    }
  }

  // ----- paths -----

  lemma {:induction false} TrimEndOfBoth(a: string, b: string)
    requires TrimEnd(b, '/') != []
    ensures TrimEnd(a + b, '/') == a + TrimEnd(b, '/')
  {
    if b[|b| - 1] == '/' {
      assert (a + b)[..|a + b| - 1] == a + b[..|b| - 1];
      TrimEndOfBoth(a, b[..|b| - 1]);
    }
  }

  lemma NoGitAcrossSlash(a: string, b: string)
    ensures EndsInGit(a + "/" + b) <==> EndsInGit(b)
  {
    var all := a + "/" + b;
    if |b| >= 4 {
      assert all[|all| - 4..] == b[|b| - 4..];
    } else if |all| >= 4 {
      assert all[|all| - 4..][3 - |b|] == '/';
    }
  }

  lemma {:induction false} TrimGitAfterSlash(a: string, b: string)
    ensures TrimGit(a + "/" + b) == a + "/" + TrimGit(b)
    decreases |b|
  {
    NoGitAcrossSlash(a, b);
    if EndsInGit(b) {
      var all := a + "/" + b;
      assert all[..|all| - 4] == a + "/" + b[..|b| - 4];
      TrimGitAfterSlash(a, b[..|b| - 4]);
    }
  }

  lemma IndexAfter(a: string, c: char, b: string)
    requires c !in a
    ensures IndexOf(a + [c] + b, c) == |a|
  {
    var all := a + [c] + b;
    assert all[|a|] == c;
    assert forall k :: 0 <= k < |a| ==> all[k] == a[k] && a[k] in a;
  }

  lemma PiecesAfterSlash(a: string, b: string)
    requires '/' !in a
    ensures Pieces(a + "/" + b) == (if a == [] then [] else [a]) + Pieces(b)
  {
    IndexAfter(a, '/', b);
    var all := a + "/" + b;
    assert all[..|a|] == a && all[|a| + 1..] == b;
  }

  lemma PathAfterSlash(a: string, b: string)
    requires '/' !in a && TrimEnd(b, '/') != []
    ensures PathSegments(a + "/" + b) == (if a == [] then [] else [a]) + PathSegments(b)
  {
    assert a + "/" + b == (a + "/") + b;
    TrimEndOfBoth(a + "/", b);
    TrimGitAfterSlash(a, TrimEnd(b, '/'));
    PiecesAfterSlash(a, TrimGit(TrimEnd(b, '/')));
  }

  /// Slashes before a path make no difference to its segments.
  lemma {:induction false} SegmentsWithoutLeadingSlashes(path: string)
    ensures PathSegments(TrimStart(path, '/')) == PathSegments(path)
  {
    hide PathSegments;
    if path != [] && path[0] == '/' {
      SegmentsWithoutLeadingSlashes(path[1..]);
      assert path == [] + "/" + path[1..];
      if TrimEnd(path[1..], '/') != [] {
        PathAfterSlash([], path[1..]);
        assert [] + PathSegments(path[1..]) == PathSegments(path[1..]);
      } else {
        assert path == "/" + path[1..];
        OnlySlashes(path[1..]);
      }
    }
  }

  lemma {:induction false} OnlySlashes(path: string)
    requires TrimEnd(path, '/') == []
    ensures TrimEnd("/" + path, '/') == [] && PathSegments("/" + path) == [] == PathSegments(path)
  {
    if path != [] {
      var n := |path| - 1;
      assert ("/" + path)[..n + 1] == "/" + path[..n];
      OnlySlashes(path[..n]);
    } else {
      assert TrimEnd("/", '/') == TrimEnd("/"[..0], '/');
    }
  }

  // ----- hosts -----

  lemma {:induction false} AfterLastAt(user: string, host: string)
    requires '@' !in host
    ensures AfterLast(user + "@" + host, '@') == host
  {
    var all := user + "@" + host;
    if host == [] {
    } else {
      var n := |host| - 1;
      assert all[..|all| - 1] == user + "@" + host[..n];
      AfterLastAt(user, host[..n]);
    }
  }

  lemma {:induction false} NoneToDrop(host: string)
    requires '@' !in host
    ensures AfterLast(host, '@') == host
  {
    if host != [] {
      NoneToDrop(host[..|host| - 1]);
    }
  }

  /// A host that needs no brackets and hides no separator.
  predicate Plain(host: string) {
    forall i :: 0 <= i < |host| ==> host[i] !in "/@:["
  }

  lemma PlainSplitsAtColon(before: string, after: string)
    requires ':' !in before && '[' !in before
    ensures SplitAtHostColon(before + ":" + after) == Some((before, after))
  {
    var s := before + ":" + after;
    IndexAfter(before, ':', after);
    var open := IndexOf(s, '[');
    assert forall k :: 0 <= k < |before| ==> s[k] == before[k] && before[k] in before;
    assert s[|before|] == ':';
    assert s[0..] == s;
    assert s[..|before|] == before && s[|before| + 1..] == after;
  }

  lemma NoColonNoSplit(s: string)
    requires ':' !in s
    ensures SplitAtHostColon(s) == None
  {
    assert s[0..] == s;
    var colon := IndexOf(s, ':');
    assert colon == |s|;
  }

  lemma HostOfPort(host: string, port: Option<string>)
    requires Plain(host) && (port.Some? ==> '@' !in port.value)
    ensures var atHost := host + (if port.Some? then ":" + port.value else "");
            '@' !in atHost && HostOf(atHost) == host
  {
    hide SplitAtHostColon, AfterLast;
    var atHost := host + (if port.Some? then ":" + port.value else "");
    NoneToDrop(atHost);
    if port.Some? {
      assert atHost == host + ":" + port.value;
      PlainSplitsAtColon(host, port.value);
    } else {
      assert atHost == host;
      NoColonNoSplit(host);
    }
  }

  /// An authority names its host, whoever the user and whatever the port.
  lemma AuthorityNamesHost(user: Option<string>, host: string, port: Option<string>)
    requires Plain(host) && (port.Some? ==> '@' !in port.value)
    ensures HostOf(Authority(user, host, port)) == host
  {
    hide SplitAtHostColon, AfterLast, Plain;
    var atHost := host + (if port.Some? then ":" + port.value else "");
    HostOfPort(host, port);
    if user.Some? {
      assert Authority(user, host, port) == user.value + "@" + atHost;
      AfterLastAt(user.value, atHost);
      NoneToDrop(atHost);
    } else {
      assert Authority(user, host, port) == atHost;
    }
  }

  function Authority(user: Option<string>, host: string, port: Option<string>): string {
    (if user.Some? then user.value + "@" else "") + host + (if port.Some? then ":" + port.value else "")
  }

  lemma AuthorityHasNoSlash(user: Option<string>, host: string, port: Option<string>)
    requires Plain(host) && (port.Some? ==> '/' !in port.value) && (user.Some? ==> '/' !in user.value)
    ensures '/' !in Authority(user, host, port)
  {
  }

  // ----- spellings -----

  /// The ways to spell the remote that holds `path` on `host`.
  datatype Spelling =
    | Scp(user: Option<string>)
    | Ssh(user: Option<string>, port: Option<string>)
    | Https(user: Option<string>, port: Option<string>)
  {
    predicate WellFormed() {
      && (user.Some? ==> '/' !in user.value)
      && (if Scp? then user.Some? ==> ':' !in user.value && '[' !in user.value
          else port.Some? ==> '/' !in port.value && '@' !in port.value)
    }

    function Url(host: string, path: string): string {
      match this
      case Scp(user) => Authority(user, host, None) + ":" + path
      case Ssh(user, port) => "ssh://" + Authority(user, host, port) + "/" + path
      case Https(user, port) => "https://" + Authority(user, host, port) + "/" + path
    }

    /// With "://" at its colon or in its path, it is no scp-like spelling.
    predicate ReadAsAUrl(path: string) {
      Scp? && NamesAScheme(":" + path)
    }
  }

  function KeyOf(host: string, path: string): Option<seq<string>> {
    Key(Lower(host), path)
  }

  lemma SshIsHttps(user: Option<string>, port: Option<string>, host: string, path: string)
    requires Plain(host) && Ssh(user, port).WellFormed()
    ensures HttpsEquivalent(Ssh(user, port).Url(host, path)) == "https://" + host + "/" + TrimStart(path, '/')
  {
    hide HostOf, TrimStart;
    var authority := Authority(user, host, port);
    var url := Ssh(user, port).Url(host, path);
    assert url[6..] == authority + "/" + path;
    AuthorityHasNoSlash(user, host, port);
    IndexAfter(authority, '/', path);
    assert (authority + "/" + path)[..|authority|] == authority;
    assert (authority + "/" + path)[|authority| + 1..] == path;
    AuthorityNamesHost(user, host, port);
  }

  lemma {:induction false} SchemeAfter(a: string, b: string)
    requires ':' !in a
    ensures NamesAScheme(a + b) <==> NamesAScheme(b)
  {
    if a != [] {
      assert (a + b)[0] != ':';
      assert (a + b)[1..] == a[1..] + b;
      SchemeAfter(a[1..], b);
    } else {
      assert a + b == b;
    }
  }

  lemma ScpAuthority(user: Option<string>, host: string)
    requires Plain(host) && Scp(user).WellFormed()
    ensures var authority := Authority(user, host, None);
            '/' !in authority && ':' !in authority && '[' !in authority
  {
  }

  lemma ScpIsHttps(user: Option<string>, host: string, path: string)
    requires Plain(host) && Scp(user).WellFormed() && !Scp(user).ReadAsAUrl(path)
    ensures HttpsEquivalent(Scp(user).Url(host, path)) == "https://" + host + "/" + TrimStart(path, '/')
  {
    hide SplitAtHostColon, TrimStart, SchemeEnd, HostOf, Authority;
    var authority, url := Authority(user, host, None), Scp(user).Url(host, path);
    ScpAuthority(user, host);
    assert url == authority + (":" + path);
    SchemeAfter(authority, ":" + path);
    PlainSplitsAtColon(authority, path);
    if "ssh://" <= url {
      SshNamesAScheme(url);
    }
    AuthorityNamesHost(user, host, None);
  }

  lemma SshNamesAScheme(url: string)
    requires "ssh://" <= url
    ensures NamesAScheme(url)
  {
    assert url == "ssh" + "://" + url[6..];
    SchemeAtStart("ssh", url[6..]);
  }

  lemma KeyOfHttps(authority: string, host: string, path: string)
    requires '/' !in authority && HostOf(authority) == host
    ensures FromRemoteUrl("https://" + authority + "/" + path) == KeyOf(host, path)
  {
    hide HostOf, HttpsEquivalent, Key, SchemeEnd, IndexOf;
    var rest := authority + "/" + path;
    var url := "https://" + authority + "/" + path;
    assert url == "https://" + rest && url == "https" + "://" + rest;
    HttpsIsItsOwn(rest);
    SchemeAtStart("https", rest);
    assert url[..5] == "https" && url[8..] == rest;
    IndexAfter(authority, '/', path);
    assert rest[..|authority|] == authority && rest[|authority| + 1..] == path;
  }

  /// However a remote is spelled, its key is its host's and its path's — a
  /// scp-like spelling's, unless git reads it as a URL.
  lemma EverySpellingHasOneKey(spelling: Spelling, host: string, path: string)
    requires Plain(host) && spelling.WellFormed() && !spelling.ReadAsAUrl(path)
    ensures FromRemoteUrl(spelling.Url(host, path)) == KeyOf(host, path)
  {
    hide FromRemoteUrl, HttpsEquivalent, HostOf, PathSegments, TrimStart, Authority, KeyOf;
    match spelling
    case Https(user, port) =>
      AuthorityHasNoSlash(user, host, port);
      AuthorityNamesHost(user, host, port);
      KeyOfHttps(Authority(user, host, port), host, path);
    case Ssh(user, port) =>
      SshIsHttps(user, port, host, path);
      KeyOfEquivalent(spelling.Url(host, path), host, path);
    case Scp(user) =>
      ScpIsHttps(user, host, path);
      KeyOfEquivalent(spelling.Url(host, path), host, path);
  }

  lemma KeyOfEquivalent(url: string, host: string, path: string)
    requires Plain(host)
    requires HttpsEquivalent(url) == "https://" + host + "/" + TrimStart(path, '/')
    ensures FromRemoteUrl(url) == KeyOf(host, path)
  {
    hide HttpsEquivalent, PathSegments, TrimStart, Key, KeyOf;
    var trimmed := TrimStart(path, '/');
    HttpsEquivalentIsIdempotent(url);
    assert FromRemoteUrl(url) == FromRemoteUrl(HttpsEquivalent(url)) by {
      hide *;
      SameHttpsSameKey(url, HttpsEquivalent(url));
    }
    AuthorityNamesHost(None, host, None);
    assert Authority(None, host, None) == host;
    KeyOfHttps(host, host, trimmed);
    KeyWithoutLeadingSlashes(host, path);
  }

  lemma SameHttpsSameKey(a: string, b: string)
    requires HttpsEquivalent(a) == HttpsEquivalent(b)
    ensures FromRemoteUrl(a) == FromRemoteUrl(b)
  {
    hide HttpsEquivalent, Key, SchemeEnd, HostOf, IndexOf;
  }

  lemma KeyWithoutLeadingSlashes(host: string, path: string)
    ensures KeyOf(host, TrimStart(path, '/')) == KeyOf(host, path)
  {
    hide PathSegments;
    SegmentsWithoutLeadingSlashes(path);
  }

  // ----- the spelling git reads as a URL -----

  lemma {:induction false} TrimmedKeeps(path: string, c: char)
    requires c in path && c !in "/.git"
    ensures c in TrimGit(TrimEnd(path, '/'))
  {
    TrimEndKeeps(path, c);
    TrimGitKeeps(TrimEnd(path, '/'), c);
  }

  lemma {:induction false} TrimEndKeeps(s: string, c: char)
    requires c in s && c != '/'
    ensures c in TrimEnd(s, '/')
  {
    if s[|s| - 1] == '/' {
      assert s == s[..|s| - 1] + "/";
      TrimEndKeeps(s[..|s| - 1], c);
    }
  }

  lemma {:induction false} TrimGitKeeps(s: string, c: char)
    requires c in s && c !in ".git"
    ensures c in TrimGit(s)
  {
    if EndsInGit(s) {
      assert s == s[..|s| - 4] + ".git";
      TrimGitKeeps(s[..|s| - 4], c);
    }
  }

  function AfterFirst(s: string): string {
    var end := IndexOf(s, '/');
    s[if end < |s| then end + 1 else end..]
  }

  lemma PiecesOnward(s: string)
    requires s != []
    ensures Pieces(s) == (if IndexOf(s, '/') == 0 then [] else [s[..IndexOf(s, '/')]]) + Pieces(AfterFirst(s))
  {
    hide IndexOf;
  }

  lemma FirstPiece(s: string)
    requires s != []
    ensures IndexOf(s, '/') > 0 ==> s[..IndexOf(s, '/')] in Pieces(s)
    ensures forall piece :: piece in Pieces(AfterFirst(s)) ==> piece in Pieces(s)
  {
    hide IndexOf, Pieces, AfterFirst;
    PiecesOnward(s);
  }

  lemma {:induction false} PiecesKeep(s: string, c: char)
    requires c != '/' && forall piece :: piece in Pieces(s) ==> c !in piece
    ensures c !in s
    decreases |s|
  {
    hide Pieces;
    if s != [] {
      var end := IndexOf(s, '/');
      FirstPiece(s);
      var rest := AfterFirst(s);
      assert c !in s[..end];
      PiecesKeep(rest, c);
      assert s == s[..end] + (if end < |s| then "/" else "") + rest;
    }
  }

  /// A path with a colon has no key.
  lemma KeyedPathsHaveNoColon(host: string, path: string)
    requires KeyOf(host, path).Some?
    ensures ':' !in path
  {
    hide TrimGit, TrimEnd, Pieces;
    forall piece | piece in PathSegments(path) ensures ':' !in piece {
      assert piece in [Lower(host)] + PathSegments(path);
      assert Keyable(piece);
    }
    PiecesKeep(TrimGit(TrimEnd(path, '/')), ':');
    if ':' in path {
      TrimmedKeeps(path, ':');
    }
  }

  lemma {:induction false} SchemeNeedsColon(s: string)
    requires NamesAScheme(s)
    ensures ':' in s
  {
    if "://" <= s {
      assert s[..3] == "://";
      assert s[0] == ':';
    } else {
      SchemeNeedsColon(s[1..]);
    }
  }

  lemma UrlIsItsOwn(url: string)
    requires NamesAScheme(url) && !("ssh://" <= url)
    ensures HttpsEquivalent(url) == url
  {
  }

  lemma NoHost(rest: string)
    ensures HostOf("") == "" && Lower("") == "" && !Keyable("")
    ensures SplitAtSlash("") == None
  {
    NoneToDrop("");
    NoColonNoSplit("");
  }

  lemma NoPath()
    ensures PathSegments("") == []
  {
    assert TrimEnd("", '/') == "" && TrimGit("") == "";
  }

  lemma HostHasNoSlash(authority: string)
    requires '/' !in authority
    ensures '/' !in HostOf(authority)
  {
    AfterLastWithin(authority, '@');
  }

  lemma {:induction false} AfterLastWithin(s: string, c: char)
    ensures forall d :: d in AfterLast(s, c) ==> d in s
  {
    if s != [] && s[|s| - 1] != c {
      AfterLastWithin(s[..|s| - 1], c);
    }
  }

  lemma TwoSlashesFirst(path: string)
    requires NamesAScheme(":" + path) && ':' !in path
    ensures "//" <= path
  {
    var s := ":" + path;
    assert s[1..] == path;
    if "://" <= s {
      assert s[..3] == "://";
      assert path[..2] == s[1..3] == "//";
    } else {
      SchemeNeedsColon(path);
    }
  }

  /// Only a bare host makes an authority without an `@`.
  lemma BareAuthority(user: Option<string>, host: string)
    ensures '@' in Authority(user, host, None) || Authority(user, host, None) == host
  {
    if user.Some? {
      assert '@' in user.value + "@";
    }
  }

  lemma OneSegmentMore(rest: string)
    requires SplitAtSlash(rest).Some? && rest[0] != '/' && PathSegments(SplitAtSlash(rest).value.1) != []
    ensures |PathSegments("//" + rest)| == 1 + |PathSegments(SplitAtSlash(rest).value.1)|
  {
    hide PathSegments, TrimEnd, IndexOf;
    var (authority, path) := SplitAtSlash(rest).value;
    assert rest == authority + "/" + path;
    assert authority != [];
    if TrimEnd(path, '/') == [] {
      OnlySlashes(path);
    }
    PathAfterSlash(authority, path);
    TwoSlashesTrimmed(rest);
    SegmentsWithoutLeadingSlashes("//" + rest);
  }

  lemma TwoSlashesTrimmed(rest: string)
    requires rest != [] && rest[0] != '/'
    ensures TrimStart("//" + rest, '/') == rest
  {
    var all := "//" + rest;
    assert all[1..] == "/" + rest && all[1..][1..] == rest;
    assert TrimStart(all, '/') == TrimStart("/" + rest, '/') == TrimStart(rest, '/');
  }

  /// Read as a URL, a scp-like spelling's key is a segment short.
  lemma OneSegmentShort(url: string, host: string, rest: string)
    requires FromRemoteUrl(url).Some? ==>
               && SplitAtSlash(rest).Some? && rest[0] != '/'
               && |FromRemoteUrl(url).value| == 1 + |PathSegments(SplitAtSlash(rest).value.1)| > 1
    requires KeyOf(host, "//" + rest).Some?
    ensures FromRemoteUrl(url) != KeyOf(host, "//" + rest)
  {
    hide FromRemoteUrl, PathSegments;
    if FromRemoteUrl(url).Some? {
      OneSegmentMore(rest);
    }
  }

  /// What a URL of `authority` and `rest` is read as: nothing, or a key of a
  /// segment less than its host's and path's would have; or, of a file, one
  /// with no host.
  lemma UrlReadingSize(authority: string, rest: string)
    requires ':' !in authority
    ensures var url := authority + "://" + rest;
            var key := FromRemoteUrl(url);
            && (authority != "file" && key.Some? ==>
                  && SplitAtSlash(rest).Some? && rest[0] != '/'
                  && |key.value| == 1 + |PathSegments(SplitAtSlash(rest).value.1)| > 1)
            && (authority == "file" && key.Some? ==> key.value[0] == "local")
  {
    hide PathSegments, HostOf, SchemeEnd, Lower;
    var url := authority + "://" + rest;
    SchemeAtStart(authority, rest);
    UrlsAreReadByWhatFollows(url);
    assert url[..|authority|] == authority && url[|authority| + 3..] == rest;
    if rest != [] && rest[0] == '/' {
      assert SplitAtSlash(rest).value.0 == "";
      NoHost(rest);
    }
  }

  /// With a key to have, a path of a scp-like spelling that git reads as a URL
  /// begins with two slashes, and its key is another repository's.
  lemma ReadAsAUrlHasAnotherKey(user: Option<string>, host: string, path: string)
    requires Plain(host) && Scp(user).WellFormed() && Scp(user).ReadAsAUrl(path)
    requires KeyOf(host, path).Some?
    ensures "//" <= path && FromRemoteUrl(Scp(user).Url(host, path)) != KeyOf(host, path)
  {
    hide FromRemoteUrl, PathSegments, Authority, SchemeEnd, KeyOf, SplitAtSlash;
    KeyedPathsHaveNoColon(host, path);
    TwoSlashesFirst(path);
    var authority, rest := Authority(user, host, None), path[2..];
    ScpAuthority(user, host);
    assert path == "//" + rest;
    assert Scp(user).Url(host, path) == authority + "://" + rest;
    UrlReadingSize(authority, rest);
    if authority == "file" {
      BareAuthority(user, host);
      LocalIsNoHost(path);
    } else {
      OneSegmentShort(authority + "://" + rest, host, rest);
    }
  }

  lemma LocalIsNoHost(path: string)
    ensures KeyOf("file", path).Some? ==> KeyOf("file", path).value[0] != "local"
  {
    hide PathSegments;
    assert Lower("file")[0] == 'f' && "local"[0] == 'l';
  }

  // ----- what "://" is read as -----

  /// The key of a URL's host and path, whichever scheme comes first; `file`
  /// has no host of its own.
  function UrlReading(url: string): Option<seq<string>> {
    if !NamesAScheme(url) then None
    else
      var rest := url[SchemeEnd(url) + 3..];
      if url[..SchemeEnd(url)] == "file" then Key("local", rest)
      else
        match SplitAtSlash(rest)
        case None => None
        case Some((authority, path)) => KeyOf(HostOf(authority), path)
  }

  lemma IndexOfPrefix(s: string, n: nat, c: char)
    requires n <= |s|
    ensures IndexOf(s[..n], c) == if IndexOf(s, c) < n then IndexOf(s, c) else n
  {
    var i, k := IndexOf(s, c), IndexOf(s[..n], c);
    assert forall m :: 0 <= m < n ==> s[..n][m] == s[m];
  }

  lemma ClosedAtPrefix(s: string, open: nat, at: nat)
    requires open < |s| && ClosedAt(s, open) < at <= |s|
    ensures ClosedAt(s[..at], open) == ClosedAt(s, open)
  {
    hide IndexOf;
    assert s[open..][..at - open] == s[..at][open..];
    IndexOfPrefix(s[open..], at - open, ']');
  }

  lemma NoColonAtClose(s: string, open: nat)
    requires open < |s| && s[open] == '['
    ensures IndexOf(s[ClosedAt(s, open)..], ':') > 0
  {
    var from := ClosedAt(s, open);
    assert s[from] == s[open..][from - open];
    assert s[from..][0] == s[from] && s[from] != ':';
  }

  /// Cut at the colon found, the search of what is left starts where it did,
  /// or finds no colon at all.
  lemma CutSearchedFrom(s: string, at: nat)
    requires at == SearchedFrom(s) + IndexOf(s[SearchedFrom(s)..], ':') < |s|
    ensures if IndexOf(s, ':') < at then SearchedFrom(s[..at]) == SearchedFrom(s) < at else SearchedFrom(s[..at]) == 0
  {
    hide IndexOf, ClosedAt;
    var open, colon := IndexOf(s, '['), IndexOf(s, ':');
    IndexOfPrefix(s, at, '[');
    IndexOfPrefix(s, at, ':');
    if open < colon < |s| {
      NoColonAtClose(s, open);
      ClosedAtPrefix(s, open, at);
    } else {
      assert s[0..] == s;
    }
  }

  lemma HostSplitsNoFurther(s: string)
    requires SplitAtHostColon(s).Some?
    ensures SplitAtHostColon(SplitAtHostColon(s).value.0) == None
  {
    hide IndexOf, SearchedFrom;
    var from := SearchedFrom(s);
    var at := from + IndexOf(s[from..], ':');
    CutSearchedFrom(s, at);
    IndexOfPrefix(s, at, ':');
    if IndexOf(s, ':') < at {
      assert s[from..][..at - from] == s[..at][from..];
      IndexOfPrefix(s[from..], at - from, ':');
    } else {
      assert s[..at][0..] == s[..at];
    }
  }

  lemma {:induction false} NoneAfterLast(s: string, c: char)
    ensures c !in AfterLast(s, c)
  {
    if s != [] && s[|s| - 1] != c {
      NoneAfterLast(s[..|s| - 1], c);
    }
  }

  /// A host is its own.
  lemma HostOfHost(authority: string)
    ensures HostOf(HostOf(authority)) == HostOf(authority)
  {
    hide AfterLast, SplitAtHostColon;
    var after := AfterLast(authority, '@');
    NoneAfterLast(authority, '@');
    var host := HostOf(authority);
    if SplitAtHostColon(after).Some? {
      HostSplitsNoFurther(after);
      HostIsAPrefix(after);
    }
    assert '@' !in host;
    NoneToDrop(host);
  }

  lemma HostIsAPrefix(s: string)
    requires SplitAtHostColon(s).Some?
    ensures SplitAtHostColon(s).value.0 <= s
  {
  }

  lemma NoPathNoKey(host: string)
    ensures Key(host, "") == None
  {
    hide PathSegments;
    NoPath();
  }

  /// With a scheme, `ssh` or any other, a URL is keyed by what follows it.
  lemma UrlsAreReadByWhatFollows(url: string)
    requires NamesAScheme(url)
    ensures FromRemoteUrl(url) == UrlReading(url)
  {
    hide HostOf, Key, PathSegments, IndexOf, SchemeEnd, TrimStart;
    if "ssh://" <= url {
      SshIsReadByWhatFollows(url[6..]);
      assert url == "ssh://" + url[6..];
    } else {
      UrlIsItsOwn(url);
      var rest := url[SchemeEnd(url) + 3..];
      NoPathNoKey(Lower(HostOf(rest)));
    }
  }

  lemma SshIsReadByWhatFollows(rest: string)
    ensures FromRemoteUrl("ssh://" + rest) == UrlReading("ssh://" + rest)
  {
    hide HostOf, Key, PathSegments, IndexOf, SchemeEnd, TrimStart, ScpLikeParts;
    var url := "ssh://" + rest;
    assert url == "ssh" + "://" + rest && url[6..] == rest && url[..3] == "ssh";
    SchemeAtStart("ssh", rest);
    match SplitAtSlash(rest)
    case None => NoPathNoKey(Lower(HostOf(rest)));
    case Some((authority, path)) =>
      var host := HostOf(authority);
      HostHasNoSlash(authority);
      assert HttpsEquivalent(url) == "https://" + host + "/" + TrimStart(path, '/');
      HttpsEquivalentIsIdempotent(url);
      SameHttpsSameKey(url, HttpsEquivalent(url));
      HostOfHost(authority);
      KeyOfHttps(host, host, TrimStart(path, '/'));
      KeyWithoutLeadingSlashes(host, path);
  }

  /// A spelling is keyed as its host and path unless git reads it as a URL —
  /// or neither reading has a key.
  predicate KeyedAsSpelled(spelling: Spelling, host: string, path: string) {
    spelling.ReadAsAUrl(path) ==> KeyOf(host, path) == None && UrlReading(spelling.Url(host, path)) == None
  }

  /// Exactly when a spelling's key is its host's and path's, whatever they are.
  lemma SpellingIsKeyedAlike(spelling: Spelling, host: string, path: string)
    requires Plain(host) && spelling.WellFormed()
    ensures FromRemoteUrl(spelling.Url(host, path)) == KeyOf(host, path) <==> KeyedAsSpelled(spelling, host, path)
    ensures spelling.ReadAsAUrl(path) ==>
              FromRemoteUrl(spelling.Url(host, path)) == UrlReading(spelling.Url(host, path))
  {
    hide FromRemoteUrl, PathSegments, Authority, KeyOf, UrlReading, SchemeEnd;
    if spelling.ReadAsAUrl(path) {
      ReadAsAUrlNamesAScheme(spelling.user, host, path);
      UrlsAreReadByWhatFollows(spelling.Url(host, path));
      if KeyOf(host, path).Some? {
        ReadAsAUrlHasAnotherKey(spelling.user, host, path);
      }
    } else {
      EverySpellingHasOneKey(spelling, host, path);
    }
  }

  lemma ReadAsAUrlNamesAScheme(user: Option<string>, host: string, path: string)
    requires Plain(host) && Scp(user).WellFormed() && Scp(user).ReadAsAUrl(path)
    ensures NamesAScheme(Scp(user).Url(host, path))
  {
    hide Authority, SchemeEnd;
    ScpAuthority(user, host);
    var authority := Authority(user, host, None);
    assert Scp(user).Url(host, path) == authority + (":" + path);
    SchemeAfter(authority, ":" + path);
  }

  /// One key a repository: two spellings of one remote, their hosts the same
  /// but for ASCII case, are keyed alike exactly when both are keyed as
  /// spelled, or neither is and the URLs git reads have one key.
  lemma OneKeyPerRepository(a: Spelling, host: string, b: Spelling, other: string, path: string)
    requires Plain(host) && Plain(other) && Lower(host) == Lower(other) && a.WellFormed() && b.WellFormed()
    ensures FromRemoteUrl(a.Url(host, path)) == FromRemoteUrl(b.Url(other, path)) <==>
              if KeyedAsSpelled(a, host, path) || KeyedAsSpelled(b, other, path) then
                KeyedAsSpelled(a, host, path) && KeyedAsSpelled(b, other, path)
              else UrlReading(a.Url(host, path)) == UrlReading(b.Url(other, path))
  {
    hide FromRemoteUrl, PathSegments, UrlReading, Spelling.Url, Spelling.ReadAsAUrl;
    SpellingIsKeyedAlike(a, host, path);
    SpellingIsKeyedAlike(b, other, path);
    assert KeyOf(host, path) == KeyOf(other, path);
  }

  lemma TwoSlashesNameAScheme(path: string)
    ensures "//" <= path ==> NamesAScheme(":" + path)
  {
    if "//" <= path {
      assert path == "//" + path[2..];
      assert ":" + path == [] + "://" + path[2..];
      SchemeAtStart([], path[2..]);
    }
  }

  /// Of a remote with a key, the scp-like spelling is keyed as the others are
  /// exactly when its path does not begin with two slashes.
  lemma KeyableScpIsKeyedAlike(user: Option<string>, host: string, path: string)
    requires Plain(host) && Scp(user).WellFormed() && KeyOf(host, path).Some?
    ensures FromRemoteUrl(Scp(user).Url(host, path)) == KeyOf(host, path) <==> !("//" <= path)
  {
    hide FromRemoteUrl, PathSegments, Authority, KeyOf;
    if Scp(user).ReadAsAUrl(path) {
      ReadAsAUrlHasAnotherKey(user, host, path);
    } else {
      EverySpellingHasOneKey(Scp(user), host, path);
      TwoSlashesNameAScheme(path);
    }
  }

  /// Two remotes, one repository, and keys that differ.
  lemma TwoSlashesChangeTheKey()
    ensures Scp(Some("git")).Url("h", "//o/r") == "git@h://o/r"
    ensures Https(None, None).Url("h", "//o/r") == "https://h///o/r"
    ensures FromRemoteUrl("git@h://o/r") != FromRemoteUrl("https://h///o/r") == Some(["h", "o", "r"])
  {
    hide FromRemoteUrl, PathSegments;
    var path := "//o/r";
    assert Authority(None, "h", None) == "h" && Authority(Some("git"), "h", None) == "git@h";
    EverySpellingHasOneKey(Https(None, None), "h", path);
    assert Https(None, None).Url("h", path) == "https://h///o/r";
    ThreeSegments();
    KeyableScpIsKeyedAlike(Some("git"), "h", path);
  }

  /// A remote with no key of its own, keyed as another repository.
  lemma AnUnkeyableRemoteCanBeKeyed()
    ensures Scp(None).Url("h", "a://e/r") == "h:a://e/r" && Https(None, None).Url("h", "a://e/r") == "https://h/a://e/r"
    ensures FromRemoteUrl("h:a://e/r") == Some(["e", "r"]) && FromRemoteUrl("https://h/a://e/r") == None
  {
    hide FromRemoteUrl, PathSegments, HostOf, Key, UrlReading, SchemeEnd;
    var url, path := "h:a://e/r", "a://e/r";
    assert Authority(None, "h", None) == "h";
    EverySpellingHasOneKey(Https(None, None), "h", path);
    NoKeyWithAColon("h", path);
    TheSchemeOfIt();
    UrlsAreReadByWhatFollows(url);
    KeyOfOneLetter();
  }

  lemma NoKeyWithAColon(host: string, path: string)
    requires |path| > 1 && path[1] == ':'
    ensures KeyOf(host, path) == None
  {
    hide KeyOf;
    if KeyOf(host, path).Some? {
      KeyedPathsHaveNoColon(host, path);
    }
  }

  lemma TheSchemeOfIt()
    ensures NamesAScheme("h:a://e/r") && UrlReading("h:a://e/r") == KeyOf("e", "r")
  {
    hide HostOf, KeyOf, SplitAtSlash, SchemeEnd;
    var url := "h:a://e/r";
    SchemeEndOfIt();
    assert url[6..] == "e/r" && url[..3] == "h:a" != "file";
    SplitOfIt();
    AuthorityNamesHost(None, "e", None);
    assert Authority(None, "e", None) == "e";
  }

  lemma SchemeEndOfIt()
    ensures SchemeEnd("h:a://e/r") == 3
  {
    var url, path := "h:a://e/r", "a://e/r";
    assert url[1..] == ":" + path && (":" + path)[1..] == path == "a" + "://" + "e/r";
    SchemeAtStart("a", "e/r");
    assert (":" + path)[1] == 'a';
  }

  lemma SplitOfIt()
    ensures SplitAtSlash("e/r") == Some(("e", "r"))
  {
    hide IndexOf;
    var rest := "e/r";
    assert rest == "e" + ['/'] + "r";
    IndexAfter("e", '/', "r");
    assert rest[..1] == "e" && rest[2..] == "r";
  }

  lemma KeyOfOneLetter()
    ensures KeyOf("e", "r") == Some(["e", "r"])
  {
    hide PathSegments;
    OneSegment();
    assert Lower("e") == "e" && Keyable("e") && Keyable("r");
    assert ["e"] + ["r"] == ["e", "r"];
  }

  lemma ThreeSegments()
    ensures KeyOf("h", "//o/r") == Some(["h", "o", "r"])
  {
    hide PathSegments;
    var path := "//o/r";
    assert path[1..] == "/o/r" && path[1..][1..] == "o/r";
    assert TrimStart(path, '/') == TrimStart("/o/r", '/') == TrimStart("o/r", '/') == "o/r";
    SegmentsWithoutLeadingSlashes(path);
    assert "o/r" == "o" + "/" + "r";
    PathAfterSlash("o", "r");
    assert PathSegments("r") == ["r"] by { OneSegment(); }
    assert Lower("h") == "h";
    assert Keyable("h") && Keyable("o") && Keyable("r");
    assert [Lower("h")] + (["o"] + ["r"]) == ["h", "o", "r"];
  }

  lemma OneSegment()
    ensures PathSegments("r") == ["r"] && TrimEnd("r", '/') != []
  {
    assert TrimEnd("r", '/') == "r" && TrimGit("r") == "r";
    assert IndexOf("r"[1..], '/') == 0;
    assert "r"[..1] == "r" && "r"[1..] == "";
  }
}
