// A repository's key, segment by segment: what each kind of remote is keyed
// as, and which have no key (src/paths.rs, src/payload.rs, src/git.rs).
module KeySegments {
  import opened Events
  import opened RepoKey

  /// A name a directory can have: no separator in it, nor one of the two that
  /// lead elsewhere.
  ghost predicate IsSafe(segment: string) {
    && segment != "" && segment != "." && segment != ".."
    && forall i :: 0 <= i < |segment| ==> IsPlain(segment[i])
  }

  /// An ASCII letter or digit, a full stop, an underscore or a hyphen.
  ghost predicate IsPlain(c: char) {
    || 'a' <= c <= 'z' || 'A' <= c <= 'Z' || '0' <= c <= '9'
    || c == '.' || c == '_' || c == '-'
  }

  lemma SafeIsKeyable(segment: string)
    ensures Keyable(segment) <==> IsSafe(segment)
  {
    assert forall c: char :: c in "._-" <==> c == '.' || c == '_' || c == '-';
  }

  /// ASCII capitals alone change.
  lemma LoweredByPosition(s: string, i: nat)
    requires i < |s|
    ensures |Lower(s)| == |s|
    ensures Lower(s)[i] as int == s[i] as int + if 'A' <= s[i] <= 'Z' then 32 else 0
  {
  }

  // ----- a path -----

  function Repeated(s: string, n: nat): string {
    if n == 0 then "" else Repeated(s, n - 1) + s
  }

  /// Segments with slashes before each, as many as are given.
  function Joined(segments: seq<string>, slashes: nat -> nat): string {
    if segments == [] then ""
    else
      var n := |segments| - 1;
      Joined(segments[..n], slashes) + Repeated("/", slashes(n)) + segments[n]
  }

  ghost predicate AreSegments(segments: seq<string>, slashes: nat -> nat) {
    && (forall i :: 0 <= i < |segments| ==> segments[i] != "" && '/' !in segments[i])
    && (forall i: nat :: 0 < i < |segments| ==> slashes(i) > 0)
  }

  /// A path: its segments, slashes, any number of `.git`, more slashes.
  datatype PathSpelt = PathSpelt(segments: seq<string>, slashes: nat -> nat, after: nat, gits: nat, trailing: nat)
  {
    ghost predicate WellFormed() {
      && AreSegments(segments, slashes) && (after > 0 ==> gits > 0)
      && (after == 0 ==> var bare := Joined(segments, slashes); |bare| < 4 || bare[|bare| - 4..] != ".git")
    }

    function Path(): string {
      Joined(segments, slashes) + Repeated("/", after) + Repeated(".git", gits) + Repeated("/", trailing)
    }
  }

  lemma OnePiece(s: string)
    requires '/' !in s
    ensures Pieces(s) == if s == "" then [] else [s]
  {
    if s != "" {
      assert IndexOf(s, '/') == |s|;
      assert s[..|s|] == s && s[|s|..] == "";
      assert Pieces("") == [];
    }
  }

  /// Up to the first slash, and on from there.
  lemma AtFirstSlash(s: string) returns (first: string, rest: string)
    requires '/' in s
    ensures '/' !in first && s == first + "/" + rest && |rest| < |s|
    ensures Pieces(s) == (if first == "" then [] else [first]) + Pieces(rest)
  {
    hide Pieces;
    var end := IndexOf(s, '/');
    first, rest := s[..end], s[end + 1..];
    assert s == first + "/" + rest;
    PiecesAfterSlash(first, rest);
  }

  lemma {:induction false} PiecesWithSlash(s: string)
    ensures Pieces(s + "/") == Pieces(s)
    decreases |s|
  {
    hide Pieces;
    if '/' in s {
      var first, rest := AtFirstSlash(s);
      assert s + "/" == first + "/" + (rest + "/");
      PiecesAfterSlash(first, rest + "/");
      PiecesWithSlash(rest);
    } else {
      assert s + "/" == s + "/" + "";
      PiecesAfterSlash(s, "");
      OnePiece(s);
      OnePiece("");
    }
  }

  lemma {:induction false} PiecesWithSlashes(s: string, n: nat)
    ensures Pieces(s + Repeated("/", n)) == Pieces(s)
  {
    if n == 0 {
      assert s + "" == s;
    } else {
      PiecesWithSlashes(s, n - 1);
      assert s + Repeated("/", n) == s + Repeated("/", n - 1) + "/";
      PiecesWithSlash(s + Repeated("/", n - 1));
    }
  }

  /// A segment more, after a slash or at the start.
  lemma {:induction false} PiecesWithSegment(s: string, segment: string)
    requires segment != "" && '/' !in segment && (s == "" || s[|s| - 1] == '/')
    ensures Pieces(s + segment) == Pieces(s) + [segment]
    decreases |s|
  {
    hide Pieces;
    OnePiece(segment);
    if s == "" {
      assert s + segment == segment;
      OnePiece("");
    } else {
      var first, rest := AtFirstSlash(s);
      assert s + segment == first + "/" + (rest + segment);
      PiecesAfterSlash(first, rest + segment);
      assert rest != "" ==> rest[|rest| - 1] == s[|s| - 1];
      PiecesWithSegment(rest, segment);
    }
  }

  lemma NoneRepeated()
    ensures forall s :: Repeated(s, 0) == ""
  {
  }

  lemma RepeatedEnds(s: string, n: nat)
    ensures n > 0 ==> |Repeated(s, n)| >= |s| && Repeated(s, n)[|Repeated(s, n)| - |s|..] == s
  {
  }

  lemma {:induction false} PiecesOfJoined(segments: seq<string>, slashes: nat -> nat)
    requires AreSegments(segments, slashes)
    ensures Pieces(Joined(segments, slashes)) == segments
  {
    hide Pieces, Repeated;
    OnePiece("");
    if segments != [] {
      var n := |segments| - 1;
      PiecesOfJoined(segments[..n], slashes);
      var before := Joined(segments[..n], slashes);
      PiecesWithSlashes(before, slashes(n));
      RepeatedEnds("/", slashes(n));
      NoneRepeated();
      assert n > 0 || before + Repeated("/", slashes(n)) == Repeated("/", slashes(n));
      PiecesWithSegment(before + Repeated("/", slashes(n)), segments[n]);
      assert segments == segments[..n] + [segments[n]];
    }
  }

  lemma {:induction false} TrimmedOfSlashes(s: string, n: nat)
    requires s == "" || s[|s| - 1] != '/'
    ensures TrimEnd(s + Repeated("/", n), '/') == s
  {
    if n == 0 {
      assert s + "" == s;
    } else {
      var all := s + Repeated("/", n);
      assert all[..|all| - 1] == s + Repeated("/", n - 1);
      TrimmedOfSlashes(s, n - 1);
    }
  }

  lemma {:induction false} TrimmedOfGits(s: string, n: nat)
    requires |s| < 4 || s[|s| - 4..] != ".git"
    ensures TrimGit(s + Repeated(".git", n)) == s
  {
    if n == 0 {
      assert s + "" == s;
    } else {
      var all := s + Repeated(".git", n);
      assert all == s + Repeated(".git", n - 1) + ".git";
      assert all[..|all| - 4] == s + Repeated(".git", n - 1) && all[|all| - 4..] == ".git";
      TrimmedOfGits(s, n - 1);
    }
  }

  lemma JoinedEnds(segments: seq<string>, slashes: nat -> nat)
    requires AreSegments(segments, slashes)
    ensures var bare := Joined(segments, slashes); bare != "" ==> bare[|bare| - 1] != '/'
  {
    if segments != [] {
      var last := segments[|segments| - 1];
      assert last[|last| - 1] in last;
    }
  }

  /// A path's segments are what is between its slashes, its last `.git`s and
  /// the slashes after them aside.
  lemma SegmentsAreSpelt(p: PathSpelt)
    requires p.WellFormed()
    ensures PathSegments(p.Path()) == p.segments
  {
    hide Pieces, TrimEnd, TrimGit, Joined, Repeated;
    var bare := Joined(p.segments, p.slashes);
    var ended := bare + Repeated("/", p.after);
    PiecesOfJoined(p.segments, p.slashes);
    PiecesWithSlashes(bare, p.after);
    JoinedEnds(p.segments, p.slashes);
    NoneRepeated();
    if p.gits == 0 {
      assert p.Path() == bare + Repeated("/", p.trailing);
      TrimmedOfSlashes(bare, p.trailing);
      assert bare + Repeated(".git", 0) == bare;
      TrimmedOfGits(bare, 0);
    } else {
      RepeatedEnds("/", p.after);
      RepeatedEnds(".git", p.gits);
      var all := ended + Repeated(".git", p.gits);
      assert all[|all| - 1] == Repeated(".git", p.gits)[|Repeated(".git", p.gits)| - 4..][3];
      TrimmedOfSlashes(all, p.trailing);
      assert |ended| < 4 || ended[|ended| - 4..] != ".git" by {
        if p.after > 0 {
          assert ended[|ended| - 1] == Repeated("/", p.after)[|Repeated("/", p.after)| - 1..][0];
          if |ended| >= 4 {
            assert ended[|ended| - 4..][3] == '/';
          }
        }
      }
      TrimmedOfGits(ended, p.gits);
    }
  }

  lemma {:induction false} Unending(s: string, with: string) returns (bare: string, n: nat)
    requires with != ""
    ensures s == bare + Repeated(with, n) && !EndsIn(bare, with)
    decreases |s|
  {
    bare, n := s, 0;
    if EndsIn(s, with) {
      bare, n := Unending(s[..|s| - |with|], with);
      n := n + 1;
      assert s == s[..|s| - |with|] + with;
    }
  }

  predicate EndsIn(s: string, with: string) {
    |s| >= |with| && s[|s| - |with|..] == with
  }

  lemma SlashLast(s: string)
    ensures EndsIn(s, "/") <==> s != "" && s[|s| - 1] == '/'
  {
  }

  lemma {:induction false} LastSegment(s: string) returns (before: string, segment: string)
    ensures s == before + segment && '/' !in segment && (before == "" || before[|before| - 1] == '/')
  {
    before, segment := s, "";
    if s != "" && s[|s| - 1] != '/' {
      before, segment := LastSegment(s[..|s| - 1]);
      segment := segment + [s[|s| - 1]];
    }
  }

  lemma {:induction false} SameJoined(segments: seq<string>, a: nat -> nat, b: nat -> nat)
    requires forall i: nat :: i < |segments| ==> a(i) == b(i)
    ensures Joined(segments, a) == Joined(segments, b)
  {
    if segments != [] {
      SameJoined(segments[..|segments| - 1], a, b);
    }
  }

  lemma {:induction false} EachIsJoined(bare: string) returns (segments: seq<string>, slashes: nat -> nat)
    requires !EndsIn(bare, "/")
    ensures AreSegments(segments, slashes) && Joined(segments, slashes) == bare
    decreases |bare|
  {
    segments, slashes := [], _ => 0;
    if bare != "" {
      var before, segment := LastSegment(bare);
      SlashLast(bare);
      assert bare == before || segment != "";
      var earlier, n := Unending(before, "/");
      var firsts, its := EachIsJoined(earlier);
      var k := |firsts|;
      segments, slashes := firsts + [segment], (i: nat) => if i == k then n else its(i);
      SameJoined(firsts, slashes, its);
      assert segments[..k] == firsts;
      SlashLast(before);
      assert earlier + "" == earlier;
    }
  }

  /// Every path is spelt so.
  lemma EveryPathIsSpelt(path: string) returns (p: PathSpelt)
    ensures p.WellFormed() && p.Path() == path
  {
    hide Joined, Repeated;
    NoneRepeated();
    var named, trailing := Unending(path, "/");
    var ended, gits := Unending(named, ".git");
    var (bare, after) := (ended, 0);
    if gits == 0 {
      assert ended + "" == ended;
    } else {
      bare, after := Unending(ended, "/");
    }
    assert ended == bare + Repeated("/", after) by {
      assert ended + "" == ended;
    }
    if after == 0 {
      assert bare + "" == bare;
    }
    var segments, slashes := EachIsJoined(bare);
    p := PathSpelt(segments, slashes, after, gits, trailing);
  }

  /// Its key, under `host`: all of its segments, or none if one is not safe.
  ghost function KeyUnder(host: string, segments: seq<string>): Option<seq<string>> {
    if segments != [] && IsSafe(host) && (forall i :: 0 <= i < |segments| ==> IsSafe(segments[i]))
    then Some([host] + segments) else None
  }

  lemma KeyIsSpelt(host: string, p: PathSpelt)
    requires p.WellFormed()
    ensures Key(host, p.Path()) == KeyUnder(host, p.segments)
  {
    hide PathSegments, Keyable, IsSafe, PathSpelt.Path, PathSpelt.WellFormed;
    SegmentsAreSpelt(p);
    forall segment: string ensures Keyable(segment) <==> IsSafe(segment) {
      SafeIsKeyable(segment);
    }
    var all := [host] + p.segments;
    assert all[0] == host && forall i :: 0 <= i < |p.segments| ==> all[i + 1] == p.segments[i];
  }

  // ----- a remote -----

  lemma KeysAreSegments(spelling: Spelling, host: string, p: PathSpelt)
    requires Plain(host) && spelling.WellFormed() && p.WellFormed()
    requires spelling.Scp? ==> HasNoScheme(":" + p.Path())
    ensures FromRemoteUrl(spelling.Url(host, p.Path())) == KeyUnder(Lower(host), p.segments)
  {
    hide FromRemoteUrl, KeyUnder, PathSpelt.Path, PathSpelt.WellFormed, Key, Spelling.Url, HasNoScheme, NamesAScheme;
    HasNone(":" + p.Path());
    EverySpellingHasOneKey(spelling, host, p.Path());
    KeyIsSpelt(Lower(host), p);
  }

  /// "://" is nowhere in it.
  ghost predicate HasNoScheme(s: string) {
    forall before: string, after: string :: s != before + "://" + after
  }

  lemma {:induction false} SchemeIsThere(s: string)
    requires NamesAScheme(s)
    ensures s == s[..SchemeEnd(s)] + "://" + s[SchemeEnd(s) + 3..]
  {
    if !("://" <= s) {
      SchemeIsThere(s[1..]);
    }
  }

  lemma {:induction false} SchemeIsFound(before: string, after: string)
    ensures NamesAScheme(before + "://" + after) && SchemeEnd(before + "://" + after) <= |before|
  {
    var s := before + "://" + after;
    if before == "" {
      assert s[..3] == "://";
    } else {
      assert s[1..] == before[1..] + "://" + after;
      SchemeIsFound(before[1..], after);
    }
  }

  lemma HasNone(s: string)
    ensures HasNoScheme(s) <==> !NamesAScheme(s)
  {
    if NamesAScheme(s) {
      SchemeIsThere(s);
    }
    forall before: string, after: string | s == before + "://" + after ensures NamesAScheme(s) {
      SchemeIsFound(before, after);
    }
  }

  /// A path on this machine is keyed by its segments whichever way it is
  /// given, if it is absolute.
  lemma LocalPathsAreKeyed(p: PathSpelt)
    requires p.WellFormed()
    ensures FromRemoteUrl("file://" + p.Path()) == KeyUnder("local", p.segments)
    ensures HasNoScheme(p.Path()) && "/" <= p.Path() ==> FromRemoteUrl(p.Path()) == KeyUnder("local", p.segments)
    ensures ':' !in p.Path() && !("/" <= p.Path()) ==> FromRemoteUrl(p.Path()) == None
  {
    hide KeyUnder, PathSpelt.Path, PathSpelt.WellFormed, Key, SchemeEnd, HostOf, TrimStart, HasNoScheme;
    var path := p.Path();
    KeyIsSpelt("local", p);
    assert "file://" + path == "file" + "://" + path;
    SchemeAtStart("file", path);
    FileIsItsOwn(path);
    var url := "file://" + path;
    assert url[..4] == "file" && url[7..] == path;
    HasNone(path);
    if ':' !in path && NamesAScheme(path) {
      SchemeNeedsColon(path);
    }
    if !NamesAScheme(path) && "/" <= path {
      AbsoluteIsItsOwn(path);
    }
    if ':' !in path {
      ColonlessIsItsOwn(path);
    }
  }

  lemma FileIsItsOwn(path: string)
    ensures HttpsEquivalent("file://" + path) == "file://" + path
  {
    assert "file://" + path == "file" + "://" + path;
    SchemeAtStart("file", path);
    assert ("file://" + path)[0] == 'f' && "ssh://"[0] == 's';
    UrlIsItsOwn("file://" + path);
  }

  lemma AbsoluteIsItsOwn(path: string)
    requires !NamesAScheme(path) && "/" <= path
    ensures HttpsEquivalent(path) == path
  {
    hide SchemeEnd, HostOf, TrimStart;
    assert path[0] == '/' && "ssh://"[0] == 's';
    var split := SplitAtHostColon(path);
    if split.Some? {
      ColonSplits(path);
      assert split.value.0 != "" ==> split.value.0[0] == '/';
    }
  }

  lemma ColonSplits(s: string)
    requires SplitAtHostColon(s).Some?
    ensures var (host, rest) := SplitAtHostColon(s).value; s == host + ":" + rest
  {
    var from := SearchedFrom(s);
    var at := from + IndexOf(s[from..], ':');
    assert s[from..][at - from] == s[at];
  }

  lemma ColonlessIsItsOwn(path: string)
    requires ':' !in path
    ensures HttpsEquivalent(path) == path
  {
    hide HostOf, TrimStart;
    NoColonNoSplit(path);
    assert "ssh://"[3] == ':';
  }

  // ----- a host -----

  /// The slashes before a path are all dropped.
  lemma {:induction false} LeadingSlashesGo(n: nat, s: string)
    requires !("/" <= s)
    ensures TrimStart(Repeated("/", n) + s, '/') == s
  {
    if n == 0 {
      assert "" + s == s;
    } else {
      SlashFirst(n);
      var all := Repeated("/", n) + s;
      assert all[1..] == Repeated("/", n - 1) + s;
      LeadingSlashesGo(n - 1, s);
    }
  }

  lemma {:induction false} SlashFirst(n: nat)
    requires n > 0
    ensures Repeated("/", n) == "/" + Repeated("/", n - 1)
  {
    if n > 1 {
      SlashFirst(n - 1);
    }
  }

  lemma OpensAt(before: string, rest: string)
    requires ':' !in before && '[' !in before
    ensures IndexOf(before + "[" + rest, '[') == |before| < IndexOf(before + "[" + rest, ':')
  {
    hide IndexOf;
    var s := before + "[" + rest;
    IndexAfter(before, '[', rest);
    var colon := IndexOf(s, ':');
    assert s[|before|] == '[' && forall k :: 0 <= k < |before| ==> s[k] == before[k] && before[k] in before;
  }

  lemma ClosesAt(before: string, inner: string, rest: string)
    requires ']' !in inner
    ensures ClosedAt(before + "[" + inner + "]" + rest, |before|) == |before| + 1 + |inner|
  {
    hide IndexOf;
    assert (before + "[" + inner + "]" + rest)[|before|..] == "[" + inner + "]" + rest;
    IndexAfter("[" + inner, ']', rest);
  }

  /// The colons of a bracketed literal end no host...
  lemma BracketsHideColons(before: string, inner: string, after: string, rest: string)
    requires ':' !in before && '[' !in before && ']' !in inner && ':' !in after
    ensures var host := before + "[" + inner + "]" + after;
            SplitAtHostColon(host + ":" + rest) == Some((host, rest))
  {
    hide IndexOf, ClosedAt;
    var host := before + "[" + inner + "]" + after;
    var s := host + ":" + rest;
    var beyond := inner + "]" + after + ":" + rest;
    assert s == before + "[" + beyond;
    OpensAt(before, beyond);
    var close := |before| + 1 + |inner|;
    assert s[|host|] == ':';
    assert s == before + "[" + inner + "]" + (after + ":" + rest);
    ClosesAt(before, inner, after + ":" + rest);
    assert s[close..] == "]" + after + ":" + rest;
    IndexAfter("]" + after, ':', rest);
    assert SearchedFrom(s) == close;
    assert s[..|host|] == host && s[|host| + 1..] == rest;
  }

  /// ...and those of a bracket left open do.
  lemma OpenBracketsHideNone(before: string, inner: string, rest: string)
    requires ':' !in before && '[' !in before && ':' !in inner && ']' !in inner && ']' !in rest
    ensures SplitAtHostColon(before + "[" + inner + ":" + rest) == Some((before + "[" + inner, rest))
  {
    hide IndexOf;
    var host := before + "[" + inner;
    var s := host + ":" + rest;
    assert s == before + "[" + (inner + ":" + rest);
    OpensAt(before, inner + ":" + rest);
    assert s[|before|..] == "[" + inner + ":" + rest;
    assert ']' !in s[|before|..];
    assert ClosedAt(s, |before|) == |before|;
    IndexAfter("[" + inner, ':', rest);
    assert s[|host|] == ':';
    assert SearchedFrom(s) == |before|;
    assert s[..|host|] == host && s[|host| + 1..] == rest;
  }
}
