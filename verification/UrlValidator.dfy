// The strict repository-URL validator and the canonical clone URL it builds.
module UrlValidator {
  import opened Common
  import opened Strings

  const MAX_URL_LENGTH: nat := 512
  const MAX_GITHUB_OWNER_LENGTH: nat := 39
  const MAX_SEGMENT_LENGTH: nat := 100
  const MAX_GITLAB_SEGMENTS: nat := 20

  const SCHEME: string := "https://"
  const GIT: string := ".git"

  predicate IsAsciiAlnum(c: char) {
    'a' <= c <= 'z' || 'A' <= c <= 'Z' || '0' <= c <= '9'
  }

  function ToAsciiLower(c: char): char {
    if 'A' <= c <= 'Z' then (c as int - 'A' as int + 'a' as int) as char else c
  }

  predicate SameIgnoringCase(a: string, b: string) {
    |a| == |b| && forall i | 0 <= i < |a| :: ToAsciiLower(a[i]) == ToAsciiLower(b[i])
  }

  predicate PrintableAscii(s: string) {
    forall i | 0 <= i < |s| :: '\U{0020}' < s[i] < '\U{007f}'
  }

  predicate SegmentChar(c: char) {
    IsAsciiAlnum(c) || c == '.' || c == '_' || c == '-'
  }

  predicate ValidSegment(s: string) {
    && 1 <= |s| <= MAX_SEGMENT_LENGTH && s[0] != '-'
    && (forall i | 0 <= i < |s| :: SegmentChar(s[i]))
    && exists i | 0 <= i < |s| :: s[i] != '.'
  }

  predicate ValidOwner(s: string) {
    && 1 <= |s| <= MAX_GITHUB_OWNER_LENGTH && s[0] != '-' && s[|s| - 1] != '-'
    && forall i | 0 <= i < |s| :: IsAsciiAlnum(s[i]) || s[i] == '-'
  }

  datatype Host = GitHub | GitLab

  function HostName(h: Host): string {
    if h.GitHub? then "github.com" else "gitlab.com"
  }

  predicate Names(host: string, h: Host) {
    if h.GitHub? then SameIgnoringCase(host, "github.com") || SameIgnoringCase(host, "www.github.com")
    else SameIgnoringCase(host, "gitlab.com")
  }

  predicate ValidPath(h: Host, path: string) {
    var segments := Split(path, '/');
    && AllValid(segments)
    && if h.GitHub? then |segments| == 2 && ValidOwner(segments[0])
       else 2 <= |segments| <= MAX_GITLAB_SEGMENTS
  }

  predicate EndsWithGit(s: string) {
    |s| > |GIT| && s[|s| - |GIT|..] == GIT
  }

  function DropSlash(s: string): string {
    if s != "" && s[|s| - 1] == '/' then s[..|s| - 1] else s
  }

  function DropGit(s: string): string {
    if EndsWithGit(s) then s[..|s| - |GIT|] else s
  }

  function Output(h: Host, path: string): string {
    SCHEME + HostName(h) + "/" + path + GIT
  }

  function HostOf(host: string): Option<Host> {
    if Names(host, GitHub) then Some(GitHub)
    else if Names(host, GitLab) then Some(GitLab)
    else None
  }

  predicate HasScheme(url: string) {
    |url| >= |SCHEME| && SameIgnoringCase(url[..|SCHEME|], SCHEME)
  }

  function FromPath(h: Host, path: string): Option<string> {
    if ValidPath(h, path) then Some(Output(h, path)) else None
  }

  function FromHost(rest: string): Option<string> {
    var slash := IndexOf(rest, '/');
    if slash == |rest| then None
    else
      var h := HostOf(rest[..slash]);
      if h.None? then None else FromPath(h.value, DropGit(DropSlash(rest[slash + 1..])))
  }

  // What canonicalCloneUrl answers.
  function Canonical(url: string): Option<string> {
    if url == "" || |url| > MAX_URL_LENGTH || !PrintableAscii(url) || !HasScheme(url) then None
    else FromHost(url[|SCHEME|..])
  }

  // ---- The program ----

  method EqualsIgnoreAsciiCase(a: string, b: string) returns (same: bool)
    ensures same == SameIgnoringCase(a, b)
  {
    if |a| != |b| { return false; }
    for i := 0 to |a|
      invariant forall k | 0 <= k < i :: ToAsciiLower(a[k]) == ToAsciiLower(b[k])
    {
      if ToAsciiLower(a[i]) != ToAsciiLower(b[i]) { return false; }
    }
    return true;
  }

  method IsValidPathSegment(segment: string) returns (valid: bool)
    ensures valid == ValidSegment(segment)
  {
    if segment == "" || |segment| > MAX_SEGMENT_LENGTH || segment[0] == '-' { return false; }
    var allDots := true;
    for i := 0 to |segment|
      invariant forall k | 0 <= k < i :: SegmentChar(segment[k])
      invariant allDots <==> forall k | 0 <= k < i :: segment[k] == '.'
    {
      var c := segment[i];
      if !IsAsciiAlnum(c) && c != '.' && c != '_' && c != '-' { return false; }
      if c != '.' { allDots := false; }
    }
    return !allDots;
  }

  method IsValidGitHubOwner(owner: string) returns (valid: bool)
    ensures valid == ValidOwner(owner)
  {
    if owner == "" || |owner| > MAX_GITHUB_OWNER_LENGTH || owner[0] == '-' || owner[|owner| - 1] == '-' {
      return false;
    }
    for i := 0 to |owner|
      invariant forall k | 0 <= k < i :: IsAsciiAlnum(owner[k]) || owner[k] == '-'
    {
      if !IsAsciiAlnum(owner[i]) && owner[i] != '-' { return false; }
    }
    return true;
  }

  predicate AllValid(segments: seq<string>) {
    forall i | 0 <= i < |segments| :: ValidSegment(segments[i])
  }

  lemma AllValidAppend(found: seq<string>, first: string, rest: seq<string>)
    ensures AllValid(found + [first] + rest) <==> AllValid(found) && ValidSegment(first) && AllValid(rest)
  {
    var all := found + [first] + rest;
    assert forall i | 0 <= i < |found| :: all[i] == found[i];
    assert all[|found|] == first;
    assert forall i | 0 <= i < |rest| :: all[|found| + 1 + i] == rest[i];
  }

  function Later(rest: string, next: nat): seq<string> {
    if next < |rest| then Split(rest[next + 1..], '/') else []
  }

  lemma FirstOfSplit(rest: string, next: nat, segment: string)
    requires next == IndexOf(rest, '/') && segment == rest[..next]
    ensures Split(rest, '/') == [segment] + Later(rest, next)
  {
    if next == |rest| { assert segment == rest; }
  }

  lemma OneMoreSegment(found: seq<string>, segment: string, later: seq<string>, all: seq<string>)
    requires found + ([segment] + later) == all && AllValid(found)
    ensures found + [segment] + later == all
    ensures !ValidSegment(segment) ==> !AllValid(all)
    ensures ValidSegment(segment) ==> AllValid(found + [segment])
    ensures later == [] ==> found + [segment] == all
  {
    assert found + [segment] + later == all;
    assert later == [] ==> found + [segment] + [] == found + [segment];
    AllValidAppend(found, segment, later);
    AllValidAppend(found, segment, []);
    assert found + [segment] + [] == found + [segment];
  }

  // The loop over path.find('/', start), with `rest` for what starts there: the segments, or
  // None at the first invalid one.
  method Segments(path: string) returns (segments: Option<seq<string>>)
    ensures segments == if AllValid(Split(path, '/')) then Some(Split(path, '/')) else None
  {
    ghost var all := Split(path, '/');
    var found: seq<string> := [];
    var rest := path;
    while true
      invariant found + Split(rest, '/') == all && AllValid(found)
      decreases |rest|
    {
      var next := IndexOf(rest, '/');
      var segment := rest[..next];
      FirstOfSplit(rest, next, segment);
      OneMoreSegment(found, segment, Later(rest, next), all);
      var valid := IsValidPathSegment(segment);
      if !valid { return None; }
      found := found + [segment];
      if next == |rest| { return Some(found); }
      rest := rest[next + 1..];
    }
  }

  method Build(h: Host, segments: seq<string>) returns (canonical: string)
    requires |segments| >= 1
    ensures canonical == Output(h, Join(segments, '/'))
  {
    canonical := SCHEME + HostName(h);
    for i := 0 to |segments|
      invariant i == 0 ==> canonical == SCHEME + HostName(h)
      invariant i > 0 ==> canonical == SCHEME + HostName(h) + "/" + Join(segments[..i], '/')
    {
      assert segments[..i + 1] == segments[..i] + [segments[i]];
      if i > 0 { JoinAppend(segments[..i], segments[i], '/'); }
      canonical := canonical + "/" + segments[i];
    }
    assert segments[..|segments|] == segments;
    canonical := canonical + GIT;
  }

  method IsPrintable(url: string) returns (printable: bool)
    ensures printable == PrintableAscii(url)
  {
    for i := 0 to |url|
      invariant forall k | 0 <= k < i :: '\U{0020}' < url[k] < '\U{007f}'
    {
      if url[i] <= '\U{0020}' || url[i] >= '\U{007f}' { return false; }
    }
    return true;
  }

  method CanonicalHost(host: string) returns (h: Option<Host>)
    ensures h == HostOf(host)
  {
    var plain := EqualsIgnoreAsciiCase(host, "github.com");
    var www := EqualsIgnoreAsciiCase(host, "www.github.com");
    if plain || www { return Some(GitHub); }
    var gitlab := EqualsIgnoreAsciiCase(host, "gitlab.com");
    return if gitlab then Some(GitLab) else None;
  }

  method CheckAndBuild(h: Host, path: string) returns (canonical: Option<string>)
    ensures canonical == FromPath(h, path)
  {
    var found := Segments(path);
    if found.None? { return None; }
    var segments := found.value;
    if h.GitHub? {
      if |segments| != 2 { return None; }
      var owner := IsValidGitHubOwner(segments[0]);
      if !owner { return None; }
    } else if |segments| < 2 || |segments| > MAX_GITLAB_SEGMENTS {
      return None;
    }
    JoinSplit(path, '/');
    var built := Build(h, segments);
    canonical := Some(built);
  }

  method RemoveSuffixes(tail: string) returns (path: string)
    ensures path == DropGit(DropSlash(tail))
  {
    path := tail;
    if path != "" && path[|path| - 1] == '/' { path := path[..|path| - 1]; }
    if |path| > |GIT| && path[|path| - |GIT|..] == GIT { path := path[..|path| - |GIT|]; }
  }

  method AfterScheme(rest: string) returns (canonical: Option<string>)
    ensures canonical == FromHost(rest)
  {
    var slash := IndexOf(rest, '/');
    if slash == |rest| { return None; }
    var path := rest[slash + 1..];
    var host := CanonicalHost(rest[..slash]);
    if host.None? { return None; }
    path := RemoveSuffixes(path);
    canonical := CheckAndBuild(host.value, path);
  }

  method CanonicalCloneUrl(url: string) returns (canonical: Option<string>)
    ensures canonical == Canonical(url)
  {
    if url == "" || |url| > MAX_URL_LENGTH { return None; }
    var printable := IsPrintable(url);
    if !printable || |url| < |SCHEME| { return None; }
    var schemeOk := EqualsIgnoreAsciiCase(url[..|SCHEME|], SCHEME);
    if !schemeOk { return None; }
    canonical := AfterScheme(url[|SCHEME|..]);
  }

  // ---- What it accepts, and what it answers ----

  // The freedom a caller has in spelling one repository.
  datatype Spelling = Spelling(scheme: string, host: string, path: string, git: bool, slash: bool)

  function Tail(path: string, git: bool, slash: bool): string {
    path + (if git then GIT else "") + (if slash then "/" else "")
  }

  function Spelled(p: Spelling): string {
    p.scheme + (p.host + ['/'] + Tail(p.path, p.git, p.slash))
  }

  predicate Denotes(p: Spelling, h: Host) {
    && SameIgnoringCase(p.scheme, SCHEME) && Names(p.host, h) && ValidPath(h, p.path)
    && (p.git || !EndsWithGit(p.path))
  }

  lemma {:induction false} JoinEnds(parts: seq<string>, c: char)
    requires |parts| >= 1 && forall i | 0 <= i < |parts| :: parts[i] != "" && Free(parts[i], c)
    ensures var s := Join(parts, c); s != "" && s[|s| - 1] != c
  {
    if |parts| > 1 { JoinEnds(parts[1..], c); }
  }

  lemma {:induction false} JoinPrintable(parts: seq<string>)
    requires |parts| >= 1 && forall i | 0 <= i < |parts| :: PrintableAscii(parts[i])
    ensures PrintableAscii(Join(parts, '/'))
  {
    if |parts| > 1 { JoinPrintable(parts[1..]); }
  }

  lemma PathShape(h: Host, path: string)
    requires ValidPath(h, path)
    ensures path != "" && path[|path| - 1] != '/' && PrintableAscii(path)
  {
    var parts := Split(path, '/');
    JoinSplit(path, '/');
    forall i | 0 <= i < |parts| ensures parts[i] != "" && PrintableAscii(parts[i]) && Free(parts[i], '/') {
      assert ValidSegment(parts[i]);
      assert parts[i] in parts;
    }
    JoinEnds(parts, '/');
    JoinPrintable(parts);
  }

  lemma FoldedPrintable(a: string, b: string)
    requires SameIgnoringCase(a, b) && PrintableAscii(b) && Free(b, '/')
    ensures PrintableAscii(a) && Free(a, '/')
  {
    forall i | 0 <= i < |a| ensures '\U{0020}' < a[i] < '\U{007f}' && a[i] != '/' {
      assert ToAsciiLower(a[i]) == ToAsciiLower(b[i]);
    }
  }

  lemma HostShape(host: string, h: Host)
    requires Names(host, h)
    ensures PrintableAscii(host) && Free(host, '/') && HostOf(host) == Some(h)
  {
    if SameIgnoringCase(host, "www.github.com") {
      FoldedPrintable(host, "www.github.com");
    } else {
      FoldedPrintable(host, HostName(h));
      if h.GitLab? {
        assert ToAsciiLower(host[3]) == 'l';
      }
    }
  }

  // Both optional suffixes come off again.
  lemma SuffixesDropped(path: string, git: bool, slash: bool)
    requires path != "" && path[|path| - 1] != '/' && (git || !EndsWithGit(path))
    ensures DropGit(DropSlash(Tail(path, git, slash))) == path
  {
    var core := path + (if git then GIT else "");
    assert core[|core| - 1] != '/';
    assert DropSlash(core + (if slash then "/" else "")) == core;
    if git { assert core[|core| - |GIT|..] == GIT && core[..|core| - |GIT|] == path; }
  }

  lemma FromHostOf(host: string, h: Host, tail: string)
    requires Names(host, h)
    ensures FromHost(host + ['/'] + tail) == FromPath(h, DropGit(DropSlash(tail)))
  {
    var rest := host + ['/'] + tail;
    HostShape(host, h);
    IndexOfFirst(host, '/', tail);
    assert rest[..|host|] == host && rest[|host| + 1..] == tail;
  }

  lemma CanonicalOf(scheme: string, rest: string)
    requires SameIgnoringCase(scheme, SCHEME) && PrintableAscii(rest)
    requires |scheme + rest| <= MAX_URL_LENGTH
    ensures Canonical(scheme + rest) == FromHost(rest)
  {
    var url := scheme + rest;
    assert PrintableAscii(scheme) by { SchemePrintable(scheme); }
    assert url[..|SCHEME|] == scheme && url[|SCHEME|..] == rest;
    assert HasScheme(url);
    PrintableConcat(scheme, rest);
  }

  lemma PrintableConcat(a: string, b: string)
    requires PrintableAscii(a) && PrintableAscii(b)
    ensures PrintableAscii(a + b)
  {
  }

  lemma RestPrintable(host: string, h: Host, path: string, git: bool, slash: bool)
    requires Names(host, h) && ValidPath(h, path)
    ensures PrintableAscii(host + ['/'] + Tail(path, git, slash))
  {
    PathShape(h, path);
    HostShape(host, h);
    PrintableConcat(path, if git then GIT else "");
    PrintableConcat(path + (if git then GIT else ""), if slash then "/" else "");
    PrintableConcat(host, ['/']);
    PrintableConcat(host + ['/'], Tail(path, git, slash));
  }

  lemma SpellingAccepted(p: Spelling, h: Host)
    requires Denotes(p, h) && |Spelled(p)| <= MAX_URL_LENGTH
    ensures Canonical(Spelled(p)) == Some(Output(h, p.path))
  {
    PartsAccepted(p.scheme, p.host, h, p.path, p.git, p.slash);
  }

  lemma PartsAccepted(scheme: string, host: string, h: Host, path: string, git: bool, slash: bool)
    requires SameIgnoringCase(scheme, SCHEME) && Names(host, h) && ValidPath(h, path)
    requires git || !EndsWithGit(path)
    requires |scheme + (host + ['/'] + Tail(path, git, slash))| <= MAX_URL_LENGTH
    ensures Canonical(scheme + (host + ['/'] + Tail(path, git, slash))) == Some(Output(h, path))
  {
    var tail := Tail(path, git, slash);
    RestPrintable(host, h, path, git, slash);
    CanonicalOf(scheme, host + ['/'] + tail);
    FromHostOf(host, h, tail);
    PathShape(h, path);
    SuffixesDropped(path, git, slash);
  }

  lemma SchemePrintable(scheme: string)
    requires SameIgnoringCase(scheme, SCHEME)
    ensures PrintableAscii(scheme)
  {
    forall i | 0 <= i < |scheme| ensures '\U{0020}' < scheme[i] < '\U{007f}' {
      assert ToAsciiLower(scheme[i]) == ToAsciiLower(SCHEME[i]);
    }
  }

  // Cutting a tail at its suffixes loses nothing.
  lemma TailOf(tail: string, path: string, git: bool, slash: bool)
    requires path == DropGit(DropSlash(tail))
    requires git == EndsWithGit(DropSlash(tail)) && slash == (DropSlash(tail) != tail)
    ensures tail == Tail(path, git, slash) && (git || !EndsWithGit(path))
  {
    var core := DropSlash(tail);
    assert core == path + (if git then GIT else "");
    assert tail == core + (if slash then "/" else "");
  }

  lemma HostNamed(host: string, h: Host)
    requires HostOf(host) == Some(h)
    ensures Names(host, h)
  {
  }

  lemma SlashSplits(rest: string, slash: nat)
    requires slash < |rest| && rest[slash] == '/'
    ensures rest == rest[..slash] + ['/'] + rest[slash + 1..]
  {
  }

  lemma AcceptedRest(rest: string, out: string) returns (host: string, tail: string, h: Host)
    requires FromHost(rest) == Some(out)
    ensures rest == host + ['/'] + tail && HostOf(host) == Some(h)
    ensures FromPath(h, DropGit(DropSlash(tail))) == Some(out)
  {
    var slash := IndexOf(rest, '/');
    SlashSplits(rest, slash);
    host, tail := rest[..slash], rest[slash + 1..];
    h := HostOf(host).value;
  }

  lemma AcceptedScheme(url: string, out: string) returns (scheme: string, rest: string)
    requires Canonical(url) == Some(out)
    ensures url == scheme + rest && SameIgnoringCase(scheme, SCHEME)
    ensures |url| <= MAX_URL_LENGTH && FromHost(rest) == Some(out)
  {
    scheme, rest := url[..|SCHEME|], url[|SCHEME|..];
  }

  lemma AcceptedSpelling(url: string, out: string) returns (p: Spelling, h: Host)
    requires Canonical(url) == Some(out)
    ensures Denotes(p, h) && url == Spelled(p) && out == Output(h, p.path)
  {
    var scheme, rest := AcceptedScheme(url, out);
    var host, tail, h' := AcceptedRest(rest, out);
    h := h';
    HostNamed(host, h);
    var path := DropGit(DropSlash(tail));
    var core := DropSlash(tail);
    TailOf(tail, path, EndsWithGit(core), core != tail);
    p := Spelling(scheme, host, path, EndsWithGit(core), core != tail);
  }

  // Exactly which URLs are accepted, and that the answer depends on host and path alone.
  lemma CanonicalIff(url: string, out: string)
    ensures Canonical(url) == Some(out) <==>
            |url| <= MAX_URL_LENGTH &&
            exists p, h :: Denotes(p, h) && url == Spelled(p) && out == Output(h, p.path)
  {
    if Canonical(url) == Some(out) {
      var p, h := AcceptedSpelling(url, out);
    } else if |url| <= MAX_URL_LENGTH {
      forall p, h | Denotes(p, h) && url == Spelled(p) ensures out != Output(h, p.path) {
        SpellingAccepted(p, h);
      }
    }
  }

  // The answer in so many letters.
  lemma AnswerLiteral(url: string, out: string) returns (h: Host, path: string)
    requires Canonical(url) == Some(out)
    ensures ValidPath(h, path)
    ensures out == (if h.GitHub? then "https://github.com/" else "https://gitlab.com/") + path + ".git"
  {
    var p, h' := AcceptedSpelling(url, out);
    h, path := h', p.path;
    OutputLiteral(h, path);
  }

  lemma OutputLiteral(h: Host, path: string)
    ensures Output(h, path) == (if h.GitHub? then "https://github.com/" else "https://gitlab.com/") + path + ".git"
  {
    if h.GitHub? {
      assert SCHEME + HostName(h) + "/" == "https://github.com/";
    } else {
      assert SCHEME + HostName(h) + "/" == "https://gitlab.com/";
    }
  }

  // The hosts and the scheme go by in any letter case; only GitHub may have "www.".
  lemma HostsByName()
    ensures Names("GitHub.com", GitHub) && Names("WWW.github.COM", GitHub) && Names("gitlab.com", GitLab)
    ensures !Names("www.gitlab.com", GitLab) && !Names("github.com", GitLab) && !Names("gitlab.com", GitHub)
    ensures SameIgnoringCase("HTTPS://", SCHEME) && !SameIgnoringCase("http://", SCHEME)
  {
    assert ToAsciiLower("github.com"[3]) != ToAsciiLower("gitlab.com"[3]);
  }

  // The limits, each with a text that just keeps it and one that just does not.
  lemma Limits()
    ensures ValidSegment(seq(100, _ => 'a')) && !ValidSegment(seq(101, _ => 'a'))
    ensures ValidOwner(seq(39, _ => 'a')) && !ValidOwner(seq(40, _ => 'a'))
    ensures !ValidSegment("") && !ValidSegment("-a") && !ValidSegment("..") && ValidSegment("a-._")
    ensures !ValidOwner("") && !ValidOwner("-a") && !ValidOwner("a-") && !ValidOwner("a.b") && ValidOwner("a-b")
  {
    assert seq(100, _ => 'a')[0] == 'a';
    assert "a-._"[0] == 'a';
    assert "a.b"[1] == '.';
  }

  lemma OutputSpelled(h: Host, path: string) returns (q: Spelling)
    requires ValidPath(h, path)
    ensures Denotes(q, h) && Spelled(q) == Output(h, path) && q.path == path
  {
    q := Spelling(SCHEME, HostName(h), path, true, false);
    assert Names(HostName(h), h);
    assert Spelled(q) == SCHEME + HostName(h) + "/" + path + GIT + "";
  }

  lemma OutputFixed(h: Host, path: string)
    requires ValidPath(h, path)
    ensures Canonical(Output(h, path)) ==
            if |Output(h, path)| <= MAX_URL_LENGTH then Some(Output(h, path)) else None
  {
    var q := OutputSpelled(h, path);
    if |Output(h, path)| <= MAX_URL_LENGTH { SpellingAccepted(q, h); }
  }

  // An answer is a fixed point exactly when it still fits.
  lemma FixedPoint(url: string, out: string)
    requires Canonical(url) == Some(out)
    ensures Canonical(out) == if |out| <= MAX_URL_LENGTH then Some(out) else None
  {
    var p, h := AcceptedSpelling(url, out);
    OutputFixed(h, p.path);
  }

  // GitHub answers always fit.
  lemma GitHubFixedPoint(path: string)
    requires ValidPath(GitHub, path)
    ensures |Output(GitHub, path)| <= 163 && Canonical(Output(GitHub, path)) == Some(Output(GitHub, path))
  {
    GitHubLength(path);
    assert |SCHEME| == 8 && |HostName(GitHub)| == 10 && |GIT| == 4;
    OutputFixed(GitHub, path);
  }

  lemma GitHubLength(path: string)
    requires ValidPath(GitHub, path)
    ensures |path| <= MAX_GITHUB_OWNER_LENGTH + 1 + MAX_SEGMENT_LENGTH
  {
    var parts := Split(path, '/');
    JoinSplit(path, '/');
    assert parts[1..] == [parts[1]];
    assert Join(parts, '/') == parts[0] + ['/'] + parts[1];
    assert ValidSegment(parts[1]);
  }

  lemma LongPath() returns (path: string)
    ensures |path| == 493 && ValidPath(GitLab, path) && !EndsWithGit(path)
  {
    var a, b := seq(98, _ => 'a'), seq(97, _ => 'a');
    assert ValidSegment(a) && ValidSegment(b) by { assert a[0] == 'a' && b[0] == 'a'; }
    path := FiveSegments(a, b);
    assert path[492] == b[96];
  }

  lemma FiveSegments(a: string, b: string) returns (path: string)
    requires ValidSegment(a) && ValidSegment(b)
    ensures Split(path, '/') == [a, a, a, a, b] && ValidPath(GitLab, path)
    ensures |path| == 4 * |a| + 4 + |b| && path[|path| - |b|..] == b
  {
    var parts := [a, a, a, a, b];
    path := Join(parts, '/');
    SplitJoin(parts, '/');
    assert [a] + [a] == [a, a] && [a, a] + [a] == [a, a, a] && [a, a, a] + [a] == [a, a, a, a];
    assert [a, a, a, a] + [b] == parts;
    JoinAppend([a], a, '/');
    JoinAppend([a, a], a, '/');
    JoinAppend([a, a, a], a, '/');
    JoinAppend([a, a, a, a], b, '/');
  }

  // A GitLab answer can be too long to be accepted again: four characters longer than the
  // longest URL that gets in.
  lemma GitLabMayNotFit() returns (url: string, out: string)
    ensures Canonical(url) == Some(out) && Canonical(out) == None
  {
    var path := LongPath();
    url := Spelled(Spelling(SCHEME, HostName(GitLab), path, false, false));
    out := Output(GitLab, path);
    SpellingAccepted(Spelling(SCHEME, HostName(GitLab), path, false, false), GitLab);
  }
}
