// The GitHub metadata service's reading of a repository URL, and why it reads back what the
// validator wrote.
module GitHubUrl {
  import opened Common
  import opened Strings
  import opened UrlValidator

  datatype ParsedUrl = ParsedUrl(owner: string, repo: string)

  const MARKER: string := "github.com/"

  function NonEmpty(parts: seq<string>): seq<string> {
    if parts == [] then []
    else (if parts[0] == "" then [] else [parts[0]]) + NonEmpty(parts[1..])
  }

  function TrimEnd(s: string): string {
    if s != "" && (s[|s| - 1] == ' ' || s[|s| - 1] == '/') then TrimEnd(s[..|s| - 1]) else s
  }

  function Parsed(url: string): Option<ParsedUrl> {
    AtMarker(DropGit(TrimEnd(url)))
  }

  function AtMarker(u: string): Option<ParsedUrl> {
    var pos := Find(u, MARKER);
    if pos.None? then None
    else
      var parts := Tokens(u[pos.value + |MARKER|..], '/');
      if |parts| < 2 then None else Some(ParsedUrl(parts[0], parts[1]))
  }

  lemma {:induction false} NonEmptyAppend(a: seq<string>, b: seq<string>)
    ensures NonEmpty(a + b) == NonEmpty(a) + NonEmpty(b)
  {
    if a == [] {
      assert a + b == b;
    } else {
      assert (a + b)[1..] == a[1..] + b;
      NonEmptyAppend(a[1..], b);
    }
  }

  // The non-empty tokens of what getline has not read yet.
  function Tokens(rest: string, delim: char): seq<string> {
    if rest == "" then [] else NonEmpty(Split(rest, delim))
  }

  // What getline leaves after a token of length k.
  function After(rest: string, k: nat): string {
    if k < |rest| then rest[k + 1..] else ""
  }

  lemma NextToken(rest: string, delim: char, k: nat, token: string)
    requires rest != "" && k == IndexOf(rest, delim) && token == rest[..k]
    ensures Tokens(rest, delim) == (if token == "" then [] else [token]) + Tokens(After(rest, k), delim)
  {
    assert NonEmpty([token]) == if token == "" then [] else [token];
    if k == |rest| {
      assert token == rest;
    } else {
      var later := Split(rest[k + 1..], delim);
      NonEmptyAppend([token], later);
      assert rest[k + 1..] == "" ==> later == [""];
    }
  }

  lemma TokenMoved(parts: seq<string>, rest: string, delim: char, k: nat, token: string)
    requires rest != "" && k == IndexOf(rest, delim) && token == rest[..k]
    ensures parts + Tokens(rest, delim)
            == (if token == "" then parts else parts + [token]) + Tokens(After(rest, k), delim)
  {
    NextToken(rest, delim, k, token);
    Regrouped(parts, token, Tokens(After(rest, k), delim));
  }

  lemma Regrouped(parts: seq<string>, token: string, later: seq<string>)
    ensures parts + ([] + later) == parts + later && parts + ([token] + later) == parts + [token] + later
  {
  }

  // splitStr: getline up to the delimiter until the stream is exhausted, empty tokens dropped.
  method SplitStr(s: string, delim: char) returns (parts: seq<string>)
    ensures parts == Tokens(s, delim)
  {
    parts := [];
    var rest := s;
    while rest != ""
      invariant parts + Tokens(rest, delim) == Tokens(s, delim)
      decreases |rest|
    {
      var k := IndexOf(rest, delim);
      var token := rest[..k];
      TokenMoved(parts, rest, delim, k, token);
      if token != "" { parts := parts + [token]; }
      rest := After(rest, k);
    }
  }

  // Trailing blanks and slashes off, then one ".git".
  method Normalise(url: string) returns (u: string)
    ensures u == DropGit(TrimEnd(url))
  {
    u := url;
    while u != "" && (u[|u| - 1] == ' ' || u[|u| - 1] == '/')
      invariant TrimEnd(u) == TrimEnd(url)
      decreases |u|
    {
      u := u[..|u| - 1];
    }
    if |u| > |GIT| && u[|u| - |GIT|..] == GIT { u := u[..|u| - |GIT|]; }
  }

  method ParseGitHubUrl(url: string) returns (parsed: Option<ParsedUrl>)
    ensures parsed == Parsed(url)
  {
    var u := Normalise(url);
    var pos := Find(u, MARKER);
    if pos.None? { return None; }
    var parts := SplitStr(u[pos.value + |MARKER|..], '/');
    if |parts| < 2 { return None; }
    return Some(ParsedUrl(parts[0], parts[1]));
  }

  // The two segments of a GitHub path.
  lemma OwnerAndRepo(path: string)
    requires ValidPath(GitHub, path)
    ensures var parts := Split(path, '/');
            |parts| == 2 && parts[0] != "" && parts[1] != "" && NonEmpty(parts) == parts
  {
    var parts := Split(path, '/');
    assert ValidSegment(parts[0]) && ValidSegment(parts[1]);
    assert NonEmpty(parts[1..]) == [parts[1]];
  }

  lemma MarkerFound(path: string)
    ensures Find(SCHEME + HostName(GitHub) + "/" + path, MARKER) == Some(8)
  {
    FindFirst(SCHEME, MARKER, path);
    assert SCHEME + HostName(GitHub) + "/" + path == SCHEME + MARKER + path;
  }

  // What canonicalCloneUrl writes for GitHub, the metadata service reads back as exactly the
  // owner and the repository of the path.
  lemma OutputReadBack(path: string)
    requires ValidPath(GitHub, path)
    ensures var parts := Split(path, '/');
            Parsed(Output(GitHub, path)) == Some(ParsedUrl(parts[0], parts[1]))
  {
    var out := Output(GitHub, path);
    var u := SCHEME + HostName(GitHub) + "/" + path;
    assert out == u + GIT;
    assert out[|out| - 1] == GIT[3];
    assert TrimEnd(out) == out;
    assert out[|out| - |GIT|..] == GIT && out[..|out| - |GIT|] == u;
    MarkerFound(path);
    assert u[8 + |MARKER|..] == path;
    OwnerAndRepo(path);
  }

  lemma CanonicalReadBack(url: string, out: string) returns (h: Host, path: string)
    requires Canonical(url) == Some(out)
    ensures ValidPath(h, path) && out == Output(h, path)
    ensures h == GitHub ==> Parsed(out) == Some(ParsedUrl(Split(path, '/')[0], Split(path, '/')[1]))
  {
    var p, h' := AcceptedSpelling(url, out);
    h, path := h', p.path;
    if h == GitHub { OutputReadBack(path); }
  }

  // ---- The URL as submitted ----

  // The host has the marker's own letters.
  predicate Marked(host: string) {
    |host| >= 10 && host[|host| - 10..] == "github.com"
  }

  lemma MarkedHost(p: Spelling) returns (front: string)
    requires Denotes(p, GitHub) && Marked(p.host)
    ensures p.scheme + p.host + ['/'] == front + MARKER && Free(front, 'g')
  {
    front := p.scheme + p.host[..|p.host| - 10];
    assert p.host == p.host[..|p.host| - 10] + "github.com";
    forall i | 0 <= i < |p.scheme| ensures p.scheme[i] != 'g' {
      assert ToAsciiLower(p.scheme[i]) == ToAsciiLower(SCHEME[i]);
    }
    if |p.host| == 14 {
      forall i | 0 <= i < 4 ensures p.host[i] != 'g' {
        assert ToAsciiLower(p.host[i]) == ToAsciiLower("www.github.com"[i]);
      }
    }
  }

  // Trimming and suffixes leave the spelling up to its path.
  lemma SpellingTrimmed(p: Spelling, h: Host)
    requires Denotes(p, h)
    ensures DropGit(TrimEnd(Spelled(p))) == p.scheme + p.host + ['/'] + p.path
  {
    var u := p.scheme + p.host + ['/'] + p.path;
    PathShape(h, p.path);
    SpelledFrom(p, u);
    GitDropped(u, p.git);
    if !p.git { NoGit(u, p, h); }
    CoreEnd(u, p.path, p.git);
    TrimmedTo(u + (if p.git then GIT else ""), p.slash);
  }

  lemma SpelledFrom(p: Spelling, u: string)
    requires u == p.scheme + p.host + ['/'] + p.path
    ensures Spelled(p) == u + (if p.git then GIT else "") + (if p.slash then "/" else "")
  {
  }

  lemma CoreEnd(u: string, path: string, git: bool)
    requires path != "" && path[|path| - 1] != '/' && PrintableAscii(path) && |u| >= |path| && u[|u| - |path|..] == path
    ensures var core := u + (if git then GIT else "");
            core != "" && core[|core| - 1] != ' ' && core[|core| - 1] != '/'
  {
    if git {
      assert (u + GIT)[|u + GIT| - 1] == GIT[3];
    } else {
      assert u[|u| - 1] == path[|path| - 1];
    }
  }

  lemma GitDropped(u: string, git: bool)
    requires u != ""
    ensures git ==> DropGit(u + GIT) == u
    ensures !git && !EndsWithGit(u) ==> DropGit(u + "") == u
  {
    if git { assert (u + GIT)[|u + GIT| - |GIT|..] == GIT && (u + GIT)[..|u + GIT| - |GIT|] == u; }
  }

  lemma TrimmedTo(core: string, slash: bool)
    requires core != "" && core[|core| - 1] != ' ' && core[|core| - 1] != '/'
    ensures TrimEnd(core + (if slash then "/" else "")) == core
  {
    var s := core + (if slash then "/" else "");
    if slash { assert s[..|s| - 1] == core; } else { assert s == core; }
  }

  lemma NoGit(u: string, p: Spelling, h: Host)
    requires Denotes(p, h) && !p.git && u == p.scheme + p.host + ['/'] + p.path
    ensures !EndsWithGit(u)
  {
    LongEnough(h, p.path);
    EndOfPath(u, p.path);
    if |p.path| <= 4 { ShortEnd(u, p.path); }
  }

  lemma EndOfPath(u: string, path: string)
    requires |u| >= |path| > 4 ==> u[|u| - |path|..] == path
    ensures |u| >= |path| > 4 ==> u[|u| - 4..] == path[|path| - 4..]
  {
    if |u| >= |path| > 4 { assert u[|u| - 4..] == u[|u| - |path|..][|path| - 4..]; }
  }

  lemma ShortEnd(u: string, path: string)
    requires |path| <= 4 <= |u| && u[|u| - |path|..] == path
    requires exists i: nat :: 0 < i < |path| - 1 && path[i] == '/'
    ensures u[|u| - |GIT|..] != GIT
  {
    var i: nat :| 0 < i < |path| - 1 && path[i] == '/';
    assert u[|u| - |path| + i] == '/';
    assert u[|u| - 4..][4 - |path| + i] == '/';
    assert Free(GIT, '/');
  }

  // Every path has a slash inside.
  lemma LongEnough(h: Host, path: string)
    requires ValidPath(h, path)
    ensures |path| >= 3 && exists i :: 0 < i < |path| - 1 && path[i] == '/'
  {
    var parts := Split(path, '/');
    var k := IndexOf(path, '/');
    assert k < |path|;
    PathShape(h, path);
    assert ValidSegment(parts[0]);
    assert parts[0] == path[..k];
  }

  lemma TwoSegments(path: string)
    requires ValidPath(GitHub, path)
    ensures var parts := Split(path, '/');
            |parts| == 2 && path == parts[0] + ['/'] + parts[1] && Free(parts[0], '/') && Free(parts[1], '/')
            && Free(parts[0], '.')
  {
    var parts := Split(path, '/');
    JoinSplit(path, '/');
    assert parts[1..] == [parts[1]];
    assert parts[0] in parts && parts[1] in parts;
  }

  lemma MarkerAt(u: string, k: nat)
    requires k + |MARKER| <= |u| && u[k..k + |MARKER|] == MARKER
    ensures |MARKER| == 11 && u[k..k + 10] == "github.com" && u[k + 10] == '/' && u[k + 6] == '.'
    ensures forall i | k <= i < k + 10 :: u[i] != '/'
  {
    forall i | 0 <= i < |MARKER| ensures MARKER[i] == u[k + i] {}
    assert u[k..k + 10] == u[k..k + |MARKER|][..10];
    forall i | k <= i < k + 10 ensures u[i] != '/' { assert u[i] == MARKER[i - k]; }
  }

  // Before the only slash of the path there is no dot.
  lemma SlashInPath(path: string, q: nat)
    requires ValidPath(GitHub, path) && q < |path| && path[q] == '/'
    ensures forall i | 0 <= i < q :: path[i] != '.'
  {
    TwoSegments(path);
    var parts := Split(path, '/');
    forall i | 0 <= i < |path| && i != |parts[0]| ensures path[i] != '/' {
      assert path[i] == if i < |parts[0]| then parts[0][i] else parts[1][i - |parts[0]| - 1];
    }
    forall i | 0 <= i < q ensures path[i] != '.' { assert path[i] == parts[0][i]; }
  }

  // The marker can only be where the host, which ends at h, ends.
  lemma MarkerBeforePath(u: string, h: nat, path: string, k: nat)
    requires 8 <= h < |u| && u[h] == '/' && u[h + 1..] == path && ValidPath(GitHub, path)
    requires forall i | 8 <= i < h :: u[i] != '/'
    requires k + 11 <= |u| && u[k + 10] == '/' && u[k + 6] == '.' && forall i | k <= i < k + 10 :: u[i] != '/'
    ensures k + 10 == h
  {
    if k > h {
      var q := k + 10 - (h + 1);
      assert path[q] == u[k + 10] && path[q - 4] == u[k + 6];
      SlashInPath(path, q);
    }
  }

  lemma MarkerOnlyInHost(p: Spelling, u: string, k: nat)
    requires Denotes(p, GitHub) && u == p.scheme + p.host + ['/'] + p.path
    requires k + |MARKER| <= |u| && u[k..k + |MARKER|] == MARKER
    ensures Marked(p.host)
  {
    MarkerAt(u, k);
    HostInside(p, u);
    MarkerBeforePath(u, 8 + |p.host|, p.path, k);
    HostEnd(p.scheme, p.host, p.path, u, k);
  }

  lemma HostInside(p: Spelling, u: string)
    requires Denotes(p, GitHub) && u == p.scheme + p.host + ['/'] + p.path
    ensures var h := 8 + |p.host|;
            |p.scheme| == 8 && |p.host| >= 10 && h < |u| && u[h] == '/' && u[h + 1..] == p.path
            && forall i | 8 <= i < h :: u[i] != '/'
  {
    HostShape(p.host, GitHub);
    forall i | 8 <= i < 8 + |p.host| ensures u[i] != '/' { assert u[i] == p.host[i - 8]; }
  }

  lemma HostEnd(scheme: string, host: string, path: string, u: string, k: nat)
    requires |scheme| == 8 && |host| >= 10 && k + 10 == 8 + |host| && u == scheme + host + ['/'] + path
    ensures host[|host| - 10..] == u[k..k + 10]
  {
  }

  // The submitted URL itself, with or without ".git" and slash, is read as the owner and the
  // repository of its path if its host has the marker's letters, and otherwise not at all.
  lemma SubmittedReadBack(p: Spelling)
    requires Denotes(p, GitHub)
    ensures Parsed(Spelled(p)) ==
            if Marked(p.host) then Some(ParsedUrl(Split(p.path, '/')[0], Split(p.path, '/')[1])) else None
  {
    SpellingTrimmed(p, GitHub);
    OwnerAndRepo(p.path);
    ReadFrom(p, p.scheme + p.host + ['/'] + p.path);
  }

  lemma ReadFrom(p: Spelling, u: string)
    requires Denotes(p, GitHub) && u == p.scheme + p.host + ['/'] + p.path
    ensures var parts := Split(p.path, '/');
            if Marked(p.host) then |parts| == 2 && AtMarker(u) == Some(ParsedUrl(parts[0], parts[1]))
            else AtMarker(u) == None
  {
    if Marked(p.host) {
      MarkedReadBack(p, u);
    } else if Find(u, MARKER).Some? {
      MarkerOnlyInHost(p, u, Find(u, MARKER).value);
    }
  }

  lemma MarkedReadBack(p: Spelling, u: string)
    requires Denotes(p, GitHub) && Marked(p.host) && u == p.scheme + p.host + ['/'] + p.path
    ensures |Split(p.path, '/')| == 2
    ensures AtMarker(u) == Some(ParsedUrl(Split(p.path, '/')[0], Split(p.path, '/')[1]))
  {
    var front := MarkedHost(p);
    assert u == front + MARKER + p.path;
    FindFirst(front, MARKER, p.path);
    assert u[|front| + |MARKER|..] == p.path;
    OwnerAndRepo(p.path);
  }
}
