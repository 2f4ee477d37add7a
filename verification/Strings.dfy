// Searching, splitting and joining text at a delimiter.
module Strings {
  import opened Common

  predicate Free(s: string, c: char) {
    forall i | 0 <= i < |s| :: s[i] != c
  }

  // The first position of c, or the length.
  function IndexOf(s: string, c: char): (k: nat)
    ensures k <= |s| && (k < |s| ==> s[k] == c) && Free(s[..k], c)
  {
    if s == "" || s[0] == c then 0
    else
      var k := IndexOf(s[1..], c);
      assert s[..k + 1] == [s[0]] + s[1..][..k];
      k + 1
  }

  lemma {:induction false} IndexOfFirst(a: string, c: char, rest: string)
    requires Free(a, c)
    ensures IndexOf(a, c) == |a|
    ensures IndexOf(a + [c] + rest, c) == |a|
  {
    var s := a + [c] + rest;
    if a == "" {
      assert s[0] == c;
    } else {
      assert s[0] == a[0] && s[1..] == a[1..] + [c] + rest;
      IndexOfFirst(a[1..], c, rest);
    }
  }

  function Split(s: string, c: char): (parts: seq<string>)
    ensures |parts| >= 1
    decreases |s|
  {
    var k := IndexOf(s, c);
    if k == |s| then [s] else [s[..k]] + Split(s[k + 1..], c)
  }

  function Join(parts: seq<string>, c: char): string
    requires |parts| >= 1
  {
    if |parts| == 1 then parts[0] else parts[0] + [c] + Join(parts[1..], c)
  }

  lemma {:induction false} JoinSplit(s: string, c: char)
    ensures Join(Split(s, c), c) == s
    ensures forall p | p in Split(s, c) :: Free(p, c)
    decreases |s|
  {
    var k := IndexOf(s, c);
    if k < |s| {
      JoinSplit(s[k + 1..], c);
      assert Split(s, c)[1..] == Split(s[k + 1..], c);
      assert s == s[..k] + [c] + s[k + 1..];
    } else {
      assert s[..k] == s;
    }
  }

  lemma {:induction false} SplitJoin(parts: seq<string>, c: char)
    requires |parts| >= 1 && forall p | p in parts :: Free(p, c)
    ensures Split(Join(parts, c), c) == parts
  {
    var a := parts[0];
    assert Free(a, c);
    if |parts| == 1 {
      IndexOfFirst(a, c, "");
      assert parts == [a];
    } else {
      var s := a + [c] + Join(parts[1..], c);
      IndexOfFirst(a, c, Join(parts[1..], c));
      assert s[..|a|] == a && s[|a| + 1..] == Join(parts[1..], c);
      SplitJoin(parts[1..], c);
      assert parts == [a] + parts[1..];
    }
  }

  lemma {:induction false} JoinAppend(parts: seq<string>, last: string, c: char)
    requires |parts| >= 1
    ensures Join(parts + [last], c) == Join(parts, c) + [c] + last
  {
    var all := parts + [last];
    if |parts| == 1 {
      assert all[1..] == [last];
    } else {
      assert all[1..] == parts[1..] + [last];
      JoinAppend(parts[1..], last, c);
    }
  }

  // The first position at which `sub` occurs.
  function Find(s: string, sub: string): (k: Option<nat>)
    ensures k.Some? ==> k.value + |sub| <= |s| && s[k.value..k.value + |sub|] == sub
  {
    if sub <= s then Some(0)
    else if s == "" then None
    else
      var k := Find(s[1..], sub);
      if k.None? then None else Some(k.value + 1)
  }

  // `sub` is found right after a prefix that does not contain its first character.
  lemma {:induction false} FindFirst(a: string, sub: string, rest: string)
    requires sub != "" && Free(a, sub[0])
    ensures Find(a + sub + rest, sub) == Some(|a|)
  {
    var s := a + sub + rest;
    if a == "" {
      assert sub <= s;
    } else {
      assert s[0] == a[0] && s[1..] == a[1..] + sub + rest;
      FindFirst(a[1..], sub, rest);
    }
  }
}
