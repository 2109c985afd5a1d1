/** decode_path of kernel/fs/path.c: splitting a path in place. */
module Paths {
  import opened Prelude

  const BUF: nat := 32
  const MAX_ARGS: nat := 16

  /** A C string without its terminator. */
  predicate IsCString(s: string) {
    '\0' !in s
  }

  /** The length of the first component of s. */
  function TokenLength(s: string): (n: nat)
    ensures n <= |s| && (n < |s| ==> s[n] == '/')
    ensures forall i :: 0 <= i < n ==> s[i] != '/'
  {
    if s == [] || s[0] == '/' then 0 else 1 + TokenLength(s[1..])
  }

  /** The components of a path: split on '/' and drop the empty ones. */
  function Split(s: string): seq<string>
    decreases |s|
  {
    if s == [] then []
    else if s[0] == '/' then Split(s[1..])
    else [s[..TokenLength(s)]] + Split(s[TokenLength(s)..])
  }

  /** n characters make at most (n + 1) / 2 components. */
  lemma {:induction false} SplitCount(s: string)
    ensures 2 * |Split(s)| <= |s| + 1
    ensures s != [] && s[0] == '/' ==> 2 * |Split(s)| <= |s|
    decreases |s|
  {
    if s != [] {
      if s[0] == '/' {
        SplitCount(s[1..]);
      } else {
        SplitCount(s[TokenLength(s)..]);
      }
    }
  }

  /** No component is empty or contains a slash. */
  lemma {:induction false} SplitClean(s: string, t: string)
    requires t in Split(s)
    ensures t != [] && '/' !in t
    decreases |s|
  {
    if s[0] == '/' {
      SplitClean(s[1..], t);
    } else {
      var n := TokenLength(s);
      if t == s[..n] {
        assert forall i :: 0 <= i < n ==> t[i] == s[i];
      } else {
        assert t in Split(s[n..]);
        SplitClean(s[n..], t);
      }
    }
  }

  /** Joining paths with a slash concatenates their components. */
  lemma {:induction false} SplitJoin(p: string, q: string)
    ensures Split(p + "/" + q) == Split(p) + Split(q)
    decreases |p|
  {
    var s := p + "/" + q;
    if p == [] {
      assert s[1..] == q;
    } else if p[0] == '/' {
      assert s[1..] == p[1..] + "/" + q;
      SplitJoin(p[1..], q);
    } else {
      hide Split, TokenLength;
      var n := TokenLength(p);
      SplitHead(p);
      TokenJoined(p, q, n);
      SplitHead(s);
      SplitJoin(p[n..], q);
      assert [p[..n]] + (Split(p[n..]) + Split(q)) == ([p[..n]] + Split(p[n..])) + Split(q);
    }
  }

  lemma SplitHead(s: string)
    requires s != [] && s[0] != '/'
    ensures TokenLength(s) > 0 && Split(s) == [s[..TokenLength(s)]] + Split(s[TokenLength(s)..])
  {
  }

  lemma TokenJoined(p: string, q: string, n: nat)
    requires n == TokenLength(p)
    ensures var s := p + "/" + q; TokenLength(s) == n && s[..n] == p[..n] && s[n..] == p[n..] + "/" + q
  {
    TokenIs(p + "/" + q, n);
  }

  /** A component by itself is the whole path. */
  lemma SplitOne(t: string)
    requires t != [] && '/' !in t
    ensures Split(t) == [t]
  {
    TokenAll(t);
    assert t[..|t|] == t && t[|t|..] == [];
  }

  /** Components joined by slashes. */
  function Joined(ts: seq<string>): string {
    if ts == [] then "" else ts[0] + "/" + Joined(ts[1..])
  }

  /** Splitting what was joined gives the components back. */
  lemma {:induction false} SplitJoined(ts: seq<string>)
    requires forall t :: t in ts ==> t != [] && '/' !in t
    ensures Split(Joined(ts)) == ts
  {
    if ts != [] {
      assert ts[0] in ts && forall t :: t in ts[1..] ==> t in ts;
      SplitOne(ts[0]);
      SplitJoined(ts[1..]);
      SplitJoin(ts[0], Joined(ts[1..]));
    }
  }

  function Flat(ts: seq<string>): string {
    if ts == [] then "" else ts[0] + Flat(ts[1..])
  }

  /** No character but the slashes is lost, moved or made up. */
  lemma {:induction false} SplitFlat(s: string)
    ensures Flat(Split(s)) == Without(s, '/')
    decreases |s|
  {
    if s != [] {
      if s[0] == '/' {
        SplitFlat(s[1..]);
      } else {
        var n := TokenLength(s);
        SplitFlat(s[n..]);
        assert s == s[..n] + s[n..];
        WithoutFront(s[..n], s[n..]);
      }
    }
  }

  lemma {:induction false} WithoutFront(a: string, b: string)
    requires '/' !in a
    ensures Without(a + b, '/') == a + Without(b, '/')
  {
    if a == [] {
      assert a + b == b;
    } else {
      assert (a + b)[0] == a[0] && (a + b)[1..] == a[1..] + b;
      WithoutFront(a[1..], b);
    }
  }

  lemma {:induction false} TokenIs(s: string, n: nat)
    requires n < |s| && s[n] == '/' && forall i :: 0 <= i < n ==> s[i] != '/'
    ensures TokenLength(s) == n
  {
    if n != 0 {
      TokenIs(s[1..], n - 1);
    }
  }

  // ------------------------------------------------------------------ in place

  /** The C string that starts at `a` is `t`. */
  ghost predicate StringAt(buf: seq<char>, a: nat, t: string) {
    && a + |t| < |buf| && buf[a + |t|] == '\0'
    && forall k {:trigger t[k]} :: 0 <= k < |t| ==> buf[a + k] == t[k] && t[k] != '\0'
  }

  /** The pointers `args` lead to the strings `ts`, all of which end before `i`. */
  ghost predicate Tokens(buf: seq<char>, args: seq<nat>, ts: seq<string>, i: nat) {
    && |args| == |ts|
    && forall k {:trigger ts[k]} :: 0 <= k < |ts| ==> args[k] + |ts[k]| <= i && StringAt(buf, args[k], ts[k])
  }

  /** From `i` on, `buf` still holds the rest of the path. */
  ghost predicate Rest(path: string, buf: seq<char>, i: nat) {
    && |path| < |buf| && i <= |path| && buf[|path|] == '\0'
    && forall k {:trigger buf[k]} :: i <= k < |path| ==> buf[k] == path[k]
  }

  /** The inner loop: to the end of the component at `start`, which gets its NUL. */
  method EndToken(path: string, buf: array<char>, start: nat) returns (i: nat, ghost j: nat)
    requires IsCString(path) && Rest(path, buf[..], start) && start < |path| && path[start] != '/'
    modifies buf
    ensures start < j <= |path| && j - start == TokenLength(path[start..])
    ensures i == if j < |path| then j + 1 else j
    ensures buf[..] == old(buf[..])[j := '\0']
  {
    i := start + 1;
    while buf[i] != '\0'
      invariant start < i <= |path| && buf[..] == old(buf[..])
      invariant forall k :: start <= k < i ==> path[k] != '/'
      decreases |path| - i
    {
      assert i != |path|;
      if buf[i] == '/' {
        buf[i] := '\0';
        j := i;
        TokenIs(path[start..], j - start);
        i := i + 1;
        return;
      }
      i := i + 1;
    }
    j := i;
    assert i == |path|;
    TokenAll(path[start..]);
  }

  lemma {:induction false} TokenAll(s: string)
    requires forall i :: 0 <= i < |s| ==> s[i] != '/'
    ensures TokenLength(s) == |s|
  {
    if s != [] {
      TokenAll(s[1..]);
    }
  }

  /** What the components of the rest are, one component on. */
  lemma SplitStep(path: string, start: nat, j: nat)
    requires start < j <= |path| && path[start] != '/' && j - start == TokenLength(path[start..])
    ensures Split(path[start..]) == [path[start..j]] + Split(path[if j < |path| then j + 1 else j..])
  {
    var s := path[start..];
    assert s[..j - start] == path[start..j] && s[j - start..] == path[j..];
    if j < |path| {
      assert path[j..][0] == '/' && path[j..][1..] == path[j + 1..];
    }
  }

  lemma TokensKept(buf: seq<char>, buf': seq<char>, args: seq<nat>, ts: seq<string>, i: nat, j: nat)
    requires Tokens(buf, args, ts, i) && i < j < |buf| && buf' == buf[j := '\0']
    ensures Tokens(buf', args, ts, i)
  {
  }

  lemma TokensLater(buf: seq<char>, args: seq<nat>, ts: seq<string>, i: nat, i': nat)
    requires Tokens(buf, args, ts, i) && i <= i'
    ensures Tokens(buf, args, ts, i')
  {
    hide StringAt;
  }

  lemma TokenAdded(path: string, buf: seq<char>, args: seq<nat>, ts: seq<string>, start: nat, j: nat)
    requires IsCString(path) && start < j <= |path| < |buf| && buf[j] == '\0'
    requires forall k :: start <= k < j ==> buf[k] == path[k]
    requires Tokens(buf, args, ts, start)
    ensures Tokens(buf, args + [start], ts + [path[start..j]], j)
  {
    var t := path[start..j];
    forall k | 0 <= k < |t|
      ensures buf[start + k] == t[k] && t[k] != '\0'
    {
      assert path[start + k] in path;
    }
    assert StringAt(buf, start, t);
  }

  /** The state of the outer loop: `ts` has been split off, the path from `i` on has not. */
  ghost predicate Progress(path: string, buf: seq<char>, args: seq<nat>, ts: seq<string>, i: nat) {
    && Rest(path, buf, i) && Tokens(buf, args, ts, i)
    && Split(path) == ts + Split(path[i..])
    && (path != [] ==> (buf[0] == '/' <==> path[0] == '/'))
  }

  lemma SkipSlash(path: string, buf: seq<char>, args: seq<nat>, ts: seq<string>, i: nat)
    requires Progress(path, buf, args, ts, i) && i < |path| && path[i] == '/'
    ensures Progress(path, buf, args, ts, i + 1)
  {
    assert path[i..][1..] == path[i + 1..];
  }

  lemma TakeToken(path: string, buf: seq<char>, args: seq<nat>, ts: seq<string>, i: nat, j: nat)
    requires IsCString(path) && Progress(path, buf, args, ts, i)
    requires i < j <= |path| && path[i] != '/' && j - i == TokenLength(path[i..])
    ensures Progress(path, buf[j := '\0'], args + [i], ts + [path[i..j]], if j < |path| then j + 1 else j)
  {
    hide Split, TokenLength, Tokens, StringAt;
    SplitStep(path, i, j);
    TokensKept(buf, buf[j := '\0'], args, ts, i, j);
    TokenAdded(path, buf[j := '\0'], args, ts, i, j);
    var i' := if j < |path| then j + 1 else j;
    TokensLater(buf[j := '\0'], args + [i], ts + [path[i..j]], j, i');
    assert ts + ([path[i..j]] + Split(path[i'..])) == (ts + [path[i..j]]) + Split(path[i'..]);
  }

  lemma MoreTokens(path: string, i: nat)
    requires i < |path| && path[i] != '/'
    ensures |Split(path[i..])| >= 1
  {
  }

  /**
   The tokeniser of decode_path: slashes after components become NULs, and
   dir_args points at the components, which are those of Split, in order.
   */
  method Tokenise(path: string, buf: array<char>, args: array<nat>) returns (num: nat)
    requires IsCString(path) && |path| < BUF && buf.Length == BUF && args.Length == MAX_ARGS
    modifies buf, args
    ensures num == |Split(path)| <= MAX_ARGS
    ensures Tokens(buf[..], args[..num], Split(path), |path|)
    ensures buf[0] == '/' <==> path != [] && path[0] == '/'
  {
    SplitCount(path);
    // strcpy(buf, dir_name)
    forall i | 0 <= i < |path| { buf[i] := path[i]; }
    buf[|path|] := '\0';
    ghost var ts: seq<string> := [];
    num := 0;
    var i := 0;
    assert path[0..] == path;
    assert Progress(path, buf[..], args[..0], ts, 0);
    while buf[i] != '\0'
      invariant i <= |path| && num == |ts| <= MAX_ARGS
      invariant Progress(path, buf[..], args[..num], ts, i)
      decreases |path| - i
    {
      assert buf[i] == path[i];
      if buf[i] == '/' {
        SkipSlash(path, buf[..], args[..num], ts, i);
        i := i + 1;
      } else {
        MoreTokens(path, i);
        i, num, ts := NextToken(path, buf, args, num, i, ts);
      }
    }
    assert i == |path|;
    assert path[i..] == [];
  }

  /** The else branch of the outer loop. */
  method NextToken(path: string, buf: array<char>, args: array<nat>, num: nat, i: nat, ghost ts: seq<string>)
    returns (i': nat, num': nat, ghost ts': seq<string>)
    requires IsCString(path) && num < args.Length && num == |ts|
    requires Progress(path, buf[..], args[..num], ts, i) && i < |path| && path[i] != '/'
    modifies buf, args
    ensures i < i' <= |path| && num' == num + 1 && |ts'| == num' && |ts'| <= |Split(path)|
    ensures Progress(path, buf[..], args[..num'], ts', i')
  {
    args[num] := i;
    ghost var j;
    i', j := EndToken(path, buf, i);
    TakeToken(path, old(buf[..]), old(args[..num]), ts, i, j);
    num' := num + 1;
    assert args[..num'] == old(args[..num]) + [i];
    ts' := ts + [path[i..j]];
  }
}
