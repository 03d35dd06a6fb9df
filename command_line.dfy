/**
 * The command line `run` hands to `CreateProcess`: the argument vector joined
 * with one space between consecutive arguments, and nothing else (no quoting).
 */
module CommandLine {

  /** The sum of the lengths of the arguments. */
  function TotalLength(args: seq<string>): nat
  {
    if |args| == 0 then 0 else TotalLength(args[..|args| - 1]) + |args[|args| - 1]|
  }

  /** Where argument `i` starts in the joined string: the arguments before it, each with its separator. */
  function Offset(args: seq<string>, i: nat): nat
    requires i <= |args|
  {
    TotalLength(args[..i]) + i
  }

  /**
   * The joined command: `args[0]`, then `" " + args[i]` for each later argument,
   * in order (the left fold the loop in `run` performs).
   */
  function Join(args: seq<string>): (cmd: string)
    requires |args| > 0
    ensures |cmd| == TotalLength(args) + |args| - 1
  {
    if |args| == 1 then args[0] else Join(args[..|args| - 1]) + " " + args[|args| - 1]
  }

  /** The loop of `run` that builds `cmd` by appending in place. */
  method JoinCommand(args: seq<string>) returns (cmd: string)
    requires |args| > 0
    ensures cmd == Join(args)
  {
    cmd := args[0];
    var i := 1;
    while i < |args|
      invariant 1 <= i <= |args|
      invariant cmd == Join(args[..i])
    {
      cmd := cmd + " ";
      cmd := cmd + args[i];
      assert args[..i + 1][..i] == args[..i];
      i := i + 1;
    }
    assert args[..i] == args;
  }

  /**
   * Every argument stands unchanged at its offset, and every argument after the
   * first is preceded by a space. With the length in `Join`'s contract this
   * determines the joined string completely.
   */
  lemma {:induction false} JoinAt(args: seq<string>, i: nat)
    requires i < |args|
    ensures Offset(args, i) + |args[i]| <= |Join(args)|
    ensures Join(args)[Offset(args, i)..Offset(args, i) + |args[i]|] == args[i]
    ensures i > 0 ==> Join(args)[Offset(args, i) - 1] == ' '
  {
    var n := |args|;
    if n == 1 {
      assert args[..0] == [];
    } else {
      var init, last := args[..n - 1], args[n - 1];
      assert init + [last] == args;
      if i == n - 1 {
        OffsetOfLast(init, last);
        LastAt(init, last);
      } else {
        JoinAt(init, i);
        OffsetOfEarlier(init, last, i);
        EarlierAt(init, last, Offset(init, i), |init[i]|);
      }
    }
  }

  lemma OffsetOfLast(init: seq<string>, last: string)
    requires |init| > 0
    ensures Offset(init + [last], |init|) == |Join(init)| + 1
  {
    assert (init + [last])[..|init|] == init;
  }

  lemma OffsetOfEarlier(init: seq<string>, last: string, i: nat)
    requires i < |init|
    ensures Offset(init + [last], i) == Offset(init, i) && (init + [last])[i] == init[i]
  {
    assert (init + [last])[..i] == init[..i];
  }

  /** The last argument stands after the joined others and one space. */
  lemma LastAt(init: seq<string>, last: string)
    requires |init| > 0
    ensures var cmd := Join(init + [last]);
      |Join(init)| + 1 + |last| == |cmd| &&
      cmd[|Join(init)| + 1..] == last && cmd[|Join(init)|] == ' '
  {
    assert (init + [last])[..|init|] == init;
  }

  /** Appending an argument leaves the joined command of the others in place. */
  lemma EarlierAt(init: seq<string>, last: string, off: nat, len: nat)
    requires |init| > 0 && off + len <= |Join(init)|
    ensures off + len <= |Join(init + [last])|
    ensures Join(init + [last])[off..off + len] == Join(init)[off..off + len]
    ensures off > 0 ==> Join(init + [last])[off - 1] == Join(init)[off - 1]
  {
    assert (init + [last])[..|init|] == init;
    assert Join(init + [last]) == Join(init) + " " + last;
  }

  /** The position of the last space in `s`, or -1 when there is none. */
  function LastSpace(s: string): (k: int)
    ensures -1 <= k < |s|
  {
    if |s| == 0 then -1
    else if s[|s| - 1] == ' ' then |s| - 1
    else LastSpace(s[..|s| - 1])
  }

  /** Cuts a string at every space, keeping empty pieces: the inverse of `Join` on space-free arguments. */
  function SplitAtSpaces(s: string): (parts: seq<string>)
    ensures |parts| > 0
    decreases |s|
  {
    var k := LastSpace(s);
    if k < 0 then [s] else SplitAtSpaces(s[..k]) + [s[k + 1..]]
  }

  predicate Spaceless(s: string) {
    forall j :: 0 <= j < |s| ==> s[j] != ' '
  }

  predicate NoSpaces(args: seq<string>) {
    forall i :: 0 <= i < |args| ==> Spaceless(args[i])
  }

  /** When no argument contains a space, cutting the joined command at spaces gives back the arguments. */
  lemma {:induction false} SplitJoin(args: seq<string>)
    requires |args| > 0 && NoSpaces(args)
    ensures SplitAtSpaces(Join(args)) == args
  {
    var n := |args|;
    var last := args[n - 1];
    NoSpacesParts(args);
    if n == 1 {
      LastSpaceNone(last);
    } else {
      var init := args[..n - 1];
      var prefix := Join(init);
      var s := prefix + " " + last;
      assert s == Join(args);
      SpaceBeforeLast(prefix, last);
      SplitAtSeparator(prefix, last);
      SplitJoin(init);
      assert init + [last] == args;
    }
  }

  /** The arguments but the last, and the last, are free of spaces too. */
  lemma NoSpacesParts(args: seq<string>)
    requires |args| > 0 && NoSpaces(args)
    ensures NoSpaces(args[..|args| - 1]) && Spaceless(args[|args| - 1])
  {
  }

  lemma SplitAtSeparator(prefix: string, last: string)
    requires LastSpace(prefix + " " + last) == |prefix|
    ensures SplitAtSpaces(prefix + " " + last) == SplitAtSpaces(prefix) + [last]
  {
    var s := prefix + " " + last;
    SlicesAroundSeparator(prefix, last);
    SplitAtLastSpace(s, |prefix|);
  }

  lemma SlicesAroundSeparator(prefix: string, last: string)
    ensures (prefix + " " + last)[..|prefix|] == prefix
    ensures (prefix + " " + last)[|prefix| + 1..] == last
  {
  }

  lemma SplitAtLastSpace(s: string, k: int)
    requires 0 <= k < |s| && LastSpace(s) == k
    ensures SplitAtSpaces(s) == SplitAtSpaces(s[..k]) + [s[k + 1..]]
  {
  }

  lemma {:induction false} LastSpaceNone(s: string)
    requires Spaceless(s)
    ensures LastSpace(s) == -1
    decreases |s|
  {
    if |s| > 0 {
      LastSpaceNone(s[..|s| - 1]);
    }
  }

  /** The last space of `prefix + " " + last` is the separator when `last` has none. */
  lemma {:induction false} SpaceBeforeLast(prefix: string, last: string)
    requires Spaceless(last)
    ensures LastSpace(prefix + " " + last) == |prefix|
    decreases |last|
  {
    var s := prefix + " " + last;
    if |last| > 0 {
      var shorter := last[..|last| - 1];
      assert s[|s| - 1] == last[|last| - 1];
      assert s[..|s| - 1] == prefix + " " + shorter;
      SpaceBeforeLast(prefix, shorter);
    }
  }

  /** The join does not quote: one argument holding a space and two arguments give the same command line. */
  lemma JoinMergesSpacedArguments(args: seq<string>, i: nat)
    requires i + 1 < |args|
    ensures Join(args[..i] + [args[i] + " " + args[i + 1]] + args[i + 2..]) == Join(args)
  {
    SplitAroundPair(args, i);
    JoinPair(args[i], args[i + 1]);
    JoinCongruent(args[..i], [args[i] + " " + args[i + 1]], [args[i], args[i + 1]], args[i + 2..]);
  }

  lemma SplitAroundPair<T>(s: seq<T>, i: nat)
    requires i + 1 < |s|
    ensures s[..i] + [s[i], s[i + 1]] + s[i + 2..] == s
  {
  }

  lemma JoinPair(x: string, y: string)
    ensures Join([x, y]) == Join([x + " " + y])
  {
    assert [x, y][..1] == [x];
  }

  /** Joining depends on a block of consecutive arguments only through that block's own join. */
  lemma JoinCongruent(front: seq<string>, m: seq<string>, p: seq<string>, back: seq<string>)
    requires |m| > 0 && |p| > 0 && Join(m) == Join(p)
    ensures Join(front + m + back) == Join(front + p + back)
  {
    JoinCongruentBack(m, p, back);
    var mb, pb := m + back, p + back;
    assert front + m + back == front + mb;
    assert front + p + back == front + pb;
    JoinCongruentFront(front, mb, pb);
  }

  lemma JoinCongruentFront(front: seq<string>, m: seq<string>, p: seq<string>)
    requires |m| > 0 && |p| > 0 && Join(m) == Join(p)
    ensures Join(front + m) == Join(front + p)
  {
    if front == [] {
      assert front + m == m && front + p == p;
    } else {
      JoinAppend(front, m);
      JoinAppend(front, p);
    }
  }

  lemma JoinCongruentBack(m: seq<string>, p: seq<string>, back: seq<string>)
    requires |m| > 0 && |p| > 0 && Join(m) == Join(p)
    ensures Join(m + back) == Join(p + back)
  {
    if back == [] {
      assert m + back == m && p + back == p;
    } else {
      JoinAppend(m, back);
      JoinAppend(p, back);
    }
  }

  /** The join of two nonempty vectors one after the other is their joins with a space between. */
  lemma {:induction false} JoinAppend(a: seq<string>, b: seq<string>)
    requires |a| > 0 && |b| > 0
    ensures Join(a + b) == Join(a) + " " + Join(b)
    decreases |b|
  {
    var ab, last := a + b, b[|b| - 1];
    assert ab[|ab| - 1] == last;
    if |b| == 1 {
      assert ab[..|ab| - 1] == a;
    } else {
      var init := b[..|b| - 1];
      assert ab[..|ab| - 1] == a + init;
      JoinAppend(a, init);
      assert Join(ab) == (Join(a) + " " + Join(init)) + " " + last;
      assert Join(b) == Join(init) + " " + last;
    }
  }
}
