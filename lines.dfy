/** The JSON Lines body of a stored file: the records' JSON texts joined by
    newlines, as Python's `'\n'.join` does, and the split that undoes it. */
module Lines {
  import opened PyValues

  /** `'\n'.join(ls)`: separators between the lines, none after the last */
  function JoinLines(ls: seq<string>): string
  {
    if |ls| == 0 then ""
    else if |ls| == 1 then ls[0]
    else ls[0] + "\n" + JoinLines(ls[1..])
  }

  /** The position of the first newline of `s` */
  function NewlineIndex(s: string): (r: Option<nat>)
    ensures r.None? <==> '\n' !in s
    ensures r.Some? ==> r.value < |s| && s[r.value] == '\n' && '\n' !in s[..r.value]
  {
    if s == [] then None
    else if s[0] == '\n' then Some(0)
    else
      match NewlineIndex(s[1..])
      case None => None
      case Some(i) =>
        assert s[..i + 1] == [s[0]] + s[1..][..i];
        Some(i + 1)
  }

  /** `s.split('\n')` */
  function SplitLines(s: string): (r: seq<string>)
    ensures |r| >= 1
    ensures forall i :: 0 <= i < |r| ==> '\n' !in r[i]
    decreases |s|
  {
    match NewlineIndex(s)
    case None => [s]
    case Some(i) => [s[..i]] + SplitLines(s[i + 1..])
  }

  /** The first newline of `a + "\n" + b` is the one after `a` */
  lemma FirstNewline(a: string, b: string)
    requires '\n' !in a
    ensures NewlineIndex(a + "\n" + b) == Some(|a|)
  {
    var s := a + "\n" + b;
    assert s[|a|] == '\n';
    assert s[..|a|] == a;
  }

  /** Splitting at the first newline: the line before it, then the rest */
  lemma SplitCons(a: string, b: string)
    requires '\n' !in a
    ensures SplitLines(a + "\n" + b) == [a] + SplitLines(b)
  {
    var s := a + "\n" + b;
    FirstNewline(a, b);
    assert s[..|a|] == a;
    assert s[|a| + 1..] == b;
  }

  /** Splitting the body gives back the lines, when none contains a newline
      (JSON text without indentation never does). */
  lemma {:induction false} SplitJoin(ls: seq<string>)
    requires |ls| >= 1
    requires forall i :: 0 <= i < |ls| ==> '\n' !in ls[i]
    ensures SplitLines(JoinLines(ls)) == ls
  {
    if |ls| == 1 {
      assert NewlineIndex(ls[0]).None?;
    } else {
      var tail := ls[1..];
      assert forall i :: 0 <= i < |tail| ==> tail[i] == ls[i + 1];
      SplitJoin(tail);
      SplitCons(ls[0], JoinLines(tail));
      assert ls == [ls[0]] + tail;
    }
  }

  /** The number of newline characters in `s` */
  function Newlines(s: string): nat
  {
    multiset(s)['\n']
  }

  /** n lines give n - 1 separators, and the body ends with the last line
      rather than with a newline */
  lemma {:induction false} JoinNewlines(ls: seq<string>)
    requires |ls| >= 1
    requires forall i :: 0 <= i < |ls| ==> '\n' !in ls[i]
    ensures Newlines(JoinLines(ls)) == |ls| - 1
    ensures var body, last := JoinLines(ls), ls[|ls| - 1];
      |last| <= |body| && body[|body| - |last|..] == last
  {
    if |ls| == 1 {
      assert multiset(ls[0])['\n'] == 0;
    } else {
      var rest := JoinLines(ls[1..]);
      JoinNewlines(ls[1..]);
      assert multiset(ls[0])['\n'] == 0;
      assert multiset(ls[0] + "\n" + rest) == multiset(ls[0]) + multiset("\n") + multiset(rest);
      assert ls[1..][|ls[1..]| - 1] == ls[|ls| - 1];
      var s := ls[0] + "\n" + rest;
      var last := ls[|ls| - 1];
      assert s[|s| - |last|..] == rest[|rest| - |last|..];
    }
  }
}
