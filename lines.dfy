/**
  Python's `"\n".join(parts)` and, as its inverse, `s.split("\n")`.
*/
module Lines {

  /** `"\n".join(parts)`: the parts in order, a newline between neighbours. */
  function JoinLines(parts: seq<string>): (s: string)
    ensures |parts| == 0 ==> s == ""
    ensures |parts| == 1 ==> s == parts[0]
  {
    if |parts| == 0 then ""
    else if |parts| == 1 then parts[0]
    else parts[0] + "\n" + JoinLines(parts[1..])
  }

  /** `s.split("\n")`: the maximal newline-free pieces, in order; never empty. */
  function SplitLines(s: string): (pieces: seq<string>)
    ensures |pieces| >= 1
    decreases |s|
  {
    if |s| == 0 then [""]
    else
      var rest := SplitLines(s[1..]);
      if s[0] == '\n' then [""] + rest
      else [[s[0]] + rest[0]] + rest[1..]
  }

  /** True when no part contains a newline. */
  predicate NoNewlines(parts: seq<string>) {
    forall i :: 0 <= i < |parts| ==> '\n' !in parts[i]
  }

  /** A newline-free string is its own single piece. */
  lemma {:induction false} SplitNewlineFree(t: string)
    requires '\n' !in t
    ensures SplitLines(t) == [t]
    decreases |t|
  {
    if |t| > 0 {
      SplitNewlineFree(t[1..]);
      assert [t[0]] + t[1..] == t;
    }
  }

  /** Splitting `t + "\n" + u` with a newline-free `t` splits off `t`. */
  lemma {:induction false} SplitAfterFirst(t: string, u: string)
    requires '\n' !in t
    ensures SplitLines(t + "\n" + u) == [t] + SplitLines(u)
    decreases |t|
  {
    if |t| == 0 {
      assert t + "\n" + u == ['\n'] + u;
      assert (['\n'] + u)[1..] == u;
    } else {
      var s := t + "\n" + u;
      assert s[0] == t[0];
      assert s[1..] == t[1..] + "\n" + u;
      SplitAfterFirst(t[1..], u);
      assert [t[0]] + t[1..] == t;
    }
  }

  /** Splitting undoes joining when no part contains a newline: the join keeps
      every part, in order. */
  lemma {:induction false} SplitJoin(parts: seq<string>)
    requires |parts| >= 1 && NoNewlines(parts)
    ensures SplitLines(JoinLines(parts)) == parts
    decreases |parts|
  {
    if |parts| == 1 {
      SplitNewlineFree(parts[0]);
    } else {
      assert '\n' !in parts[0];
      SplitAfterFirst(parts[0], JoinLines(parts[1..]));
      assert NoNewlines(parts[1..]) by {
        forall i | 0 <= i < |parts[1..]| ensures '\n' !in parts[1..][i] {
          assert parts[1..][i] == parts[i + 1];
        }
      }
      SplitJoin(parts[1..]);
      assert [parts[0]] + parts[1..] == parts;
    }
  }

  /** Appending a part appends it after one more newline. */
  lemma {:induction false} JoinSnoc(parts: seq<string>, last: string)
    requires |parts| >= 1
    ensures JoinLines(parts + [last]) == JoinLines(parts) + "\n" + last
    decreases |parts|
  {
    if |parts| == 1 {
      assert (parts + [last])[1..] == [last];
    } else {
      assert (parts + [last])[1..] == parts[1..] + [last];
      JoinSnoc(parts[1..], last);
    }
  }

  /** The joined text is as long as the parts together plus one newline per gap. */
  lemma {:induction false} JoinLength(parts: seq<string>)
    requires |parts| >= 1
    ensures |JoinLines(parts)| == TotalLength(parts) + |parts| - 1
    decreases |parts|
  {
    if |parts| > 1 {
      JoinLength(parts[1..]);
    }
  }

  function TotalLength(parts: seq<string>): nat {
    if |parts| == 0 then 0 else |parts[0]| + TotalLength(parts[1..])
  }
}
