/**
 * Text joined with a separator, as the builders grow it in a `StringBuilder`: an index
 * loop that appends the separator before every element except the first.
 */
module SqlText {

  /** `parts` in order, with `sep` between neighbours; empty when `parts` is empty. */
  function Join(parts: seq<string>, sep: string): string
  {
    if |parts| == 0 then ""
    else if |parts| == 1 then parts[0]
    else Join(parts[..|parts| - 1], sep) + sep + parts[|parts| - 1]
  }

  /** Where `parts[i]` starts in `Join(parts, sep)`: every earlier part and its separator come first. */
  function Offset(parts: seq<string>, sep: string, i: nat): nat
    requires i <= |parts|
  {
    if i == 0 then 0 else Offset(parts, sep, i - 1) + |parts[i - 1]| + |sep|
  }

  /** True when `t` sits in `s` starting at position `at`. */
  predicate Occurs(s: string, t: string, at: nat)
  {
    at + |t| <= |s| && s[at..at + |t|] == t
  }

  /** One loop step: appending the separator (unless first) and the next part extends the join. */
  lemma JoinAppend(parts: seq<string>, sep: string, x: string)
    ensures Join(parts + [x], sep) == if |parts| == 0 then x else Join(parts, sep) + sep + x
  {
    assert (parts + [x])[..|parts|] == parts;
  }

  /** The same step, read on a prefix of a longer list: what one loop iteration adds. */
  lemma JoinStep(parts: seq<string>, sep: string, i: nat)
    requires i < |parts|
    ensures Join(parts[..i + 1], sep) == if i == 0 then parts[i] else Join(parts[..i], sep) + sep + parts[i]
  {
    assert parts[..i + 1] == parts[..i] + [parts[i]];
    JoinAppend(parts[..i], sep, parts[i]);
  }

  /** Offsets depend only on the parts before them. */
  lemma {:induction false} OffsetPrefix(parts: seq<string>, sep: string, k: nat, i: nat)
    requires i <= k <= |parts|
    ensures Offset(parts[..k], sep, i) == Offset(parts, sep, i)
  {
    if i > 0 {
      OffsetPrefix(parts, sep, k, i - 1);
    }
  }

  /** The joined text is exactly as long as its parts plus one separator between each pair. */
  lemma {:induction false} JoinLength(parts: seq<string>, sep: string)
    ensures |parts| == 0 ==> Join(parts, sep) == ""
    ensures |parts| > 0 ==> |Join(parts, sep)| + |sep| == Offset(parts, sep, |parts|)
  {
    var n := |parts|;
    if n > 1 {
      var init := parts[..n - 1];
      JoinLength(init, sep);
      OffsetPrefix(parts, sep, n - 1, n - 1);
    }
  }

  /** `t` sits at the end of `a + t`, right after `a`. */
  lemma OccursAfter(a: string, t: string)
    ensures Occurs(a + t, t, |a|)
  {
    assert (a + t)[|a|..|a| + |t|] == t;
  }

  /** Appending more text leaves an occurrence where it was. */
  lemma OccursExtended(s: string, t: string, at: nat, x: string)
    requires Occurs(s, t, at)
    ensures Occurs(s + x, t, at)
  {
    assert (s + x)[at..at + |t|] == s[at..at + |t|];
  }

  /** An occurrence that reaches the end of the text grows with whatever is appended. */
  lemma OccursGrown(s: string, t: string, at: nat, x: string)
    requires Occurs(s, t, at) && at + |t| == |s|
    ensures Occurs(s + x, t + x, at)
  {
    assert (s + x)[at..at + |t + x|] == s[at..] + x;
  }

  /** A buffer holding `head` and the first `i` parts, after one more loop iteration. */
  lemma JoinStepAfter(head: string, parts: seq<string>, sep: string, i: nat)
    requires i < |parts|
    ensures head + Join(parts[..i + 1], sep)
         == (if i == 0 then head else head + Join(parts[..i], sep) + sep) + parts[i]
  {
    JoinStep(parts, sep, i);
    if i != 0 {
      var j := Join(parts[..i], sep);
      assert head + (j + sep + parts[i]) == head + j + sep + parts[i];
    }
  }

  /** The last two parts of a join of at least two: the join of the rest, the separator, the last. */
  lemma JoinLast(parts: seq<string>, sep: string)
    requires |parts| >= 2
    ensures Join(parts, sep) == Join(parts[..|parts| - 1], sep) + sep + parts[|parts| - 1]
  {
  }

  /**
   * Layout of a join: part `i` appears verbatim at `Offset(parts, sep, i)`, and the separator
   * sits between it and part `i + 1`. Together with JoinLength this pins down every character.
   */
  lemma {:induction false} JoinAt(parts: seq<string>, sep: string, i: nat)
    requires i < |parts|
    ensures Occurs(Join(parts, sep), parts[i], Offset(parts, sep, i))
    ensures i + 1 < |parts| ==> Occurs(Join(parts, sep), sep, Offset(parts, sep, i) + |parts[i]|)
  {
    var n := |parts|;
    if n == 1 {
      assert Join(parts, sep) == parts[0];
      assert Join(parts, sep)[0..|parts[0]|] == parts[0];
    } else {
      var init, last := parts[..n - 1], parts[n - 1];
      var ji := Join(init, sep);
      JoinLast(parts, sep);
      JoinLength(init, sep);
      OffsetPrefix(parts, sep, n - 1, n - 1);
      if i < n - 1 {
        JoinAt(init, sep, i);
        OffsetPrefix(parts, sep, n - 1, i);
        var o := Offset(parts, sep, i);
        OccursExtended(ji, parts[i], o, sep);
        OccursExtended(ji + sep, parts[i], o, last);
        if i + 1 < n - 1 {
          OccursExtended(ji, sep, o + |parts[i]|, sep);
          OccursExtended(ji + sep, sep, o + |parts[i]|, last);
        } else {
          OccursAfter(ji, sep);
          OccursExtended(ji + sep, sep, |ji|, last);
        }
      } else {
        OccursAfter(ji + sep, last);
      }
    }
  }
}
