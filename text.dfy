/** The string operations the request handler relies on, with Python's
    meaning: `"\n".join(lines)`, `s.split("\n")` and `p in s` on strings. */
module Text {

  /** `"\n".join(lines)`. */
  function JoinLines(lines: seq<string>): string
  {
    if |lines| == 0 then ""
    else if |lines| == 1 then lines[0]
    else lines[0] + "\n" + JoinLines(lines[1..])
  }

  /** `s.split("\n")`: the maximal newline-free pieces of `s`, in order.
      There is always at least one piece ("" splits into [""]). */
  function SplitLines(s: string): (r: seq<string>)
    ensures |r| >= 1
    ensures forall i :: 0 <= i < |r| ==> '\n' !in r[i]
    decreases |s|
  {
    if s == [] then [""]
    else
      var rest := SplitLines(s[1..]);
      if s[0] == '\n' then [""] + rest
      else [[s[0]] + rest[0]] + rest[1..]
  }

  /** Splitting and joining again gives back the original text. */
  lemma {:induction false} JoinSplit(s: string)
    ensures JoinLines(SplitLines(s)) == s
    decreases |s|
  {
    if s != [] {
      var rest := SplitLines(s[1..]);
      JoinSplit(s[1..]);
      if s[0] == '\n' {
        assert SplitLines(s) == [""] + rest;
        assert JoinLines(SplitLines(s)) == "" + "\n" + JoinLines(rest);
        assert s == [s[0]] + s[1..];
      } else {
        var lines := SplitLines(s);
        assert lines == [[s[0]] + rest[0]] + rest[1..];
        if |rest| == 1 {
          assert JoinLines(lines) == [s[0]] + rest[0];
          assert JoinLines(rest) == rest[0];
        } else {
          assert lines[1..] == rest[1..];
          assert JoinLines(lines) == [s[0]] + rest[0] + "\n" + JoinLines(rest[1..]);
          assert JoinLines(rest) == rest[0] + "\n" + JoinLines(rest[1..]);
        }
        assert s == [s[0]] + s[1..];
      }
    }
  }

  /** A newline-free text is a single line. */
  lemma {:induction false} SplitSingleLine(a: string)
    requires '\n' !in a
    ensures SplitLines(a) == [a]
    decreases |a|
  {
    if a != [] {
      SplitSingleLine(a[1..]);
      assert a == [a[0]] + a[1..];
    }
  }

  /** A newline-free first line followed by "\n" splits off as one piece. */
  lemma {:induction false} SplitFirstLine(a: string, b: string)
    requires '\n' !in a
    ensures SplitLines(a + "\n" + b) == [a] + SplitLines(b)
    decreases |a|
  {
    var s := a + "\n" + b;
    if a == [] {
      assert s == "\n" + b && s[1..] == b;
    } else {
      assert s[1..] == a[1..] + "\n" + b;
      SplitFirstLine(a[1..], b);
      assert a == [a[0]] + a[1..];
    }
  }

  /** Joining newline-free lines and splitting again gives back the lines:
      the joined text has exactly one line per element. */
  lemma {:induction false} SplitJoin(lines: seq<string>)
    requires |lines| >= 1
    requires forall i :: 0 <= i < |lines| ==> '\n' !in lines[i]
    ensures SplitLines(JoinLines(lines)) == lines
    decreases |lines|
  {
    if |lines| == 1 {
      SplitSingleLine(lines[0]);
    } else {
      SplitJoin(lines[1..]);
      SplitFirstLine(lines[0], JoinLines(lines[1..]));
      assert lines == [lines[0]] + lines[1..];
    }
  }

  /** `p` occurs in `s` starting at index `i`. */
  predicate Occurs(p: string, s: string, i: int)
  {
    0 <= i && i + |p| <= |s| && s[i..i + |p|] == p
  }

  /** Python's `p in s` for two strings: `p` is a contiguous part of `s`. */
  predicate IsSubstring(p: string, s: string)
    decreases |s|
  {
    (|p| <= |s| && s[..|p|] == p) || (|s| > 0 && IsSubstring(p, s[1..]))
  }

  /** An occurrence at any index makes `p` a substring. */
  lemma {:induction false} OccursIsSubstring(p: string, s: string, i: int)
    requires Occurs(p, s, i)
    ensures IsSubstring(p, s)
    decreases i
  {
    if i > 0 {
      assert s[1..][i - 1..i - 1 + |p|] == s[i..i + |p|];
      OccursIsSubstring(p, s[1..], i - 1);
    }
  }

  /** A substring occurs at some index. */
  lemma {:induction false} SubstringOccurs(p: string, s: string) returns (i: int)
    requires IsSubstring(p, s)
    ensures Occurs(p, s, i)
    decreases |s|
  {
    if |p| <= |s| && s[..|p|] == p {
      i := 0;
    } else {
      var j := SubstringOccurs(p, s[1..]);
      assert s[1..][j..j + |p|] == s[j + 1..j + 1 + |p|];
      i := j + 1;
    }
  }

  /** `p in s` holds exactly when `p` occurs in `s` at some index. */
  lemma SubstringIff(p: string, s: string)
    ensures IsSubstring(p, s) <==> exists i :: Occurs(p, s, i)
  {
    if IsSubstring(p, s) {
      var i := SubstringOccurs(p, s);
    }
    if exists i :: Occurs(p, s, i) {
      var i :| Occurs(p, s, i);
      OccursIsSubstring(p, s, i);
    }
  }

  /** An occurrence of an occurrence is an occurrence. */
  lemma OccursTrans(p: string, q: string, s: string, i: int, j: int)
    requires Occurs(p, q, i) && Occurs(q, s, j)
    ensures Occurs(p, s, j + i)
  {
    forall n | 0 <= n < |p|
      ensures s[j + i..j + i + |p|][n] == p[n]
    {
      assert p[n] == q[i..i + |p|][n] == q[i + n];
      assert q[i + n] == s[j..j + |q|][i + n];
    }
  }

  /** Whatever surrounds it, `p` is a substring of `a + p + b`. */
  lemma Surrounded(a: string, p: string, b: string)
    ensures Occurs(p, a + p + b, |a|) && IsSubstring(p, a + p + b)
  {
    assert (a + p + b)[|a|..|a| + |p|] == p;
    OccursIsSubstring(p, a + p + b, |a|);
  }

  /** A text occurs at the start of itself followed by anything. */
  lemma OccursAtStart(p: string, s: string)
    ensures Occurs(p, p + s, 0)
  {
    assert (p + s)[0..|p|] == p;
  }

  /** Putting text in front moves an occurrence along by that text's length. */
  lemma OccursShift(p: string, front: string, s: string, i: int)
    requires Occurs(p, s, i)
    ensures Occurs(p, front + s, |front| + i)
  {
    assert (front + s)[|front| + i..|front| + i + |p|] == s[i..i + |p|];
  }

  /** Two adjacent occurrences make an occurrence of their concatenation. */
  lemma OccursAdjacent(p: string, q: string, s: string, i: int)
    requires Occurs(p, s, i) && Occurs(q, s, i + |p|)
    ensures Occurs(p + q, s, i)
  {
    assert s[i..i + |p| + |q|] == s[i..i + |p|] + s[i + |p|..i + |p| + |q|];
  }

  /** Every line occurs in the joined text. */
  lemma {:induction false} LineInJoin(lines: seq<string>, k: nat) returns (at: int)
    requires k < |lines|
    ensures Occurs(lines[k], JoinLines(lines), at)
    decreases |lines|
  {
    var whole := JoinLines(lines);
    if |lines| == 1 {
      at := 0;
      assert whole[0..|lines[0]|] == lines[0];
    } else if k == 0 {
      at := 0;
      assert whole == lines[0] + ("\n" + JoinLines(lines[1..]));
      assert whole[0..|lines[0]|] == lines[0];
    } else {
      var inner := LineInJoin(lines[1..], k - 1);
      var rest := JoinLines(lines[1..]);
      assert whole == (lines[0] + "\n") + rest;
      Surrounded(lines[0] + "\n", rest, "");
      assert (lines[0] + "\n") + rest + "" == whole;
      OccursTrans(lines[k], rest, whole, inner, |lines[0]| + 1);
      at := |lines[0]| + 1 + inner;
    }
  }

  /** The joined text ends with the last line: no trailing separator. */
  lemma {:induction false} JoinEndsWithLast(lines: seq<string>)
    requires |lines| >= 1
    ensures var whole := JoinLines(lines); var last := lines[|lines| - 1];
      |last| <= |whole| && whole[|whole| - |last|..] == last
    decreases |lines|
  {
    if |lines| > 1 {
      JoinEndsWithLast(lines[1..]);
      var rest := JoinLines(lines[1..]);
      assert JoinLines(lines) == (lines[0] + "\n") + rest;
      assert lines[1..][|lines[1..]| - 1] == lines[|lines| - 1];
    }
  }
}
