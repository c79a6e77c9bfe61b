/** The optional value used for lookups that may find nothing. */
module Wrappers {
  datatype Option<+T> = None | Some(value: T)
}

/** String and sequence helpers standing for the Python built-ins the analyzer uses:
    `in` on strings, slicing `[:n]`, `str.join` and `str.split('\n')`. */
module Strings {

  function Min(a: int, b: int): int
  {
    if a <= b then a else b
  }

  /** Python's `k in s` for strings: `k` occurs in `s` as a contiguous substring. */
  predicate Contains(s: string, k: string)
  {
    exists i :: 0 <= i <= |s| && k <= s[i..]
  }

  /** Python's `any(w in s for w in words)`. */
  predicate ContainsAny(s: string, words: seq<string>)
  {
    exists w :: w in words && Contains(s, w)
  }

  /** An occurrence inside a slice of `s` is an occurrence inside any wider slice. */
  lemma ContainsWiden(s: string, k: string, a: nat, b: nat, c: nat, d: nat)
    requires c <= a <= b <= d <= |s|
    requires Contains(s[a..b], k)
    ensures Contains(s[c..d], k)
  {
    var i :| 0 <= i <= b - a && k <= s[a..b][i..];
    var j := i + a - c;
    assert s[a..b][i..] == s[a + i..b];
    assert s[c..d][j..] == s[a + i..d];
    assert s[a + i..b] <= s[a + i..d];
    assert k <= s[c..d][j..];
  }

  /** Python's slice `s[:n]`: the first `n` elements, or all of `s` when it is shorter. */
  function Take<T>(s: seq<T>, n: nat): (r: seq<T>)
    ensures |r| == Min(n, |s|)
    ensures r <= s
  {
    if |s| <= n then s else s[..n]
  }

  /** Python's `sep.join(parts)`. */
  function Join(parts: seq<string>, sep: string): string
  {
    if |parts| == 0 then ""
    else if |parts| == 1 then parts[0]
    else parts[0] + sep + Join(parts[1..], sep)
  }

  /** Python's `s.split('\n')`: the pieces between newlines, always at least one. */
  function SplitLines(s: string): (lines: seq<string>)
    ensures |lines| >= 1
    ensures forall i :: 0 <= i < |lines| ==> '\n' !in lines[i]
  {
    if |s| == 0 then [""]
    else
      var rest := SplitLines(s[1..]);
      if s[0] == '\n' then [""] + rest
      else [[s[0]] + rest[0]] + rest[1..]
  }

  /** Joining the lines of `s` with newlines gives back `s`. */
  lemma {:induction false} JoinSplitLines(s: string)
    ensures Join(SplitLines(s), "\n") == s
  {
    if |s| > 0 {
      var rest := SplitLines(s[1..]);
      JoinSplitLines(s[1..]);
      if s[0] == '\n' {
        assert s == [s[0]] + s[1..];
      } else {
        var head := [s[0]] + rest[0];
        assert SplitLines(s) == [head] + rest[1..];
        if |rest| == 1 {
          assert s == [s[0]] + rest[0];
        } else {
          assert Join(rest, "\n") == rest[0] + "\n" + Join(rest[1..], "\n");
          assert ([head] + rest[1..])[1..] == rest[1..];
          assert s == [s[0]] + s[1..];
        }
      }
    }
  }

  /** A newline-free prefix stays whole in the first line. */
  lemma {:induction false} SplitLinesPrefix(a: string, rest: string)
    requires '\n' !in a
    ensures SplitLines(a + "\n" + rest) == [a] + SplitLines(rest)
  {
    if |a| == 0 {
      assert a + "\n" + rest == "\n" + rest;
      assert ("\n" + rest)[1..] == rest;
    } else {
      var s := a + "\n" + rest;
      assert s[1..] == a[1..] + "\n" + rest;
      assert '\n' !in a[1..] by {
        forall i | 0 <= i < |a[1..]| ensures a[1..][i] != '\n' {
          assert a[1..][i] == a[i + 1];
        }
      }
      SplitLinesPrefix(a[1..], rest);
      assert s[0] == a[0] && s[0] != '\n';
      assert [a[0]] + a[1..] == a;
    }
  }

  /** A newline-free string is a single line. */
  lemma {:induction false} SplitLinesSingle(a: string)
    requires '\n' !in a
    ensures SplitLines(a) == [a]
  {
    if |a| > 0 {
      assert '\n' !in a[1..] by {
        forall i | 0 <= i < |a[1..]| ensures a[1..][i] != '\n' {
          assert a[1..][i] == a[i + 1];
        }
      }
      SplitLinesSingle(a[1..]);
      assert [a[0]] + a[1..] == a;
    }
  }

  /** Splitting newline-free lines joined with newlines gives back those lines. */
  lemma {:induction false} SplitJoinLines(parts: seq<string>)
    requires |parts| >= 1
    requires forall i :: 0 <= i < |parts| ==> '\n' !in parts[i]
    ensures SplitLines(Join(parts, "\n")) == parts
  {
    if |parts| == 1 {
      SplitLinesSingle(parts[0]);
    } else {
      SplitJoinLines(parts[1..]);
      SplitLinesPrefix(parts[0], Join(parts[1..], "\n"));
      assert parts == [parts[0]] + parts[1..];
    }
  }
}
