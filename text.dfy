/** The Python string operations the dashboard relies on: the substring test `sub in s`,
    concatenation of f-string pieces, `sep.join(items)`, `s.split(sep)[-1]` and `str(n)`. */
module Text {

  /** `sub` occurs in `s` starting at offset `i`. */
  predicate OccursAt(s: string, sub: string, i: int)
  {
    0 <= i && i + |sub| <= |s| && s[i..i + |sub|] == sub
  }

  /** Python's `sub in s` for two strings: some offset of `s` starts a copy of `sub`. */
  predicate Contains(s: string, sub: string)
  {
    exists i | 0 <= i <= |s| - |sub| :: OccursAt(s, sub, i)
  }

  lemma ContainsSelf(s: string)
    ensures Contains(s, s)
  {
    assert OccursAt(s, s, 0);
  }

  /** Text stays contained when more text is put in front of it. */
  lemma ContainsExtendLeft(a: string, b: string, x: string)
    requires Contains(b, x)
    ensures Contains(a + b, x)
  {
    var i :| 0 <= i <= |b| - |x| && OccursAt(b, x, i);
    assert (a + b)[|a| + i..|a| + i + |x|] == b[i..i + |x|];
    assert OccursAt(a + b, x, |a| + i);
  }

  /** Text stays contained when more text is put after it. */
  lemma ContainsExtendRight(a: string, b: string, x: string)
    requires Contains(a, x)
    ensures Contains(a + b, x)
  {
    var i :| 0 <= i <= |a| - |x| && OccursAt(a, x, i);
    assert (a + b)[i..i + |x|] == a[i..i + |x|];
    assert OccursAt(a + b, x, i);
  }

  /** Whatever contains `p + q` contains its first piece `p`. */
  lemma ContainsDropRight(s: string, p: string, q: string)
    requires Contains(s, p + q)
    ensures Contains(s, p)
  {
    var i :| 0 <= i <= |s| - |p + q| && OccursAt(s, p + q, i);
    assert s[i..i + |p|] == (p + q)[..|p|] == p;
    assert OccursAt(s, p, i);
  }

  /** Whatever contains `p + q` contains its last piece `q`. */
  lemma ContainsDropLeft(s: string, p: string, q: string)
    requires Contains(s, p + q)
    ensures Contains(s, q)
  {
    var i :| 0 <= i <= |s| - |p + q| && OccursAt(s, p + q, i);
    assert s[i + |p|..i + |p| + |q|] == (p + q)[|p|..] == q;
    assert OccursAt(s, q, i + |p|);
  }

  /** Containment is transitive. */
  lemma ContainsTrans(s: string, m: string, x: string)
    requires Contains(s, m) && Contains(m, x)
    ensures Contains(s, x)
  {
    var i :| 0 <= i <= |s| - |m| && OccursAt(s, m, i);
    var j :| 0 <= j <= |m| - |x| && OccursAt(m, x, j);
    var w := s[i + j..i + j + |x|];
    forall k | 0 <= k < |x| ensures w[k] == x[k] {
      assert w[k] == s[i..i + |m|][j + k];
      assert x[k] == m[j..j + |x|][k];
    }
    assert OccursAt(s, x, i + j);
  }

  /** The pieces of an f-string, put together in order. */
  function Concat(pieces: seq<string>): string
  {
    if |pieces| == 0 then "" else Concat(pieces[..|pieces| - 1]) + pieces[|pieces| - 1]
  }

  /** Every piece of a concatenation occurs in it. */
  lemma {:induction false} ContainsEachPart(pieces: seq<string>, i: nat)
    requires i < |pieces|
    ensures Contains(Concat(pieces), pieces[i])
    decreases |pieces|
  {
    var n := |pieces|;
    if i == n - 1 {
      ContainsSelf(pieces[i]);
      ContainsExtendLeft(Concat(pieces[..n - 1]), pieces[i], pieces[i]);
    } else {
      ContainsEachPart(pieces[..n - 1], i);
      ContainsExtendRight(Concat(pieces[..n - 1]), pieces[n - 1], pieces[i]);
    }
  }

  /** Python's `sep.join(items)`. */
  function Join(items: seq<string>, sep: string): (r: string)
    ensures forall i :: 0 <= i < |items| ==> Contains(r, items[i])
    decreases |items|
  {
    if items == [] then ""
    else if |items| == 1 then
      ContainsSelf(items[0]);
      items[0]
    else
      var rest := Join(items[1..], sep);
      forall i | 1 <= i < |items| ensures Contains(sep + rest, items[i]) {
        ContainsExtendLeft(sep, rest, items[i]);
      }
      ContainsSelf(items[0]);
      ContainsExtendRight(items[0], sep + rest, items[0]);
      forall i | 1 <= i < |items| ensures Contains(items[0] + (sep + rest), items[i]) {
        ContainsExtendLeft(items[0], sep + rest, items[i]);
      }
      assert items[0] + sep + rest == items[0] + (sep + rest);
      items[0] + sep + rest
  }

  /** Python's `s.split(sep)[-1]`. */
  function LastSegment(s: string, sep: char): string
    decreases |s|
  {
    if |s| == 0 then ""
    else if s[|s| - 1] == sep then ""
    else LastSegment(s[..|s| - 1], sep) + [s[|s| - 1]]
  }

  /** The last segment holds no `sep`. */
  lemma {:induction false} LastSegmentFree(s: string, sep: char)
    ensures sep !in LastSegment(s, sep)
    decreases |s|
  {
    if |s| > 0 && s[|s| - 1] != sep {
      LastSegmentFree(s[..|s| - 1], sep);
    }
  }

  /** The last segment is the text after the last `sep`, or all of `s` when it has none: the
      end of `s`, preceded in `s` by a `sep` unless it is all of `s`. */
  lemma {:induction false} LastSegmentSuffix(s: string, sep: char)
    ensures var r := LastSegment(s, sep);
            |r| <= |s| &&
            (forall k :: 0 <= k < |r| ==> r[k] == s[|s| - |r| + k]) &&
            (|r| < |s| ==> s[|s| - |r| - 1] == sep)
    decreases |s|
  {
    var n := |s|;
    if n > 0 && s[n - 1] != sep {
      var init := s[..n - 1];
      var t := LastSegment(init, sep);
      LastSegmentSuffix(init, sep);
      var r := t + [s[n - 1]];
      assert LastSegment(s, sep) == r;
      forall k | 0 <= k < |r| ensures r[k] == s[n - |r| + k] {
        if k < |t| {
          assert r[k] == t[k] == init[n - 1 - |t| + k];
        }
      }
    }
  }

  /** In `p + [sep] + q` with no `sep` inside `q`, the last segment is exactly `q`. */
  lemma {:induction false} LastSegmentAfter(p: string, sep: char, q: string)
    requires sep !in q
    ensures LastSegment(p + [sep] + q, sep) == q
    decreases |q|
  {
    var s := p + [sep] + q;
    if q != [] {
      var q' := q[..|q| - 1];
      assert s[..|s| - 1] == p + [sep] + q';
      LastSegmentAfter(p, sep, q');
      assert q' + [q[|q| - 1]] == q;
    }
  }

  function DigitChar(d: nat): char
    requires d < 10
  {
    "0123456789"[d]
  }

  /** Python's `str(n)` for a natural number: its decimal digits, most significant first. */
  function NatToString(n: nat): (r: string)
    ensures |r| > 0
    ensures forall i :: 0 <= i < |r| ==> '0' <= r[i] <= '9'
  {
    if n < 10 then [DigitChar(n)] else NatToString(n / 10) + [DigitChar(n % 10)]
  }

  /** Python's `str(n)` for any integer. */
  function IntToString(n: int): (r: string)
    ensures |r| > 0
    ensures n < 0 <==> r[0] == '-'
  {
    if n < 0 then "-" + NatToString(-n) else NatToString(n)
  }
}
