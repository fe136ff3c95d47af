/** Small helpers over Python values and strings: optional values, calls that
    may raise, ASCII lower-casing, substring search, `str.join` and `str(int)`. */
module Text {

  /** A dictionary key that is present (`Some`) or absent (`None`). */
  datatype Option<+T> = None | Some(value: T) {
    /** `d.get(key, default)` */
    function GetOr(default: T): T {
      match this
      case Some(v) => v
      case None => default
    }
  }

  /** The outcome of a call into code outside the model: it returns a value or
      raises an exception whose `str(e)` is `message`. */
  datatype Reply<+T> = Returned(value: T) | Raised(message: string)

  /** Python truthiness of an optional string: absent, `None` and `""` are falsy. */
  predicate Truthy(s: Option<string>) {
    s.Some? && s.value != ""
  }

  // ---------------------------------------------------------------- lower()

  function LowerChar(c: char): char {
    if 'A' <= c <= 'Z' then (c as int + 32) as char else c
  }

  /** `str.lower()` restricted to ASCII letters. */
  function Lower(s: string): (r: string)
    ensures |r| == |s|
    ensures forall i :: 0 <= i < |s| ==> r[i] == LowerChar(s[i])
  {
    if s == [] then [] else [LowerChar(s[0])] + Lower(s[1..])
  }

  lemma {:induction false} LowerAppend(a: string, b: string)
    ensures Lower(a + b) == Lower(a) + Lower(b)
  {
    var l, r := Lower(a + b), Lower(a) + Lower(b);
    forall i | 0 <= i < |a| ensures l[i] == r[i] {
      assert (a + b)[i] == a[i];
    }
    forall i | |a| <= i < |a| + |b| ensures l[i] == r[i] {
      assert (a + b)[i] == b[i - |a|];
    }
  }

  // ------------------------------------------------------------ `w in t`

  /** `w` occurs in `t` starting at offset `i`. */
  predicate OccursAt(t: string, w: string, i: int) {
    0 <= i <= |t| - |w| && t[i..i + |w|] == w
  }

  /** Python's `w in t` on strings: `w` occurs in `t` at some offset. */
  predicate Contains(t: string, w: string) {
    exists i | 0 <= i <= |t| - |w| :: OccursAt(t, w, i)
  }

  /** Inside an occurrence, the text's characters are the word's. */
  lemma CharOfOccurrence(t: string, w: string, i: int, p: int)
    requires OccursAt(t, w, i) && i <= p < i + |w|
    ensures t[p] == w[p - i]
  {
    assert t[i..i + |w|][p - i] == t[p];
  }

  /** Containment of substrings is transitive. */
  lemma ContainsTransitive(a: string, b: string, c: string)
    requires Contains(c, b) && Contains(b, a)
    ensures Contains(c, a)
  {
    var i :| 0 <= i <= |c| - |b| && OccursAt(c, b, i);
    var j :| 0 <= j <= |b| - |a| && OccursAt(b, a, j);
    forall k | 0 <= k < |a| ensures c[i + j + k] == a[k] {
      assert a[k] == b[j..j + |a|][k] == b[j + k];
      assert b[j + k] == c[i..i + |b|][j + k] == c[i + j + k];
    }
    assert c[i + j..i + j + |a|] == a;
    assert OccursAt(c, a, i + j);
  }

  /** A word without the separator character occurs in `a + [sep] + b` exactly
      when it occurs in `a` or in `b`: no occurrence can straddle the separator. */
  lemma ContainsAcrossSeparator(a: string, sep: char, b: string, w: string)
    requires sep !in w
    ensures Contains(a + [sep] + b, w) <==> Contains(a, w) || Contains(b, w)
  {
    var t := a + [sep] + b;
    var off := |a| + 1;
    if Contains(t, w) {
      var i :| 0 <= i <= |t| - |w| && OccursAt(t, w, i);
      if i + |w| <= |a| {
        forall k | 0 <= k < |w| ensures a[i + k] == w[k] {
          CharOfOccurrence(t, w, i, i + k);
        }
        assert a[i..i + |w|] == w;
        assert OccursAt(a, w, i);
      } else if i >= off {
        forall k | 0 <= k < |w| ensures b[i - off + k] == w[k] {
          CharOfOccurrence(t, w, i, i + k);
          assert t[i + k] == b[i - off + k];
        }
        assert b[i - off..i - off + |w|] == w;
        assert OccursAt(b, w, i - off);
      } else {
        CharOfOccurrence(t, w, i, |a|);
        assert false;
      }
    }
    if Contains(a, w) {
      var i :| 0 <= i <= |a| - |w| && OccursAt(a, w, i);
      forall k | 0 <= k < |w| ensures t[i + k] == w[k] {
        CharOfOccurrence(a, w, i, i + k);
      }
      assert t[i..i + |w|] == w;
      assert OccursAt(t, w, i);
    }
    if Contains(b, w) {
      var i :| 0 <= i <= |b| - |w| && OccursAt(b, w, i);
      forall k | 0 <= k < |w| ensures t[off + i + k] == w[k] {
        CharOfOccurrence(b, w, i, i + k);
        assert t[off + i + k] == b[i + k];
      }
      assert t[off + i..off + i + |w|] == w;
      assert OccursAt(t, w, off + i);
    }
  }

  // -------------------------------------------------------------- join()

  /** `sep.join(parts)` for a one-character separator. */
  function Join(sep: char, parts: seq<string>): string {
    if parts == [] then ""
    else if |parts| == 1 then parts[0]
    else parts[0] + [sep] + Join(sep, parts[1..])
  }

  function LowerAll(parts: seq<string>): (r: seq<string>)
    ensures |r| == |parts|
    ensures forall i :: 0 <= i < |parts| ==> r[i] == Lower(parts[i])
  {
    if parts == [] then [] else [Lower(parts[0])] + LowerAll(parts[1..])
  }

  /** Lower-casing a joined string lower-cases each part (the separator is not
      an upper-case letter). */
  lemma {:induction false} LowerJoin(sep: char, parts: seq<string>)
    requires LowerChar(sep) == sep
    ensures Lower(Join(sep, parts)) == Join(sep, LowerAll(parts))
  {
    if |parts| > 1 {
      var head, rest := parts[0], Join(sep, parts[1..]);
      var lowered := LowerAll(parts);
      assert Join(sep, parts) == (head + [sep]) + rest;
      LowerAppend(head + [sep], rest);
      LowerAppend(head, [sep]);
      LowerJoin(sep, parts[1..]);
      assert lowered[1..] == LowerAll(parts[1..]);
      assert Join(sep, lowered) == (lowered[0] + [sep]) + Join(sep, lowered[1..]);
    }
  }

  /** A non-empty word without the separator occurs in a joined string exactly
      when it occurs in one of the parts. */
  lemma {:induction false} ContainsInJoin(sep: char, parts: seq<string>, w: string)
    requires sep !in w && |w| > 0
    ensures Contains(Join(sep, parts), w) <==> exists k :: 0 <= k < |parts| && Contains(parts[k], w)
  {
    if parts == [] {
      assert forall i :: !OccursAt("", w, i);
    } else if |parts| > 1 {
      ContainsAcrossSeparator(parts[0], sep, Join(sep, parts[1..]), w);
      ContainsInJoin(sep, parts[1..], w);
      if exists k :: 0 <= k < |parts| && Contains(parts[k], w) {
        var k :| 0 <= k < |parts| && Contains(parts[k], w);
        if k > 0 { assert parts[1..][k - 1] == parts[k]; }
      }
      if Contains(Join(sep, parts[1..]), w) {
        var k :| 0 <= k < |parts[1..]| && Contains(parts[1..][k], w);
        assert Contains(parts[k + 1], w);
      }
    }
  }

  // ------------------------------------------------------------ str(int)

  function DigitChar(d: nat): char
    requires d < 10
  {
    "0123456789"[d]
  }

  /** `str(n)` for a natural number: its shortest decimal representation. */
  function NatToString(n: nat): (r: string)
    ensures |r| > 0
    ensures forall i :: 0 <= i < |r| ==> '0' <= r[i] <= '9'
    ensures |r| > 1 ==> r[0] != '0'
  {
    if n < 10 then [DigitChar(n)] else NatToString(n / 10) + [DigitChar(n % 10)]
  }

  /** `str(n)` for any integer. */
  function IntToString(n: int): (r: string)
    ensures |r| > 0
    ensures (r[0] == '-') <==> n < 0
  {
    if n < 0 then "-" + NatToString(-n) else NatToString(n)
  }
}
