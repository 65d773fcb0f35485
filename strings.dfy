/**
 * The few pieces of Python's `str` the relay relies on: `sub in s`,
 * `sep.join(parts)`, splitting on a separator, `str(n)` for integers,
 * the slice `s[k:]`, truthiness of optional strings and f-string
 * formatting of values that may be `None`.
 */
module Strings {
  import opened Wrappers

  /** `sub` occurs in `s` starting at index `i`. */
  ghost predicate OccursAt(s: string, sub: string, i: int)
  {
    0 <= i && i + |sub| <= |s| && s[i..i + |sub|] == sub
  }

  /** Python's `s.startswith(p)`. */
  predicate IsPrefix(p: string, s: string)
  {
    |p| <= |s| && s[..|p|] == p
  }

  /** Python's `sub in s`: substring containment (the empty string is in every string). */
  predicate Contains(s: string, sub: string)
    decreases |s|
  {
    IsPrefix(sub, s) || (|s| > 0 && Contains(s[1..], sub))
  }

  /** `Contains` is exactly "occurs at some position". */
  lemma {:induction false} ContainsIff(s: string, sub: string)
    ensures Contains(s, sub) <==> exists i :: OccursAt(s, sub, i)
    decreases |s|
  {
    if IsPrefix(sub, s) {
      assert OccursAt(s, sub, 0);
    } else if |s| == 0 {
    } else {
      ContainsIff(s[1..], sub);
      if Contains(s[1..], sub) {
        var j :| OccursAt(s[1..], sub, j);
        assert s[1..][j..j + |sub|] == s[j + 1..j + 1 + |sub|];
        assert OccursAt(s, sub, j + 1);
      }
      assert !OccursAt(s, sub, 0);
      forall i | OccursAt(s, sub, i)
        ensures Contains(s[1..], sub)
      {
        assert s[1..][i - 1..i - 1 + |sub|] == s[i..i + |sub|];
        assert OccursAt(s[1..], sub, i - 1);
      }
    }
  }

  /** A string placed inside another occurs there, right after the prefix. */
  lemma OccursInMiddle(a: string, b: string, c: string)
    ensures OccursAt(a + b + c, b, |a|)
  {
    assert (a + b + c)[|a|..|a| + |b|] == b;
  }

  /** `b` occurs twice in `a + b + c + b`, the two occurrences apart when `c` is not empty. */
  lemma OccursTwice(a: string, b: string, c: string)
    requires |c| > 0
    ensures exists i, j :: i + |b| < j && OccursAt(a + b + c + b, b, i) && OccursAt(a + b + c + b, b, j)
  {
    assert a + b + c + b == a + b + (c + b);
    OccursInMiddle(a, b, c + b);
    assert a + b + c + b == (a + b + c) + b + "";
    OccursInMiddle(a + b + c, b, "");
    assert |a| + |b| < |a + b + c|;
  }

  /** A string occurs in every string it is placed inside. */
  lemma ContainsMiddle(a: string, b: string, c: string)
    ensures Contains(a + b + c, b)
  {
    OccursInMiddle(a, b, c);
    ContainsIff(a + b + c, b);
  }

  /** Containment is transitive: a text holding `u` holds everything `u` holds. */
  lemma ContainsTransitive(t: string, u: string, v: string)
    requires Contains(t, u) && Contains(u, v)
    ensures Contains(t, v)
  {
    ContainsIff(t, u);
    ContainsIff(u, v);
    var i :| OccursAt(t, u, i);
    var j :| OccursAt(u, v, j);
    forall k | 0 <= k < |v|
      ensures t[i + j..i + j + |v|][k] == v[k]
    {
      assert v[k] == u[j + k] == t[i..i + |u|][j + k];
    }
    assert OccursAt(t, v, i + j);
    ContainsIff(t, v);
  }

  /** Python's `sep.join(parts)`. */
  function Join(parts: seq<string>, sep: string): string
    decreases |parts|
  {
    if |parts| == 0 then ""
    else if |parts| == 1 then parts[0]
    else parts[0] + sep + Join(parts[1..], sep)
  }

  /** Every joined part occurs in the joined text. */
  lemma {:induction false} JoinContainsPart(parts: seq<string>, sep: string, k: nat)
    requires k < |parts|
    ensures Contains(Join(parts, sep), parts[k])
    decreases |parts|
  {
    if |parts| == 1 {
      ContainsMiddle("", parts[0], "");
      assert "" + parts[0] + "" == parts[0];
    } else if k == 0 {
      ContainsMiddle("", parts[0], sep + Join(parts[1..], sep));
      assert "" + parts[0] + (sep + Join(parts[1..], sep)) == Join(parts, sep);
    } else {
      JoinContainsPart(parts[1..], sep, k - 1);
      ContainsMiddle(parts[0] + sep, Join(parts[1..], sep), "");
      assert parts[0] + sep + Join(parts[1..], sep) + "" == Join(parts, sep);
      ContainsTransitive(Join(parts, sep), Join(parts[1..], sep), parts[k]);
    }
  }

  /** Python's `s.split(sep)` for a one-character separator. */
  function Split(s: string, sep: char): (parts: seq<string>)
    ensures |parts| >= 1
    decreases |s|
  {
    if |s| == 0 then [""]
    else
      var rest := Split(s[1..], sep);
      if s[0] == sep then [""] + rest
      else [[s[0]] + rest[0]] + rest[1..]
  }

  /** Joining what was split gives the text back. */
  lemma {:induction false} JoinSplit(s: string, sep: char)
    ensures Join(Split(s, sep), [sep]) == s
    decreases |s|
  {
    if |s| > 0 {
      var rest := Split(s[1..], sep);
      JoinSplit(s[1..], sep);
      if s[0] == sep {
        assert Join([""] + rest, [sep]) == "" + [sep] + Join(rest, [sep]);
      } else {
        var parts := [[s[0]] + rest[0]] + rest[1..];
        if |rest| == 1 {
          assert Join(parts, [sep]) == [s[0]] + rest[0];
        } else {
          assert parts[1..] == rest[1..];
          assert Join(parts, [sep]) == [s[0]] + rest[0] + [sep] + Join(rest[1..], [sep]);
          assert Join(rest, [sep]) == rest[0] + [sep] + Join(rest[1..], [sep]);
        }
      }
    }
  }

  /** A text without the separator splits into itself alone. */
  lemma {:induction false} SplitNoSeparator(s: string, sep: char)
    requires sep !in s
    ensures Split(s, sep) == [s]
    decreases |s|
  {
    if |s| > 0 {
      SplitNoSeparator(s[1..], sep);
      assert [s[0]] + s[1..] == s;
    }
  }

  /** Splitting `a + sep + b`, where `a` has no separator, yields `a` then the parts of `b`. */
  lemma {:induction false} SplitAfterPart(a: string, sep: char, b: string)
    requires sep !in a
    ensures Split(a + [sep] + b, sep) == [a] + Split(b, sep)
    decreases |a|
  {
    if |a| == 0 {
      assert a + [sep] + b == [sep] + b;
      assert ([sep] + b)[1..] == b;
    } else {
      SplitAfterPart(a[1..], sep, b);
      var s := a + [sep] + b;
      assert s[0] == a[0];
      assert s[1..] == a[1..] + [sep] + b;
      assert [a[0]] + a[1..] == a;
    }
  }

  /** Splitting what was joined gives the parts back, when no part holds the separator. */
  lemma {:induction false} SplitJoin(parts: seq<string>, sep: char)
    requires |parts| >= 1
    requires forall k :: 0 <= k < |parts| ==> sep !in parts[k]
    ensures Split(Join(parts, [sep]), sep) == parts
    decreases |parts|
  {
    if |parts| == 1 {
      SplitNoSeparator(parts[0], sep);
    } else {
      SplitJoin(parts[1..], sep);
      SplitAfterPart(parts[0], sep, Join(parts[1..], [sep]));
      assert [parts[0]] + parts[1..] == parts;
    }
  }

  /** Python's slice `s[k:]`, which is empty when `s` is shorter than `k`. */
  function DropPrefix(s: string, k: nat): (r: string)
    ensures |r| == if k <= |s| then |s| - k else 0
    ensures forall i :: 0 <= i < |r| ==> r[i] == s[k + i]
  {
    if k <= |s| then s[k..] else ""
  }

  function Digit(d: nat): char
    requires d < 10
  {
    "0123456789"[d]
  }

  function DigitValue(c: char): nat
  {
    if '0' <= c <= '9' then (c as int - '0' as int) as nat else 0
  }

  /** Python's `str(n)` for a non-negative integer: its decimal digits. */
  function NatToString(n: nat): (s: string)
    ensures |s| >= 1
    ensures forall i :: 0 <= i < |s| ==> '0' <= s[i] <= '9'
    ensures (s[0] == '0') == (n == 0)
    decreases n
  {
    if n < 10 then [Digit(n)] else NatToString(n / 10) + [Digit(n % 10)]
  }

  /** The number written by a string of decimal digits. */
  function DecimalValue(s: string): nat
    decreases |s|
  {
    if |s| == 0 then 0 else DecimalValue(s[..|s| - 1]) * 10 + DigitValue(s[|s| - 1])
  }

  /** Reading back the decimal digits of `n` gives `n`. */
  lemma {:induction false} DecimalRoundTrip(n: nat)
    ensures DecimalValue(NatToString(n)) == n
    decreases n
  {
    var s := NatToString(n);
    if n < 10 {
      assert s[..0] == [];
    } else {
      DecimalRoundTrip(n / 10);
      assert s[..|s| - 1] == NatToString(n / 10);
      assert DigitValue(Digit(n % 10)) == n % 10;
    }
  }

  /**
   * Python's `str(n)` for any integer: a `-` exactly when n is negative, then
   * the decimal digits of |n|, with no leading zero.
   */
  function IntToString(n: int): (s: string)
    ensures |s| >= 1
    ensures (s[0] == '-') == (n < 0)
    ensures var digits := if n < 0 then s[1..] else s;
      && |digits| >= 1
      && (forall i :: 0 <= i < |digits| ==> '0' <= digits[i] <= '9')
      && (digits[0] == '0' ==> digits == "0")
      && DecimalValue(digits) == (if n < 0 then -n else n)
  {
    if n < 0 then
      DecimalRoundTrip(-n);
      "-" + NatToString(-n)
    else
      DecimalRoundTrip(n);
      NatToString(n)
  }

  /** Python truthiness of an optional string: present and non-empty. */
  predicate Truthy(s: Option<string>)
  {
    s.Some? && |s.value| > 0
  }

  /** Python's `s or ''`. */
  function OrEmpty(s: Option<string>): (r: string)
    ensures Truthy(s) ==> r == s.value
    ensures !Truthy(s) ==> r == ""
  {
    if s.Some? then s.value else ""
  }

  /** An f-string placeholder holding a value that may be `None`. */
  function Format(s: Option<string>): (r: string)
    ensures s.None? ==> r == "None"
    ensures s.Some? ==> r == s.value
  {
    if s.Some? then s.value else "None"
  }

  /** An f-string placeholder holding an integer that may be `None`. */
  function FormatInt(n: Option<int>): (r: string)
    ensures n.None? ==> r == "None"
    ensures n.Some? ==> r == IntToString(n.value)
  {
    if n.Some? then IntToString(n.value) else "None"
  }
}
