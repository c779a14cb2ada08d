/**
  String helpers the calculator and the scenario store rely on:
  `String.prototype.toLowerCase`, `String.prototype.trim` and the decimal
  rendering of a month number in a template literal. Only ASCII letters and
  ASCII whitespace are handled.
 */
module Text {

  predicate IsUpper(c: char) {
    'A' <= c <= 'Z'
  }

  /** Lower-cases one ASCII letter and leaves every other character alone. */
  function LowerChar(c: char): (d: char)
    ensures !IsUpper(d)
    ensures IsUpper(c) ==> d as int == c as int + 32
    ensures !IsUpper(c) ==> d == c
  {
    if IsUpper(c) then (c as int + 32) as char else c
  }

  /** `s.toLowerCase()` restricted to ASCII. */
  function Lower(s: string): (r: string)
    ensures |r| == |s|
    ensures forall i :: 0 <= i < |s| ==> r[i] == LowerChar(s[i])
  {
    seq(|s|, i requires 0 <= i < |s| => LowerChar(s[i]))
  }

  /** Lower-casing twice is lower-casing once. */
  lemma LowerIdempotent(s: string)
    ensures Lower(Lower(s)) == Lower(s)
  {
    var once := Lower(s);
    var twice := Lower(once);
    assert forall i :: 0 <= i < |s| ==> twice[i] == once[i];
  }

  /** The characters `trim` removes: ASCII space, tab, line feed, vertical tab, form feed, carriage return. */
  predicate IsSpace(c: char) {
    c == ' ' || c == '\t' || c == '\n' || c == '\r' || c as int == 11 || c as int == 12
  }

  predicate AllSpace(s: string) {
    forall i :: 0 <= i < |s| ==> IsSpace(s[i])
  }

  /** `s` without its leading whitespace: a suffix of `s`. */
  function TrimStart(s: string): (r: string)
    ensures |r| <= |s| && r == s[|s| - |r|..]
  {
    if |s| > 0 && IsSpace(s[0]) then TrimStart(s[1..]) else s
  }

  /** `s` without its trailing whitespace: a prefix of `s`. */
  function TrimEnd(s: string): (r: string)
    ensures |r| <= |s| && r == s[..|r|]
  {
    if |s| > 0 && IsSpace(s[|s| - 1]) then TrimEnd(s[..|s| - 1]) else s
  }

  /** What `TrimStart` cuts off is whitespace, and what it keeps starts with none. */
  lemma {:induction false} TrimStartCuts(s: string)
    ensures var r := TrimStart(s); forall k :: 0 <= k < |s| - |r| ==> IsSpace(s[k])
    ensures var r := TrimStart(s); r == [] || !IsSpace(r[0])
    decreases |s|
  {
    if |s| > 0 && IsSpace(s[0]) {
      var s' := s[1..];
      TrimStartCuts(s');
      var r := TrimStart(s');
      assert TrimStart(s) == r;
      forall k | 0 <= k < |s| - |r|
        ensures IsSpace(s[k])
      {
        if k > 0 {
          assert s[k] == s'[k - 1];
        }
      }
    }
  }

  /** What `TrimEnd` cuts off is whitespace, and what it keeps ends with none. */
  lemma {:induction false} TrimEndCuts(s: string)
    ensures var r := TrimEnd(s);
            (forall k :: |r| <= k < |s| ==> IsSpace(s[k])) && (r == [] || !IsSpace(r[|r| - 1]))
    decreases |s|
  {
    if |s| > 0 && IsSpace(s[|s| - 1]) {
      var s' := s[..|s| - 1];
      TrimEndCuts(s');
      var r := TrimEnd(s');
      forall k | |r| <= k < |s| - 1
        ensures IsSpace(s[k])
      {
        assert s[k] == s'[k];
      }
    }
  }

  /**
    `s.trim()`: the slice of `s` left once its leading and trailing whitespace
    is cut off; the slice itself neither starts nor ends with whitespace.
   */
  function Trim(s: string): (r: string)
    ensures |r| <= |s|
    ensures SliceBetweenSpace(s, r)
    ensures r == [] || (!IsSpace(r[0]) && !IsSpace(r[|r| - 1]))
    ensures r == [] <==> AllSpace(s)
  {
    var t := TrimStart(s);
    TrimStartCuts(s);
    TrimEndCuts(t);
    CutBothEnds(s, t, TrimEnd(t));
    TrimEnd(t)
  }

  /** `r` is a slice `s[i..j]` of `s` with only whitespace before and after it. */
  predicate SliceBetweenSpace(s: string, r: string) {
    exists i, j :: 0 <= i <= j <= |s| && r == s[i..j] && SpaceOutside(s, i, j)
  }

  /** Every character of `s` before `i` and from `j` on is whitespace. */
  predicate SpaceOutside(s: string, i: int, j: int)
    requires 0 <= i <= j <= |s|
  {
    (forall k :: 0 <= k < i ==> IsSpace(s[k])) && (forall k :: j <= k < |s| ==> IsSpace(s[k]))
  }

  /**
    Cutting whitespace off the front of `s` (leaving `t`) and then off the
    back of `t` (leaving `r`) keeps a slice of `s` with whitespace on both
    sides of it and none at its ends; it is empty exactly when `s` is all
    whitespace.
   */
  lemma CutBothEnds(s: string, t: string, r: string)
    requires |t| <= |s| && t == s[|s| - |t|..]
    requires forall k :: 0 <= k < |s| - |t| ==> IsSpace(s[k])
    requires t == [] || !IsSpace(t[0])
    requires |r| <= |t| && r == t[..|r|]
    requires forall k :: |r| <= k < |t| ==> IsSpace(t[k])
    requires r == [] || !IsSpace(r[|r| - 1])
    ensures SliceBetweenSpace(s, r)
    ensures r == [] || (!IsSpace(r[0]) && !IsSpace(r[|r| - 1]))
    ensures r == [] <==> AllSpace(s)
  {
    var i := |s| - |t|;
    forall k | i + |r| <= k < |s|
      ensures IsSpace(s[k])
    {
      assert s[k] == t[k - i];
    }
    assert r == s[i..i + |r|] && SpaceOutside(s, i, i + |r|);
    if r != [] {
      assert r[0] == t[0] == s[i];
    }
  }

  /** Cutting leading whitespace stops at the first non-space character. */
  lemma {:induction false} TrimStartAt(s: string, i: int)
    requires 0 <= i <= |s|
    requires forall k :: 0 <= k < i ==> IsSpace(s[k])
    requires i == |s| || !IsSpace(s[i])
    ensures TrimStart(s) == s[i..]
    decreases i
  {
    if i > 0 {
      var s' := s[1..];
      forall k | 0 <= k < i - 1
        ensures IsSpace(s'[k])
      {
        assert s'[k] == s[k + 1];
      }
      TrimStartAt(s', i - 1);
      assert s'[i - 1..] == s[i..];
    }
  }

  /** Cutting trailing whitespace stops after the last non-space character. */
  lemma {:induction false} TrimEndAt(s: string, j: int)
    requires 0 <= j <= |s|
    requires forall k :: j <= k < |s| ==> IsSpace(s[k])
    requires j == 0 || !IsSpace(s[j - 1])
    ensures TrimEnd(s) == s[..j]
    decreases |s| - j
  {
    if j < |s| {
      var s' := s[..|s| - 1];
      TrimEndAt(s', j);
      assert s'[..j] == s[..j];
    }
  }

  /**
    The converse of `Trim`'s contract: a slice of `s` with only whitespace
    outside it and no whitespace at either of its ends is what `trim` returns.
   */
  lemma TrimCharacterised(s: string, i: int, j: int)
    requires 0 <= i <= j <= |s| && SpaceOutside(s, i, j)
    requires i == j || (!IsSpace(s[i]) && !IsSpace(s[j - 1]))
    ensures Trim(s) == s[i..j]
  {
    if i == j {
      forall k | 0 <= k < |s|
        ensures IsSpace(s[k])
      {
        if k >= j {
        } else {
        }
      }
      TrimAllSpace(s);
    } else {
      TrimAround(s, i, j);
    }
  }

  /** A string of whitespace only trims to the empty string. */
  lemma TrimAllSpace(s: string)
    requires forall k :: 0 <= k < |s| ==> IsSpace(s[k])
    ensures TrimEnd(TrimStart(s)) == []
  {
    TrimStartAt(s, |s|);
    TrimEndAt([], 0);
  }

  /** Trimming cuts exactly the whitespace around a slice that starts and ends with other characters. */
  lemma TrimAround(s: string, i: int, j: int)
    requires 0 <= i < j <= |s| && SpaceOutside(s, i, j)
    requires !IsSpace(s[i]) && !IsSpace(s[j - 1])
    ensures TrimEnd(TrimStart(s)) == s[i..j]
  {
    TrimStartAt(s, i);
    TrimEndOfSuffix(s, i, j);
  }

  /** Cutting trailing whitespace off the suffix `s[i..]` leaves `s[i..j]`. */
  lemma TrimEndOfSuffix(s: string, i: int, j: int)
    requires 0 <= i < j <= |s|
    requires forall k :: j <= k < |s| ==> IsSpace(s[k])
    requires !IsSpace(s[j - 1])
    ensures TrimEnd(s[i..]) == s[i..j]
  {
    var t := s[i..];
    forall k | j - i <= k < |t|
      ensures IsSpace(t[k])
    {
      assert t[k] == s[k + i];
    }
    TrimEndAt(t, j - i);
    assert t[..j - i] == s[i..j];
  }

  /** Trimming a trimmed string changes nothing. */
  lemma TrimIdempotent(s: string)
    ensures Trim(Trim(s)) == Trim(s)
  {
    var t := Trim(s);
    assert TrimStart(t) == t;
    assert TrimEnd(t) == t;
  }

  /** A name padded with whitespace on both sides trims to the name. */
  lemma TrimPadded(before: string, name: string, after: string)
    requires AllSpace(before) && AllSpace(after)
    requires name == [] || (!IsSpace(name[0]) && !IsSpace(name[|name| - 1]))
    ensures Trim(before + name + after) == name
  {
    var s := before + name + after;
    var i, j := |before|, |before| + |name|;
    assert s[i..j] == name;
    forall k | 0 <= k < i
      ensures IsSpace(s[k])
    {
      assert s[k] == before[k];
    }
    forall k | j <= k < |s|
      ensures IsSpace(s[k])
    {
      assert s[k] == after[k - j];
    }
    if name != [] {
      assert s[i] == name[0] && s[j - 1] == name[|name| - 1];
    }
    TrimCharacterised(s, i, j);
  }

  /** The name of a scenario saved as `"  My Scenario  "` is `"My Scenario"`. */
  lemma TrimExample()
    ensures Trim("  " + "My Scenario" + "  ") == "My Scenario"
  {
    TrimPadded("  ", "My Scenario", "  ");
  }

  function Digit(d: nat): (c: char)
    requires d < 10
    ensures '0' <= c <= '9'
  {
    ('0' as int + d) as char
  }

  /** The decimal digits of `n`, as `${n}` writes a non-negative integer. */
  function NatToString(n: nat): (s: string)
    ensures |s| >= 1
    ensures forall i :: 0 <= i < |s| ==> '0' <= s[i] <= '9'
    ensures n >= 10 ==> s[0] != '0'
  {
    if n < 10 then [Digit(n)] else NatToString(n / 10) + [Digit(n % 10)]
  }

  /** Reads a string of decimal digits back as a number. */
  function DigitsValue(s: string): nat
    requires forall i :: 0 <= i < |s| ==> '0' <= s[i] <= '9'
  {
    if s == [] then 0
    else DigitsValue(s[..|s| - 1]) * 10 + (s[|s| - 1] as int - '0' as int)
  }

  /** Month labels are unambiguous: the digits read back as the month. */
  lemma {:induction false} NatToStringRoundTrip(n: nat)
    ensures DigitsValue(NatToString(n)) == n
  {
    var s := NatToString(n);
    if n >= 10 {
      NatToStringRoundTrip(n / 10);
      assert s[..|s| - 1] == NatToString(n / 10);
    }
  }

  /** Different months get different labels. */
  lemma NatToStringInjective(m: nat, n: nat)
    requires NatToString(m) == NatToString(n)
    ensures m == n
  {
    NatToStringRoundTrip(m);
    NatToStringRoundTrip(n);
  }
}
