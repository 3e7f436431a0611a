/** String and character helpers shared by the parser, the URL splitter and
    the connection state machine. Strings are sequences of characters; a byte
    string of the source is a sequence of characters whose codes are below 256. */
module Text {

  datatype Option<T> = None | Some(value: T)

  predicate IsDigit(c: char) {
    '0' <= c <= '9'
  }

  predicate AllDigits(s: string) {
    forall i :: 0 <= i < |s| ==> IsDigit(s[i])
  }

  /** Non-empty and made of decimal digits only. */
  predicate IsDigits(s: string) {
    |s| > 0 && AllDigits(s)
  }

  function DigitValue(c: char): (d: nat)
    requires IsDigit(c)
    ensures d < 10
  {
    c as int - '0' as int
  }

  function DigitChar(d: nat): (c: char)
    requires d < 10
    ensures IsDigit(c) && DigitValue(c) == d
  {
    ('0' as int + d) as char
  }

  /** The value of a string of decimal digits, most significant first. */
  function DecimalValue(s: string): nat
    requires AllDigits(s)
  {
    if s == [] then 0 else DecimalValue(s[..|s| - 1]) * 10 + DigitValue(s[|s| - 1])
  }

  /** Decimal rendering of a natural number, without leading zeros. */
  function NatToString(n: nat): (r: string)
    ensures IsDigits(r)
  {
    if n < 10 then [DigitChar(n)] else NatToString(n / 10) + [DigitChar(n % 10)]
  }

  /** Decimal rendering with a leading '-' for negative numbers. */
  function IntToString(i: int): (r: string)
    ensures |r| > 0
    ensures i >= 0 <==> IsDigit(r[0])
    ensures i >= 0 ==> IsDigits(r) && DecimalValue(r) == i
    ensures i < 0 ==> r[0] == '-' && IsDigits(r[1..]) && DecimalValue(r[1..]) == -i
  {
    if i < 0 then
      DecimalValueOfNatToString(-i);
      assert ("-" + NatToString(-i))[1..] == NatToString(-i);
      "-" + NatToString(-i)
    else
      DecimalValueOfNatToString(i);
      NatToString(i)
  }

  lemma {:induction false} DecimalValueOfNatToString(n: nat)
    ensures DecimalValue(NatToString(n)) == n
  {
    if n >= 10 {
      DecimalValueOfNatToString(n / 10);
      var s := NatToString(n);
      assert s[..|s| - 1] == NatToString(n / 10);
    }
  }

  predicate StartsWith(s: string, prefix: string) {
    |prefix| <= |s| && s[..|prefix|] == prefix
  }

  /** True when t occurs in s as a contiguous substring. */
  predicate Contains(s: string, t: string) {
    StartsWith(s, t) || (|s| > 0 && Contains(s[1..], t))
  }

  /** The first position of c in s, if any. */
  function IndexOf(s: string, c: char): (r: Option<nat>)
    ensures r.None? <==> c !in s
    ensures r.Some? ==> r.value < |s| && s[r.value] == c && c !in s[..r.value]
  {
    if s == [] then None
    else if s[0] == c then Some(0)
    else
      match IndexOf(s[1..], c)
      case None => None
      case Some(k) =>
        assert s[..k + 1] == [s[0]] + s[1..][..k];
        Some(k + 1)
  }

  /** The last position of c in s, if any. */
  function LastIndexOf(s: string, c: char): (r: Option<nat>)
    ensures r.None? <==> c !in s
    ensures r.Some? ==> r.value < |s| && s[r.value] == c && c !in s[r.value + 1..]
  {
    if s == [] then None
    else if s[|s| - 1] == c then Some(|s| - 1)
    else
      var r := LastIndexOf(s[..|s| - 1], c);
      assert s == s[..|s| - 1] + [s[|s| - 1]];
      r
  }

  /** A position holding c with no c before it is the one IndexOf finds. */
  lemma IndexOfFirst(s: string, c: char, k: nat)
    requires k < |s| && s[k] == c && c !in s[..k]
    ensures IndexOf(s, c) == Some(k)
  {
    assert c in s by {
      assert s[k] == c;
    }
    var i := IndexOf(s, c).value;
    assert forall j :: 0 <= j < k ==> s[j] != c by {
      forall j | 0 <= j < k
        ensures s[j] != c
      {
        assert s[..k][j] == s[j];
      }
    }
    assert forall j :: 0 <= j < i ==> s[j] != c by {
      forall j | 0 <= j < i
        ensures s[j] != c
      {
        assert s[..i][j] == s[j];
      }
    }
  }

  /** A position holding c with no c after it is the one LastIndexOf finds. */
  lemma LastIndexOfLast(s: string, c: char, k: nat)
    requires k < |s| && s[k] == c && c !in s[k + 1..]
    ensures LastIndexOf(s, c) == Some(k)
  {
    assert c in s by {
      assert s[k] == c;
    }
    var i := LastIndexOf(s, c).value;
    assert forall j :: k < j < |s| ==> s[j] != c by {
      forall j | k < j < |s|
        ensures s[j] != c
      {
        assert s[k + 1..][j - k - 1] == s[j];
      }
    }
    assert forall j :: i < j < |s| ==> s[j] != c by {
      forall j | i < j < |s|
        ensures s[j] != c
      {
        assert s[i + 1..][j - i - 1] == s[j];
      }
    }
  }

  /** ASCII lower-casing of one character. */
  function LowerChar(c: char): char {
    if 'A' <= c <= 'Z' then (c as int + 32) as char else c
  }

  function ToLower(s: string): (r: string)
    ensures |r| == |s|
    ensures forall i :: 0 <= i < |s| ==> r[i] == LowerChar(s[i])
  {
    seq(|s|, i requires 0 <= i < |s| => LowerChar(s[i]))
  }

  /** The characters that trimming removes at either end: code 32 (space) and below. */
  predicate IsEdgeSpace(c: char) {
    c as int <= 32
  }

  function StripLeft(s: string): (r: string)
    ensures |r| <= |s| && r == s[|s| - |r|..]
    ensures r == [] || !IsEdgeSpace(r[0])
  {
    if |s| > 0 && IsEdgeSpace(s[0]) then StripLeft(s[1..]) else s
  }

  function StripRight(s: string): (r: string)
    ensures |r| <= |s| && r == s[..|r|]
    ensures r == [] || !IsEdgeSpace(r[|r| - 1])
  {
    if |s| > 0 && IsEdgeSpace(s[|s| - 1]) then StripRight(s[..|s| - 1]) else s
  }

  /** r is s with some characters of code 32 or below removed at its two ends
      and nothing else. */
  ghost predicate IsTrimOf(s: string, r: string) {
    exists i, j ::
      && 0 <= i <= j <= |s| && r == s[i..j]
      && forall k :: 0 <= k < i || j <= k < |s| ==> IsEdgeSpace(s[k])
  }

  /** Removes every leading and trailing character of code 32 or below. */
  function StripEdges(s: string): (r: string)
    ensures r == [] || (!IsEdgeSpace(r[0]) && !IsEdgeSpace(r[|r| - 1]))
    ensures IsTrimOf(s, r)
  {
    StripBoth(s);
    StripRight(StripLeft(s))
  }

  lemma StripBoth(s: string)
    ensures IsTrimOf(s, StripRight(StripLeft(s)))
  {
    var l := StripLeft(s);
    var i := |s| - |l|;
    var r := StripRight(l);
    StripLeftRemoves(s);
    StripRightRemoves(l);
    assert r == s[i..i + |r|];
    TrimAround(s, l, r, i);
  }

  /** Everything StripLeft drops is edge space. */
  lemma {:induction false} StripLeftRemoves(s: string)
    ensures forall k :: 0 <= k < |s| - |StripLeft(s)| ==> IsEdgeSpace(s[k])
    decreases |s|
  {
    if |s| > 0 && IsEdgeSpace(s[0]) {
      StripLeftRemoves(s[1..]);
      assert forall k :: 1 <= k < |s| ==> s[k] == s[1..][k - 1];
    }
  }

  /** Everything StripRight drops is edge space. */
  lemma {:induction false} StripRightRemoves(s: string)
    ensures forall k :: |StripRight(s)| <= k < |s| ==> IsEdgeSpace(s[k])
    decreases |s|
  {
    if |s| > 0 && IsEdgeSpace(s[|s| - 1]) {
      StripRightRemoves(s[..|s| - 1]);
      assert forall k :: 0 <= k < |s| - 1 ==> s[k] == s[..|s| - 1][k];
    }
  }

  /** The characters of s after l's kept prefix r are l's dropped suffix. */
  lemma TrimAround(s: string, l: string, r: string, i: nat)
    requires i + |l| == |s| && l == s[i..] && |r| <= |l| && r == s[i..i + |r|]
    requires forall k :: 0 <= k < i ==> IsEdgeSpace(s[k])
    requires forall k :: |r| <= k < |l| ==> IsEdgeSpace(l[k])
    ensures IsTrimOf(s, r)
  {
    forall k | i + |r| <= k < |s|
      ensures IsEdgeSpace(s[k])
    {
      assert s[k] == l[k - i];
    }
    TrimWitness(s, r, i, i + |r|);
  }

  lemma TrimWitness(s: string, r: string, i: nat, j: nat)
    requires i <= j <= |s| && r == s[i..j]
    requires forall k :: 0 <= k < i ==> IsEdgeSpace(s[k])
    requires forall k :: j <= k < |s| ==> IsEdgeSpace(s[k])
    ensures IsTrimOf(s, r)
  {
  }

  /** Trimming leaves a string alone when both its ends are printable. */
  lemma StripEdgesUnchanged(s: string)
    requires s != [] && !IsEdgeSpace(s[0]) && !IsEdgeSpace(s[|s| - 1])
    ensures StripEdges(s) == s
  {
    assert StripLeft(s) == s;
    assert StripRight(s) == s;
  }

  /** Integer reading of a string: digits accumulate left to right, every
      other character is skipped, a '-' met while the value is still 0 flips the
      sign, and reading stops at the first '.'. */
  function ToInt(s: string): int {
    var stop := match IndexOf(s, '.') case Some(k) => k case None => |s|;
    ScanInt(s[..stop], 0, false)
  }

  function ScanInt(s: string, acc: nat, negative: bool): int {
    if s == [] then (if negative then -(acc as int) else acc)
    else if IsDigit(s[0]) then ScanInt(s[1..], acc * 10 + DigitValue(s[0]), negative)
    else if acc == 0 && s[0] == '-' then ScanInt(s[1..], acc, !negative)
    else ScanInt(s[1..], acc, negative)
  }

  lemma {:induction false} ScanIntOfDigits(t: string, s: string)
    requires AllDigits(t) && AllDigits(s)
    ensures ScanInt(s, DecimalValue(t), false) == DecimalValue(t + s)
    decreases |s|
  {
    if s == [] {
      assert t + s == t;
    } else {
      var t' := t + [s[0]];
      assert t'[..|t'| - 1] == t;
      assert t' + s[1..] == t + s;
      ScanIntOfDigits(t', s[1..]);
    }
  }

  /** On a plain string of digits, the integer reading is the decimal value. */
  lemma ToIntOfDigits(s: string)
    requires AllDigits(s)
    ensures ToInt(s) == DecimalValue(s)
  {
    assert s[..|s|] == s;
    ScanIntOfDigits([], s);
    assert [] + s == s;
  }
}
