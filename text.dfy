/** String helpers the prompt templates and the binarizer rely on:
    ASCII lower-casing (Python's str.lower restricted to the characters that occur),
    substring search (Python's `w in s`) and decimal rendering of integers (Python's str(int)). */
module Text {

  predicate IsUpper(c: char) {
    'A' <= c <= 'Z'
  }

  predicate IsDigit(c: char) {
    '0' <= c <= '9'
  }

  /** Lower-cases one character: 'A'..'Z' map to 'a'..'z', everything else is kept. */
  function LowerChar(c: char): (r: char)
    ensures !IsUpper(r)
    ensures !IsUpper(c) ==> r == c
    ensures IsUpper(c) ==> r as int - c as int == 'a' as int - 'A' as int
  {
    if IsUpper(c) then (c as int - 'A' as int + 'a' as int) as char else c
  }

  /** str.lower over ASCII: same length, character-wise lower-casing, no capital left. */
  function Lower(s: string): (r: string)
    ensures |r| == |s|
    ensures forall i :: 0 <= i < |r| ==> !IsUpper(r[i])
  {
    seq(|s|, i requires 0 <= i < |s| => LowerChar(s[i]))
  }

  lemma LowerIdempotent(s: string)
    ensures Lower(Lower(s)) == Lower(s)
  {
    var t := Lower(s);
    assert forall i :: 0 <= i < |t| ==> Lower(t)[i] == t[i];
  }

  /** A string without capitals is its own lower-case form, and conversely. */
  lemma LowerFixedIff(s: string)
    ensures Lower(s) == s <==> forall i :: 0 <= i < |s| ==> !IsUpper(s[i])
  {
    if forall i :: 0 <= i < |s| ==> !IsUpper(s[i]) {
      assert forall i :: 0 <= i < |s| ==> Lower(s)[i] == s[i];
    }
  }

  lemma LowerAppend(a: string, b: string)
    ensures Lower(a + b) == Lower(a) + Lower(b)
  {
    var l, r := Lower(a + b), Lower(a) + Lower(b);
    assert |l| == |r|;
    forall i | 0 <= i < |l| ensures l[i] == r[i] {
      if i < |a| {
        assert (a + b)[i] == a[i];
      } else {
        assert (a + b)[i] == b[i - |a|];
      }
    }
  }

  predicate StartsWith(s: string, prefix: string) {
    |prefix| <= |s| && s[..|prefix|] == prefix
  }

  predicate EndsWith(s: string, suffix: string) {
    |suffix| <= |s| && s[|s| - |suffix|..] == suffix
  }

  /** A string starts with its left part, and keeps any prefix it has when extended. */
  lemma StartsWithAppend(s: string, prefix: string, t: string)
    requires StartsWith(s, prefix)
    ensures StartsWith(s + t, prefix)
  {
    assert (s + t)[..|prefix|] == s[..|prefix|];
  }

  /** A string ends with its right part. */
  lemma EndsWithAppend(s: string, t: string)
    ensures EndsWith(s + t, t)
  {
    assert (s + t)[|s + t| - |t|..] == t;
  }

  /** Two strings built around the same prefix and suffix agree in the middle part. */
  lemma SameFrameSameMiddle(a: string, x: string, y: string, b: string)
    requires |x| == |y| && a + x + b == a + y + b
    ensures x == y
  {
    assert (a + x + b)[|a|..|a| + |x|] == x;
    assert (a + y + b)[|a|..|a| + |y|] == y;
  }

  /** `w` occurs in `s` starting at position `k`. */
  ghost predicate OccursAt(w: string, s: string, k: int) {
    0 <= k && k + |w| <= |s| && s[k..k + |w|] == w
  }

  lemma OccursAtByChars(w: string, s: string, k: nat)
    requires k + |w| <= |s|
    requires forall i :: 0 <= i < |w| ==> s[k + i] == w[i]
    ensures OccursAt(w, s, k)
  {
    assert s[k..k + |w|] == w;
  }

  /** `w` is a substring of `s` (Python's `w in s`). */
  ghost predicate Occurs(w: string, s: string) {
    exists k :: OccursAt(w, s, k)
  }

  lemma OccursShift(w: string, s: string)
    requires |w| <= |s| && s[..|w|] != w
    ensures Occurs(w, s) <==> Occurs(w, s[1..])
  {
    if Occurs(w, s) {
      var k :| OccursAt(w, s, k);
      assert k != 0;
      assert s[1..][k - 1..k - 1 + |w|] == s[k..k + |w|];
      assert OccursAt(w, s[1..], k - 1);
    }
    if Occurs(w, s[1..]) {
      var k :| OccursAt(w, s[1..], k);
      assert s[1..][k..k + |w|] == s[k + 1..k + 1 + |w|];
      assert OccursAt(w, s, k + 1);
    }
  }

  /** Substring search by scanning start positions left to right. */
  function Contains(s: string, w: string): (r: bool)
    ensures r <==> Occurs(w, s)
    decreases |s|
  {
    if |w| > |s| then
      assert forall k :: !OccursAt(w, s, k);
      false
    else if s[..|w|] == w then
      assert OccursAt(w, s, 0);
      true
    else
      OccursShift(w, s);
      Contains(s[1..], w)
  }

  /** A substring of `a` is a substring of any string that contains `a`. */
  lemma OccursInContext(w: string, a: string, pre: string, post: string)
    requires Occurs(w, a)
    ensures Occurs(w, pre + a + post)
  {
    var k :| OccursAt(w, a, k);
    var s := pre + a + post;
    assert s[|pre| + k..|pre| + k + |w|] == a[k..k + |w|];
    assert OccursAt(w, s, |pre| + k);
  }

  function DigitChar(d: nat): (c: char)
    requires d < 10
    ensures IsDigit(c)
  {
    "0123456789"[d]
  }

  function DigitValue(c: char): (d: nat)
    requires IsDigit(c)
    ensures d < 10
  {
    (c as int - '0' as int) as nat
  }

  lemma DigitRoundTrip(d: nat)
    requires d < 10
    ensures DigitValue(DigitChar(d)) == d
  {
  }

  /** Decimal digits of a natural number, most significant first, with no leading zero. */
  function NatToString(n: nat): (r: string)
    ensures |r| >= 1
    ensures forall i :: 0 <= i < |r| ==> IsDigit(r[i])
    ensures |r| > 1 ==> r[0] != '0'
    decreases n
  {
    if n < 10 then [DigitChar(n)] else NatToString(n / 10) + [DigitChar(n % 10)]
  }

  /** Python's str(n) for an int: a '-' sign in front of the digits of a negative number. */
  function IntToString(n: int): (r: string)
    ensures |r| >= 1
    ensures (r[0] == '-') <==> n < 0
    ensures forall i :: (if n < 0 then 1 else 0) <= i < |r| ==> IsDigit(r[i])
  {
    if n < 0 then "-" + NatToString(-n) else NatToString(n)
  }

  /** The inverse of NatToString: the value of a string of decimal digits. */
  function ParseNat(s: string): (n: nat)
    requires forall i :: 0 <= i < |s| ==> IsDigit(s[i])
  {
    if s == [] then 0 else ParseNat(s[..|s| - 1]) * 10 + DigitValue(s[|s| - 1])
  }

  function ParseInt(s: string): (n: int)
    requires |s| >= 1
    requires forall i :: (if s[0] == '-' then 1 else 0) <= i < |s| ==> IsDigit(s[i])
  {
    if s[0] == '-' then -(ParseNat(s[1..]) as int) else ParseNat(s)
  }

  lemma {:induction false} ParseNatToString(n: nat)
    ensures ParseNat(NatToString(n)) == n
    decreases n
  {
    var r := NatToString(n);
    if n < 10 {
      DigitRoundTrip(n);
    } else {
      ParseNatToString(n / 10);
      assert r[..|r| - 1] == NatToString(n / 10);
      DigitRoundTrip(n % 10);
    }
  }

  /** str(n) is lossless: parsing the rendered income gives back the income. */
  lemma IntToStringRoundTrip(n: int)
    ensures ParseInt(IntToString(n)) == n
  {
    if n < 0 {
      ParseNatToString(-n);
      assert IntToString(n)[1..] == NatToString(-n);
    } else {
      ParseNatToString(n);
    }
  }

  /** Distinct incomes render to distinct strings. */
  lemma IntToStringInjective(m: int, n: int)
    requires IntToString(m) == IntToString(n)
    ensures m == n
  {
    IntToStringRoundTrip(m);
    IntToStringRoundTrip(n);
  }
}
