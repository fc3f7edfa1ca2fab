/** Valid UTF-8, section 4 of RFC 3629, and where a text may be cut. */
module Utf8 {
  newtype byte = x: int | 0 <= x < 256

  type Bytes = seq<byte>

  predicate Continues(b: byte) {
    0x80 <= b < 0xC0
  }

  /** utf8.RuneStart. */
  predicate RuneStart(b: byte) {
    !Continues(b)
  }

  predicate Between(b: byte, low: byte, high: byte) {
    low <= b <= high
  }

  /** The length of the character a text starts with, or 0 when it starts with none. */
  function RuneLength(s: Bytes): (n: nat)
    ensures n <= |s| && n <= 4
    ensures forall i | 1 <= i < n :: Continues(s[i])
    ensures n > 0 ==> RuneStart(s[0])
  {
    if s == [] then 0
    else if s[0] < 0x80 then 1
    else if |s| >= 2 && Between(s[0], 0xC2, 0xDF) && Continues(s[1]) then 2
    else if |s| >= 3 && Continues(s[2]) && Second3(s[0], s[1]) then 3
    else if |s| >= 4 && Continues(s[2]) && Continues(s[3]) && Second4(s[0], s[1]) then 4
    else 0
  }

  predicate Second3(a: byte, b: byte) {
    || (a == 0xE0 && Between(b, 0xA0, 0xBF))
    || (Between(a, 0xE1, 0xEC) && Continues(b))
    || (a == 0xED && Between(b, 0x80, 0x9F))
    || (Between(a, 0xEE, 0xEF) && Continues(b))
  }

  predicate Second4(a: byte, b: byte) {
    || (a == 0xF0 && Between(b, 0x90, 0xBF))
    || (Between(a, 0xF1, 0xF3) && Continues(b))
    || (a == 0xF4 && Between(b, 0x80, 0x8F))
  }

  predicate Valid(s: Bytes) {
    s == [] || (RuneLength(s) > 0 && Valid(s[RuneLength(s)..]))
  }

  /** A character is told from its own bytes. */
  lemma RuneLengthLocal(s: Bytes, k: nat)
    requires RuneLength(s) > 0 && RuneLength(s) <= k <= |s|
    ensures RuneLength(s[..k]) == RuneLength(s)
  {
  }

  lemma StartsAfter(s: Bytes, k: nat)
    requires RuneLength(s) > 0 && 0 < k < |s| && RuneStart(s[k])
    ensures RuneLength(s) <= k
  {
  }

  /** A valid text cut where a character starts is valid. */
  lemma {:induction false} CutValid(s: Bytes, k: nat)
    requires Valid(s) && k <= |s| && (k < |s| ==> RuneStart(s[k]))
    ensures Valid(s[..k])
  {
    if k > 0 {
      var n := RuneLength(s);
      if k < |s| {
        StartsAfter(s, k);
      }
      RuneLengthLocal(s, k);
      CutValid(s[n..], k - n);
      assert s[..k][n..] == s[n..][..k - n];
    }
  }

  /** How far a position is inside its character, reading from the start. */
  function Offset(s: Bytes, k: nat): nat
    requires Valid(s) && k < |s|
    decreases |s|
  {
    if k < RuneLength(s) then k else Offset(s[RuneLength(s)..], k - RuneLength(s))
  }

  lemma BackShifts(s: Bytes, n: nat, k: nat, back: nat)
    requires n <= k < |s| && back <= k - n && RuneStart(s[n..][k - n - back])
    requires forall j | k - n - back < j <= k - n :: Continues(s[n..][j])
    ensures RuneStart(s[k - back]) && forall j | k - back < j <= k :: Continues(s[j])
  {
    forall j | k - back < j <= k ensures Continues(s[j]) {
      assert s[j] == s[n..][j - n];
    }
  }

  /** That far back a character starts, and never more than three bytes. */
  lemma {:induction false} OffsetMeans(s: Bytes, k: nat)
    requires Valid(s) && k < |s|
    ensures Offset(s, k) <= 3 && Offset(s, k) <= k && RuneStart(s[k - Offset(s, k)])
    ensures forall j | k - Offset(s, k) < j <= k :: Continues(s[j])
    decreases |s|
  {
    var n := RuneLength(s);
    if k >= n {
      OffsetMeans(s[n..], k - n);
      BackShifts(s, n, k, Offset(s[n..], k - n));
    }
  }

  lemma RuneLengthGrows(a: Bytes, b: Bytes)
    requires RuneLength(a) > 0
    ensures RuneLength(a + b) == RuneLength(a)
  {
    assert (a + b)[..|a|] == a;
    if RuneLength(a + b) <= |a| && RuneLength(a + b) > 0 {
      RuneLengthLocal(a + b, |a|);
    }
  }

  lemma {:induction false} ConcatValid(a: Bytes, b: Bytes)
    requires Valid(a) && Valid(b)
    ensures Valid(a + b)
  {
    if a == [] {
      assert a + b == b;
    } else {
      var n := RuneLength(a);
      RuneLengthGrows(a, b);
      ConcatValid(a[n..], b);
      TailOf(a, b, n);
      FromTail(a + b, n);
    }
  }

  lemma TailOf(a: Bytes, b: Bytes, n: nat)
    requires n <= |a|
    ensures (a + b)[n..] == a[n..] + b
  {
  }

  lemma FromTail(s: Bytes, n: nat)
    requires 0 < n == RuneLength(s) && Valid(s[n..])
    ensures Valid(s)
  {
  }

  /** Text of one-byte characters. */
  function Ascii(s: string): (b: Bytes)
    ensures |b| == |s|
  {
    if s == "" then [] else [if s[0] < 128 as char then s[0] as byte else 63] + Ascii(s[1..])
  }

  lemma {:induction false} AsciiValid(s: string)
    ensures Valid(Ascii(s))
  {
    if s != "" {
      AsciiValid(s[1..]);
      assert Ascii(s)[1..] == Ascii(s[1..]);
    }
  }

  function Decimal(n: nat): string {
    (if n < 10 then "" else Decimal(n / 10)) + [('0' as int + n % 10) as char]
  }
}
