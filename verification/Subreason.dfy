/** The part of an error message that analytics keeps: bounded in bytes, never cutting a character.
    Messages are UTF-8 byte sequences as in sections 3 and 4 of RFC 3629. */
module Subreason {
  import opened Options

  type Byte = b: int | 0 <= b < 256
  type Bytes = seq<Byte>

  const MAX_BYTES: nat := 512
  const SUFFIX: Bytes := [0x2E, 0x2E, 0x2E]

  // ---------------------------------------------------------------------------------------------
  // UTF-8
  // ---------------------------------------------------------------------------------------------

  predicate Tail(b: Byte) {
    0x80 <= b <= 0xBF
  }

  /** How many bytes a character with this first byte takes; 0 if no character starts with it. */
  function CharLength(b: Byte): nat {
    if b <= 0x7F then 1
    else if 0xC2 <= b <= 0xDF then 2
    else if 0xE0 <= b <= 0xEF then 3
    else if 0xF0 <= b <= 0xF4 then 4
    else 0
  }

  /** The encoding of one character. */
  predicate IsChar(s: Bytes) {
    && s != [] && |s| == CharLength(s[0])
    && (forall i :: 0 < i < |s| ==> Tail(s[i]))
    && (s[0] == 0xE0 ==> 0xA0 <= s[1])
    && (s[0] == 0xED ==> s[1] <= 0x9F)
    && (s[0] == 0xF0 ==> 0x90 <= s[1])
    && (s[0] == 0xF4 ==> s[1] <= 0x8F)
  }

  /** A Unicode scalar value. */
  predicate Scalar(n: nat) {
    n <= 0x10FFFF && !(0xD800 <= n <= 0xDFFF)
  }

  /** The encoding of a scalar value, by the table of section 3 of RFC 3629. */
  function Encode(n: nat): Bytes
    requires Scalar(n)
  {
    if n <= 0x7F then [n]
    else if n <= 0x7FF then [0xC0 + n / 64, 0x80 + n % 64]
    else if n <= 0xFFFF then [0xE0 + n / 64 / 64, 0x80 + n / 64 % 64, 0x80 + n % 64]
    else [0xF0 + n / 64 / 64 / 64, 0x80 + n / 64 / 64 % 64, 0x80 + n / 64 % 64, 0x80 + n % 64]
  }

  /** One more digit to base 64, taken from a tail byte. */
  function Shift(n: int, b: Byte): int {
    n * 64 + (b - 0x80)
  }

  lemma ShiftDigits(n: int, b: Byte)
    requires Tail(b)
    ensures Shift(n, b) / 64 == n && Shift(n, b) % 64 == b - 0x80
  {
  }

  function Head(b: Byte, base: int): int {
    b - base
  }

  function Decode(s: Bytes): int
    requires IsChar(s)
  {
    if |s| == 1 then s[0]
    else if |s| == 2 then Shift(Head(s[0], 0xC0), s[1])
    else if |s| == 3 then Shift(Shift(Head(s[0], 0xE0), s[1]), s[2])
    else Shift(Shift(Shift(Head(s[0], 0xF0), s[1]), s[2]), s[3])
  }

  lemma EncodeIsChar(n: nat)
    requires Scalar(n)
    ensures IsChar(Encode(n))
  {
  }

  lemma DecodeThenEncode(s: Bytes)
    requires IsChar(s)
    ensures Decode(s) >= 0 && Scalar(Decode(s)) && Encode(Decode(s)) == s
  {
    if |s| == 2 {
      ShiftDigits(Head(s[0], 0xC0), s[1]);
    } else if |s| == 3 {
      var a := Shift(Head(s[0], 0xE0), s[1]);
      ShiftDigits(Head(s[0], 0xE0), s[1]);
      ShiftDigits(a, s[2]);
    } else if |s| == 4 {
      var a := Shift(Head(s[0], 0xF0), s[1]);
      var b := Shift(a, s[2]);
      ShiftDigits(Head(s[0], 0xF0), s[1]);
      ShiftDigits(a, s[2]);
      ShiftDigits(b, s[3]);
    }
  }

  /** The characters are exactly the encodings of scalar values. */
  lemma CharsExactly(s: Bytes)
    ensures IsChar(s) <==> exists n: nat :: Scalar(n) && s == Encode(n)
  {
    hide IsChar, Encode, Scalar;
    if IsChar(s) {
      DecodeThenEncode(s);
    }
    forall n: nat | Scalar(n) ensures IsChar(Encode(n)) {
      EncodeIsChar(n);
    }
  }

  /** A sequence of characters. */
  predicate Valid(s: Bytes) {
    s == [] ||
    var n := CharLength(s[0]);
    0 < n <= |s| && IsChar(s[..n]) && Valid(s[n..])
  }

  lemma {:induction false} ValidConcat(a: Bytes, b: Bytes)
    requires Valid(a) && Valid(b)
    ensures Valid(a + b)
    decreases |a|
  {
    if a == [] {
      assert a + b == b;
    } else {
      var n := CharLength(a[0]);
      ValidConcat(a[n..], b);
      assert (a + b)[..n] == a[..n] && (a + b)[n..] == a[n..] + b;
    }
  }

  lemma FirstChar(s: Bytes)
    requires s != [] && Valid(s)
    ensures var n := CharLength(s[0]); 0 < n <= 4 && n <= |s| && !Tail(s[0]) && Valid(s[n..])
    ensures forall i :: 0 < i < CharLength(s[0]) ==> Tail(s[i])
  {
    var n := CharLength(s[0]);
    assert forall i :: 0 < i < n ==> s[..n][i] == s[i];
  }

  /** A valid text may be cut before a byte exactly when that byte is not the tail of a character. */
  lemma {:induction false} CutExactly(s: Bytes, k: nat)
    requires Valid(s) && k < |s|
    ensures Valid(s[..k]) <==> !Tail(s[k])
    ensures Valid(s[..k]) ==> Valid(s[k..])
    decreases |s|
  {
    FirstChar(s);
    var n := CharLength(s[0]);
    if k == 0 {
      assert s[..k] == [] && s[k..] == s;
    } else if k < n {
      assert s[..k][0] == s[0];
    } else {
      CutExactly(s[n..], k - n);
      assert s[..k][..n] == s[..n] && s[..k][n..] == s[n..][..k - n] && s[n..][k - n..] == s[k..];
    }
  }

  /** No more than three tail bytes follow each other. */
  lemma {:induction false} CharNear(s: Bytes, k: nat) returns (j: nat)
    requires Valid(s) && k < |s|
    ensures j <= k <= j + 3 && !Tail(s[j])
    decreases |s|
  {
    FirstChar(s);
    var n := CharLength(s[0]);
    if k < n {
      j := 0;
    } else {
      j := CharNear(s[n..], k - n);
      j := j + n;
    }
  }

  // ---------------------------------------------------------------------------------------------
  // Truncation
  // ---------------------------------------------------------------------------------------------

  /** The last position up to the index at which no character is cut. */
  function FloorCharBoundary(s: Bytes, index: nat): (k: nat)
    ensures k <= index && k <= |s|
    ensures index < |s| ==> forall i :: k < i <= index ==> Tail(s[i])
    ensures index < |s| && k > 0 ==> !Tail(s[k])
  {
    if index >= |s| then |s|
    else if index == 0 || !Tail(s[index]) then index
    else FloorCharBoundary(s, index - 1)
  }

  datatype CodexErr = InvalidRequest(message: Bytes) | OtherError

  function Truncated(message: Bytes): Bytes {
    if |message| <= MAX_BYTES then message
    else message[..FloorCharBoundary(message, MAX_BYTES - |SUFFIX|)] + SUFFIX
  }

  function SubreasonOf(error: CodexErr): Option<Bytes> {
    match error
    case InvalidRequest(message) => Some(Truncated(message))
    case OtherError => None
  }

  /** The longest prefix of at most `limit` bytes that is a sequence of whole characters. */
  ghost predicate LongestWhole(s: Bytes, limit: nat, prefix: Bytes) {
    && prefix <= s && |prefix| <= limit && Valid(prefix)
    && forall k :: |prefix| < k <= limit && k <= |s| ==> !Valid(s[..k])
  }

  /** Only invalid requests have a subreason.  It is valid UTF-8 of at most 512 bytes: the message if that fits,
      otherwise the longest whole-character prefix of at most 509 bytes and three dots, 509 bytes or more in all. */
  lemma SubreasonBounded(error: CodexErr)
    requires error.InvalidRequest? ==> Valid(error.message)
    ensures SubreasonOf(error).Some? <==> error.InvalidRequest?
    ensures error.InvalidRequest? ==>
      var kept := SubreasonOf(error).value;
      && Valid(kept) && |kept| <= 512
      && (|error.message| <= 512 ==> kept == error.message)
      && (|error.message| > 512 ==>
            && |kept| >= 509 && kept[|kept| - 3..] == SUFFIX
            && LongestWhole(error.message, 509, kept[..|kept| - 3]))
  {
    if error.InvalidRequest? && |error.message| > MAX_BYTES {
      var message := error.message;
      var k := FloorCharBoundary(message, 509);
      var j := CharNear(message, 509);
      assert k >= j;
      CutExactly(message, k);
      SuffixValid();
      ValidConcat(message[..k], SUFFIX);
      var kept := Truncated(message);
      assert kept == message[..k] + SUFFIX;
      assert kept[..|kept| - 3] == message[..k] && kept[|kept| - 3..] == SUFFIX;
      forall i | k < i <= 509 ensures !Valid(message[..i]) {
        CutExactly(message, i);
      }
    }
  }

  lemma SuffixValid()
    ensures Valid(SUFFIX)
  {
    assert SUFFIX[1..][1..] == [0x2E] && SUFFIX[1..][0] == 0x2E && SUFFIX[..1] == [0x2E] && SUFFIX[1..][..1] == [0x2E];
    assert Valid([0x2E]) by {
      assert [0x2E][..1] == [0x2E] && [0x2E][1..] == [];
    }
  }
}
