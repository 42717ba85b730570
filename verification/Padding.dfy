/**
 PKCS#7 padding (internal/crypto/crypto.go), as in section 6.3 of RFC 5652.  The padding is one to blockSize
 bytes, each holding their number; the source converts that number to a byte, which wraps beyond 255.  So
 padding and unpadding are each other's inverse exactly for paddings of at most 255 bytes, and the theorems
 say so for every block size.
 */
module Padding {

  type Byte = x: int | 0 <= x < 256

  datatype Unpadded = Data(bytes: seq<Byte>) | InvalidPadding | InvalidBlockSize

  /** How many bytes are appended: from 1 to the block size. */
  function PadLength(length: nat, blockSize: int): (n: int)
    requires blockSize > 0
    ensures 1 <= n <= blockSize
  {
    blockSize - length % blockSize
  }

  function Repeat(b: Byte, n: nat): seq<Byte> { seq(n, i => b) }

  /** The conversion of the length to uint8 wraps. */
  function Pad(data: seq<Byte>, blockSize: int): seq<Byte>
    requires blockSize > 0
  {
    var n := PadLength(|data|, blockSize);
    data + Repeat(n % 256, n)
  }

  method Pkcs7Pad(data: seq<Byte>, blockSize: int) returns (r: seq<Byte>)
    requires blockSize > 0
    ensures r == Pad(data, blockSize)
  {
    var padding := blockSize - |data| % blockSize;
    var padText := new Byte[padding];
    var padByte: Byte := padding % 256;
    for i := 0 to padding
      invariant forall j :: 0 <= j < i ==> padText[j] == padByte
    {
      padText[i] := padByte;
    }
    assert padText[..] == Repeat(padByte, padding);
    r := data + padText[..];
  }

  /** What pkcs7Unpad answers, in one piece: the checks come in the order of the source. */
  function Unpad(data: seq<Byte>, blockSize: int): Unpadded
    requires blockSize > 0
  {
    if data == [] then InvalidPadding
    else if |data| % blockSize != 0 then InvalidBlockSize
    else
      var padByte := data[|data| - 1];
      if padByte == 0 || padByte > blockSize || padByte > |data| then InvalidPadding
      else if data[|data| - padByte..] != Repeat(padByte, padByte) then InvalidPadding
      else Data(data[..|data| - padByte])
  }

  method Pkcs7Unpad(data: seq<Byte>, blockSize: int) returns (r: Unpadded)
    requires blockSize > 0
    ensures r == Unpad(data, blockSize)
  {
    if |data| == 0 { return InvalidPadding; }
    if |data| % blockSize != 0 { return InvalidBlockSize; }
    var padByte := data[|data| - 1];
    var padding: int := padByte;
    if padding == 0 || padding > blockSize || padding > |data| { return InvalidPadding; }
    ghost var tail := data[|data| - padding..];
    for i := |data| - padding to |data|
      invariant forall j :: 0 <= j < i - (|data| - padding) ==> tail[j] == padByte
    {
      assert tail[i - (|data| - padding)] == data[i];
      if data[i] != padByte { return InvalidPadding; }
    }
    assert tail == Repeat(padByte, padding);
    r := Data(data[..|data| - padding]);
  }

  lemma {:induction false} AtLeastOnce(b: int, d: int)
    requires b > 0 && d >= 1
    ensures b * d >= b
    decreases d
  {
    if d > 1 {
      AtLeastOnce(b, d - 1);
    }
  }

  lemma {:induction false} SmallMultiple(b: int, d: int, m: int)
    requires b > 0 && m == b * d && -b < m < b
    ensures d == 0
  {
    assert b * -d == -m;
    if d > 0 {
      AtLeastOnce(b, d);
    } else if d < 0 {
      AtLeastOnce(b, -d);
    }
  }

  lemma {:induction false} Remainder(x: int, b: int, k: int, r: int)
    requires b > 0 && x == b * k + r && 0 <= r < b
    ensures x % b == r
  {
    assert x == b * (x / b) + x % b;
    assert b * (k - x / b) == b * k - b * (x / b);
    SmallMultiple(b, k - x / b, b * k - b * (x / b));
  }

  /** A padding of q bytes completes a block exactly when q is the pad length. */
  lemma {:induction false} CompletesBlock(n: nat, q: int, b: int)
    requires 1 <= q <= b
    ensures (n + q) % b == 0 <==> PadLength(n, b) == q
  {
    var k, s := n / b, n % b + q;
    assert n + q == b * k + s;
    if s < b {
      Remainder(n + q, b, k, s);
    } else {
      assert b * (k + 1) == b * k + b;
      Remainder(n + q, b, k + 1, s - b);
    }
  }

  /**
   For every block size, unpadding y gives x exactly when y is x padded by at most 255 bytes.  So both
   round trips hold for block sizes from 1 to 255, and beyond that unpadding fails exactly where the
   length no longer fits a byte.
   */
  lemma {:induction false} UnpadIff(x: seq<Byte>, y: seq<Byte>, blockSize: int)
    requires blockSize > 0
    ensures Unpad(y, blockSize) == Data(x) <==> PadLength(|x|, blockSize) <= 255 && y == Pad(x, blockSize)
  {
    if Unpad(y, blockSize) == Data(x) {
      var q := y[|y| - 1];
      CompletesBlock(|x|, q, blockSize);
      assert y == y[..|y| - q] + y[|y| - q..];
    }
    if PadLength(|x|, blockSize) <= 255 && y == Pad(x, blockSize) {
      var n := PadLength(|x|, blockSize);
      CompletesBlock(|x|, n, blockSize);
      assert y[|x|..] == Repeat(n, n) && y[..|x|] == x;
    }
  }

  /** The data, then the one number n from 1 to the block size of bytes that completes a block, each of them n as a byte. */
  lemma {:induction false} PadIsPkcs7(data: seq<Byte>, blockSize: int)
    requires blockSize > 0
    ensures var y, n := Pad(data, blockSize), |Pad(data, blockSize)| - |data|;
            && 1 <= n <= blockSize && data <= y && |y| % blockSize == 0
            && forall i :: |data| <= i < |y| ==> y[i] == n % 256
  {
    CompletesBlock(|data|, PadLength(|data|, blockSize), blockSize);
  }

  /** A text that is not a multiple of the block size is told apart from a bad padding; an empty one has no padding. */
  lemma {:induction false} RefusedIff(y: seq<Byte>, blockSize: int)
    requires blockSize > 0
    ensures Unpad(y, blockSize) == InvalidBlockSize <==> |y| % blockSize != 0
    ensures Unpad(y, blockSize) == InvalidPadding <==>
              |y| % blockSize == 0 && forall x :: PadLength(|x|, blockSize) <= 255 ==> y != Pad(x, blockSize)
  {
    Remainder(0, blockSize, 0, 0);
    forall x ensures Unpad(y, blockSize) == Data(x) <==> PadLength(|x|, blockSize) <= 255 && y == Pad(x, blockSize) {
      UnpadIff(x, y, blockSize);
    }
    var u := Unpad(y, blockSize);
    assert u.Data? ==> PadLength(|u.bytes|, blockSize) <= 255 && y == Pad(u.bytes, blockSize);
  }

  lemma {:induction false} RoundTrip(x: seq<Byte>, blockSize: int)
    requires 1 <= blockSize <= 255
    ensures Unpad(Pad(x, blockSize), blockSize) == Data(x)
  {
    UnpadIff(x, Pad(x, blockSize), blockSize);
  }
}
