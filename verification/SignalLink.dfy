/** Sending a file bit by bit with signals: SIGUSR1 is a 0, SIGUSR2 a 1, and the parent
    answers every bit with SIGUSR1. */
module SignalLink {

  type Byte = bv8

  // ---------- Bits ----------

  /** 1 << i */
  function Mask(i: nat): bv8
    requires i < 8
  {
    match i
    case 0 => 1
    case 1 => 2
    case 2 => 4
    case 3 => 8
    case 4 => 16
    case 5 => 32
    case 6 => 64
    case _ => 128
  }

  function BitOf(c: Byte, i: nat): bool
    requires i < 8
  {
    c & Mask(i) != 0
  }

  /** Bit i is the byte divided by 2 to the i, modulo 2. */
  lemma BitIsDigit(c: Byte, i: nat)
    requires i < 8
    ensures BitOf(c, i) <==> (c >> i) % 2 == 1
  {
    if i < 4 {
      LowDigit(c, i);
    } else {
      HighDigit(c, i);
    }
  }

  lemma LowDigit(c: Byte, i: nat)
    requires i < 4
    ensures BitOf(c, i) <==> (c >> i) % 2 == 1
  {
    match i
    case 0 => assert (c >> 0) % 2 == c & 1;
    case 1 => assert (c & 2 != 0) <==> (c >> 1) % 2 == 1;
    case 2 => assert (c & 4 != 0) <==> (c >> 2) % 2 == 1;
    case _ => assert (c & 8 != 0) <==> (c >> 3) % 2 == 1;
  }

  lemma HighDigit(c: Byte, i: nat)
    requires 4 <= i < 8
    ensures BitOf(c, i) <==> (c >> i) % 2 == 1
  {
    match i
    case 4 => assert (c & 16 != 0) <==> (c >> 4) % 2 == 1;
    case 5 => assert (c & 32 != 0) <==> (c >> 5) % 2 == 1;
    case 6 => assert (c & 64 != 0) <==> (c >> 6) % 2 == 1;
    case _ => assert (c & 128 != 0) <==> (c >> 7) % 2 == 1;
  }

  /** The bits below position n put together. */
  function Joined(bits: seq<bool>, n: nat): Byte
    requires n <= |bits| == 8
  {
    if n == 0 then 0 else Joined(bits, n - 1) | (if bits[n - 1] then Mask(n - 1) else 0)
  }

  ghost predicate AreBits(bits: seq<bool>, c: Byte, n: nat)
    requires n <= |bits| == 8
  {
    forall i :: 0 <= i < n ==> bits[i] == BitOf(c, i)
  }

  /** Taking a byte apart and putting it together again gives the byte. */
  lemma RoundTrip(bits: seq<bool>, c: Byte)
    requires |bits| == 8 && AreBits(bits, c, 8)
    ensures Joined(bits, 8) == c
  {
    assert bits[0] == BitOf(c, 0) && bits[1] == BitOf(c, 1) && bits[2] == BitOf(c, 2) && bits[3] == BitOf(c, 3);
    assert bits[4] == BitOf(c, 4) && bits[5] == BitOf(c, 5) && bits[6] == BitOf(c, 6) && bits[7] == BitOf(c, 7);
    assert Joined(bits, 1) == c & 1;
    assert Joined(bits, 2) == c & 3;
    assert Joined(bits, 3) == c & 7;
    assert Joined(bits, 4) == c & 15;
    assert Joined(bits, 5) == c & 31;
    assert Joined(bits, 6) == c & 63;
    assert Joined(bits, 7) == c & 127;
  }

  method SetBitsEmpty(bits: array<bool>)
    requires bits.Length == 8
    modifies bits
    ensures forall i :: 0 <= i < 8 ==> !bits[i]
  {
    for i := 0 to 8
      invariant forall j :: 0 <= j < i ==> !bits[j]
    {
      bits[i] := false;
    }
  }

  method ToBits(c: Byte) returns (bits: seq<bool>)
    ensures |bits| == 8 && AreBits(bits, c, 8) && Joined(bits, 8) == c
  {
    bits := [];
    for i := 0 to 8
      invariant |bits| == i && forall j :: 0 <= j < i ==> bits[j] == BitOf(c, j)
    {
      bits := bits + [c & Mask(i) != 0];
    }
    RoundTrip(bits, c);
  }

  method ToChar(bits: seq<bool>) returns (c: Byte)
    requires |bits| == 8
    ensures c == Joined(bits, 8) && forall d :: AreBits(bits, d, 8) ==> c == d
  {
    c := 0;
    for i := 0 to 8
      invariant c == Joined(bits, i)
    {
      c := c | (if bits[i] then Mask(i) else 0);
    }
    forall d | AreBits(bits, d, 8) ensures c == d {
      RoundTrip(bits, d);
    }
  }
}
