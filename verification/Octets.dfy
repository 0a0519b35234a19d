// Facts about single bytes, kept apart from the sequences they are used in.

module Octets {

  lemma ByteIsKept(n: nat)
    requires n < 256
    ensures (n as bv8) as int == n
  {
  }

  lemma XorTwice(a: bv8, b: bv8)
    ensures (a ^ b) ^ b == a
  {
  }

  lemma FlagAndByte(flag: bool, b: bv8)
    ensures var byte := (if flag then 0x80 else 0) | b;
      (byte & 0x80 != 0) == (flag || b & 0x80 != 0) && byte & 0x0F == b & 0x0F
  {
  }

  lemma NibbleIsKept(b: bv8)
    requires b < 16
    ensures b & 0x0F == b && b & 0x80 == 0
  {
  }

  lemma FlagAndSeven(flag: bool, seven: bv8)
    requires seven <= 127
    ensures var byte := (if flag then 0x80 else 0) | seven;
      (byte & 0x80 != 0) == flag && byte & 0x7F == seven
  {
  }

  lemma TopBitIsHalf(b: bv8)
    ensures (b & 0x80 != 0) == (b >= 0x80)
  {
  }

  lemma LowSevenOfSmall(b: bv8)
    requires b < 0x80
    ensures b & 0x7F == b && b & 0x80 == 0
    ensures (0x80 | b) & 0x7F == b && (0x80 | b) & 0x80 != 0
  {
  }
}
