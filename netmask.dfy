/** CIDR prefix length to dotted-decimal IPv4 netmask, as the interface
    generator computes it (`get_mask`), together with the bit-level
    meaning of a netmask that the computation is proved against. */
module Netmask {
  import opened Text

  const HOST_MASK := "255.255.255.255"
  /** What `get_mask` answers when the prefix is not an integer. */
  const FALLBACK_MASK := "255.255.255.0"

  function Pow2(k: nat): (p: nat)
    ensures p >= 1
  {
    if k == 0 then 1 else 2 * Pow2(k - 1)
  }

  lemma {:induction false} Pow2AtMost256(k: nat)
    requires k <= 8
    ensures Pow2(k) <= 256
    decreases 8 - k
  {
    if k < 8 {
      Pow2AtMost256(k + 1);
    }
  }

  /** The octet whose first `r` bits are ones: 256 - 2^(8 - r). */
  function PartialOctet(r: nat): nat
    requires r <= 8
  {
    Pow2AtMost256(8 - r);
    256 - Pow2(8 - r)
  }

  /** `w` bits, most significant first, of which the first `n` are ones
      and the rest zeros. */
  function LeadingOnes(n: nat, w: nat): seq<bool> {
    seq(w, j => j < n)
  }

  /** Unsigned value of a bit string, most significant bit first. */
  function BitsValue(bits: seq<bool>): nat {
    if bits == [] then 0
    else BitsValue(bits[..|bits| - 1]) * 2 + (if bits[|bits| - 1] then 1 else 0)
  }

  /** The four octets of a 32-bit string, most significant first. */
  function OctetsOf(bits: seq<bool>): (o: seq<nat>)
    requires |bits| == 32
    ensures |o| == 4
  {
    seq(4, k requires 0 <= k < 4 => BitsValue(bits[8 * k..8 * k + 8]))
  }

  /** Four numbers written in dotted-decimal notation. */
  function Dotted(o: seq<nat>): string
    requires |o| == 4
  {
    NatToString(o[0]) + "." + NatToString(o[1]) + "." + NatToString(o[2]) + "." + NatToString(o[3])
  }

  /** The netmask a prefix length stands for: for 1..31 the dotted octets
      of `n` one bits followed by `32 - n` zero bits; every other integer
      gets the host mask (so 0 does too, not 0.0.0.0). */
  function PrefixMask(n: int): string {
    if n >= 32 || n <= 0 then HOST_MASK else Dotted(OctetsOf(LeadingOnes(n, 32)))
  }

  /** A mask together with the diagnostic `get_mask` prints. */
  datatype MaskResult = MaskResult(mask: string, error: bool)

  /** The mask for a prefix given as text: unparsable text yields the
      fallback mask and the error diagnostic. */
  function MaskOf(cidr: string): MaskResult {
    match ParseInt(cidr)
    case None => MaskResult(FALLBACK_MASK, true)
    case Some(n) => MaskResult(PrefixMask(n), false)
  }

  /** `get_mask`: parse the prefix, then build the mask from whole 255
      octets, one partial octet and zero padding. */
  method GetMask(cidr: string) returns (r: MaskResult)
    ensures r == MaskOf(cidr)
    ensures r.error <==> ParseInt(cidr).None?
    ensures ParseInt(cidr).Some? && 1 <= ParseInt(cidr).value <= 31 ==>
      var n := ParseInt(cidr).value;
      r.mask == Repeat("255.", n / 8) + NatToString(PartialOctet(n % 8)) + Repeat(".0", 3 - n / 8)
  {
    var parsed := ParseInt(cidr);
    if parsed.None? {
      return MaskResult(FALLBACK_MASK, true);
    }
    var num := parsed.value;
    var mask := "";
    if num >= 32 || num <= 0 {
      mask := "255.255.255.255";
    } else {
      var quo := num / 8;
      var rem := num % 8;
      for i := 0 to quo
        invariant mask == Repeat("255.", i)
      {
        mask := mask + "255.";
      }
      var dec := PartialOctet(rem);
      mask := mask + NatToString(dec);
      if quo < 3 {
        for i := 0 to 3 - quo
          invariant mask == Repeat("255.", quo) + NatToString(dec) + Repeat(".0", i)
        {
          mask := mask + ".0";
        }
      }
      PrefixMaskShape(num);
    }
    return MaskResult(mask, false);
  }

  /** A run of `a` ones followed by `w - a` zeros is worth 2^w - 2^(w-a). */
  lemma {:induction false} LeadingOnesValue(a: nat, w: nat)
    requires a <= w
    ensures BitsValue(LeadingOnes(a, w)) == Pow2(w) - Pow2(w - a)
  {
    if w > 0 {
      var bits := LeadingOnes(a, w);
      if a == w {
        assert bits[..w - 1] == LeadingOnes(w - 1, w - 1);
        LeadingOnesValue(w - 1, w - 1);
      } else {
        assert bits[..w - 1] == LeadingOnes(a, w - 1);
        LeadingOnesValue(a, w - 1);
      }
    }
  }

  /** Octet `k` of the prefix mask holds the ones of bits 8k..8k+7. */
  lemma MaskOctet(n: nat, k: nat)
    requires n <= 32 && k < 4
    ensures var c := if n <= 8 * k then 0 else if n >= 8 * k + 8 then 8 else n - 8 * k;
      OctetsOf(LeadingOnes(n, 32))[k] == PartialOctet(c)
  {
    var c := if n <= 8 * k then 0 else if n >= 8 * k + 8 then 8 else n - 8 * k;
    assert LeadingOnes(n, 32)[8 * k..8 * k + 8] == LeadingOnes(c, 8);
    LeadingOnesValue(c, 8);
    assert Pow2(8) == 256;
  }

  /** `q` octets of 255, then `x`, then zeros up to four octets. */
  function ShapedOctets(q: nat, x: nat): seq<nat> {
    seq(4, k => if k < q then 255 else if k == q then x else 0)
  }

  /** The source's octet arithmetic: `n / 8` octets of 255, then
      256 - 2^(8 - n % 8), then zeros, is exactly the mask of `n` leading
      one bits. */
  lemma MaskOctets(n: nat)
    requires 1 <= n <= 31
    ensures OctetsOf(LeadingOnes(n, 32)) == ShapedOctets(n / 8, PartialOctet(n % 8))
  {
    var o := OctetsOf(LeadingOnes(n, 32));
    var want := ShapedOctets(n / 8, PartialOctet(n % 8));
    assert Pow2(0) == 1 && Pow2(8) == 256;
    forall k | 0 <= k < 4
      ensures o[k] == want[k]
    {
      MaskOctet(n, k);
    }
  }

  lemma DecimalConstants()
    ensures NatToString(255) == "255" && NatToString(0) == "0"
  {
    assert NatToString(25) == "25";
  }

  /** `q` whole octets of 255, the partial octet `x`, then zeros, in
      dotted-decimal form. */
  lemma DottedShape(q: nat, x: nat)
    requires q <= 3
    ensures Dotted(ShapedOctets(q, x)) == Repeat("255.", q) + NatToString(x) + Repeat(".0", 3 - q)
  {
    if q == 0 {
      DottedShape0(x);
    } else if q == 1 {
      DottedShape1(x);
    } else if q == 2 {
      DottedShape2(x);
    } else {
      DottedShape3(x);
    }
  }

  lemma DottedShape0(x: nat)
    ensures Dotted(ShapedOctets(0, x)) == Repeat("255.", 0) + NatToString(x) + Repeat(".0", 3)
  {
    var o := ShapedOctets(0, x);
    var d := NatToString(x);
    assert o[0] == x && o[1] == 0 && o[2] == 0 && o[3] == 0;
    DecimalConstants();
    assert Dotted(o) == d + "." + "0" + "." + "0" + "." + "0";
    Associative(d + "." + "0" + "." + "0", ".", "0");
    Associative(d + "." + "0", ".", "0");
    Associative(d, ".", "0");
    Associative(d, ".0", ".0");
    Associative(d + (".0" + ".0"), ".", "0");
    Associative(d, ".0" + ".0", ".0");
    assert Repeat(".0", 3) == "" + ".0" + ".0" + ".0";
    assert "" + d == d;
  }

  lemma DottedShape1(x: nat)
    ensures Dotted(ShapedOctets(1, x)) == Repeat("255.", 1) + NatToString(x) + Repeat(".0", 2)
  {
    var o := ShapedOctets(1, x);
    var d := NatToString(x);
    assert o[0] == 255 && o[1] == x && o[2] == 0 && o[3] == 0;
    DecimalConstants();
    var p := "255" + ".";
    assert Dotted(o) == p + d + "." + "0" + "." + "0";
    Associative(p + d + "." + "0", ".", "0");
    Associative(p + d, ".", "0");
    Associative(p + d, ".0", ".0");
    assert Repeat("255.", 1) == p;
    assert Repeat(".0", 2) == ".0" + ".0";
  }

  lemma DottedShape2(x: nat)
    ensures Dotted(ShapedOctets(2, x)) == Repeat("255.", 2) + NatToString(x) + Repeat(".0", 1)
  {
    var o := ShapedOctets(2, x);
    var d := NatToString(x);
    assert o[0] == 255 && o[1] == 255 && o[2] == x && o[3] == 0;
    DecimalConstants();
    var p := "255" + "." + "255" + ".";
    assert Dotted(o) == p + d + "." + "0";
    Associative(p + d, ".", "0");
    assert Repeat("255.", 2) == p;
    assert Repeat(".0", 1) == "." + "0";
  }

  lemma DottedShape3(x: nat)
    ensures Dotted(ShapedOctets(3, x)) == Repeat("255.", 3) + NatToString(x) + Repeat(".0", 0)
  {
    var o := ShapedOctets(3, x);
    var d := NatToString(x);
    assert o[0] == 255 && o[1] == 255 && o[2] == 255 && o[3] == x;
    DecimalConstants();
    var p := "255" + "." + "255" + "." + "255" + ".";
    assert Dotted(o) == p + d;
    assert Repeat("255.", 3) == p;
    assert p + d + "" == p + d;
  }

  /** The text `get_mask` builds for 1..31 is the dotted prefix mask. */
  lemma PrefixMaskShape(n: nat)
    requires 1 <= n <= 31
    ensures PrefixMask(n)
      == Repeat("255.", n / 8) + NatToString(PartialOctet(n % 8)) + Repeat(".0", 3 - n / 8)
  {
    MaskOctets(n);
    DottedShape(n / 8, PartialOctet(n % 8));
  }

  /** Concatenating bit strings shifts the first one left. */
  lemma {:induction false} BitsValueAppend(a: seq<bool>, b: seq<bool>)
    ensures BitsValue(a + b) == BitsValue(a) * Pow2(|b|) + BitsValue(b)
    decreases |b|
  {
    if b == [] {
      assert a + b == a;
    } else {
      var b' := b[..|b| - 1];
      var last := if b[|b| - 1] then 1 else 0;
      assert (a + b)[..|a + b| - 1] == a + b';
      assert BitsValue(a + b) == BitsValue(a + b') * 2 + last;
      assert BitsValue(b) == BitsValue(b') * 2 + last;
      BitsValueAppend(a, b');
      ShiftStep(BitsValue(a), Pow2(|b'|), BitsValue(b'), last);
    }
  }

  lemma ShiftStep(va: nat, p: nat, vb: nat, last: nat)
    ensures (va * p + vb) * 2 + last == va * (2 * p) + (vb * 2 + last)
  {
  }

  /** Read as one 32-bit number, the octets of a 1..31 prefix mask have
      exactly `n` leading one bits followed by zeros. */
  lemma PrefixMaskValue(n: nat)
    requires 1 <= n <= 31
    ensures var o := OctetsOf(LeadingOnes(n, 32));
      ((o[0] * 256 + o[1]) * 256 + o[2]) * 256 + o[3] == Pow2(32) - Pow2(32 - n)
  {
    var bits := LeadingOnes(n, 32);
    var o := OctetsOf(bits);
    assert Pow2(8) == 256;
    assert bits[..16] == bits[..8] + bits[8..16];
    BitsValueAppend(bits[..8], bits[8..16]);
    assert bits[..24] == bits[..16] + bits[16..24];
    BitsValueAppend(bits[..16], bits[16..24]);
    assert bits == bits[..24] + bits[24..32];
    BitsValueAppend(bits[..24], bits[24..32]);
    LeadingOnesValue(n, 32);
  }

  /** Dotted text regrouped field by field. */
  lemma JoinRegroup(a: string, b: string, c: string, d: string)
    ensures a + "." + b + "." + c + "." + d == (a + ".") + ((b + ".") + ((c + ".") + d))
  {
    var p := a + ".";
    var q := (b + ".") + c;
    Associative(p, b, ".");
    Associative(p, b + ".", c);
    Associative(p, q, ".");
    Associative(p, q + ".", d);
    Associative(b + ".", c, ".");
    Associative(b + ".", c + ".", d);
  }

  /** Four dot-free fields joined by dots split back into those fields. */
  lemma SplitFourFields(a: string, b: string, c: string, d: string)
    requires '.' !in a && '.' !in b && '.' !in c && '.' !in d
    ensures Split(a + "." + b + "." + c + "." + d, '.') == [a, b, c, d]
  {
    var cd := c + ['.'] + d;
    var bcd := b + ['.'] + cd;
    assert Split(cd, '.') == [c, d] by {
      SplitWithout(d, '.');
      SplitAfter(c, '.', d);
    }
    assert Split(bcd, '.') == [b, c, d] by {
      SplitAfter(b, '.', cd);
    }
    assert Split(a + ['.'] + bcd, '.') == [a, b, c, d] by {
      SplitAfter(a, '.', bcd);
    }
    JoinRegroup(a, b, c, d);
  }

  /** Dotted-decimal text splits at its dots into the decimal texts of
      its four numbers. */
  lemma SplitDotted(o: seq<nat>)
    requires |o| == 4
    ensures Split(Dotted(o), '.') == [NatToString(o[0]), NatToString(o[1]), NatToString(o[2]), NatToString(o[3])]
  {
    SplitFourFields(NatToString(o[0]), NatToString(o[1]), NatToString(o[2]), NatToString(o[3]));
  }

  /** Every prefix mask splits at its dots into exactly four decimal
      octets, each in 0..255. */
  lemma PrefixMaskFourOctets(n: int)
    ensures var f := Split(PrefixMask(n), '.');
      |f| == 4 && forall k | 0 <= k < 4 :: ParseNat(f[k]).Some? && ParseNat(f[k]).value <= 255
  {
    var o := PrefixOctets(n);
    PrefixMaskIsDotted(n);
    SplitDotted(o);
    forall k | 0 <= k < 4
      ensures ParseNat(NatToString(o[k])) == Some(o[k])
    {
      ParseNatToString(o[k]);
    }
  }

  /** The octets of `PrefixMask(n)`. */
  function PrefixOctets(n: int): (o: seq<nat>)
    ensures |o| == 4
  {
    if n >= 32 || n <= 0 then [255, 255, 255, 255] else OctetsOf(LeadingOnes(n, 32))
  }

  lemma PrefixMaskIsDotted(n: int)
    ensures PrefixMask(n) == Dotted(PrefixOctets(n))
    ensures forall k | 0 <= k < 4 :: PrefixOctets(n)[k] <= 255
  {
    if n >= 32 || n <= 0 {
      DecimalConstants();
    } else {
      forall k | 0 <= k < 4
        ensures PrefixOctets(n)[k] <= 255
      {
        MaskOctet(n, k);
      }
    }
  }

  /** Out-of-range prefixes, 0 included, give the host mask. */
  lemma OutOfRangeIsHostMask(n: int)
    requires n <= 0 || n >= 32
    ensures PrefixMask(n) == "255.255.255.255"
  {
  }

  /** The decimal text of any integer prefix, signed or not, parses and
      gives the mask of that prefix with no diagnostic. */
  lemma MaskOfIntText(n: int)
    ensures MaskOf(IntToString(n)) == MaskResult(PrefixMask(n), false)
  {
    ParseIntToString(n);
  }

  /** From the prefix text: every prefix of 0 or less, or of 32 or more,
      gives the host mask with no diagnostic. */
  lemma OutOfRangeTextIsHostMask(n: int)
    requires n <= 0 || n >= 32
    ensures MaskOf(IntToString(n)) == MaskResult(HOST_MASK, false)
  {
    MaskOfIntText(n);
    OutOfRangeIsHostMask(n);
  }

  /** A prefix on an octet boundary: whole 255 octets, then zeros. */
  lemma WholeOctetShape(n: int)
    requires n == 8 || n == 16 || n == 24
    ensures PrefixMask(n) == Repeat("255.", n / 8) + "0" + Repeat(".0", 3 - n / 8)
  {
    assert PartialOctet(n % 8) == 0 by {
      assert Pow2(8) == 256;
    }
    assert NatToString(0) == "0";
    PrefixMaskShape(n);
  }

  lemma EightBitMask()
    ensures PrefixMask(8) == "255.0.0.0"
  {
    WholeOctetShape(8);
    assert Repeat("255.", 1) == "255." && Repeat(".0", 2) == ".0.0";
  }

  lemma SixteenBitMask()
    ensures PrefixMask(16) == "255.255.0.0"
  {
    WholeOctetShape(16);
    assert Repeat("255.", 2) == "255.255." && Repeat(".0", 1) == ".0";
  }

  lemma TwentyFourBitMask()
    ensures PrefixMask(24) == "255.255.255.0"
  {
    WholeOctetShape(24);
    assert Repeat("255.", 3) == "255.255.255." && Repeat(".0", 0) == "";
  }

  /** A prefix one bit past an octet boundary. */
  lemma PartialOctetMask()
    ensures PrefixMask(25) == "255.255.255.128"
  {
    assert PartialOctet(1) == 128 by {
      assert Pow2(7) == 128;
    }
    assert NatToString(128) == "128" by {
      assert NatToString(12) == "12";
    }
    PrefixMaskShape(25);
    assert Repeat("255.", 3) == "255.255.255." && Repeat(".0", 0) == "";
  }

  /** The prefix text "24" read and converted, as `-4 A/24` does. */
  lemma MaskOfTwentyFour()
    ensures MaskOf("24") == MaskResult("255.255.255.0", false)
  {
    assert NatToString(24) == "24" by {
      assert NatToString(2) == "2";
    }
    ParseNatToString(24);
    TwentyFourBitMask();
  }
}
