/**
 * The SDK's address type and its two conversions. `SetNetmask` fills the dotted address
 * and netmask from the CIDR text; `SetCIDR` rebuilds the CIDR text from them. The
 * relation between a prefix length and its mask is the contiguous prefix mask of
 * section 3.1 of RFC 4632: N leading one bits out of 32, written as four decimal octets.
 */
module Netmask {
  import opened Common
  import opened Strconv
  import opened Strings

  /** `models.IPAddress`: the CIDR as declared, and the address/mask pair the device uses. */
  datatype IPAddress = IPAddress(cidr: string, address: string, mask: string)

  /** The only octet values a contiguous mask can have, indexed by their number of one bits. */
  const MaskOctets: seq<nat> := [0, 128, 192, 224, 240, 248, 252, 254, 255]

  /** How many of the `n` leading one bits fall in octet `i` (0 is the most significant). */
  function OctetOnes(n: nat, i: nat): (k: nat)
    requires i < 4
    ensures k <= 8
  {
    if n >= 8 * i + 8 then 8 else if n <= 8 * i then 0 else n - 8 * i
  }

  function MaskOctetText(n: nat, i: nat): string
    requires i < 4
  {
    NatToString(MaskOctets[OctetOnes(n, i)])
  }

  /** The dotted-decimal netmask of prefix length `n`. */
  function PrefixMask(n: nat): string
    requires n <= 32
  {
    Join([MaskOctetText(n, 0), MaskOctetText(n, 1), MaskOctetText(n, 2), MaskOctetText(n, 3)], '.')
  }

  /** The number of leading one bits of a mask octet value, if it is one a mask can have. */
  function OnesOfOctet(v: nat): (r: Option<nat>)
    ensures r.Some? ==> r.value <= 8 && MaskOctets[r.value] == v
  {
    if v == 0 then Some(0) else if v == 128 then Some(1) else if v == 192 then Some(2)
    else if v == 224 then Some(3) else if v == 240 then Some(4) else if v == 248 then Some(5)
    else if v == 252 then Some(6) else if v == 254 then Some(7) else if v == 255 then Some(8)
    else None
  }

  function OnesOfText(octet: string): Option<nat> {
    match ParseNat(octet)
    case Some(v) => OnesOfOctet(v)
    case None => None
  }

  /**
   * The prefix length of a dotted netmask; `None` when the text is not four decimal
   * octets or the one bits are not contiguous.
   */
  function MaskToPrefix(mask: string): (r: Option<nat>)
    ensures r.Some? ==> r.value <= 32
  {
    var parts := Split(mask, '.');
    if |parts| != 4 then None
    else MaskOfOnes(OnesOfText(parts[0]), OnesOfText(parts[1]), OnesOfText(parts[2]), OnesOfText(parts[3]))
  }

  /** Four octets form a mask when each is a mask octet and the one bits are contiguous. */
  function MaskOfOnes(a: Option<nat>, b: Option<nat>, c: Option<nat>, d: Option<nat>): (r: Option<nat>)
    requires a.Some? ==> a.value <= 8
    requires b.Some? ==> b.value <= 8
    requires c.Some? ==> c.value <= 8
    requires d.Some? ==> d.value <= 8
    ensures r.Some? ==> r.value <= 32
  {
    if a.None? || b.None? || c.None? || d.None? then None
    else if (a.value < 8 ==> b.value == 0) && (b.value < 8 ==> c.value == 0) && (c.value < 8 ==> d.value == 0) then
      Some(a.value + b.value + c.value + d.value)
    else None
  }

  lemma OnesOfMaskOctet(k: nat)
    requires k <= 8
    ensures OnesOfText(NatToString(MaskOctets[k])) == Some(k)
  {
    ParseNatToString(MaskOctets[k]);
    assert k == 0 || k == 1 || k == 2 || k == 3 || k == 4 || k == 5 || k == 6 || k == 7 || k == 8;
  }

  /** The per-octet counts of a prefix are contiguous and add up to the prefix length. */
  lemma OctetOnesContiguous(n: nat)
    requires n <= 32
    ensures OctetOnes(n, 0) < 8 ==> OctetOnes(n, 1) == 0
    ensures OctetOnes(n, 1) < 8 ==> OctetOnes(n, 2) == 0
    ensures OctetOnes(n, 2) < 8 ==> OctetOnes(n, 3) == 0
    ensures OctetOnes(n, 0) + OctetOnes(n, 1) + OctetOnes(n, 2) + OctetOnes(n, 3) == n
  {
  }

  /** Every mask PrefixMask writes reads back as its own prefix length. */
  lemma MaskRoundTrip(n: nat)
    requires n <= 32
    ensures MaskToPrefix(PrefixMask(n)) == Some(n)
  {
    var parts := [MaskOctetText(n, 0), MaskOctetText(n, 1), MaskOctetText(n, 2), MaskOctetText(n, 3)];
    assert Split(PrefixMask(n), '.') == parts by {
      forall i | 0 <= i < 4 ensures '.' !in parts[i] {
        assert AllDigits(parts[i]);
      }
      SplitJoin(parts, '.');
    }
    OnesOfMaskOctet(OctetOnes(n, 0));
    OnesOfMaskOctet(OctetOnes(n, 1));
    OnesOfMaskOctet(OctetOnes(n, 2));
    OnesOfMaskOctet(OctetOnes(n, 3));
    OctetOnesContiguous(n);
    assert MaskToPrefix(PrefixMask(n)) == MaskOfOnes(OnesOfText(parts[0]), OnesOfText(parts[1]), OnesOfText(parts[2]), OnesOfText(parts[3]));
  }

  /** What the `IsCIDR` validator lets through, in the canonical form Itoa writes. */
  predicate IsCidr(c: string) {
    var parts := Split(c, '/');
    && |parts| == 2
    && ParseNat(parts[1]).Some?
    && ParseNat(parts[1]).value <= 32
    && NatToString(ParseNat(parts[1]).value) == parts[1]
  }

  /** `SetNetmask`: address and mask from the CIDR; an unparsable CIDR leaves the value as it is. */
  function SetNetmask(ip: IPAddress): (r: IPAddress)
    ensures r.cidr == ip.cidr
    ensures var parts := Split(ip.cidr, '/');
      if |parts| == 2 && ParseNat(parts[1]).Some? && ParseNat(parts[1]).value <= 32 then
        r.address == parts[0] && MaskToPrefix(r.mask) == ParseNat(parts[1])
      else r == ip
  {
    var parts := Split(ip.cidr, '/');
    if |parts| == 2 && ParseNat(parts[1]).Some? && ParseNat(parts[1]).value <= 32 then
      MaskRoundTrip(ParseNat(parts[1]).value);
      ip.(address := parts[0], mask := PrefixMask(ParseNat(parts[1]).value))
    else ip
  }

  /** `SetCIDR`: the CIDR from address and mask; an invalid mask leaves the value as it is. */
  function SetCidr(ip: IPAddress): (r: IPAddress)
    ensures r.address == ip.address && r.mask == ip.mask
    ensures MaskToPrefix(ip.mask).None? ==> r == ip
    ensures MaskToPrefix(ip.mask).Some? && '/' !in ip.address ==>
      && IsCidr(r.cidr)
      && Split(r.cidr, '/') == [ip.address, NatToString(MaskToPrefix(ip.mask).value)]
  {
    match MaskToPrefix(ip.mask)
    case Some(n) =>
      if '/' !in ip.address then CidrTextSplits(ip.address, n); ip.(cidr := ip.address + "/" + NatToString(n))
      else ip.(cidr := ip.address + "/" + NatToString(n))
    case None => ip
  }

  /** `address/n` splits back at its one slash, and the prefix text is canonical. */
  lemma CidrTextSplits(address: string, n: nat)
    requires '/' !in address
    ensures Split(address + "/" + NatToString(n), '/') == [address, NatToString(n)]
    ensures IsCidr(address + "/" + NatToString(n)) <==> n <= 32
  {
    var digits := NatToString(n);
    assert forall i :: 0 <= i < |digits| ==> digits[i] != '/';
    assert address + "/" + digits == address + ['/'] + digits;
    SplitAfterPart(address, digits, '/');
    SplitWithoutSep(digits, '/');
    ParseNatToString(n);
  }

  /**
   * The other direction of the round trip: the device's address and prefix mask survive
   * `SetCIDR` on read and `SetNetmask` on the next expand.
   */
  lemma MaskCidrRoundTrip(ip: IPAddress, n: nat)
    requires n <= 32 && ip.mask == PrefixMask(n) && '/' !in ip.address
    ensures var back := SetNetmask(SetCidr(ip));
      back.address == ip.address && back.mask == ip.mask
  {
    MaskRoundTrip(n);
    ParseNatToString(n);
  }

  /** A declared CIDR survives the trip to the device's address/mask pair and back. */
  lemma CidrRoundTrip(ip: IPAddress)
    requires IsCidr(ip.cidr)
    ensures SetCidr(SetNetmask(ip)).cidr == ip.cidr
  {
    var parts := Split(ip.cidr, '/');
    var n := ParseNat(parts[1]).value;
    MaskRoundTrip(n);
    JoinSplit(ip.cidr, '/');
    assert Join(parts, '/') == parts[0] + "/" + parts[1];
  }

  lemma Mask24()
    ensures PrefixMask(24) == "255.255.255.0"
  {
    assert OctetOnes(24, 0) == 8 && OctetOnes(24, 1) == 8 && OctetOnes(24, 2) == 8 && OctetOnes(24, 3) == 0;
    assert NatToString(255) == "255" by {
      assert NatToString(25) == "25";
    }
    assert NatToString(0) == "0";
  }

  /** The worked example: 10.1.1.1/24 becomes address 10.1.1.1 with mask 255.255.255.0, and back. */
  lemma ExampleSlash24()
    ensures SetNetmask(IPAddress("10.1.1.1/24", "", "")) == IPAddress("10.1.1.1/24", "10.1.1.1", "255.255.255.0")
    ensures SetCidr(IPAddress("", "10.1.1.1", "255.255.255.0")).cidr == "10.1.1.1/24"
  {
    assert NatToString(24) == "24" by {
      assert NatToString(2) == "2";
    }
    assert "10.1.1.1/24" == "10.1.1.1" + ['/'] + "24";
    SplitAfterPart("10.1.1.1", "24", '/');
    SplitWithoutSep("24", '/');
    ParseNatToString(24);
    Mask24();
    MaskRoundTrip(24);
  }
}
