/** IP addresses and prefixes as bit strings, most significant bit first.
    A prefix contains an address exactly when the address starts with the
    prefix's first `len` bits, so containment, masking and overlap are facts
    about sequences and need no arithmetic. */
module Netip {

  datatype Option<+T> = None | Some(value: T)

  datatype Family = V4 | V6

  function Width(f: Family): nat {
    if f.V4? then 32 else 128
  }

  function Zeros(n: nat): seq<bool> {
    seq(n, _ => false)
  }

  function Ones(n: nat): seq<bool> {
    seq(n, _ => true)
  }

  /** The eight bits of one byte. */
  function Octet(n: nat): (bits: seq<bool>)
    ensures |bits| == 8
  {
    [n / 128 % 2 == 1, n / 64 % 2 == 1, n / 32 % 2 == 1, n / 16 % 2 == 1,
     n / 8 % 2 == 1, n / 4 % 2 == 1, n / 2 % 2 == 1, n % 2 == 1]
  }

  /** `NoAddr` is the zero netip.Addr, which is not a valid address. */
  datatype Addr = NoAddr | Addr(family: Family, bits: seq<bool>, zone: string) {
    predicate IsValid() {
      Addr? && |bits| == Width(family)
    }

    predicate Is4() {
      IsValid() && family.V4?
    }

    predicate Is6() {
      IsValid() && family.V6?
    }

    predicate Is4In6() {
      Is6() && bits[..96] == Zeros(80) + Ones(16)
    }

    function Unmap(): Addr {
      if Is4In6() then Addr(V4, bits[96..], "") else this
    }

    predicate IsUnspecified() {
      IsValid() && zone == "" && bits == Zeros(Width(family))
    }

    predicate IsLoopback() {
      var a := Unmap();
      || (a.Is4() && a.bits[..8] == Octet(127))
      || (a.Is6() && a.bits == Zeros(127) + [true])
    }

    predicate IsMulticast() {
      var a := Unmap();
      || (a.Is4() && a.bits[..4] == [true, true, true, false])
      || (a.Is6() && a.bits[..8] == Ones(8))
    }

    predicate IsLinkLocalUnicast() {
      var a := Unmap();
      || (a.Is4() && a.bits[..16] == Octet(169) + Octet(254))
      || (a.Is6() && a.bits[..10] == Octet(0xfe) + [true, false])
    }

    predicate IsGlobalUnicast() {
      var a := Unmap();
      && a.IsValid()
      && !(a.Is4() && (a.bits == Zeros(32) || a.bits == Ones(32)))
      && !a.IsUnspecified()
      && !IsLoopback() && !IsMulticast() && !IsLinkLocalUnicast()
    }
  }

  /** A prefix keeps its address unmasked, as netip.Prefix does. */
  datatype Prefix = Prefix(addr: Addr, len: int) {
    predicate IsValid() {
      addr.IsValid() && addr.zone == "" && 0 <= len <= Width(addr.family)
    }

    predicate Contains(a: Addr) {
      && IsValid() && a.IsValid() && a.zone == "" && a.family == addr.family
      && a.bits[..len] == addr.bits[..len]
    }

    function Masked(): Prefix {
      if IsValid() then
        Prefix(addr.(bits := addr.bits[..len] + Zeros(Width(addr.family) - len)), len)
      else
        Prefix(NoAddr, 0)
    }
  }

  function Pfx(f: Family, head: seq<bool>): Prefix {
    if |head| <= Width(f) then
      Prefix(Addr(f, head + Zeros(Width(f) - |head|), ""), |head|)
    else
      Prefix(NoAddr, 0)
  }

  function DefaultPrefix(f: Family): Prefix {
    Pfx(f, [])
  }

  /** A longer prefix that starts inside a shorter one lies wholly inside it. */
  lemma ContainsNested(outer: Prefix, inner: Prefix, a: Addr)
    requires outer.Contains(inner.addr) && outer.len <= inner.len
    requires inner.Contains(a)
    ensures outer.Contains(a)
  {
    assert a.bits[..outer.len] == a.bits[..inner.len][..outer.len];
    assert inner.addr.bits[..outer.len] == inner.addr.bits[..inner.len][..outer.len];
  }

  /** Masking does not change which addresses a prefix contains. */
  lemma MaskedContains(p: Prefix, a: Addr)
    requires p.IsValid()
    ensures p.Masked().IsValid() && p.Masked().len == p.len
    ensures p.Masked().Contains(a) <==> p.Contains(a)
    ensures p.Masked().Masked() == p.Masked()
  {
    assert p.Masked().addr.bits[..p.len] == p.addr.bits[..p.len];
  }

  /** Two masked prefixes of one length that share an address are the same prefix. */
  lemma MaskedUnique(p: Prefix, q: Prefix, a: Addr)
    requires p.Contains(a) && q.Contains(a) && p.len == q.len
    requires p.Masked() == p && q.Masked() == q
    ensures p == q
  {
    assert p.addr.bits[..p.len] == q.addr.bits[..q.len];
  }

  lemma DefaultContains(a: Addr)
    requires a.IsValid() && a.zone == ""
    ensures DefaultPrefix(a.family).Contains(a)
    ensures DefaultPrefix(a.family).IsValid()
    ensures DefaultPrefix(a.family).Masked() == DefaultPrefix(a.family)
  {
    assert [] + Zeros(Width(a.family)) == Zeros(Width(a.family));
    assert DefaultPrefix(a.family).addr.bits[..0] == [];
  }
}
