/** What the binary UDP packet codec means: the bodies it accepts, and how encoding and decoding undo each other. */
module CodecTheorems {
  import opened Prelude
  import opened Codec

  // ---------------------------------------------------------------------------------------
  // The layout of a body

  /** An address that a body can hold. */
  predicate LegalAddr(a: Addr) {
    && (|a.ip| == 4 || |a.ip| == 16)
    && 0 <= a.port < 0x1_0000
    && |a.zone| < 0x100
    && (|a.ip| == 4 ==> a.zone == [])
    && ValidUTF8(a.zone)
  }

  function AddrLayout(a: Addr): (s: seq<byte>)
    requires LegalAddr(a)
    ensures |s| == |a.ip| + |a.zone| + 4
  {
    [if |a.ip| == 4 then 4 else 6] + a.ip + [a.port / 0x100, a.port % 0x100] + [|a.zone|] + a.zone
  }

  predicate Legal(p: Packet) {
    && p.remote.Some? && LegalAddr(p.remote.value)
    && (p.local.Some? ==> LegalAddr(p.local.value))
    && |p.content| <= MAX_UDP_PAYLOAD_SIZE
  }

  function Layout(p: Packet): seq<byte>
    requires Legal(p)
  {
    [if p.local.Some? then 3 else 2]
    + ((if p.local.Some? then AddrLayout(p.local.value) else []) + RestLayout(p))
  }

  /** The remote address and the payload. */
  function RestLayout(p: Packet): seq<byte>
    requires Legal(p)
  {
    AddrLayout(p.remote.value) + ([|p.content| / 0x100, |p.content| % 0x100] + p.content)
  }

  // ---------------------------------------------------------------------------------------
  // Decoding is the inverse of the layout

  lemma ReadsLayout(a: Addr, rest: seq<byte>)
    requires LegalAddr(a)
    ensures ReadAddr(AddrLayout(a) + rest) == Ok((a, rest))
  {
    var b := AddrLayout(a) + rest;
    var n := |a.ip|;
    var z := |a.zone|;
    assert b[0] == (if n == 4 then 4 else 6);
    assert b[1..n + 1] == a.ip;
    assert b[n + 1] == a.port / 0x100 && b[n + 2] == a.port % 0x100 && b[n + 3] == z;
    assert b[n + 4..n + 4 + z] == a.zone;
    assert b[n + 4 + z..] == rest;
  }

  /** The fields of an address and what follows it make up the body. */
  lemma Fields(b: seq<byte>, n: nat, z: nat)
    requires n + 4 + z <= |b|
    ensures b == [b[0]] + b[1..n + 1] + [b[n + 1], b[n + 2]] + [b[n + 3]] + b[n + 4..n + 4 + z] + b[n + 4 + z..]
  {
    var head := [b[0]] + b[1..n + 1] + [b[n + 1], b[n + 2]] + [b[n + 3]];
    assert head == b[..n + 4];
    assert b[..n + 4] + b[n + 4..n + 4 + z] == b[..n + 4 + z];
  }

  lemma ReadFields(b: seq<byte>, a: Addr, rest: seq<byte>)
    requires ReadAddr(b) == Ok((a, rest))
    ensures var n, z := |a.ip|, |a.zone|;
            && LegalAddr(a) && n + 4 + z <= |b| && b[0] == (if n == 4 then 4 else 6) && a.ip == b[1..n + 1]
            && b[n + 1] == a.port / 0x100 && b[n + 2] == a.port % 0x100 && b[n + 3] == z
            && a.zone == b[n + 4..n + 4 + z] && rest == b[n + 4 + z..]
  {
  }

  lemma ReadIsLayout(b: seq<byte>, a: Addr, rest: seq<byte>)
    requires ReadAddr(b) == Ok((a, rest))
    ensures LegalAddr(a) && b == AddrLayout(a) + rest
  {
    hide ReadAddr, LegalAddr;
    ReadFields(b, a, rest);
    Fields(b, |a.ip|, |a.zone|);
  }

  lemma PayloadIff(b: seq<byte>, content: seq<byte>)
    ensures ReadPayload(b) == Ok(content) <==>
              |content| <= MAX_UDP_PAYLOAD_SIZE && b == [|content| / 0x100, |content| % 0x100] + content
  {
    if ReadPayload(b) == Ok(content) {
      assert b == [b[0], b[1]] + b[2..];
    }
  }

  lemma RestIff(local: Option<Addr>, b: seq<byte>, p: Packet)
    requires local == p.local && (local.Some? ==> LegalAddr(local.value))
    ensures DecodeRest(local, b) == Ok(p) <==>
              Legal(p) && b == RestLayout(p)
  {
    hide ReadAddr, AddrLayout, ReadPayload;
    if DecodeRest(local, b) == Ok(p) {
      var r := ReadAddr(b).value;
      ReadIsLayout(b, r.0, r.1);
      PayloadIff(r.1, p.content);
    }
    if Legal(p) {
      var rest := [|p.content| / 0x100, |p.content| % 0x100] + p.content;
      ReadsLayout(p.remote.value, rest);
      PayloadIff(rest, p.content);
    }
  }

  /** A body is accepted as `p` exactly when it is the layout of `p`, and fits a frame. */
  lemma DecodeIff(b: seq<byte>, p: Packet)
    ensures Decode(b) == Ok(p) <==> Legal(p) && b == Layout(p) && 2 + |b| <= MAX_FRAME_PAYLOAD_SIZE
  {
    if Decode(b) == Ok(p) { DecodedIsLayout(b, p); }
    if Legal(p) && b == Layout(p) && 2 + |b| <= MAX_FRAME_PAYLOAD_SIZE { LayoutDecodes(p); }
  }

  lemma DecodedIsLayout(b: seq<byte>, p: Packet)
    requires Decode(b) == Ok(p)
    ensures Legal(p) && b == Layout(p)
  {
    hide ReadAddr, AddrLayout, RestLayout;
    assert b == [b[0]] + b[1..];
    if b[0] % 2 == 1 {
      var l := ReadAddr(b[1..]).value;
      ReadIsLayout(b[1..], l.0, l.1);
      RestIff(Some(l.0), l.1, p);
    } else {
      RestIff(None, b[1..], p);
    }
  }

  lemma LayoutDecodes(p: Packet)
    requires Legal(p) && 2 + |Layout(p)| <= MAX_FRAME_PAYLOAD_SIZE
    ensures Decode(Layout(p)) == Ok(p)
  {
    hide ReadAddr, AddrLayout, DecodeRest;
    var b := Layout(p);
    var rest := RestLayout(p);
    if p.local.Some? {
      assert b[1..] == AddrLayout(p.local.value) + rest;
      ReadsLayout(p.local.value, rest);
    } else {
      assert b[1..] == rest;
    }
    RestIff(p.local, rest, p);
  }

  // ---------------------------------------------------------------------------------------
  // Encoding is the layout of the packet with its addresses normalised

  function NormalAddr(a: Addr): Addr {
    if To4(a.ip).Some? then a.(ip := To4(a.ip).value) else a
  }

  function NormalOption(a: Option<Addr>): Option<Addr> {
    if a.Some? then Some(NormalAddr(a.value)) else None
  }

  /** The same packet, with IPv4-mapped addresses reduced to four bytes. */
  function Normal(p: Packet): Packet {
    p.(local := NormalOption(p.local), remote := NormalOption(p.remote))
  }

  /** Addresses are written in their normal form, and the length casts cut nothing. */
  lemma ValidatesIff(a: Addr)
    ensures ValidateAddr(a).Ok? <==> LegalAddr(NormalAddr(a))
    ensures ValidateAddr(a).Ok? ==> WireOk(ValidateAddr(a).value) && PutAddr(ValidateAddr(a).value) == AddrLayout(NormalAddr(a))
  {
    assert ValidUTF8([]);
  }

  /** A packet is encoded exactly when its normal form is legal and fits a frame, and then to its layout. */
  lemma EncodeIff(p: Packet, b: seq<byte>)
    ensures Encode(Some(p)) == Ok(b) <==>
              Legal(Normal(p)) && b == Layout(Normal(p)) && 2 + |b| <= MAX_FRAME_PAYLOAD_SIZE
  {
    hide ValidateAddr, PutAddr, AddrLayout, LegalAddr, NormalAddr;
    if p.remote.Some? { ValidatesIff(p.remote.value); }
    if p.local.Some? { ValidatesIff(p.local.value); }
    var q := Normal(p);
    if Legal(q) {
      assert Layout(q) == [if q.local.Some? then 3 else 2] + (if q.local.Some? then AddrLayout(q.local.value) else [])
                          + AddrLayout(q.remote.value) + [|q.content| / 0x100, |q.content| % 0x100] + q.content;
    }
  }

  // ---------------------------------------------------------------------------------------
  // Theorems

  /** Decoding what was encoded gives the packet back with its addresses normalised. */
  lemma RoundTrip(p: Packet)
    requires Encode(Some(p)).Ok?
    ensures Decode(Encode(Some(p)).value) == Ok(Normal(p))
  {
    var b := Encode(Some(p)).value;
    EncodeIff(p, b);
    DecodeIff(b, Normal(p));
  }

  predicate HasMapped(p: Packet) {
    (p.local.Some? && IsMapped(p.local.value.ip)) || (p.remote.Some? && IsMapped(p.remote.value.ip))
  }

  lemma NormalIffUnmapped(p: Packet)
    ensures Normal(p) == p <==> !HasMapped(p)
  {
  }

  lemma LayoutInjective(p: Packet, q: Packet)
    requires Legal(p) && Legal(q) && Layout(p) == Layout(q) && 2 + |Layout(p)| <= MAX_FRAME_PAYLOAD_SIZE
    ensures p == q
  {
    LayoutDecodes(p);
    LayoutDecodes(q);
  }

  /** Encoding an accepted body's packet gives the body back exactly when it holds no IPv4-mapped address. */
  lemma ReencodesIff(b: seq<byte>, p: Packet)
    requires Decode(b) == Ok(p)
    ensures Encode(Some(p)) == Ok(b) <==> !HasMapped(p)
  {
    DecodeIff(b, p);
    EncodeIff(p, b);
    NormalIffUnmapped(p);
    if Encode(Some(p)) == Ok(b) { LayoutInjective(p, Normal(p)); }
  }

  predicate MappedZone(a: Option<Addr>) {
    a.Some? && IsMapped(a.value.ip) && a.value.zone != []
  }

  /** A packet that was decoded can be encoded at all exactly when no IPv4-mapped address in it has a zone. */
  lemma ReencodableIff(b: seq<byte>, p: Packet)
    requires Decode(b) == Ok(p)
    ensures Encode(Some(p)).Ok? <==> !MappedZone(p.local) && !MappedZone(p.remote)
  {
    DecodeIff(b, p);
    hide Encode, Decode, ValidUTF8;
    if Legal(Normal(p)) {
      assert |Layout(Normal(p))| <= |Layout(p)|;
      EncodeIff(p, Layout(Normal(p)));
    } else if Encode(Some(p)).Ok? {
      EncodeIff(p, Encode(Some(p)).value);
    }
  }

  predicate ExactCasts(a: Option<Addr>) {
    a.Some? ==> Cut16(a.value.port) == a.value.port && Cut8(|a.value.zone|) == |a.value.zone|
  }

  /** Whatever is encoded, the casts of ports and lengths to one and two bytes cut nothing off. */
  lemma CastsAreExact(p: Packet)
    requires Encode(Some(p)).Ok?
    ensures Cut16(|p.content|) == |p.content| && ExactCasts(p.local) && ExactCasts(p.remote)
  {
    hide PutAddr, U16, ValidUTF8, To4;
    ValidatesIff(p.remote.value);
    if p.local.Some? { ValidatesIff(p.local.value); }
  }

  /** No accepted body is a proper prefix of another. */
  lemma PrefixFree(b: seq<byte>, c: seq<byte>)
    requires Decode(b).Ok? && Decode(c).Ok? && b <= c
    ensures b == c
  {
    hide ReadAddr, ReadPayload;
    var more := c[|b|..];
    assert c == b + more;
    assert c[1..] == b[1..] + more;
    if b[0] % 2 == 1 {
      var l := ReadAddr(b[1..]).value;
      ReadMore(b[1..], more);
      RestPrefixFree(l.1, more);
    } else {
      RestPrefixFree(b[1..], more);
    }
  }

  lemma ReadMore(b: seq<byte>, more: seq<byte>)
    requires ReadAddr(b).Ok?
    ensures ReadAddr(b + more) == Ok((ReadAddr(b).value.0, ReadAddr(b).value.1 + more))
  {
    var r := ReadAddr(b).value;
    ReadIsLayout(b, r.0, r.1);
    hide ReadAddr, AddrLayout;
    assert b + more == AddrLayout(r.0) + (r.1 + more);
    ReadsLayout(r.0, r.1 + more);
  }

  lemma RestPrefixFree(b: seq<byte>, more: seq<byte>)
    requires ReadAddr(b).Ok? && ReadPayload(ReadAddr(b).value.1).Ok?
    requires ReadAddr(b + more).Ok? && ReadPayload(ReadAddr(b + more).value.1).Ok?
    ensures more == []
  {
    hide ReadAddr;
    ReadMore(b, more);
  }

  /** Two packets have the same encoding only if they are the same packet up to normal form. */
  lemma EncodeInjective(p: Packet, q: Packet)
    requires Encode(Some(p)).Ok? && Encode(Some(p)) == Encode(Some(q))
    ensures Normal(p) == Normal(q)
  {
    RoundTrip(p);
    RoundTrip(q);
  }
}
