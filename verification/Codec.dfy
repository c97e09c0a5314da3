/**
 The binary body of a UDP packet message (pkg/msg/udp_binary.go).

 `Encode` and `Decode` say what the codec does on values; the methods below them fill and read byte
 buffers by a moving offset and are proved equal to them. What the codec means is in CodecTheorems.
 */
module Codec {
  import opened Prelude

  type byte = b: int | 0 <= b < 256

  const MAX_UDP_PAYLOAD_SIZE := 65507
  const MAX_FRAME_PAYLOAD_SIZE := 64 * 1024
  const FLAG_LOCAL_ADDR := 1
  const FLAG_REMOTE_ADDR := 2

  /** net.UDPAddr. A nil IP is empty. */
  datatype Addr = Addr(ip: seq<byte>, port: int, zone: seq<byte>)

  datatype Packet = Packet(content: seq<byte>, local: Option<Addr>, remote: Option<Addr>)

  /** An address ready for the wire. The port has been cut to 16 bits. */
  datatype WireAddr = WireAddr(family: byte, ip: seq<byte>, port: nat, zone: seq<byte>)

  datatype AddrError =
    | PortOutOfRange
    | IPv4Zone
    | InvalidIP
    | ZoneTooLong
    | ZoneNotUTF8
    | TruncatedFamily
    | UnknownFamily
    | TruncatedAddress
    | TruncatedZone

  datatype Error =
    | NilPacket
    | MissingRemote
    | PayloadTooLong
    | FrameTooLong
    | LocalAddress(cause: AddrError)
    | RemoteAddress(cause: AddrError)
    | BodyTooShort
    | ReservedFlags
    | TruncatedLength
    | TruncatedPayload
    | TrailingBytes

  // ---------------------------------------------------------------------------------------
  // Integers

  function Cut16(n: int): nat { n % 0x1_0000 }

  function Cut8(n: int): byte { n % 0x100 }

  /** Big-endian. */
  function U16(n: nat): (s: seq<byte>)
    requires n < 0x1_0000
    ensures |s| == 2
  {
    [n / 0x100, n % 0x100]
  }

  function FromU16(hi: byte, lo: byte): nat {
    hi * 0x100 + lo
  }

  // ---------------------------------------------------------------------------------------
  // UTF-8 (section 4 of RFC 3629)

  predicate Tail(b: byte) { 0x80 <= b <= 0xBF }

  /** Bytes of the character at the start of `s`, or 0 when there is none that is well formed. */
  function CharLen(s: seq<byte>): (n: nat)
    ensures n <= |s|
  {
    if s == [] then 0
    else if s[0] <= 0x7F then 1
    else if |s| < 2 then 0
    else if 0xC2 <= s[0] <= 0xDF && Tail(s[1]) then 2
    else if |s| < 3 then 0
    else if s[0] == 0xE0 && 0xA0 <= s[1] <= 0xBF && Tail(s[2]) then 3
    else if ((0xE1 <= s[0] <= 0xEC) || s[0] == 0xEE || s[0] == 0xEF) && Tail(s[1]) && Tail(s[2]) then 3
    else if s[0] == 0xED && 0x80 <= s[1] <= 0x9F && Tail(s[2]) then 3
    else if |s| < 4 then 0
    else if s[0] == 0xF0 && 0x90 <= s[1] <= 0xBF && Tail(s[2]) && Tail(s[3]) then 4
    else if 0xF1 <= s[0] <= 0xF3 && Tail(s[1]) && Tail(s[2]) && Tail(s[3]) then 4
    else if s[0] == 0xF4 && 0x80 <= s[1] <= 0x8F && Tail(s[2]) && Tail(s[3]) then 4
    else 0
  }

  predicate ValidUTF8(s: seq<byte>) {
    s == [] || (CharLen(s) > 0 && ValidUTF8(s[CharLen(s)..]))
  }

  // ---------------------------------------------------------------------------------------
  // Addresses

  /** An IPv4 address in its 16-byte form (section 2.5.5.2 of RFC 4291). */
  predicate IsMapped(ip: seq<byte>) {
    |ip| == 16 && (forall i | 0 <= i < 10 :: ip[i] == 0) && ip[10] == 0xFF && ip[11] == 0xFF
  }

  function To4(ip: seq<byte>): (r: Option<seq<byte>>)
    ensures r.Some? ==> |r.value| == 4
  {
    if |ip| == 4 then Some(ip) else if IsMapped(ip) then Some(ip[12..]) else None
  }

  function ValidateAddr(a: Addr): Result<WireAddr, AddrError> {
    if a.port < 0 || a.port > 65535 then Err(PortOutOfRange)
    else if To4(a.ip).Some? then
      if a.zone != [] then Err(IPv4Zone) else Ok(WireAddr(4, To4(a.ip).value, Cut16(a.port), []))
    else if |a.ip| != 16 then Err(InvalidIP)
    else if |a.zone| > 255 then Err(ZoneTooLong)
    else if !ValidUTF8(a.zone) then Err(ZoneNotUTF8)
    else Ok(WireAddr(6, a.ip, Cut16(a.port), a.zone))
  }

  predicate WireOk(w: WireAddr) {
    w.port < 0x1_0000
  }

  function WireAddrLen(w: WireAddr): nat {
    1 + |w.ip| + 2 + 1 + |w.zone|
  }

  function PutAddr(w: WireAddr): (s: seq<byte>)
    requires WireOk(w)
    ensures |s| == WireAddrLen(w)
  {
    [w.family] + w.ip + U16(w.port) + [Cut8(|w.zone|)] + w.zone
  }

  /** Reads one address and says what follows it. */
  function ReadAddr(b: seq<byte>): Result<(Addr, seq<byte>), AddrError> {
    if b == [] then Err(TruncatedFamily)
    else if b[0] != 4 && b[0] != 6 then Err(UnknownFamily)
    else
      var n := if b[0] == 4 then 4 else 16;
      if |b| - 1 < n + 3 then Err(TruncatedAddress)
      else
        var z := b[n + 3];
        if |b| - (n + 4) < z then Err(TruncatedZone)
        else if b[0] == 4 && z != 0 then Err(IPv4Zone)
        else if !ValidUTF8(b[n + 4..n + 4 + z]) then Err(ZoneNotUTF8)
        else Ok((Addr(b[1..n + 1], FromU16(b[n + 1], b[n + 2]), b[n + 4..n + 4 + z]), b[n + 4 + z..]))
  }

  // ---------------------------------------------------------------------------------------
  // Packets

  function Encode(packet: Option<Packet>): Result<seq<byte>, Error> {
    if packet == None then Err(NilPacket)
    else
      var p := packet.value;
      if p.remote == None then Err(MissingRemote)
      else if |p.content| > MAX_UDP_PAYLOAD_SIZE then Err(PayloadTooLong)
      else if p.local.Some? && ValidateAddr(p.local.value).Err? then Err(LocalAddress(ValidateAddr(p.local.value).error))
      else if ValidateAddr(p.remote.value).Err? then Err(RemoteAddress(ValidateAddr(p.remote.value).error))
      else
        var body :=
          [FLAG_REMOTE_ADDR + (if p.local.Some? then FLAG_LOCAL_ADDR else 0)]
          + (if p.local.Some? then PutAddr(ValidateAddr(p.local.value).value) else [])
          + PutAddr(ValidateAddr(p.remote.value).value)
          + U16(Cut16(|p.content|)) + p.content;
        if 2 + |body| > MAX_FRAME_PAYLOAD_SIZE then Err(FrameTooLong) else Ok(body)
  }

  /** The length-prefixed payload, which must fill what is left. */
  function ReadPayload(b: seq<byte>): Result<seq<byte>, Error> {
    if |b| < 2 then Err(TruncatedLength)
    else
      var n := FromU16(b[0], b[1]);
      if n > MAX_UDP_PAYLOAD_SIZE then Err(PayloadTooLong)
      else if |b| - 2 < n then Err(TruncatedPayload)
      else if |b| - 2 > n then Err(TrailingBytes)
      else Ok(b[2..])
  }

  function Decode(b: seq<byte>): Result<Packet, Error> {
    if |b| < 3 then Err(BodyTooShort)
    else if 2 + |b| > MAX_FRAME_PAYLOAD_SIZE then Err(FrameTooLong)
    else if b[0] / 4 != 0 then Err(ReservedFlags)
    else if b[0] / 2 % 2 == 0 then Err(MissingRemote)
    else if b[0] % 2 == 1 then
      var l := ReadAddr(b[1..]);
      if l.Err? then Err(LocalAddress(l.error))
      else DecodeRest(Some(l.value.0), l.value.1)
    else DecodeRest(None, b[1..])
  }

  function DecodeRest(local: Option<Addr>, b: seq<byte>): Result<Packet, Error> {
    var r := ReadAddr(b);
    if r.Err? then Err(RemoteAddress(r.error))
    else
      var payload := ReadPayload(r.value.1);
      if payload.Err? then Err(payload.error) else Ok(Packet(payload.value, local, Some(r.value.0)))
  }

  // ---------------------------------------------------------------------------------------
  // On byte buffers

  /** `b` with `src` written over it at `offset`. */
  ghost function Splice(b: seq<byte>, offset: nat, src: seq<byte>): (r: seq<byte>)
    requires offset + |src| <= |b|
    ensures |r| == |b|
  {
    b[..offset] + src + b[offset + |src|..]
  }

  /** Writing one piece after another is writing their concatenation. */
  lemma SpliceTwice(b: seq<byte>, offset: nat, x: seq<byte>, y: seq<byte>)
    requires offset + |x| + |y| <= |b|
    ensures Splice(Splice(b, offset, x), offset + |x|, y) == Splice(b, offset, x + y)
  {
  }

  lemma SpliceAll(b: seq<byte>, src: seq<byte>)
    requires |src| == |b|
    ensures Splice(b, 0, src) == src
  {
  }

  method CopyInto(body: array<byte>, offset: nat, src: seq<byte>)
    requires offset + |src| <= body.Length
    modifies body
    ensures body[..] == Splice(old(body[..]), offset, src)
  {
    for i := 0 to |src|
      invariant forall k | 0 <= k < i :: body[offset + k] == src[k]
      invariant forall k | 0 <= k < body.Length && !(offset <= k < offset + i) :: body[k] == old(body[k])
    {
      body[offset + i] := src[i];
    }
  }

  /** Writes `src` after the `done` bytes written since `start`, and moves the offset past it. */
  method Append(body: array<byte>, offset: nat, src: seq<byte>, ghost b: seq<byte>, ghost start: nat, ghost done: seq<byte>)
    returns (next: nat)
    requires offset == start + |done| && offset + |src| <= body.Length == |b|
    requires body[..] == Splice(b, start, done)
    modifies body
    ensures next == offset + |src|
    ensures body[..] == Splice(b, start, done + src)
  {
    CopyInto(body, offset, src);
    SpliceTwice(b, start, done, src);
    next := offset + |src|;
  }

  method PutBinaryUDPAddr(body: array<byte>, start: nat, w: WireAddr) returns (offset: nat)
    requires WireOk(w) && start + WireAddrLen(w) <= body.Length
    modifies body
    ensures offset == start + WireAddrLen(w)
    ensures body[..] == Splice(old(body[..]), start, PutAddr(w))
  {
    ghost var b := body[..];
    hide Splice, U16;
    CopyInto(body, start, [w.family]);
    offset := Append(body, start + 1, w.ip, b, start, [w.family]);
    offset := Append(body, offset, U16(w.port), b, start, [w.family] + w.ip);
    offset := Append(body, offset, [Cut8(|w.zone|)], b, start, [w.family] + w.ip + U16(w.port));
    offset := Append(body, offset, w.zone, b, start, [w.family] + w.ip + U16(w.port) + [Cut8(|w.zone|)]);
  }

  /** Fills a buffer of exactly the right length. */
  method Fill(p: Packet, local: WireAddr, remote: WireAddr, flags: byte, bodyLen: nat) returns (body: array<byte>)
    requires WireOk(local) && WireOk(remote) && |p.content| < 0x1_0000
    requires bodyLen == 1 + 2 + |p.content| + WireAddrLen(remote) + if flags % 2 == 1 then WireAddrLen(local) else 0
    ensures fresh(body)
    ensures body[..] == [flags] + (if flags % 2 == 1 then PutAddr(local) else []) + PutAddr(remote) + U16(|p.content|) + p.content
  {
    body := new byte[bodyLen];
    ghost var b := body[..];
    ghost var done := [flags];
    hide Splice, PutAddr, U16;
    CopyInto(body, 0, [flags]);
    var offset := 1;
    if flags % 2 == 1 {
      offset := PutBinaryUDPAddr(body, offset, local);
      SpliceTwice(b, 0, done, PutAddr(local));
      done := done + PutAddr(local);
    } else {
      assert done == done + [];
    }
    offset := PutBinaryUDPAddr(body, offset, remote);
    SpliceTwice(b, 0, done, PutAddr(remote));
    done := done + PutAddr(remote);
    offset := Append(body, offset, U16(|p.content|), b, 0, done);
    done := done + U16(|p.content|);
    offset := Append(body, offset, p.content, b, 0, done);
    SpliceAll(b, done + p.content);
  }

  method EncodeUDPPacketBinary(packet: Option<Packet>) returns (r: Result<array<byte>, Error>)
    ensures Encode(packet).Err? ==> r == Err(Encode(packet).error)
    ensures Encode(packet).Ok? ==> r.Ok? && fresh(r.value) && r.value[..] == Encode(packet).value
  {
    hide PutAddr, U16;
    if packet == None { return Err(NilPacket); }
    var p := packet.value;
    if p.remote == None { return Err(MissingRemote); }
    if |p.content| > MAX_UDP_PAYLOAD_SIZE { return Err(PayloadTooLong); }

    var bodyLen := 1 + 2 + |p.content|;
    var flags := 0;
    var local := WireAddr(0, [], 0, []);
    if p.local.Some? {
      flags := flags + FLAG_LOCAL_ADDR;
      var l := ValidateAddr(p.local.value);
      if l.Err? { return Err(LocalAddress(l.error)); }
      local := l.value;
      bodyLen := bodyLen + WireAddrLen(local);
    }
    flags := flags + FLAG_REMOTE_ADDR;
    var remote := ValidateAddr(p.remote.value);
    if remote.Err? { return Err(RemoteAddress(remote.error)); }
    bodyLen := bodyLen + WireAddrLen(remote.value);
    if 2 + bodyLen > MAX_FRAME_PAYLOAD_SIZE { return Err(FrameTooLong); }
    var body := Fill(p, local, remote.value, flags, bodyLen);
    return Ok(body);
  }

  method ReadBinaryUDPAddr(body: array<byte>, start: nat) returns (r: Result<(Addr, nat), AddrError>)
    requires start <= body.Length
    ensures ReadAddr(body[start..]).Err? ==> r == Err(ReadAddr(body[start..]).error)
    ensures ReadAddr(body[start..]).Ok? ==>
              && r.Ok? && start <= r.value.1 <= body.Length
              && ReadAddr(body[start..]).value == (r.value.0, body[r.value.1..])
  {
    var offset := start;
    if offset >= body.Length { return Err(TruncatedFamily); }
    var family := body[offset];
    offset := offset + 1;
    var ipLen;
    if family == 4 { ipLen := 4; } else if family == 6 { ipLen := 16; } else { return Err(UnknownFamily); }
    if body.Length - offset < ipLen + 3 { return Err(TruncatedAddress); }
    var ip := body[offset..offset + ipLen];
    offset := offset + ipLen;
    var port := FromU16(body[offset], body[offset + 1]);
    offset := offset + 2;
    var zoneLen := body[offset];
    offset := offset + 1;
    if body.Length - offset < zoneLen { return Err(TruncatedZone); }
    var zone := body[offset..offset + zoneLen];
    if family == 4 && zoneLen != 0 { return Err(IPv4Zone); }
    assert zone == body[start..][ipLen + 4..ipLen + 4 + zoneLen];
    if !ValidUTF8(zone) { return Err(ZoneNotUTF8); }
    offset := offset + zoneLen;
    assert ip == body[start..][1..ipLen + 1];
    assert body[offset..] == body[start..][ipLen + 4 + zoneLen..];
    return Ok((Addr(ip, port, zone), offset));
  }

  method DecodeUDPPacketBinary(body: array<byte>) returns (r: Result<Packet, Error>)
    ensures r == Decode(body[..])
  {
    hide ReadAddr;
    if body.Length < 3 { return Err(BodyTooShort); }
    if 2 + body.Length > MAX_FRAME_PAYLOAD_SIZE { return Err(FrameTooLong); }
    var flags := body[0];
    if flags / 4 != 0 { return Err(ReservedFlags); }
    if flags / 2 % 2 == 0 { return Err(MissingRemote); }
    assert body[..][1..] == body[1..];
    var offset := 1;
    var local := None;
    if flags % 2 == 1 {
      var l := ReadBinaryUDPAddr(body, offset);
      if l.Err? { return Err(LocalAddress(l.error)); }
      local, offset := Some(l.value.0), l.value.1;
    }
    var remote := ReadBinaryUDPAddr(body, offset);
    if remote.Err? { return Err(RemoteAddress(remote.error)); }
    offset := remote.value.1;
    if body.Length - offset < 2 { return Err(TruncatedLength); }
    var payloadLen := FromU16(body[offset], body[offset + 1]);
    offset := offset + 2;
    if payloadLen > MAX_UDP_PAYLOAD_SIZE { return Err(PayloadTooLong); }
    var remaining := body.Length - offset;
    if remaining < payloadLen { return Err(TruncatedPayload); }
    if remaining > payloadLen { return Err(TrailingBytes); }
    assert body[offset..offset + payloadLen] == body[remote.value.1..][2..];
    return Ok(Packet(body[offset..offset + payloadLen], local, Some(remote.value.0)));
  }
}
