/**
 Packets as ForwardUserConn reads them from users (pkg/proto/udp/udp.go), and which of them have a
 binary encoding.
 */
module UserSocket {
  import opened Prelude
  import opened Codec

  /** The longest payload of a datagram: lengths have 16 bits and count an 8-byte header, over IPv4 also 20 bytes of its own. */
  const MAX_DATAGRAM := 65527
  const MAX_IPV4_DATAGRAM := 65507

  /** udpPacketSize unless configured otherwise. */
  const DEFAULT_PACKET_SIZE := 1500

  /** The longest name Linux gives an interface. */
  const MAX_INTERFACE_NAME := 15

  /** fe80::/10 (section 2.5.6 of RFC 4291). */
  predicate IsLinkLocal(ip: seq<byte>) {
    |ip| == 16 && ip[0] == 0xFE && 0x80 <= ip[1] <= 0xBF
  }

  /**
   A packet the socket can deliver: no local address, the sender as remote address, and no more bytes
   than the buffer holds. Only a link-local sender has a zone, the name of one of the machine's interfaces.
   */
  predicate Receivable(p: Packet, names: set<seq<byte>>, size: nat) {
    && p.local == None && p.remote.Some? && |p.content| <= size
    && var a := p.remote.value;
    && 0 <= a.port < 0x1_0000
    && if To4(a.ip).Some? then a.zone == [] && |p.content| <= MAX_IPV4_DATAGRAM
       else |a.ip| == 16 && (a.zone == [] || (IsLinkLocal(a.ip) && a.zone in names)) && |p.content| <= MAX_DATAGRAM
  }

  /** What an operator can check: the buffer leaves room for the address, whichever interface a packet comes in by. */
  predicate Fits(names: set<seq<byte>>, size: nat) {
    size <= MAX_UDP_PAYLOAD_SIZE && forall z <- names :: ValidUTF8(z) && |z| < 0x100 && size + |z| <= MAX_FRAME_PAYLOAD_SIZE - 25
  }

  /** Of receivable packets only long ones, and such as come in by an interface whose name is no zone, have no encoding. */
  lemma EncodableIff(p: Packet, names: set<seq<byte>>, size: nat)
    requires Receivable(p, names, size)
    ensures Encode(Some(p)).Ok? <==>
              var z := p.remote.value.zone;
              |p.content| <= MAX_UDP_PAYLOAD_SIZE && ValidUTF8(z) && |z| < 0x100 && |p.content| + |z| <= MAX_FRAME_PAYLOAD_SIZE - 25
  {
  }

  /** How long the encoding is: 11 bytes more than the content, or 23 and the zone over IPv6. */
  lemma EncodedSize(p: Packet, names: set<seq<byte>>, size: nat)
    requires Receivable(p, names, size)
    ensures var e := Encode(Some(p));
            e.Ok? ==> |e.value| == |p.content| + if To4(p.remote.value.ip).Some? then 11 else 23 + |p.remote.value.zone|
  {
  }

  /** Port 5000 of fe80::1 in `zone`, or of 2001:db8::1 where there is no zone. */
  function Sender(zone: seq<byte>): (a: Addr)
    ensures To4(a.ip) == None && |a.ip| == 16 && a.zone == zone && (zone != [] ==> IsLinkLocal(a.ip))
  {
    Addr((if zone == [] then [0x20, 0x01, 0x0D, 0xB8] else [0xFE, 0x80, 0, 0]) + [0, 0, 0, 0, 0, 0, 0, 0, 0, 0, 0, 1], 5000, zone)
  }

  /** A packet of `n` zero bytes from there. */
  function Zeros(n: nat, zone: seq<byte>): Packet {
    Packet(seq(n, _ => 0), None, Some(Sender(zone)))
  }

  /** A receivable packet that has no encoding. */
  ghost function Misfit(names: set<seq<byte>>, size: nat): (p: Packet)
    requires !Fits(names, size)
    ensures Receivable(p, names, size) && Encode(Some(p)).Err?
  {
    if size > MAX_UDP_PAYLOAD_SIZE then Zeros(MAX_UDP_PAYLOAD_SIZE + 1, [])
    else
      var bad :| bad in names && !(ValidUTF8(bad) && |bad| < 0x100 && size + |bad| <= MAX_FRAME_PAYLOAD_SIZE - 25);
      Zeros(size, bad)
  }

  /** Every receivable packet has an encoding exactly when the buffer size fits the interface names. */
  lemma AllEncodableIff(names: set<seq<byte>>, size: nat)
    ensures (forall p: Packet :: Receivable(p, names, size) ==> Encode(Some(p)).Ok?) <==> Fits(names, size)
  {
    hide Encode;
    if Fits(names, size) {
      forall p: Packet | Receivable(p, names, size) ensures Encode(Some(p)).Ok? { EncodableIff(p, names, size); }
    } else {
      var p := Misfit(names, size);
    }
  }

  /** Under Linux: any size up to 65496 fits, hence the default, and a longer one only if no interface name is of full length. */
  lemma FitsLinux(names: set<seq<byte>>, size: nat)
    requires forall z <- names :: ValidUTF8(z) && |z| <= MAX_INTERFACE_NAME
    ensures size <= 65496 ==> Fits(names, size)
    ensures (exists z <- names :: |z| == MAX_INTERFACE_NAME) ==> (Fits(names, size) <==> size <= 65496)
    ensures Fits(names, DEFAULT_PACKET_SIZE)
  {
  }

  // ---------------------------------------------------------------------------------------
  // Queues of packets

  /** What the packets named by a data plane are. */
  type Contents = nat -> Packet

  predicate Encodable(p: nat, content: Contents) {
    Encode(Some(content(p))).Ok?
  }

  /** They come from a user's socket. */
  ghost predicate FromSocket(content: Contents, names: set<seq<byte>>, size: nat) {
    forall p: nat :: Receivable(content(p), names, size)
  }

  /** How many packets come before the first that has no encoding. */
  function Sendable(packets: seq<nat>, content: Contents): (n: nat)
    ensures n <= |packets|
  {
    if packets == [] || !Encodable(packets[0], content) then 0 else 1 + Sendable(packets[1..], content)
  }

  lemma {:induction false} SendableIs(packets: seq<nat>, content: Contents)
    ensures forall i | 0 <= i < Sendable(packets, content) :: Encodable(packets[i], content)
    ensures Sendable(packets, content) < |packets| ==> !Encodable(packets[Sendable(packets, content)], content)
  {
    if packets != [] && Encodable(packets[0], content) { SendableIs(packets[1..], content); }
  }
}
