/**
 The bridge in front of an end that speaks the binary packet codec: which packets get across, and what
 the far end reads.
 */
module BridgeCodec {
  import opened Prelude
  import opened Codec
  import opened CodecTheorems
  import opened Bridge

  /** Writing the message to a binary end succeeds, as far as the codec is concerned. */
  predicate Writable(m: Message) {
    match m
    case UDPPacket(p) => Encode(Some(p)).Ok?
    case Ping(_) => true
    case Unexpected => false
  }

  /** The writes a binary end takes before the first that fails. */
  function Accepts(due: seq<Message>): (n: nat)
    ensures n <= |due|
  {
    if due == [] || !Writable(due[0]) then 0 else 1 + Accepts(due[1..])
  }

  /** What the far end reads for a message written to it, if it can be written and read. */
  function FarEnd(m: Message): Option<Message> {
    match m
    case UDPPacket(p) =>
      (match Encode(Some(p))
       case Ok(body) => if Decode(body).Ok? then Some(UDPPacket(Decode(body).value)) else None
       case Err(_) => None)
    case Ping(_) => Some(m)
    case Unexpected => None
  }

  function NormalMessage(m: Message): Message {
    if m.UDPPacket? then UDPPacket(Normal(m.packet)) else m
  }

  lemma {:induction false} AcceptsIs(due: seq<Message>)
    ensures forall i | 0 <= i < Accepts(due) :: Writable(due[i])
    ensures Accepts(due) < |due| ==> !Writable(due[Accepts(due)])
  {
    if due != [] && Writable(due[0]) { AcceptsIs(due[1..]); }
  }

  /** A message arrives exactly when it can be written: as itself, a packet with its addresses in normal form and its payload untouched. */
  lemma Arrives(m: Message)
    ensures FarEnd(m) == if Writable(m) then Some(NormalMessage(m)) else None
    ensures m.UDPPacket? ==> NormalMessage(m).packet.content == m.packet.content
  {
    hide Encode, Decode;
    if Writable(m) && m.UDPPacket? { RoundTrip(m.packet); }
  }

  /** What the far end reads of messages that were all written. */
  function Received(out: seq<Message>): (r: seq<Message>)
    ensures |r| == |out|
  {
    seq(|out|, i requires 0 <= i < |out| => NormalMessage(out[i]))
  }

  lemma {:induction false} ReceivedPayload(out: seq<Message>)
    ensures PayloadBytes(Received(out)) == PayloadBytes(out)
  {
    if out != [] {
      var init := out[..|out| - 1];
      ReceivedPayload(init);
      assert Received(out)[..|out| - 1] == Received(init);
    }
  }

  /** Of the messages due, exactly those before the first without an encoding were written, and the far end reads them, in order. */
  ghost predicate Crosses(due: seq<Message>, out: seq<Message>) {
    && out <= due
    && (forall i | 0 <= i < |out| :: FarEnd(out[i]) == Some(Received(out)[i]))
    && (|out| < |due| ==> FarEnd(due[|out|]) == None)
  }

  lemma BinaryEnd(due: seq<Message>)
    ensures Crosses(due, Taken(due, Accepts(due)))
    ensures |Taken(due, Accepts(due))| == Accepts(due)
  {
    hide Writable, FarEnd;
    AcceptsIs(due);
    var out := Taken(due, Accepts(due));
    forall i | 0 <= i < |out| ensures FarEnd(out[i]) == Some(Received(out)[i]) { Arrives(out[i]); }
    if |out| < |due| { Arrives(due[|out|]); }
  }

  /** How a direction to a binary end ends: by a message that has no encoding, or else as its input does. */
  lemma BinaryEnds(input: seq<Message>, due: seq<Message>, readError: IOError, n: nat)
    ensures Ends(input, readError, due, Accepts(due), OtherError(n)) ==
              if exists m <- due :: !Writable(m) then Some(IO(OtherError(n)))
              else if exists m <- input :: m.Unexpected? then Some(UnexpectedMessage)
              else NormalizeError(readError)
  {
    hide Writable, Known;
    AcceptsIs(due);
    KnownIff(input);
  }

  /** The bridge to a visitor that speaks the binary codec, given what it reads from the proxy. */
  method BridgeToBinaryVisitor(input: seq<Message>, readError: IOError, n: nat)
    returns (out: seq<Message>, count: nat, err: Option<BridgeError>)
    ensures Crosses(Known(input), out)
    ensures count == PayloadBytes(Received(out))
    ensures err == if exists m <- Known(input) :: !Writable(m) then Some(IO(OtherError(n)))
                   else if exists m <- input :: m.Unexpected? then Some(UnexpectedMessage)
                   else NormalizeError(readError)
  {
    hide Writable, Crosses, Received, Known;
    var due := Known(input);
    out, count, err := BridgeProxyToVisitor(input, readError, Accepts(due), OtherError(n));
    BinaryEnd(due);
    BinaryEnds(input, due, readError, n);
    ReceivedPayload(out);
  }

  /** And to a proxy that does, which is sent no pings. */
  method BridgeToBinaryProxy(input: seq<Message>, readError: IOError, n: nat)
    returns (out: seq<Message>, count: nat, err: Option<BridgeError>)
    ensures Crosses(Packets(Known(input)), out)
    ensures count == PayloadBytes(Received(out))
    ensures err == if exists m <- Known(input) :: m.UDPPacket? && !Writable(m) then Some(IO(OtherError(n)))
                   else if exists m <- input :: m.Unexpected? then Some(UnexpectedMessage)
                   else NormalizeError(readError)
  {
    hide Writable, Crosses, Received, Known, Packets;
    var due := Packets(Known(input));
    out, count, err := BridgeVisitorToProxy(input, readError, Accepts(due), OtherError(n));
    BinaryEnd(due);
    BinaryEnds(input, due, readError, n);
    ReceivedPayload(out);
    PacketsAre(Known(input));
  }

  lemma {:induction false} PacketsAre(ms: seq<Message>)
    ensures forall m :: m in Packets(ms) <==> m in ms && m.UDPPacket?
  {
    if ms != [] { PacketsAre(ms[1..]); }
  }

  /** Any packet has an encoding exactly when its normal form is legal and fits a frame. */
  lemma WritableIff(p: Packet)
    ensures Writable(UDPPacket(p)) <==> Legal(Normal(p)) && 2 + |Layout(Normal(p))| <= MAX_FRAME_PAYLOAD_SIZE
  {
    hide Encode, Legal, Layout;
    if Legal(Normal(p)) { EncodeIff(p, Layout(Normal(p))); }
    if Encode(Some(p)).Ok? { EncodeIff(p, Encode(Some(p)).value); }
  }
}
