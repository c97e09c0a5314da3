/**
 Joining a visitor with an SUDP or XUDP proxy in frps (server/proxy/proxy.go, and the choice of packet
 codec in pkg/msg/udp_binary.go): bytes are joined as they are when both ends speak the same packet
 codec, and otherwise messages are decoded and written again.
 */
module Bridge {
  import opened Prelude
  import Codec

  const PROTOCOL_V1 := "v1"
  const PROTOCOL_V2 := "v2"
  const CODEC_BINARY := "binary-v1"

  datatype CodecError = CodecNeedsV2 | UnsupportedCodec | UnsupportedProtocol

  // ---------------------------------------------------------------------------------------
  // Codecs

  /** The message reader and writer that an end uses. */
  datatype Selected = V1 | V2 | V2Binary

  function Select(wireProtocol: string, codec: string): Result<Selected, CodecError> {
    if wireProtocol == "" || wireProtocol == PROTOCOL_V1 then
      if codec != "" then Err(CodecNeedsV2) else Ok(V1)
    else if wireProtocol == PROTOCOL_V2 then
      if codec == "" then Ok(V2) else if codec == CODEC_BINARY then Ok(V2Binary) else Err(UnsupportedCodec)
    else Err(UnsupportedProtocol)
  }

  function NormalizeCodec(wireProtocol: string, codec: string): Result<string, CodecError> {
    if wireProtocol == "" || wireProtocol == PROTOCOL_V1 then
      if codec != "" then Err(CodecNeedsV2) else Ok("")
    else if wireProtocol == PROTOCOL_V2 then
      if codec == "" || codec == CODEC_BINARY then Ok(codec) else Err(UnsupportedCodec)
    else Err(UnsupportedProtocol)
  }

  function NormalizeProtocol(wireProtocol: string): string {
    if wireProtocol == PROTOCOL_V2 then PROTOCOL_V2 else PROTOCOL_V1
  }

  function IsMixed(leftWire: string, leftCodec: string, rightWire: string, rightCodec: string): Result<bool, CodecError> {
    var left := NormalizeCodec(leftWire, leftCodec);
    if left.Err? then Err(left.error)
    else
      var right := NormalizeCodec(rightWire, rightCodec);
      if right.Err? then Err(right.error)
      else Ok(NormalizeProtocol(leftWire) != NormalizeProtocol(rightWire) || left.value != right.value)
  }

  datatype ProxyType = SUDP | XUDP | OtherProxy

  datatype Joining = Refused(error: CodecError) | RawJoin | MessageBridge

  function JoinFor(proxy: ProxyType, proxyWire: string, proxyCodec: string, visitorWire: string, visitorCodec: string): Joining {
    if proxy == OtherProxy then RawJoin
    else
      var mixed := IsMixed(proxyWire, proxyCodec, visitorWire, visitorCodec);
      if mixed.Err? then Refused(mixed.error) else if mixed.value then MessageBridge else RawJoin
  }

  /**
   For packet proxies, bytes are joined exactly when both ends read and write with the same codec, and
   bridged exactly when both have one but not the same. In particular neither end of a bridge fails to
   get its reader and writer.
   */
  lemma JoinMatchesCodecs(proxy: ProxyType, proxyWire: string, proxyCodec: string, visitorWire: string, visitorCodec: string)
    requires proxy != OtherProxy
    ensures var join := JoinFor(proxy, proxyWire, proxyCodec, visitorWire, visitorCodec);
            var p := Select(proxyWire, proxyCodec);
            var v := Select(visitorWire, visitorCodec);
            && (join == RawJoin <==> p.Ok? && v.Ok? && p == v)
            && (join == MessageBridge <==> p.Ok? && v.Ok? && p != v)
            && (join.Refused? <==> p.Err? || v.Err?)
            && (join.Refused? ==> join.error == if p.Err? then p.error else v.error)
  {
    assert PROTOCOL_V1[1] != PROTOCOL_V2[1];
    assert |CODEC_BINARY| != 0;
  }

  // ---------------------------------------------------------------------------------------
  // The bridge

  datatype Message = UDPPacket(packet: Codec.Packet) | Ping(stamp: nat) | Unexpected

  datatype IOError = EOF | ErrClosed | OtherError(n: nat)

  datatype BridgeError = IO(error: IOError) | UnexpectedMessage

  /** The end of a stream is no error. */
  function NormalizeError(e: IOError): Option<BridgeError> {
    if e == EOF || e == ErrClosed then None else Some(IO(e))
  }

  /** Messages up to the first that does not belong on the connection. */
  function Known(ms: seq<Message>): (r: seq<Message>)
    ensures r <= ms
  {
    if ms == [] || ms[0].Unexpected? then [] else [ms[0]] + Known(ms[1..])
  }

  function Packets(ms: seq<Message>): seq<Message> {
    if ms == [] then [] else (if ms[0].UDPPacket? then [ms[0]] else []) + Packets(ms[1..])
  }

  function PayloadBytes(ms: seq<Message>): nat {
    if ms == [] then 0
    else
      var last := ms[|ms| - 1];
      PayloadBytes(ms[..|ms| - 1]) + if last.UDPPacket? then |last.packet.content| else 0
  }

  /** Of the messages due, those the other end takes before its writes fail. */
  function Taken(due: seq<Message>, accepts: nat): seq<Message> {
    if |due| <= accepts then due else due[..accepts]
  }

  /** How a direction ends: by a failed write, a message that does not belong, or the end of its input. */
  function Ends(input: seq<Message>, readError: IOError, due: seq<Message>, accepts: nat, writeError: IOError): Option<BridgeError> {
    if |due| > accepts then NormalizeError(writeError)
    else if |Known(input)| < |input| then Some(UnexpectedMessage)
    else NormalizeError(readError)
  }

  lemma KnownStep(input: seq<Message>, i: nat)
    requires i <= |input|
    ensures i == |input| || input[i].Unexpected? ==> Known(input[i..]) == []
    ensures i < |input| && !input[i].Unexpected? ==> Known(input[i..]) == [input[i]] + Known(input[i + 1..])
  {
    if i < |input| {
      assert input[i..][1..] == input[i + 1..];
    }
  }

  lemma PacketsStep(m: Message, rest: seq<Message>)
    ensures Packets([m] + rest) == if m.UDPPacket? then [m] + Packets(rest) else Packets(rest)
  {
    assert ([m] + rest)[1..] == rest;
  }

  lemma BytesStep(out: seq<Message>, m: Message)
    ensures PayloadBytes(out + [m]) == PayloadBytes(out) + if m.UDPPacket? then |m.packet.content| else 0
  {
    assert (out + [m])[..|out|] == out;
  }

  lemma Shift(out: seq<Message>, m: Message, rest: seq<Message>)
    ensures out + ([m] + rest) == (out + [m]) + rest
  {
  }

  lemma TakenAll(out: seq<Message>, accepts: nat)
    requires |out| <= accepts
    ensures Taken(out + [], accepts) == out && |out + []| <= accepts
  {
    assert out + [] == out;
  }

  lemma TakenSome(out: seq<Message>, m: Message, rest: seq<Message>)
    ensures Taken(out + ([m] + rest), |out|) == out && |out + ([m] + rest)| > |out|
  {
  }

  /** Before the loop: everything is still to come. */
  lemma Unread(input: seq<Message>)
    ensures Known(input) == [] + Known(input[0..]) && |Known(input)| == 0 + |Known(input[0..])|
    ensures Packets(Known(input)) == [] + Packets(Known(input[0..]))
    ensures PayloadBytes([]) == 0 && Packets([]) == []
  {
    assert input[0..] == input;
  }

  /**
   `input` is what can be read before `readError`; the other end takes `accepts` writes and then fails
   with `writeError`.
   */
  method BridgeProxyToVisitor(input: seq<Message>, readError: IOError, accepts: nat, writeError: IOError)
    returns (out: seq<Message>, count: nat, err: Option<BridgeError>)
    ensures out == Taken(Known(input), accepts)
    ensures count == PayloadBytes(out)
    ensures err == Ends(input, readError, Known(input), accepts, writeError)
  {
    hide Known, PayloadBytes, Packets, Taken;
    Unread(input);
    out, count := [], 0;
    var i := 0;
    while true
      invariant 0 <= i == |out| <= |input| && i <= accepts
      invariant Known(input) == out + Known(input[i..])
      invariant count == PayloadBytes(out)
      decreases |input| - i
    {
      KnownStep(input, i);
      TakenAll(out, accepts);
      if i == |input| { return out, count, NormalizeError(readError); }
      var m := input[i];
      if m.Unexpected? { return out, count, Some(UnexpectedMessage); }
      TakenSome(out, m, Known(input[i + 1..]));
      if |out| == accepts { return out, count, NormalizeError(writeError); }
      Shift(out, m, Known(input[i + 1..]));
      BytesStep(out, m);
      if m.UDPPacket? { count := count + |m.packet.content|; }
      out := out + [m];
      i := i + 1;
    }
  }

  method BridgeVisitorToProxy(input: seq<Message>, readError: IOError, accepts: nat, writeError: IOError)
    returns (out: seq<Message>, count: nat, err: Option<BridgeError>)
    ensures out == Taken(Packets(Known(input)), accepts)
    ensures count == PayloadBytes(out)
    ensures err == Ends(input, readError, Packets(Known(input)), accepts, writeError)
  {
    hide Known, PayloadBytes, Packets, Taken;
    Unread(input);
    out, count := [], 0;
    var i := 0;
    while true
      invariant 0 <= i <= |input| && |out| <= accepts
      invariant |Known(input)| == i + |Known(input[i..])|
      invariant Packets(Known(input)) == out + Packets(Known(input[i..]))
      invariant count == PayloadBytes(out)
      decreases |input| - i
    {
      KnownStep(input, i);
      TakenAll(out, accepts);
      if i == |input| { return out, count, NormalizeError(readError); }
      var m := input[i];
      if m.Unexpected? { return out, count, Some(UnexpectedMessage); }
      PacketsStep(m, Known(input[i + 1..]));
      if m.UDPPacket? {
        TakenSome(out, m, Packets(Known(input[i + 1..])));
        if |out| == accepts { return out, count, NormalizeError(writeError); }
        Shift(out, m, Packets(Known(input[i + 1..])));
        BytesStep(out, m);
        count := count + |m.packet.content|;
        out := out + [m];
      }
      i := i + 1;
    }
  }

  // ---------------------------------------------------------------------------------------
  // What the two directions mean

  /** A clean input is passed on whole; otherwise what comes before the first message that does not belong. */
  lemma {:induction false} KnownIff(ms: seq<Message>)
    ensures Known(ms) == ms <==> forall m <- ms :: !m.Unexpected?
    ensures |Known(ms)| < |ms| ==> ms[|Known(ms)|].Unexpected?
    ensures forall m <- Known(ms) :: !m.Unexpected?
  {
    if ms != [] && !ms[0].Unexpected? {
      KnownIff(ms[1..]);
      assert ms == [ms[0]] + ms[1..];
    }
  }

  /** Dropping pings drops no packet and no payload byte, and keeps the order. */
  lemma {:induction false} PacketsKeepPayload(ms: seq<Message>)
    ensures forall m <- Packets(ms) :: m.UDPPacket?
    ensures PayloadBytes(Packets(ms)) == PayloadBytes(ms)
  {
    hide Packets, PayloadBytes;
    if ms == [] {
      NothingToPass();
    } else {
      var init, m := ms[..|ms| - 1], ms[|ms| - 1];
      assert ms == init + [m];
      PacketsKeepPayload(init);
      PacketsAppend(init, m);
      BytesStep(init, m);
      BytesStep(Packets(init), m);
    }
  }

  lemma NothingToPass()
    ensures Packets([]) == [] && PayloadBytes([]) == 0
  {
  }

  lemma {:induction false} PacketsAppend(ms: seq<Message>, m: Message)
    ensures Packets(ms + [m]) == if m.UDPPacket? then Packets(ms) + [m] else Packets(ms)
  {
    if ms == [] {
      assert ms + [m] == [m] + [];
      PacketsStep(m, []);
    } else {
      assert ms + [m] == [ms[0]] + (ms[1..] + [m]);
      PacketsStep(ms[0], ms[1..] + [m]);
      PacketsAppend(ms[1..], m);
    }
  }
}
