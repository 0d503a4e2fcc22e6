/**
 * The STUN-over-UDP protocol object: demultiplexing of incoming datagrams
 * by their two leading bits, decoding, and dispatch through a fixed
 * (method, class) -> handler table.  Nothing here changes state after
 * construction, so the object is a value and receiving a datagram is a
 * function that says what happened to it.
 *
 * `Message.decode` is not part of this model: it is passed in as an
 * arbitrary function, None standing for an exception it raises.
 */
module Protocol {
  import opened Wrappers
  import opened Stun

  /** A transport address, as handed to `datagramReceived`. */
  datatype Address = Address(host: string, port: int)

  /** The (method, class) pair a handler is looked up by. */
  datatype Header = Header(msgMethod: MethodCode, msgClass: MessageClass)

  /** What `Message.decode` may return: a `Message`, or an object of some other type. */
  datatype Decoded = DecodedMessage(header: Header, attributes: seq<Attribute>) | OtherObject

  /** `Message.decode`; None when it raises. */
  type Decoder = seq<byte> -> Option<Decoded>

  /** The four Binding handlers of the table. */
  datatype Handler = BindingRequest | BindingIndication | BindingSuccess | BindingError

  /** What a handler does: every shown handler reports the message as unhandled. */
  datatype Effect = ReportedUnhandled(header: Header, from: Address)

  /** The fate of one datagram. */
  datatype Outcome =
    | IndexError                              // empty datagram: `datagram[0]` raises before the `try`
    | NotStun                                 // leading bits not 00: logged and dropped
    | DecodeFailed                            // `Message.decode` raised: caught, logged, dropped
    | NotAMessage                             // decoded to something that is not a `Message`: ignored
    | Unrecognized(header: Header)            // no handler for (method, class): logged, dropped
    | Dispatched(handler: Handler, effect: Effect)

  /** The state `StunUdpProtocol.__init__` sets up (the reactor, RTO and timeout are left out). */
  datatype StunUdpProtocol = StunUdpProtocol(
    interface: string,
    port: int,
    software: string,
    rc: int,
    handlers: map<Header, Handler>)

  /** The message class a Binding handler is registered for. */
  function HandledClass(h: Handler): MessageClass
  {
    match h
    case BindingRequest => Request
    case BindingIndication => Indication
    case BindingSuccess => SuccessResponse
    case BindingError => ErrorResponse
  }

  /**
   * `StunUdpProtocol(reactor, interface, port, software, RTO, Rc, Rm)`:
   * the `Rc` argument is ignored and the retransmission count is always 7;
   * the table holds exactly one Binding handler per class.
   */
  function Create(interface: string, port: int, software: string, rc: int): (p: StunUdpProtocol)
    ensures p.interface == interface && p.port == port && p.software == software
    ensures p.rc == 7
    ensures |p.handlers| == 4
    ensures forall h :: h in p.handlers ==> h.msgMethod == MethodBinding && HandledClass(p.handlers[h]) == h.msgClass
    ensures forall c: MessageClass :: Header(MethodBinding, c) in p.handlers
  {
    var handlers := map[
      Header(MethodBinding, Request) := BindingRequest,
      Header(MethodBinding, Indication) := BindingIndication,
      Header(MethodBinding, SuccessResponse) := BindingSuccess,
      Header(MethodBinding, ErrorResponse) := BindingError];
    assert handlers.Keys == {
      Header(MethodBinding, Request), Header(MethodBinding, Indication),
      Header(MethodBinding, SuccessResponse), Header(MethodBinding, ErrorResponse)};
    assert forall c: MessageClass :: Header(MethodBinding, c) in handlers by {
      forall c: MessageClass ensures Header(MethodBinding, c) in handlers {
        assert c.Request? || c.Indication? || c.SuccessResponse? || c.ErrorResponse?;
      }
    }
    StunUdpProtocol(interface, port, software, 7, handlers)
  }

  /**
   * `_stun_binding_*`: each delegates to `_stun_unhandeled`, which only
   * logs, so every handler has the same effect on the same message.
   */
  function RunHandler(h: Handler, header: Header, addr: Address): (e: Effect)
    ensures e == ReportedUnhandled(header, addr)
  {
    match h
    case BindingRequest => ReportedUnhandled(header, addr)
    case BindingIndication => ReportedUnhandled(header, addr)
    case BindingSuccess => ReportedUnhandled(header, addr)
    case BindingError => ReportedUnhandled(header, addr)
  }

  /** `datagram[0] >> 6`: the value of the two most significant bits of the first byte. */
  function MessageType(b: byte): (t: int)
    ensures 0 <= t <= 3
    ensures t == MsgStun <==> b < 0x40
  {
    b / 64
  }

  /** `_stun_received`: look the (method, class) pair up and run its handler, if any. */
  function StunReceived(p: StunUdpProtocol, header: Header, addr: Address): (o: Outcome)
    ensures o.Dispatched? <==> header in p.handlers
    ensures o.Dispatched? ==> o.handler == p.handlers[header] && o.effect == ReportedUnhandled(header, addr)
    ensures !o.Dispatched? ==> o == Unrecognized(header)
  {
    if header in p.handlers then
      var h := p.handlers[header];
      Dispatched(h, RunHandler(h, header, addr))
    else
      Unrecognized(header)
  }

  /** `datagramReceived`: demultiplex, decode, and hand a decoded `Message` on. */
  function DatagramReceived(p: StunUdpProtocol, datagram: seq<byte>, addr: Address, decode: Decoder): (o: Outcome)
    ensures o == IndexError <==> |datagram| == 0
    ensures o == NotStun <==> |datagram| > 0 && datagram[0] >= 0x40
    ensures !o.IndexError? && !o.NotStun? ==> datagram[0] < 0x40
    ensures o == DecodeFailed <==> |datagram| > 0 && datagram[0] < 0x40 && decode(datagram) == None
    ensures o == NotAMessage <==> |datagram| > 0 && datagram[0] < 0x40 && decode(datagram) == Some(OtherObject)
    ensures o.Unrecognized? || o.Dispatched? <==>
              |datagram| > 0 && datagram[0] < 0x40 && decode(datagram).Some? && decode(datagram).value.DecodedMessage?
    ensures |datagram| > 0 && datagram[0] < 0x40 && decode(datagram).Some? && decode(datagram).value.DecodedMessage? ==>
              o == StunReceived(p, decode(datagram).value.header, addr)
  {
    if |datagram| == 0 then IndexError
    else if MessageType(datagram[0]) != MsgStun then NotStun
    else
      match decode(datagram)
      case None => DecodeFailed
      case Some(OtherObject) => NotAMessage
      case Some(DecodedMessage(header, _)) => StunReceived(p, header, addr)
  }

  /**
   * Of the protocol built by `Create`, exactly the four Binding messages
   * reach a handler, and that handler only reports them as unhandled;
   * every other (method, class) pair is dropped as unrecognized.
   */
  lemma BindingOnly(interface: string, port: int, software: string, rc: int,
                    datagram: seq<byte>, addr: Address, decode: Decoder)
    ensures var o := DatagramReceived(Create(interface, port, software, rc), datagram, addr, decode);
            o.Dispatched? <==>
              |datagram| > 0 && datagram[0] < 0x40 && decode(datagram).Some? &&
              decode(datagram).value.DecodedMessage? && decode(datagram).value.header.msgMethod == MethodBinding
    ensures var o := DatagramReceived(Create(interface, port, software, rc), datagram, addr, decode);
            o.Dispatched? ==>
              HandledClass(o.handler) == decode(datagram).value.header.msgClass &&
              o.effect == ReportedUnhandled(decode(datagram).value.header, addr)
  {
  }
}
