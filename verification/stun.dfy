/**
 * The STUN/TURN message as the core sees it: a method, a class and an
 * ordered list of attributes that `add_attr` appends to.  The binary
 * codec (header layout, TLV encoding, padding, XOR addresses) lives in
 * modules that are not part of this model; an attribute is represented
 * by its type and the raw argument passed to `add_attr`.
 */
module Stun {
  import opened Wrappers

  /** An octet. */
  type byte = x: int | 0 <= x < 256

  /** The 12-bit STUN method field (section 6 of RFC 5389). */
  type MethodCode = m: int | 0 <= m < 0x1000

  /** Binding (section 18.1 of RFC 5389). */
  const MethodBinding: MethodCode := 0x001
  /** Allocate (section 13 of RFC 5766). */
  const MethodAllocate: MethodCode := 0x003

  /** The 2-bit STUN class field (section 6 of RFC 5389). */
  datatype MessageClass = Request | Indication | SuccessResponse | ErrorResponse

  /** The value of the two leading bits of a STUN message (section 6 of RFC 5389). */
  const MsgStun: int := 0

  /**
   * `utils.ha1(username, realm, password)`, the long-term key derivation
   * shared by the server and client mechanisms; not part of this model.
   */
  type Ha1Function = (string, string, string) -> string

  /** The REQUESTED-TRANSPORT value for UDP (section 14.7 of RFC 5766). */
  const TransportUdp: int := 17

  /** Attribute type codes (section 18.2 of RFC 5389, section 14 of RFC 5766). */
  const AttrUsername: int := 0x0006
  const AttrMessageIntegrity: int := 0x0008
  const AttrLifetime: int := 0x000D
  const AttrRealm: int := 0x0014
  const AttrNonce: int := 0x0015
  const AttrEvenPort: int := 0x0018
  const AttrRequestedTransport: int := 0x0019
  const AttrDontFragment: int := 0x001A
  const AttrReservationToken: int := 0x0022
  const AttrFingerprint: int := 0x8028

  /**
   * An attribute as appended by the core, carrying the raw argument of
   * `add_attr`.  MESSAGE-INTEGRITY carries the key it is to be computed
   * with; FINGERPRINT and DONT-FRAGMENT carry nothing; RESERVATION-TOKEN
   * carries whatever its caller passed, which may be None (`Allocate`
   * passes the even-port value, not the token).
   */
  datatype Attribute =
    | Username(name: string)
    | MessageIntegrity(key: string)
    | Realm(realm: string)
    | Nonce(nonce: string)
    | Fingerprint
    | RequestedTransport(protocol: int)
    | Lifetime(seconds: int)
    | DontFragment
    | EvenPort(evenPort: int)
    | ReservationToken(arg: Option<int>)
  {
    /** The attribute's 16-bit type code. */
    function TypeCode(): int
    {
      match this
      case Username(_) => AttrUsername
      case MessageIntegrity(_) => AttrMessageIntegrity
      case Realm(_) => AttrRealm
      case Nonce(_) => AttrNonce
      case Fingerprint => AttrFingerprint
      case RequestedTransport(_) => AttrRequestedTransport
      case Lifetime(_) => AttrLifetime
      case DontFragment => AttrDontFragment
      case EvenPort(_) => AttrEvenPort
      case ReservationToken(_) => AttrReservationToken
    }
  }

  /** Some attribute of type `code` occurs in `attrs`. */
  predicate Has(attrs: seq<Attribute>, code: int)
  {
    exists i :: 0 <= i < |attrs| && attrs[i].TypeCode() == code
  }

  /** Appending one attribute adds exactly its type to those present. */
  lemma HasAppend(attrs: seq<Attribute>, a: Attribute, code: int)
    ensures Has(attrs + [a], code) <==> Has(attrs, code) || a.TypeCode() == code
  {
    var r := attrs + [a];
    if Has(attrs, code) {
      var i :| 0 <= i < |attrs| && attrs[i].TypeCode() == code;
      assert r[i] == attrs[i];
    }
    if a.TypeCode() == code {
      assert r[|attrs|] == a;
    }
    if Has(r, code) {
      var i :| 0 <= i < |r| && r[i].TypeCode() == code;
      if i < |attrs| {
        assert attrs[i] == r[i];
      }
    }
  }

  /**
   * MESSAGE-INTEGRITY and FINGERPRINT are each present exactly once, with
   * MESSAGE-INTEGRITY second-to-last and FINGERPRINT last (sections 15.4
   * and 15.5 of RFC 5389).
   */
  predicate IntegrityThenFingerprint(attrs: seq<Attribute>)
  {
    && |attrs| >= 2
    && attrs[|attrs| - 2].MessageIntegrity?
    && attrs[|attrs| - 1].Fingerprint?
    && forall i :: 0 <= i < |attrs| - 2 ==> !attrs[i].MessageIntegrity? && !attrs[i].Fingerprint?
  }

  /** An outgoing message being assembled (`agent.Message`). */
  class Message {
    const msgMethod: MethodCode
    const msgClass: MessageClass
    var attributes: seq<Attribute>

    /** `Message.encode(method, class)`: a message with no attributes yet. */
    constructor Encode(m: MethodCode, c: MessageClass)
      ensures msgMethod == m && msgClass == c
      ensures attributes == []
    {
      msgMethod := m;
      msgClass := c;
      attributes := [];
    }

    /** `add_attr`: append one attribute, keeping the earlier ones. */
    method AddAttr(a: Attribute)
      modifies this
      ensures attributes == old(attributes) + [a]
    {
      attributes := attributes + [a];
    }
  }
}
