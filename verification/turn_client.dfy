/**
 * The demonstration TURN client: its long-term credential mechanism, the
 * assembly of an Allocate request (section 6.1 of RFC 5766) and the
 * signing of that request before it is resent.  Sending and receiving
 * are not part of this model: a request is built and returned, and the
 * NONCE and REALM the server answered with are parameters.
 */
module TurnClient {
  import opened Wrappers
  import opened Stun

  /** The client's long-term credentials, with the key derived once at construction. */
  class LongTermCredentialMechanism {
    var nonce: string
    var realm: string
    var username: string
    var hmac: string

    constructor (nonce: string, realm: string, username: string, password: string, ha1: Ha1Function)
      ensures this.nonce == nonce && this.realm == realm && this.username == username
      ensures hmac == ha1(username, realm, password)
    {
      this.nonce := nonce;
      this.realm := realm;
      this.username := username;
      hmac := ha1(username, realm, password);
    }

    /** `update(msg)`: append USERNAME, NONCE, REALM, then MESSAGE-INTEGRITY keyed by the derived key. */
    method Update(msg: Message)
      modifies msg
      ensures msg.attributes ==
                old(msg.attributes) + [Username(username), Nonce(nonce), Realm(realm), MessageIntegrity(hmac)]
    {
      msg.AddAttr(Username(username));
      msg.AddAttr(Nonce(nonce));
      msg.AddAttr(Realm(realm));
      msg.AddAttr(MessageIntegrity(hmac));
    }
  }

  /** `if cond: msg.add_attr(a)`, on the attribute list. */
  function AppendIf(attrs: seq<Attribute>, cond: bool, a: Attribute): seq<Attribute>
  {
    if cond then attrs + [a] else attrs
  }

  /** The EVEN-PORT guard of `Allocate`: an even-port value and no non-empty reservation token. */
  predicate WantsEvenPort(evenPort: Option<int>, reservationToken: Option<seq<byte>>)
  {
    evenPort.Some? && !NonEmpty(reservationToken)
  }

  /**
   * The attributes `Allocate` appends, in order: REQUESTED-TRANSPORT, then
   * each of LIFETIME, DONT-FRAGMENT, EVEN-PORT and RESERVATION-TOKEN when
   * its guard holds.  RESERVATION-TOKEN carries the even-port value.
   */
  function AllocateAttributes(transport: int, timeToExpiry: Option<int>, dontFragment: bool,
                              evenPort: Option<int>, reservationToken: Option<seq<byte>>): (r: seq<Attribute>)
    ensures 1 <= |r| <= 4 && r[0] == RequestedTransport(transport)
  {
    var withTransport := [RequestedTransport(transport)];
    var withLifetime := AppendIf(withTransport, NonZero(timeToExpiry), Lifetime(timeToExpiry.GetOr(0)));
    var withFragment := AppendIf(withLifetime, dontFragment, DontFragment);
    var withEvenPort := AppendIf(withFragment, WantsEvenPort(evenPort, reservationToken), EvenPort(evenPort.GetOr(0)));
    AppendIf(withEvenPort, NonEmpty(reservationToken), ReservationToken(evenPort))
  }

  /**
   * Which optional attributes an Allocate request carries: LIFETIME iff the
   * expiry is non-zero (None and 0 both omit it), DONT-FRAGMENT iff asked
   * for, EVEN-PORT iff an even-port value (0 included) is given and the
   * reservation token is absent or empty, RESERVATION-TOKEN iff the token
   * is non-empty -- so never both of the last two.
   */
  lemma AllocatePresence(transport: int, timeToExpiry: Option<int>, dontFragment: bool,
                         evenPort: Option<int>, reservationToken: Option<seq<byte>>)
    ensures var r := AllocateAttributes(transport, timeToExpiry, dontFragment, evenPort, reservationToken);
            && Has(r, AttrRequestedTransport)
            && (Has(r, AttrLifetime) <==> NonZero(timeToExpiry))
            && (Has(r, AttrDontFragment) <==> dontFragment)
            && (Has(r, AttrEvenPort) <==> evenPort.Some? && !NonEmpty(reservationToken))
            && (Has(r, AttrReservationToken) <==> NonEmpty(reservationToken))
            && !(Has(r, AttrEvenPort) && Has(r, AttrReservationToken))
  {
    var codes := [AttrRequestedTransport, AttrLifetime, AttrDontFragment, AttrEvenPort, AttrReservationToken];
    var r0 := [RequestedTransport(transport)];
    var r1 := AppendIf(r0, NonZero(timeToExpiry), Lifetime(timeToExpiry.GetOr(0)));
    var r2 := AppendIf(r1, dontFragment, DontFragment);
    var r3 := AppendIf(r2, WantsEvenPort(evenPort, reservationToken), EvenPort(evenPort.GetOr(0)));
    var r4 := AppendIf(r3, NonEmpty(reservationToken), ReservationToken(evenPort));
    forall code | code in codes
      ensures Has(r1, code) <==> code == AttrRequestedTransport || (NonZero(timeToExpiry) && code == AttrLifetime)
      ensures Has(r2, code) <==> Has(r1, code) || (dontFragment && code == AttrDontFragment)
      ensures Has(r3, code) <==> Has(r2, code) || (WantsEvenPort(evenPort, reservationToken) && code == AttrEvenPort)
      ensures Has(r4, code) <==> Has(r3, code) || (NonEmpty(reservationToken) && code == AttrReservationToken)
    {
      assert Has(r0, code) <==> code == AttrRequestedTransport by {
        assert r0 == [] + [RequestedTransport(transport)];
        HasAppend([], RequestedTransport(transport), code);
      }
      HasAppend(r0, Lifetime(timeToExpiry.GetOr(0)), code);
      HasAppend(r1, DontFragment, code);
      HasAppend(r2, EvenPort(evenPort.GetOr(0)), code);
      HasAppend(r3, ReservationToken(evenPort), code);
    }
    assert AttrRequestedTransport in codes && AttrLifetime in codes && AttrDontFragment in codes;
    assert AttrEvenPort in codes && AttrReservationToken in codes;
  }

  /**
   * The arguments the optional attributes carry: LIFETIME the expiry,
   * EVEN-PORT the even-port value, and RESERVATION-TOKEN the even-port
   * value as well (possibly None), not the reservation token.
   */
  lemma AllocateArguments(transport: int, timeToExpiry: Option<int>, dontFragment: bool,
                          evenPort: Option<int>, reservationToken: Option<seq<byte>>)
    ensures var r := AllocateAttributes(transport, timeToExpiry, dontFragment, evenPort, reservationToken);
            forall i :: 0 <= i < |r| ==>
              && (r[i].RequestedTransport? ==> r[i].protocol == transport)
              && (r[i].Lifetime? ==> r[i].seconds == timeToExpiry.value)
              && (r[i].EvenPort? ==> r[i].evenPort == evenPort.value)
              && (r[i].ReservationToken? ==> r[i].arg == evenPort)
  {
  }

  /** The place of each attribute in an Allocate request. */
  function AllocateRank(a: Attribute): nat
  {
    match a
    case RequestedTransport(_) => 0
    case Lifetime(_) => 1
    case DontFragment => 2
    case EvenPort(_) => 3
    case ReservationToken(_) => 3
    case _ => 4
  }

  /** Every attribute of `attrs` comes strictly after the ones before it. */
  predicate InAllocateOrder(attrs: seq<Attribute>)
  {
    forall i, j :: 0 <= i < j < |attrs| ==> AllocateRank(attrs[i]) < AllocateRank(attrs[j])
  }

  /** Every attribute of `attrs` ranks below `k`. */
  predicate RanksBelow(attrs: seq<Attribute>, k: nat)
  {
    forall i :: 0 <= i < |attrs| ==> AllocateRank(attrs[i]) < k
  }

  /**
   * An Allocate request lists REQUESTED-TRANSPORT, then LIFETIME, then
   * DONT-FRAGMENT, then EVEN-PORT or RESERVATION-TOKEN, each at most once,
   * and nothing else.
   */
  lemma AllocateOrder(transport: int, timeToExpiry: Option<int>, dontFragment: bool,
                      evenPort: Option<int>, reservationToken: Option<seq<byte>>)
    ensures InAllocateOrder(AllocateAttributes(transport, timeToExpiry, dontFragment, evenPort, reservationToken))
    ensures RanksBelow(AllocateAttributes(transport, timeToExpiry, dontFragment, evenPort, reservationToken), 4)
  {
  }

  /**
   * `Demo.Allocate(...)` up to the point where the request is sent: an
   * Allocate request whose attributes are `AllocateAttributes` of the
   * arguments.  The defaults of the source are UDP, no expiry, no
   * DONT-FRAGMENT, no even port and no reservation token.
   */
  method Allocate(transport: int, timeToExpiry: Option<int>, dontFragment: bool,
                  evenPort: Option<int>, reservationToken: Option<seq<byte>>) returns (request: Message)
    ensures fresh(request)
    ensures request.msgMethod == MethodAllocate && request.msgClass == Request
    ensures request.attributes == AllocateAttributes(transport, timeToExpiry, dontFragment, evenPort, reservationToken)
  {
    request := new Message.Encode(MethodAllocate, Request);
    request.AddAttr(RequestedTransport(transport));
    if NonZero(timeToExpiry) {
      request.AddAttr(Lifetime(timeToExpiry.GetOr(0)));
    }
    if dontFragment {
      request.AddAttr(DontFragment);
    }
    if WantsEvenPort(evenPort, reservationToken) {
      request.AddAttr(EvenPort(evenPort.GetOr(0)));
    }
    if NonEmpty(reservationToken) {
      request.AddAttr(ReservationToken(evenPort));
    }
  }

  /**
   * The request of `main`, once the server's challenge has supplied `nonce`
   * and `realm`: the default Allocate request, signed by the client's
   * long-term mechanism and closed by FINGERPRINT.
   */
  method SignedAllocate(nonce: string, realm: string, username: string, password: string, ha1: Ha1Function)
    returns (request: Message)
    ensures fresh(request)
    ensures request.msgMethod == MethodAllocate && request.msgClass == Request
    ensures request.attributes == [RequestedTransport(TransportUdp), Username(username), Nonce(nonce), Realm(realm),
                                   MessageIntegrity(ha1(username, realm, password)), Fingerprint]
    ensures IntegrityThenFingerprint(request.attributes)
  {
    request := Allocate(TransportUdp, None, false, None, None);
    var mechanism := new LongTermCredentialMechanism(nonce, realm, username, password, ha1);
    mechanism.Update(request);
    request.AddAttr(Fingerprint);
  }

  /**
   * Whatever arguments `Allocate` is given, signing its request with the
   * client's `update` and then appending FINGERPRINT leaves
   * MESSAGE-INTEGRITY second-to-last and FINGERPRINT last, each exactly
   * once, as sections 15.4 and 15.5 of RFC 5389 require.
   */
  lemma SignedAllocateWellFormed(transport: int, timeToExpiry: Option<int>, dontFragment: bool,
                                 evenPort: Option<int>, reservationToken: Option<seq<byte>>,
                                 username: string, nonce: string, realm: string, key: string)
    ensures IntegrityThenFingerprint(
              AllocateAttributes(transport, timeToExpiry, dontFragment, evenPort, reservationToken)
              + [Username(username), Nonce(nonce), Realm(realm), MessageIntegrity(key)]
              + [Fingerprint])
  {
  }
}
