# sturn credential, dispatch and Allocate-request model

A Dafny model of three pieces of `sturn`, a Python STUN (RFC 5389) / TURN
(RFC 5766) implementation:

- **Credential bookkeeping** (`sturn/stun/authentication.py`): the short-term
  mechanism (section 10.1 of RFC 5389), which keys MESSAGE-INTEGRITY with the
  SASLprep-normalised password, and the long-term mechanism (section 10.2),
  which holds a realm, a 16-character lower-case hex nonce made once from
  random bytes, and an insertion-ordered username → key table built from the
  configured users (a non-empty pre-derived `key` wins over the password,
  a user with neither is skipped) and grown by `add_user`. Its `update`
  appends NONCE, REALM and MESSAGE-INTEGRITY keyed by the earliest-inserted
  key.
- **Datagram demultiplexing and dispatch** (`sturn/stun/protocol.py`): the two
  leading bits of a datagram decide whether it is STUN (section 6 of
  RFC 5389); a STUN datagram is decoded, decode failures are swallowed, and a
  decoded `Message` is routed through a fixed (method, class) → handler table
  with one Binding handler per class. Unknown pairs are dropped.
- **Client request assembly** (`turnc.py`): the client's long-term mechanism
  (USERNAME, NONCE, REALM, MESSAGE-INTEGRITY with `ha1(username, realm,
  password)`), the conditional attribute appends of an Allocate request
  (REQUESTED-TRANSPORT, LIFETIME, DONT-FRAGMENT, EVEN-PORT, RESERVATION-TOKEN;
  sections 6.1, 14.2, 14.6, 14.7, 14.8 and 14.9 of RFC 5766), and the signing
  of that request followed by FINGERPRINT.

A message is abstracted to a method, a class and a sequence of attributes
that `add_attr` appends to (`Stun.Message`); an attribute is a tagged value
carrying the raw argument given to `add_attr`. `ha1`, `saslprep` and
`Message.decode` are not part of this model: they are parameters (arbitrary
Dafny functions), so no proof depends on how they compute. The random bytes
of `os.urandom` are a parameter too.

Files: `wrappers.dfy` (Option, Python truthiness), `insertion_order.dfy`
(dictionary semantics on a sequence of pairs with distinct keys), `stun.dfy`
(codes, attributes, the message class), `authentication.dfy`,
`protocol.dfy`, `turn_client.dfy`.

Behaviour of the code worth knowing, which the model keeps:

- The server's long-term `update` appends NONCE, REALM and MESSAGE-INTEGRITY
  but no USERNAME, and keys MESSAGE-INTEGRITY with the first stored key,
  whoever the message is for; section 10.2.2 of RFC 5389 has a request carry
  USERNAME and be keyed by that user's own key.
- `StunUdpProtocol` ignores its `Rc` argument and always stores 7.
- The demultiplexing by the two leading bits happens in `datagramReceived`,
  before decoding: a datagram whose leading bits are not 00 never reaches
  `Message.decode`.

## Model

| member | source | states |
|---|---|---|
| `InsertionOrder.Put` | sturn/stun/authentication.py:48 | Dictionary assignment: the key maps to the new value, every other key keeps its value, keys stay distinct; an existing key keeps its position, a new key is appended at the end |
| `Stun.Message.Encode` | turnc.py:57 | A fresh message has the given method and class and no attributes |
| `Stun.Message.AddAttr` | turnc.py:58 | `add_attr` appends exactly one attribute and keeps the earlier ones |
| `Authentication.Hex` | sturn/stun/authentication.py:52 | `bytes.hex()` yields two characters per byte, all lower-case hex digits |
| `Authentication.UnhexHex` | sturn/stun/authentication.py:50-53 | Hex encoding is invertible: decoding the nonce text gives back the random bytes |
| `Authentication.GenerateNonce` | sturn/stun/authentication.py:50-53 | A nonce of `length` is `2*(length//2)` lower-case hex characters encoding the `length//2` random bytes |
| `Authentication.KeyFor` | sturn/stun/authentication.py:37-45 | One user gets a key iff it has a non-empty `key` or a non-empty password; a non-empty `key` is stored as it is, otherwise the key is `ha1(username, realm, password)` |
| `Authentication.DerivedKeys` | sturn/stun/authentication.py:35-45 | The table the constructor's loop builds has distinct usernames, all drawn from the configured users |
| `Authentication.DerivedKeysAbsent` | sturn/stun/authentication.py:36-45 | A username not configured has no key |
| `Authentication.DerivedKeysLookup` | sturn/stun/authentication.py:36-45 | A user's stored key is its non-empty `key` (password ignored), else `ha1(username, realm, password)` for a non-empty password, else the user is absent |
| `Authentication.DerivedKeysEmpty` | sturn/stun/authentication.py:36-45 | The table is empty exactly when no configured user has a usable key or password |
| `Authentication.DerivedKeysFirst` | sturn/stun/authentication.py:58 | The earliest-inserted entry, which `update` signs with, belongs to the first configured user with a usable key or password |
| `Authentication.ShortTermCredentialMechanism.constructor` | sturn/stun/authentication.py:19-21 | The username is stored unchanged and the key is `saslprep(password)` |
| `Authentication.ShortTermCredentialMechanism.Update` | sturn/stun/authentication.py:23-25 | Appends exactly USERNAME(username) then MESSAGE-INTEGRITY(key), earlier attributes untouched |
| `Authentication.LongTermCredentialMechanism.constructor` | sturn/stun/authentication.py:32-45 | The realm is stored, the nonce is the 16-character hex nonce of the random bytes, the table is the one built from the users in their order |
| `Authentication.LongTermCredentialMechanism.AddUser` | sturn/stun/authentication.py:47-48 | The table becomes the old one with `username` set to `ha1(username, realm, password)`; realm and nonce unchanged, distinct keys kept |
| `Authentication.LongTermCredentialMechanism.Update` | sturn/stun/authentication.py:55-58 | Appends NONCE, REALM, then MESSAGE-INTEGRITY with the first stored key and no USERNAME; on an empty table only NONCE and REALM are appended and the call fails |
| `Authentication.LongTermCredentialMechanism.ToString` | sturn/stun/authentication.py:60-61 | The text is "realm=" followed by exactly the realm |
| `Protocol.Create` | sturn/stun/protocol.py:13-38 | `Rc` is 7 whatever is passed; the table has exactly four keys, all Binding, one per class, each mapped to that class's handler |
| `Protocol.MessageType` | sturn/stun/protocol.py:45 | `datagram[0] >> 6` is in 0..3 and is the STUN type exactly when the first byte is below 0x40 |
| `Protocol.RunHandler` | sturn/stun/protocol.py:69-83 | Every Binding handler delegates to `_stun_unhandeled`: whichever handler runs, the effect is reporting that message from that address as unhandled |
| `Protocol.StunReceived` | sturn/stun/protocol.py:59-67 | A (method, class) pair reaches a handler iff it is in the table, and that handler only reports the message unhandled; otherwise it is dropped as unrecognized |
| `Protocol.DatagramReceived` | sturn/stun/protocol.py:44-57 | An empty datagram raises; a non-STUN datagram is never decoded; a decode failure is caught; a non-`Message` result is ignored; a decoded `Message` always goes to the table lookup, and only such a message is dispatched |
| `Protocol.BindingOnly` | sturn/stun/protocol.py:59-83 | With the constructed table, a datagram reaches a handler iff it decodes to a Binding message, and the handler is the one for its class and only reports it |
| `TurnClient.LongTermCredentialMechanism.constructor` | turnc.py:13-17 | The key is `ha1(username, realm, password)`, fixed at construction |
| `TurnClient.LongTermCredentialMechanism.Update` | turnc.py:19-23 | Appends USERNAME, NONCE, REALM, MESSAGE-INTEGRITY(key) in that order and removes nothing |
| `TurnClient.AllocateAttributes` | turnc.py:58-66 | An Allocate request starts with REQUESTED-TRANSPORT(transport) and carries at most four attributes |
| `TurnClient.AllocatePresence` | turnc.py:59-66 | LIFETIME iff the expiry is non-zero (None and 0 omit it); DONT-FRAGMENT iff asked; EVEN-PORT iff an even-port value (0 included) and no non-empty token; RESERVATION-TOKEN iff a non-empty token; never both of the last two |
| `TurnClient.AllocateArguments` | turnc.py:58-66 | LIFETIME carries the expiry, EVEN-PORT the even-port value, and RESERVATION-TOKEN the even-port value too, not the token |
| `TurnClient.AllocateOrder` | turnc.py:58-66 | Attributes appear in the order REQUESTED-TRANSPORT, LIFETIME, DONT-FRAGMENT, EVEN-PORT or RESERVATION-TOKEN, each at most once, and nothing else |
| `TurnClient.Allocate` | turnc.py:49-66 | Builds a fresh Allocate request of class Request whose attributes are `AllocateAttributes` of the arguments |
| `TurnClient.SignedAllocate` | turnc.py:75-80 | The request of `main` is REQUESTED-TRANSPORT(UDP), USERNAME, NONCE, REALM, MESSAGE-INTEGRITY(ha1 key), FINGERPRINT |
| `TurnClient.SignedAllocateWellFormed` | turnc.py:79-80 | For any Allocate arguments, after `update` and the FINGERPRINT append, MESSAGE-INTEGRITY is second-to-last and FINGERPRINT last, each exactly once |

## Left out

- The STUN/TURN codec, MESSAGE-INTEGRITY and FINGERPRINT computation, `ha1`, `saslprep` and `Message.decode`/`encode`: `agent`, `attributes` and `utils` are not part of this model; the functions are parameters and the message is abstract.
- The client retransmission machine and the TURN server allocation table: no source for them is part of this model.
- `StunUdpProtocol.start`, the reactor, and all logging: I/O. Outcomes name what would be logged instead.
- `self.RTO = .5` and `self.timeout = Rm * RTO` in `StunUdpProtocol.__init__`: floating-point timing values used by no shown code.
- `Demo.__init__`, `Demo.Request`, `Demo.close`, the sending part of `Demo.Allocate`, `stunc.py` and `turnd.py`: socket I/O and process bootstrap. Of `main` in `turnc.py`, lines 71-74, 76-78 and 81 and the sending part of line 75 are left out for the same reason; the NONCE and REALM that lines 77-78 read from the server's answer are parameters of `SignedAllocate`.
- `os.urandom`: the random bytes are a parameter of the long-term constructor and of `GenerateNonce`.
- `CredentialMechanism.update` (a no-op base method) and `LongTermCredentialMechanism.__repr__`: they add nothing beyond `ToString`.
- Python's `str`/`bytes` distinction: usernames, passwords, realms, keys and nonces are all text here. With a `bytes` realm, as the server bootstrap passes, Python's `__str__` would print the bytes literal form. `Authentication.LongTermCredentialMechanism.ToString` does not model that.
- Exceptions other than the ones named: an empty datagram is the outcome `IndexError`, and the long-term `update` on an empty table returns `false` after its first two appends. What Twisted does with the escaping exception is not modelled.
- The logging done by the four Binding handlers: the model records a `ReportedUnhandled` effect and no state change.
- Dynamic typing: LIFETIME and EVEN-PORT arguments are integers, the reservation token is an optional byte string, and `add_attr` is assumed never to fail.
