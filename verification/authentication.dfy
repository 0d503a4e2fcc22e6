/**
 * The server-side credential mechanisms: the short-term mechanism of
 * section 10.1 of RFC 5389 and the long-term mechanism of section 10.2.
 *
 * `ha1` (the key derivation MD5(username ":" realm ":" password) of
 * section 15.4 of RFC 5389) and `saslprep` (RFC 4013) are not part of this
 * model: they are taken as arbitrary functions, so nothing proved here
 * depends on how they compute.
 */
module Authentication {
  import opened Wrappers
  import opened InsertionOrder
  import opened Stun

  /** `utils.saslprep(password)`. */
  type SaslPrepFunction = string -> string

  // ---------------------------------------------------------------------
  // Nonces: lower-case hexadecimal text of random bytes
  // ---------------------------------------------------------------------

  /** The default `length` of `generate_nonce`. */
  const DefaultNonceLength: nat := 16

  predicate IsLowerHexDigit(c: char)
  {
    '0' <= c <= '9' || 'a' <= c <= 'f'
  }

  predicate IsLowerHex(s: string)
  {
    forall i :: 0 <= i < |s| ==> IsLowerHexDigit(s[i])
  }

  /** The lower-case hexadecimal digit for a nibble. */
  function HexDigit(n: nat): (c: char)
    requires n < 16
    ensures IsLowerHexDigit(c)
  {
    if n < 10 then ('0' as int + n) as char else ('a' as int + n - 10) as char
  }

  /** The value of one lower-case hexadecimal digit. */
  function HexValue(c: char): (n: nat)
    requires IsLowerHexDigit(c)
    ensures n < 16 && HexDigit(n) == c
  {
    if c <= '9' then c as int - '0' as int else c as int - 'a' as int + 10
  }

  /** `bytes.hex()`: two lower-case digits per byte, high nibble first. */
  function Hex(bs: seq<byte>): (s: string)
    ensures |s| == 2 * |bs|
    ensures IsLowerHex(s)
  {
    if bs == [] then ""
    else [HexDigit(bs[0] / 16), HexDigit(bs[0] % 16)] + Hex(bs[1..])
  }

  /** The bytes a lower-case hexadecimal text stands for. */
  function Unhex(s: string): (bs: seq<byte>)
    requires |s| % 2 == 0 && IsLowerHex(s)
    ensures |bs| == |s| / 2
  {
    if s == [] then []
    else [16 * HexValue(s[0]) + HexValue(s[1])] + Unhex(s[2..])
  }

  /** Hexadecimal encoding loses nothing: the random bytes can be read back. */
  lemma {:induction false} UnhexHex(bs: seq<byte>)
    ensures Unhex(Hex(bs)) == bs
  {
    if bs != [] {
      var hi, lo := bs[0] / 16, bs[0] % 16;
      var s := Hex(bs);
      assert s == [HexDigit(hi), HexDigit(lo)] + Hex(bs[1..]);
      assert HexValue(HexDigit(hi)) == hi;
      assert HexValue(HexDigit(lo)) == lo;
      assert s[2..] == Hex(bs[1..]);
      UnhexHex(bs[1..]);
      assert Unhex(s) == [16 * hi + lo] + bs[1..];
    }
  }

  /**
   * `generate_nonce(length)`, given the `length // 2` bytes that
   * `os.urandom` would have produced.
   */
  function GenerateNonce(length: nat, random: seq<byte>): (nonce: string)
    requires |random| == length / 2
    ensures |nonce| == 2 * (length / 2)
    ensures IsLowerHex(nonce)
    ensures Unhex(nonce) == random
  {
    UnhexHex(random);
    Hex(random)
  }

  // ---------------------------------------------------------------------
  // The long-term key table
  // ---------------------------------------------------------------------

  /** One entry of the configured user mapping: an optional pre-derived key and an optional password. */
  datatype Credentials = Credentials(key: Option<string>, password: Option<string>)

  /**
   * The key the constructor stores for one user, or None when it skips
   * the user: a non-empty `key` wins, otherwise a non-empty `password`
   * is run through `ha1`.
   */
  function KeyFor(username: string, realm: string, c: Credentials, ha1: Ha1Function): (k: Option<string>)
    ensures k.Some? <==> NonEmpty(c.key) || NonEmpty(c.password)
    ensures NonEmpty(c.key) ==> k == Some(c.key.value)
    ensures !NonEmpty(c.key) && NonEmpty(c.password) ==> k == Some(ha1(username, realm, c.password.value))
  {
    if NonEmpty(c.key) then Some(c.key.value)
    else if !NonEmpty(c.password) then None
    else Some(ha1(username, realm, c.password.value))
  }

  /** The key table the constructor's loop builds from the users, in their order. */
  function DerivedKeys(users: Entries<string, Credentials>, realm: string, ha1: Ha1Function): (t: Entries<string, string>)
    ensures UniqueKeys(t)
    ensures forall k :: k in Keys(t) ==> k in Keys(users)
    decreases |users|
  {
    if users == [] then []
    else
      var prev := users[..|users| - 1];
      var (username, credentials) := users[|users| - 1];
      var t := DerivedKeys(prev, realm, ha1);
      assert forall k :: k in Keys(prev) ==> k in Keys(users) by {
        forall k | k in Keys(prev) ensures k in Keys(users) {
          var i :| 0 <= i < |prev| && Keys(prev)[i] == k;
          assert Keys(users)[i] == k;
        }
      }
      match KeyFor(username, realm, credentials, ha1)
      case Some(key) =>
        assert Keys(users)[|users| - 1] == username;
        Put(t, username, key)
      case None => t
  }

  /** A user absent from the mapping never gets a key. */
  lemma DerivedKeysAbsent(users: Entries<string, Credentials>, realm: string, ha1: Ha1Function, u: string)
    requires u !in Keys(users)
    ensures Get(DerivedKeys(users, realm, ha1), u) == None
  {
  }

  /**
   * What the constructor stores for the `i`-th configured user: the
   * pre-derived key when it is non-empty (the password is then ignored),
   * `ha1(username, realm, password)` when only a non-empty password is
   * given, and nothing at all when neither is.
   */
  lemma {:induction false} DerivedKeysLookup(users: Entries<string, Credentials>, realm: string, ha1: Ha1Function, i: nat)
    requires UniqueKeys(users) && i < |users|
    ensures Get(DerivedKeys(users, realm, ha1), users[i].0) == KeyFor(users[i].0, realm, users[i].1, ha1)
    ensures NonEmpty(users[i].1.key) ==>
              Get(DerivedKeys(users, realm, ha1), users[i].0) == Some(users[i].1.key.value)
    ensures !NonEmpty(users[i].1.key) && NonEmpty(users[i].1.password) ==>
              Get(DerivedKeys(users, realm, ha1), users[i].0) == Some(ha1(users[i].0, realm, users[i].1.password.value))
    ensures !NonEmpty(users[i].1.key) && !NonEmpty(users[i].1.password) ==>
              Get(DerivedKeys(users, realm, ha1), users[i].0) == None
  {
    var n := |users| - 1;
    var prev := users[..n];
    var (username, credentials) := users[n];
    var t := DerivedKeys(prev, realm, ha1);
    assert UniqueKeys(prev);
    if i == n {
      assert username !in Keys(prev) by {
        forall j | 0 <= j < |prev| ensures Keys(prev)[j] != username {
          assert prev[j].0 == users[j].0;
        }
      }
      DerivedKeysAbsent(prev, realm, ha1, username);
    } else {
      DerivedKeysLookup(prev, realm, ha1, i);
      assert users[i] == prev[i];
      assert users[i].0 != username;
    }
  }

  /** The table is empty exactly when no configured user has a usable key or password. */
  lemma {:induction false} DerivedKeysEmpty(users: Entries<string, Credentials>, realm: string, ha1: Ha1Function)
    ensures DerivedKeys(users, realm, ha1) == [] <==>
              forall i :: 0 <= i < |users| ==> KeyFor(users[i].0, realm, users[i].1, ha1) == None
  {
    if users != [] {
      var n := |users| - 1;
      var prev := users[..n];
      DerivedKeysEmpty(prev, realm, ha1);
      assert forall i :: 0 <= i < n ==> prev[i] == users[i];
    }
  }

  /**
   * The earliest-inserted entry, the one `update` signs with, belongs to
   * the first configured user that has a usable key or password.
   */
  lemma {:induction false} DerivedKeysFirst(users: Entries<string, Credentials>, realm: string, ha1: Ha1Function, i: nat)
    requires UniqueKeys(users) && i < |users|
    requires KeyFor(users[i].0, realm, users[i].1, ha1).Some?
    requires forall j :: 0 <= j < i ==> KeyFor(users[j].0, realm, users[j].1, ha1) == None
    ensures |DerivedKeys(users, realm, ha1)| > 0
    ensures DerivedKeys(users, realm, ha1)[0] == (users[i].0, KeyFor(users[i].0, realm, users[i].1, ha1).value)
  {
    var n := |users| - 1;
    var prev := users[..n];
    var (username, credentials) := users[n];
    var t := DerivedKeys(prev, realm, ha1);
    assert UniqueKeys(prev);
    assert username !in Keys(prev) by {
      forall j | 0 <= j < |prev| ensures Keys(prev)[j] != username {
        assert prev[j].0 == users[j].0;
      }
    }
    if i == n {
      DerivedKeysEmpty(prev, realm, ha1);
    } else {
      DerivedKeysFirst(prev, realm, ha1, i);
    }
  }

  // ---------------------------------------------------------------------
  // The mechanisms
  // ---------------------------------------------------------------------

  /** Short-term credentials: one username, one SASLprep-normalised password as the key. */
  class ShortTermCredentialMechanism {
    var username: string
    var hmacKey: string

    constructor (username: string, password: string, saslprep: SaslPrepFunction)
      ensures this.username == username
      ensures hmacKey == saslprep(password)
    {
      this.username := username;
      hmacKey := saslprep(password);
    }

    /** `update(msg)`: append USERNAME then MESSAGE-INTEGRITY keyed by the normalised password. */
    method Update(msg: Message)
      modifies msg
      ensures msg.attributes == old(msg.attributes) + [Username(username), MessageIntegrity(hmacKey)]
    {
      msg.AddAttr(Username(username));
      msg.AddAttr(MessageIntegrity(hmacKey));
    }
  }

  /**
   * Long-term credentials: a realm, a nonce made once at construction and
   * an insertion-ordered table from usernames to keys.
   */
  class LongTermCredentialMechanism {
    /** The key derivation the table's entries are computed with. */
    const ha1: Ha1Function
    var nonce: string
    var realm: string
    var hmacKeys: Entries<string, string>

    ghost predicate Valid()
      reads this
    {
      && UniqueKeys(hmacKeys)
      && |nonce| == DefaultNonceLength
      && IsLowerHex(nonce)
    }

    /**
     * Builds the table from the configured user mapping (whose usernames
     * are distinct, as the keys of a dictionary are); `random` stands for
     * the bytes `os.urandom` supplies to `generate_nonce`.
     */
    constructor (realm: string, users: Entries<string, Credentials>, random: seq<byte>, ha1: Ha1Function)
      requires |random| == DefaultNonceLength / 2
      ensures Valid()
      ensures this.ha1 == ha1 && this.realm == realm
      ensures nonce == GenerateNonce(DefaultNonceLength, random)
      ensures hmacKeys == DerivedKeys(users, realm, ha1)
    {
      this.ha1 := ha1;
      nonce := GenerateNonce(DefaultNonceLength, random);
      this.realm := realm;
      var keys: Entries<string, string> := [];
      for n := 0 to |users|
        invariant keys == DerivedKeys(users[..n], realm, ha1)
      {
        var (username, credentials) := users[n];
        assert users[..n + 1][..n] == users[..n];
        var key := credentials.key;
        if NonEmpty(key) {
          keys := Put(keys, username, key.value);
        } else {
          var password := credentials.password;
          if !NonEmpty(password) {
            continue;
          }
          keys := Put(keys, username, ha1(username, realm, password.value));
        }
      }
      assert users[..|users|] == users;
      hmacKeys := keys;
    }

    /**
     * `add_user(username, password)`: store `ha1(username, realm, password)`
     * under the username, replacing any earlier key in place.
     */
    method AddUser(username: string, password: string)
      requires Valid()
      modifies this
      ensures Valid()
      ensures hmacKeys == Put(old(hmacKeys), username, ha1(username, realm, password))
      ensures realm == old(realm) && nonce == old(nonce)
    {
      hmacKeys := Put(hmacKeys, username, ha1(username, realm, password));
    }

    /**
     * `update(msg)`: append NONCE and REALM, then MESSAGE-INTEGRITY keyed by
     * the earliest-inserted key.  With an empty table the lookup raises
     * IndexError after the first two appends: `ok` is false then.
     */
    method Update(msg: Message) returns (ok: bool)
      modifies msg
      ensures ok <==> |hmacKeys| > 0
      ensures ok ==> msg.attributes == old(msg.attributes) + [Nonce(nonce), Realm(realm), MessageIntegrity(Values(hmacKeys)[0])]
      ensures !ok ==> msg.attributes == old(msg.attributes) + [Nonce(nonce), Realm(realm)]
    {
      msg.AddAttr(Nonce(nonce));
      msg.AddAttr(Realm(realm));
      var values := Values(hmacKeys);
      if |values| == 0 {
        return false;
      }
      msg.AddAttr(MessageIntegrity(values[0]));
      return true;
    }

    /** `__str__`: the text "realm=" followed by the realm. */
    function ToString(): (s: string)
      reads this
      ensures |s| == 6 + |realm|
      ensures s[..6] == "realm=" && s[6..] == realm
    {
      "realm=" + realm
    }
  }
}
