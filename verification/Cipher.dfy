/**
 * The envelope around provider secrets and the rotation of its keys (internal/security/cipher.go).
 * AES-GCM, SHA-256 and the key encodings are parameters.
 */
module Ciphers {
  import opened Basics
  import opened Text

  type byte = x: int | 0 <= x < 0x100
  type KeyId = x: int | 0 <= x < 0x1_0000_0000
  type Key = seq<byte>

  const ENVELOPE_VERSION: byte := 1
  const KEY_ID_LEN := 4
  const NONCE_LEN := 12
  const HEADER_LEN := 1 + KEY_ID_LEN + NONCE_LEN

  datatype CipherError = InvalidKey | CiphertextShort | UnsupportedVersion | UnknownKeyId | CannotDecrypt

  /** ParseKey, the key id, and sealing and opening under a key and a nonce. */
  datatype Primitives = Primitives(parse: string -> Option<Key>, id: Key -> KeyId,
                                   seal: (Key, seq<byte>, seq<byte>) -> seq<byte>,
                                   open: (Key, seq<byte>, seq<byte>) -> Option<seq<byte>>)

  /** Opening undoes sealing. */
  ghost predicate OpensSealed(c: Primitives) {
    forall k, n, p :: c.open(k, n, c.seal(k, n, p)) == Some(p)
  }

  // ---- the header ----

  /** Go's byte(x). */
  function LowByte(x: nat): byte {
    x % 0x100
  }

  function IdBytes(id: KeyId): seq<byte> {
    [LowByte(id / 0x1000000), LowByte(id / 0x10000), LowByte(id / 0x100), LowByte(id)]
  }

  /** The shifted bytes have no bit in common, so joining them is adding them. */
  function Join(b0: nat, b1: nat, b2: nat, b3: nat): nat {
    0x1000000 * b0 + 0x10000 * b1 + 0x100 * b2 + b3
  }

  function IdOf(b: seq<byte>): KeyId
    requires |b| == KEY_ID_LEN
  {
    Join(b[0], b[1], b[2], b[3])
  }

  lemma SplitNumber(x: nat)
    requires x < 0x1_0000_0000
    ensures x == Join(x / 0x1000000 % 0x100, x / 0x10000 % 0x100, x / 0x100 % 0x100, x % 0x100)
  {
    var q1 := x / 0x100;
    var q2 := q1 / 0x100;
    var q3 := q2 / 0x100;
    assert x == 0x100 * q1 + x % 0x100 && q1 == 0x100 * q2 + q1 % 0x100 && q2 == 0x100 * q3 + q2 % 0x100;
    assert x / 0x10000 == q2 && x / 0x1000000 == q3;
  }

  lemma JoinSplits(b0: nat, b1: nat, b2: nat, b3: nat)
    requires b0 < 0x100 && b1 < 0x100 && b2 < 0x100 && b3 < 0x100
    ensures var x := Join(b0, b1, b2, b3);
            x / 0x1000000 % 0x100 == b0 && x / 0x10000 % 0x100 == b1 && x / 0x100 % 0x100 == b2 && x % 0x100 == b3
  {
    var x := Join(b0, b1, b2, b3);
    assert x / 0x100 == 0x10000 * b0 + 0x100 * b1 + b2;
    assert x / 0x10000 == 0x100 * b0 + b1;
    assert x / 0x1000000 == b0;
  }

  /** The printer and the parser undo each other. */
  lemma HeaderRoundTrip(id: KeyId, b: seq<byte>)
    requires |b| == KEY_ID_LEN
    ensures IdOf(IdBytes(id)) == id
    ensures IdBytes(IdOf(b)) == b
  {
    hide Join;
    SplitNumber(id);
    JoinSplits(b[0], b[1], b[2], b[3]);
  }

  /** The most significant byte comes first. */
  lemma BigEndian(b: seq<byte>)
    requires |b| == KEY_ID_LEN
    ensures IdOf(b) as int == 16777216 * (b[0] as int) + 65536 * (b[1] as int) + 256 * (b[2] as int) + b[3] as int
  {
  }

  function Envelope(c: Primitives, k: Key, nonce: seq<byte>, plaintext: seq<byte>): seq<byte> {
    [ENVELOPE_VERSION] + IdBytes(c.id(k)) + nonce + c.seal(k, nonce, plaintext)
  }

  /** Decrypt. */
  function Open(c: Primitives, keys: map<KeyId, Key>, text: seq<byte>): Result<seq<byte>, CipherError> {
    if |text| < HEADER_LEN then Err(CiphertextShort)
    else if text[0] != ENVELOPE_VERSION then Err(UnsupportedVersion)
    else
      var kid := IdOf(text[1..5]);
      if kid !in keys then Err(UnknownKeyId)
      else
        var plaintext := c.open(keys[kid], text[5..HEADER_LEN], text[HEADER_LEN..]);
        if plaintext.Some? then Ok(plaintext.value) else Err(CannotDecrypt)
  }

  /** Version, key id, nonce and sealed text stand where they are read from. */
  lemma EnvelopeLayout(c: Primitives, k: Key, nonce: seq<byte>, plaintext: seq<byte>)
    requires |nonce| == NONCE_LEN
    ensures var text := Envelope(c, k, nonce, plaintext);
            && |text| >= 17 && text[0] == 1 && IdOf(text[1..5]) == c.id(k)
            && text[5..17] == nonce && text[17..] == c.seal(k, nonce, plaintext)
  {
    IdLength(c.id(k));
    HeaderRoundTrip(c.id(k), IdBytes(c.id(k)));
    hide IdBytes, IdOf;
    assert Envelope(c, k, nonce, plaintext)[1..5] == IdBytes(c.id(k));
  }

  /** What becomes of an envelope depends only on the key stored under its id. */
  lemma OpenEnvelope(c: Primitives, keys: map<KeyId, Key>, k: Key, nonce: seq<byte>, plaintext: seq<byte>)
    requires |nonce| == NONCE_LEN
    ensures var r := Open(c, keys, Envelope(c, k, nonce, plaintext));
            if c.id(k) !in keys then r == Err(UnknownKeyId)
            else var o := c.open(keys[c.id(k)], nonce, c.seal(k, nonce, plaintext));
                 r == if o.Some? then Ok(o.value) else Err(CannotDecrypt)
  {
    hide IdBytes, IdOf;
    var text := Envelope(c, k, nonce, plaintext);
    var id := IdBytes(c.id(k));
    assert |id| == 4 by { IdLength(c.id(k)); }
    assert text[1..5] == id;
    assert text[5..HEADER_LEN] == nonce;
    assert text[HEADER_LEN..] == c.seal(k, nonce, plaintext);
    HeaderRoundTrip(c.id(k), id);
  }

  lemma IdLength(id: KeyId)
    ensures |IdBytes(id)| == 4
  {
  }

  // ---- the key list ----

  /** strings.Split(s, ","): the text before the first comma, then the rest. */
  function Split(s: string): (parts: seq<string>)
    ensures parts != []
  {
    if s == "" then [""]
    else
      var rest := Split(s[1..]);
      if s[0] == ',' then [""] + rest else [[s[0]] + rest[0]] + rest[1..]
  }

  function Commas(parts: seq<string>): string {
    if parts == [] then "" else if |parts| == 1 then parts[0] else parts[0] + "," + Commas(parts[1..])
  }

  /** The parts hold no comma, and with commas between them they are the text again. */
  lemma {:induction false} SplitExactly(s: string)
    ensures Commas(Split(s)) == s
    ensures forall i, j :: 0 <= i < |Split(s)| && 0 <= j < |Split(s)[i]| ==> Split(s)[i][j] != ','
  {
    if s != "" {
      SplitExactly(s[1..]);
      var rest := Split(s[1..]);
      var parts := if s[0] == ',' then [""] + rest else [[s[0]] + rest[0]] + rest[1..];
      assert Split(s) == parts && parts[1..] == (if s[0] == ',' then rest else rest[1..]);
      assert s == [s[0]] + s[1..];
      forall i, j | 0 <= i < |parts| && 0 <= j < |parts[i]| ensures parts[i][j] != ',' {
        SplitPart(s, rest, parts, i, j);
      }
    }
  }

  lemma SplitPart(s: string, rest: seq<string>, parts: seq<string>, i: nat, j: nat)
    requires s != "" && rest != [] && parts == if s[0] == ',' then [""] + rest else [[s[0]] + rest[0]] + rest[1..]
    requires forall x, y :: 0 <= x < |rest| && 0 <= y < |rest[x]| ==> rest[x][y] != ','
    requires i < |parts| && j < |parts[i]|
    ensures parts[i][j] != ','
  {
  }

  /** The previous keys of a list, in order; None when one of them cannot be read. */
  function ReadKeys(c: Primitives, parts: seq<string>): Option<seq<Key>> {
    if parts == [] then Some([])
    else
      var init := ReadKeys(c, parts[..|parts| - 1]);
      var part := TrimSpace(parts[|parts| - 1]);
      if init.None? || part == "" then init
      else
        var k := c.parse(part);
        if k.None? then None else Some(init.value + [k.value])
  }

  lemma ReadLast(c: Primitives, parts: seq<string>)
    requires parts != []
    ensures var init, last := ReadKeys(c, parts[..|parts| - 1]), TrimSpace(parts[|parts| - 1]);
            ReadKeys(c, parts) == if init.None? || last == "" then init
                                  else if c.parse(last).None? then None else Some(init.value + [c.parse(last).value])
  {
  }

  /** A blank entry is skipped; every other one is read with the white space around it cut off. */
  lemma ReadOne(c: Primitives, part: string)
    ensures ReadKeys(c, [part])
            == if TrimSpace(part) == "" then Some([])
               else if c.parse(TrimSpace(part)).None? then None else Some([c.parse(TrimSpace(part)).value])
  {
    hide TrimSpace;
    ReadLast(c, [part]);
    assert [part][..0] == [];
    forall k: Key ensures [] + [k] == [k] {}
  }

  /** Lists are read one after the other, in order, and both must be readable. */
  lemma {:induction false} ReadBoth(c: Primitives, a: seq<string>, b: seq<string>)
    ensures ReadKeys(c, a + b)
            == if ReadKeys(c, a).None? || ReadKeys(c, b).None? then None
               else Some(ReadKeys(c, a).value + ReadKeys(c, b).value)
    decreases |b|
  {
    hide TrimSpace;
    if b == [] {
      assert a + b == a;
      if ReadKeys(c, a).Some? { assert ReadKeys(c, a).value + [] == ReadKeys(c, a).value; }
    } else {
      var init, last := b[..|b| - 1], b[|b| - 1];
      ReadBoth(c, a, init);
      ReadLast(c, a + b);
      ReadLast(c, b);
      assert (a + b)[..|a + b| - 1] == a + init && (a + b)[|a + b| - 1] == last;
      if ReadKeys(c, a).Some? && ReadKeys(c, b).Some? && TrimSpace(last) != "" {
        var x, y, k := ReadKeys(c, a).value, ReadKeys(c, init).value, c.parse(TrimSpace(last)).value;
        assert (x + y) + [k] == x + (y + [k]);
      }
    }
  }

  /** The key map after storing keys one by one. */
  function Store(c: Primitives, listed: seq<Key>): map<KeyId, Key> {
    if listed == [] then map[]
    else
      var k := listed[|listed| - 1];
      Store(c, listed[..|listed| - 1])[c.id(k) := k]
  }

  lemma {:induction false} StoreKnows(c: Primitives, listed: seq<Key>, id: KeyId)
    ensures id in Store(c, listed) <==> exists k :: k in listed && c.id(k) == id
    ensures id in Store(c, listed) ==> Store(c, listed)[id] in listed && c.id(Store(c, listed)[id]) == id
  {
    if listed != [] {
      var init := listed[..|listed| - 1];
      StoreKnows(c, init, id);
      assert forall k :: k in listed <==> k in init || k == listed[|listed| - 1];
    }
  }

  /** Of the listed keys with one id, the last is stored: it can even displace the primary key. */
  lemma {:induction false} LastStored(c: Primitives, listed: seq<Key>, i: nat)
    requires i < |listed| && forall j :: i < j < |listed| ==> c.id(listed[j]) != c.id(listed[i])
    ensures c.id(listed[i]) in Store(c, listed) && Store(c, listed)[c.id(listed[i])] == listed[i]
  {
    if i < |listed| - 1 { LastStored(c, listed[..|listed| - 1], i); }
  }

  ghost predicate DistinctIds(c: Primitives, keys: set<Key>) {
    forall a, b :: a in keys && b in keys && c.id(a) == c.id(b) ==> a == b
  }

  class Cipher {
    const c: Primitives
    var primaryId: KeyId
    var primary: Key
    var keys: map<KeyId, Key>

    /** The listed keys: the primary, then the previous ones. */
    ghost predicate Lists(listed: seq<Key>)
      reads this
    {
      listed != [] && primary == listed[0] && primaryId == c.id(primary) && keys == Store(c, listed)
    }

    constructor (c: Primitives, primary: Key)
      ensures this.c == c && Lists([primary])
    {
      this.c := c;
      this.primary := primary;
      this.primaryId := c.id(primary);
      this.keys := map[c.id(primary) := primary];
      new;
      assert [primary][..0] == [];
    }

    /** The nonce is random; the envelope is appended piece by piece. */
    method Encrypt(plaintext: seq<byte>, nonce: seq<byte>) returns (out: seq<byte>)
      requires |nonce| == NONCE_LEN && primaryId == c.id(primary)
      ensures out == Envelope(c, primary, nonce, plaintext)
    {
      out := [];
      out := out + [ENVELOPE_VERSION];
      out := out + IdBytes(primaryId);
      out := out + nonce;
      out := out + c.seal(primary, nonce, plaintext);
    }

    function Decrypt(text: seq<byte>): Result<seq<byte>, CipherError>
      reads this
    {
      Open(c, keys, text)
    }
  }

  /** The keys a configuration lists, or None when it is rejected. */
  function Listed(c: Primitives, primaryKey: string, previousKeys: string): Option<seq<Key>> {
    var primary := c.parse(primaryKey);
    var previous := ReadKeys(c, Split(previousKeys));
    if primary.None? || previous.None? then None else Some([primary.value] + previous.value)
  }

  lemma ReadKeysNone(c: Primitives, parts: seq<string>, i: nat)
    requires i <= |parts| && ReadKeys(c, parts[..i]).None?
    ensures ReadKeys(c, parts).None?
    decreases |parts|
  {
    if i < |parts| {
      assert parts[..|parts| - 1][..i] == parts[..i];
      ReadKeysNone(c, parts[..|parts| - 1], i);
    } else {
      assert parts[..i] == parts;
    }
  }

  /** Reads the list key by key; it fails exactly when the primary or a non-blank entry cannot be read. */
  method NewCipher(c: Primitives, primaryKey: string, previousKeys: string) returns (r: Result<Cipher, CipherError>)
    ensures r.Ok? <==> Listed(c, primaryKey, previousKeys).Some?
    ensures r.Ok? ==> fresh(r.value) && r.value.c == c && r.value.Lists(Listed(c, primaryKey, previousKeys).value)
    ensures r.Err? ==> r.error == InvalidKey
  {
    hide TrimSpace, Split;
    var raw := c.parse(primaryKey);
    if raw.None? { return Err(InvalidKey); }
    var cipher := new Cipher(c, raw.value);
    var parts := Split(previousKeys);
    ghost var read: seq<Key> := [];
    var i := 0;
    while i < |parts|
      invariant 0 <= i <= |parts|
      invariant ReadKeys(c, parts[..i]) == Some(read)
      invariant cipher.c == c && cipher.primary == raw.value && cipher.primaryId == c.id(raw.value)
      invariant cipher.keys == Store(c, [raw.value] + read)
    {
      var part := TrimSpace(parts[i]);
      assert parts[..i + 1][..i] == parts[..i];
      i := i + 1;
      if part != "" {
        var k := c.parse(part);
        if k.None? {
          ReadKeysNone(c, parts, i);
          return Err(InvalidKey);
        }
        cipher.keys := cipher.keys[c.id(k.value) := k.value];
        assert ([raw.value] + (read + [k.value]))[..|read| + 1] == [raw.value] + read;
        read := read + [k.value];
      }
    }
    assert parts[..i] == parts;
    r := Ok(cipher);
  }

  // ---- rotation ----

  /** An envelope sealed under a key opens under every key list that contains the key, if ids tell listed keys apart. */
  lemma OpensWhereListed(c: Primitives, listed: seq<Key>, k: Key, nonce: seq<byte>, plaintext: seq<byte>)
    requires OpensSealed(c) && |nonce| == NONCE_LEN && k in listed && DistinctIds(c, set x | x in listed)
    ensures Open(c, Store(c, listed), Envelope(c, k, nonce, plaintext)) == Ok(plaintext)
  {
    hide Open, Envelope;
    StoreKnows(c, listed, c.id(k));
    OpenEnvelope(c, Store(c, listed), k, nonce, plaintext);
  }

  /** Under a list without the key it is refused as unknown, if ids tell the key apart from the listed ones. */
  lemma RefusedWhereNotListed(c: Primitives, listed: seq<Key>, k: Key, nonce: seq<byte>, plaintext: seq<byte>)
    requires |nonce| == NONCE_LEN && k !in listed && DistinctIds(c, (set x | x in listed) + {k})
    ensures Open(c, Store(c, listed), Envelope(c, k, nonce, plaintext)) == Err(UnknownKeyId)
  {
    hide Open, Envelope;
    StoreKnows(c, listed, c.id(k));
    OpenEnvelope(c, Store(c, listed), k, nonce, plaintext);
  }

  /**
   * Without that assumption: an envelope of the primary key opens exactly when the last listed key with its id opens
   * it. A retired key with the primary's id makes new envelopes unreadable.
   */
  lemma PrimaryReadable(c: Primitives, listed: seq<Key>, last: nat, nonce: seq<byte>, plaintext: seq<byte>)
    requires |nonce| == NONCE_LEN && last < |listed| && c.id(listed[last]) == c.id(listed[0])
    requires forall j :: last < j < |listed| ==> c.id(listed[j]) != c.id(listed[0])
    ensures Open(c, Store(c, listed), Envelope(c, listed[0], nonce, plaintext)) == Ok(plaintext)
            <==> c.open(listed[last], nonce, c.seal(listed[0], nonce, plaintext)) == Some(plaintext)
  {
    hide Open, Envelope;
    LastStored(c, listed, last);
    OpenEnvelope(c, Store(c, listed), listed[0], nonce, plaintext);
  }

  ghost predicate Keeps(earlier: seq<Key>, later: seq<Key>) {
    forall k :: k in earlier ==> k in later
  }

  /** A chain of configurations, each keeping what the one before it listed. */
  ghost predicate Rotation(chain: seq<seq<Key>>) {
    && (forall i :: 0 <= i < |chain| ==> chain[i] != [])
    && (forall i :: 0 < i < |chain| ==> Keeps(chain[i - 1], chain[i]))
  }

  lemma {:induction false} StaysListed(chain: seq<seq<Key>>, i: nat, j: nat, k: Key)
    requires Rotation(chain) && i <= j < |chain| && k in chain[i]
    ensures k in chain[j]
    decreases j - i
  {
    if i < j {
      StaysListed(chain, i, j - 1, k);
      assert Keeps(chain[j - 1], chain[j]);
    }
  }

  /** Through any chain of rotations every envelope still opens, and a new one opens under the new primary alone. */
  lemma RotationKeepsSecrets(c: Primitives, chain: seq<seq<Key>>, i: nat, j: nat, nonce: seq<byte>, plaintext: seq<byte>)
    requires OpensSealed(c) && |nonce| == NONCE_LEN && Rotation(chain) && i <= j < |chain|
    requires DistinctIds(c, set x | x in chain[j])
    ensures Open(c, Store(c, chain[j]), Envelope(c, chain[i][0], nonce, plaintext)) == Ok(plaintext)
    ensures Open(c, Store(c, [chain[i][0]]), Envelope(c, chain[i][0], nonce, plaintext)) == Ok(plaintext)
  {
    hide Open, Envelope, Store;
    StaysListed(chain, i, j, chain[i][0]);
    OpensWhereListed(c, chain[j], chain[i][0], nonce, plaintext);
    OpensWhereListed(c, [chain[i][0]], chain[i][0], nonce, plaintext);
  }

  /** The last rotation may drop a key: then its envelopes, and only the envelopes of dropped keys, are lost. */
  lemma LostExactly(c: Primitives, listed: seq<Key>, k: Key, nonce: seq<byte>, plaintext: seq<byte>)
    requires OpensSealed(c) && |nonce| == NONCE_LEN && DistinctIds(c, (set x | x in listed) + {k})
    ensures Open(c, Store(c, listed), Envelope(c, k, nonce, plaintext)) == Ok(plaintext) <==> k in listed
  {
    hide Open, Envelope, Store;
    if k in listed {
      OpensWhereListed(c, listed, k, nonce, plaintext);
    } else {
      RefusedWhereNotListed(c, listed, k, nonce, plaintext);
    }
  }

  /** A text that opens has the right version and names a key of the list: Decrypt's errors, in their order. */
  lemma OpenErrors(c: Primitives, keys: map<KeyId, Key>, text: seq<byte>)
    ensures var r := Open(c, keys, text);
            && (r == Err(CiphertextShort) <==> |text| < 17)
            && (r == Err(UnsupportedVersion) <==> |text| >= 17 && text[0] != 1)
            && (r == Err(UnknownKeyId) <==> |text| >= 17 && text[0] == 1
                                            && forall id :: id in keys ==> IdBytes(id) != text[1..5])
  {
    hide IdBytes, IdOf;
    if |text| >= 17 {
      HeaderRoundTrip(0, text[1..5]);
      forall id | id in keys ensures IdBytes(id) == text[1..5] ==> id == IdOf(text[1..5]) {
        HeaderRoundTrip(id, text[1..5]);
      }
    }
  }
}
