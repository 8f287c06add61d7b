/**
 The cryptographic and JSON primitives as abstract functions, the laws the protocol relies on,
 and the key derivation built from them.
 */
module Primitives {
  import opened Arithmetic
  import opened Wrappers
  import opened ChunkPacket

  const KEY_SIZE: nat := 32
  const NONCE_SIZE: nat := 12
  const TAG_SIZE: nat := 16

  datatype Json = Text(text: string) | Number(number: int) | Null | Other

  /** What the server puts into a bundle. */
  datatype ProvisioningPayload = ProvisioningPayload(
    deviceId: string, userId: string, homeId: string, mqttHost: string, mqttPort: string,
    mqttUsername: string, mqttPassword: string, mqttConnectDelaySeconds: int,
    wifiSsid: string, wifiPassword: string)

  datatype Primitives = Primitives(
    publicKey: Bytes -> Bytes,
    ecdh: (Bytes, Bytes) -> Option<Bytes>,
    hmac: (Bytes, Bytes) -> Bytes,
    seal: (Bytes, Bytes, Bytes) -> Bytes,
    open: (Bytes, Bytes, Bytes, Bytes) -> Option<Bytes>,
    marshal: ProvisioningPayload -> Bytes,
    parse: Bytes -> Option<map<string, Json>>)

  /** The JSON object a payload is written as. */
  function Document(p: ProvisioningPayload): map<string, Json> {
    map["device_id" := Text(p.deviceId), "user_id" := Text(p.userId), "home_id" := Text(p.homeId),
        "mqtt_host" := Text(p.mqttHost), "mqtt_port" := Text(p.mqttPort),
        "mqtt_username" := Text(p.mqttUsername), "mqtt_password" := Text(p.mqttPassword),
        "mqtt_connect_delay_seconds" := Number(p.mqttConnectDelaySeconds),
        "wifi_ssid" := Text(p.wifiSsid), "wifi_password" := Text(p.wifiPassword)]
  }

  /** Sizes, key agreement, and decryption of what was sealed. */
  ghost predicate Lawful(c: Primitives) {
    && (forall k :: |c.publicKey(k)| == KEY_SIZE)
    && (forall a, b :: c.ecdh(a, c.publicKey(b)) == c.ecdh(b, c.publicKey(a)))
    && (forall k, m :: |c.hmac(k, m)| == KEY_SIZE)
    && (forall k, n, p :: SealOpens(c, k, n, p))
  }

  ghost predicate SealOpens(c: Primitives, key: Bytes, nonce: Bytes, plaintext: Bytes) {
    var sealed := c.seal(key, nonce, plaintext);
    && |sealed| == |plaintext| + TAG_SIZE
    && c.open(key, nonce, sealed[..|plaintext|], sealed[|plaintext|..]) == Some(plaintext)
  }

  function Zeros(n: nat): Bytes { seq(n, i => 0) }

  // ---------- HKDF, sections 2.2 and 2.3 of RFC 5869 ----------

  function Extract(c: Primitives, salt: Option<Bytes>, ikm: Bytes): Bytes {
    c.hmac(if salt.None? then Zeros(KEY_SIZE) else salt.value, ikm)
  }

  /** T(i). */
  function Block(c: Primitives, prk: Bytes, info: Bytes, i: nat): Bytes
    requires i <= 255
  {
    if i == 0 then [] else c.hmac(prk, Block(c, prk, info, i - 1) + info + [i])
  }

  /** T(1) | T(2) | ... | T(n). */
  function Blocks(c: Primitives, prk: Bytes, info: Bytes, n: nat): Bytes
    requires n <= 255
  {
    if n == 0 then [] else Blocks(c, prk, info, n - 1) + Block(c, prk, info, n)
  }

  lemma {:induction false} BlocksLength(c: Primitives, prk: Bytes, info: Bytes, n: nat)
    requires Lawful(c) && n <= 255
    ensures |Blocks(c, prk, info, n)| == n * KEY_SIZE
  {
    if n > 0 {
      BlocksLength(c, prk, info, n - 1);
    }
  }

  ghost function Expand(c: Primitives, prk: Bytes, info: Bytes, length: nat): Bytes
    requires Lawful(c) && length <= 255 * KEY_SIZE
  {
    BlocksLength(c, prk, info, CeilDiv(length, KEY_SIZE));
    Blocks(c, prk, info, CeilDiv(length, KEY_SIZE))[..length]
  }

  ghost function Hkdf(c: Primitives, salt: Option<Bytes>, ikm: Bytes, info: Bytes, length: nat): Bytes
    requires Lawful(c) && length <= 255 * KEY_SIZE
  {
    Expand(c, Extract(c, salt, ikm), info, length)
  }

  /** One HMAC over `info` and a single 1 octet is all of a 32-byte expansion. */
  lemma OneBlockExpansion(c: Primitives, prk: Bytes, info: Bytes)
    requires Lawful(c)
    ensures Expand(c, prk, info, KEY_SIZE) == c.hmac(prk, info + [1])
  {
    var t1 := Block(c, prk, info, 1);
    assert t1 == c.hmac(prk, info + [1]) by {
      assert Block(c, prk, info, 0) == [];
      assert [] + info + [1] == info + [1];
    }
    assert Blocks(c, prk, info, 1) == t1 by {
      assert Blocks(c, prk, info, 0) == [];
    }
    assert t1[..KEY_SIZE] == t1;
  }

  /** The device's key derivation: one extract with a zero salt and one expand block. */
  method HkdfSha25632(c: Primitives, ikm: Bytes, info: Bytes) returns (okm: Bytes)
    requires Lawful(c)
    ensures okm == Hkdf(c, None, ikm, info, KEY_SIZE)
    ensures |okm| == KEY_SIZE
  {
    var zeroSalt := Zeros(KEY_SIZE);
    var prk := c.hmac(zeroSalt, ikm);
    var expandInput: Bytes := [];
    if |info| > 0 {
      expandInput := expandInput + info;
    }
    expandInput := expandInput + [1];
    assert expandInput == info + [1];
    okm := c.hmac(prk, expandInput);
    OneBlockExpansion(c, prk, info);
  }

  // ---------- the laws can hold ----------

  lemma LawsAreSatisfiable()
    ensures exists c: Primitives :: Lawful(c)
  {
    var c := Primitives(
      k => Zeros(KEY_SIZE),
      (a, b) => Some(Zeros(KEY_SIZE)),
      (k, m) => Zeros(KEY_SIZE),
      (k, n, p) => p + Zeros(TAG_SIZE),
      (k, n, ciphertext, tag) => Some(ciphertext),
      p => [],
      b => None);
    forall k, n, p
      ensures SealOpens(c, k, n, p)
    {
      assert (p + Zeros(TAG_SIZE))[..|p|] == p;
    }
    assert Lawful(c);
  }
}
