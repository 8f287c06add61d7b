/**
 The encrypted provisioning envelope: one version byte, the server's 32-byte ephemeral public
 key, a 12-byte nonce, then ciphertext and tag.  The server writes it, the device reads it.
 */
module Envelope {
  import opened Wrappers
  import opened ChunkPacket
  import opened Primitives

  const PROVISIONING_VERSION: Byte := 1
  const ENVELOPE_HEADER_SIZE: nat := 1 + KEY_SIZE + NONCE_SIZE
  const MAX_PLAINTEXT_SIZE: nat := 1024

  /** "iot-provisioning-v1" */
  const HKDF_INFO: Bytes := [105, 111, 116, 45, 112, 114, 111, 118, 105, 115, 105, 111, 110, 105, 110, 103, 45, 118, 49]

  // ---------- the server's writer ----------

  /** The envelope of a plaintext, if the two keys agree on a secret. */
  ghost function Encrypted(c: Primitives, ephemeral: Bytes, devicePublicKey: Bytes, nonce: Bytes, plaintext: Bytes)
    : Result<Bytes>
    requires Lawful(c)
  {
    match c.ecdh(ephemeral, devicePublicKey)
    case None => Err("ecdh")
    case Some(shared) =>
      Ok([PROVISIONING_VERSION] + c.publicKey(ephemeral) + nonce
         + c.seal(Hkdf(c, None, shared, HKDF_INFO, KEY_SIZE), nonce, plaintext))
  }

  method EncryptProvisioningBundle(c: Primitives, ephemeral: Bytes, devicePublicKey: Bytes, nonce: Bytes,
                                   payload: ProvisioningPayload)
    returns (bundle: Result<Bytes>)
    requires Lawful(c) && |nonce| == NONCE_SIZE
    ensures bundle == Encrypted(c, ephemeral, devicePublicKey, nonce, c.marshal(payload))
    ensures bundle.Ok? ==> |bundle.value| == ENVELOPE_HEADER_SIZE + |c.marshal(payload)| + TAG_SIZE
  {
    var shared := c.ecdh(ephemeral, devicePublicKey);
    if shared.None? {
      return Err("ecdh");
    }
    var aesKey := HkdfSha25632(c, shared.value, HKDF_INFO);
    var plaintext := c.marshal(payload);
    assert SealOpens(c, aesKey, nonce, plaintext);
    var ciphertext := c.seal(aesKey, nonce, plaintext);
    var envelope: Bytes := [];
    envelope := envelope + [PROVISIONING_VERSION];
    envelope := envelope + c.publicKey(ephemeral);
    envelope := envelope + nonce;
    envelope := envelope + ciphertext;
    assert envelope == [PROVISIONING_VERSION] + c.publicKey(ephemeral) + nonce + ciphertext;
    return Ok(envelope);
  }

  // ---------- the device's reader ----------

  ghost function Decrypted(c: Primitives, privateKey: Bytes, envelope: Bytes): Result<Bytes>
    requires Lawful(c)
  {
    if |envelope| < ENVELOPE_HEADER_SIZE + TAG_SIZE then Err("encrypted envelope too short")
    else if envelope[0] != PROVISIONING_VERSION then Err("unsupported provisioning envelope version")
    else if |envelope| == ENVELOPE_HEADER_SIZE + TAG_SIZE then Err("encrypted envelope missing tag")
    else
      var split := |envelope| - TAG_SIZE;
      match c.ecdh(privateKey, envelope[1..1 + KEY_SIZE])
      case None => Err("failed to derive shared secret")
      case Some(shared) =>
        match c.open(Hkdf(c, None, shared, HKDF_INFO, KEY_SIZE), envelope[1 + KEY_SIZE..ENVELOPE_HEADER_SIZE],
                     envelope[ENVELOPE_HEADER_SIZE..split], envelope[split..])
        case None => Err("aes-gcm decrypt failed")
        case Some(plaintext) => Ok(plaintext)
  }

  method DecryptEnvelope(c: Primitives, privateKey: Bytes, envelope: Bytes) returns (plaintext: Result<Bytes>)
    requires Lawful(c)
    ensures plaintext == Decrypted(c, privateKey, envelope)
  {
    if |envelope| < ENVELOPE_HEADER_SIZE + TAG_SIZE {
      return Err("encrypted envelope too short");
    }
    if envelope[0] != PROVISIONING_VERSION {
      return Err("unsupported provisioning envelope version");
    }
    var serverPublicKey := envelope[1..1 + KEY_SIZE];
    var nonce := envelope[1 + KEY_SIZE..ENVELOPE_HEADER_SIZE];
    var ciphertextAndTagLen := |envelope| - ENVELOPE_HEADER_SIZE;
    if ciphertextAndTagLen <= TAG_SIZE {
      return Err("encrypted envelope missing tag");
    }
    var ciphertextLen := ciphertextAndTagLen - TAG_SIZE;
    var ciphertext := envelope[ENVELOPE_HEADER_SIZE..ENVELOPE_HEADER_SIZE + ciphertextLen];
    var tag := envelope[ENVELOPE_HEADER_SIZE + ciphertextLen..];
    var shared := c.ecdh(privateKey, serverPublicKey);
    if shared.None? {
      return Err("failed to derive shared secret");
    }
    var aesKey := HkdfSha25632(c, shared.value, HKDF_INFO);
    var unsealed := c.open(aesKey, nonce, ciphertext, tag);
    if unsealed.None? {
      return Err("aes-gcm decrypt failed");
    }
    return Ok(unsealed.value);
  }

  /** The device reads back what the server wrote, exactly when there was something to write. */
  lemma EnvelopeRoundTrip(c: Primitives, ephemeral: Bytes, devicePrivateKey: Bytes, nonce: Bytes, plaintext: Bytes)
    requires Lawful(c) && |nonce| == NONCE_SIZE
    requires Encrypted(c, ephemeral, c.publicKey(devicePrivateKey), nonce, plaintext).Ok?
    ensures var envelope := Encrypted(c, ephemeral, c.publicKey(devicePrivateKey), nonce, plaintext).value;
            && |envelope| == ENVELOPE_HEADER_SIZE + |plaintext| + TAG_SIZE
            && Decrypted(c, devicePrivateKey, envelope)
               == if plaintext == [] then Err("encrypted envelope missing tag") else Ok(plaintext)
  {
    var envelope := Encrypted(c, ephemeral, c.publicKey(devicePrivateKey), nonce, plaintext).value;
    var key := Hkdf(c, None, c.ecdh(ephemeral, c.publicKey(devicePrivateKey)).value, HKDF_INFO, KEY_SIZE);
    var sealed := c.seal(key, nonce, plaintext);
    hide Hkdf;
    assert SealOpens(c, key, nonce, plaintext);
    assert |c.publicKey(ephemeral)| == KEY_SIZE;
    assert envelope[1..1 + KEY_SIZE] == c.publicKey(ephemeral);
    assert envelope[1 + KEY_SIZE..ENVELOPE_HEADER_SIZE] == nonce;
    assert envelope[ENVELOPE_HEADER_SIZE..] == sealed;
    var split := |envelope| - TAG_SIZE;
    assert envelope[ENVELOPE_HEADER_SIZE..split] == sealed[..|plaintext|];
    assert envelope[split..] == sealed[|plaintext|..];
  }

  // ---------- the decrypted payload ----------

  /** The validated settings a bundle carries. */
  datatype ProvisioningValues = ProvisioningValues(
    userId: string, homeId: string, deviceId: string, mqttHost: string, mqttPort: string,
    mqttUsername: string, mqttPassword: string, mqttConnectDelaySeconds: int,
    wifiSsid: string, wifiPassword: string)

  const DEFAULT_CONNECT_DELAY: int := 15

  const REQUIRED_FIELDS: seq<string> :=
    ["user_id", "home_id", "device_id", "mqtt_host", "mqtt_port", "mqtt_username", "mqtt_password",
     "wifi_ssid", "wifi_password"]

  predicate HasText(doc: map<string, Json>, key: string) {
    key in doc && doc[key].Text?
  }

  /** The device's `int` has 32 bits. */
  const INT_MAX: int := 0x7fff_ffff

  /** Absent and null mean the default; anything but a non-negative `int` is refused. */
  function OptionalDelay(doc: map<string, Json>, key: string): Option<int> {
    if key !in doc || doc[key].Null? then Some(DEFAULT_CONNECT_DELAY)
    else if doc[key].Number? && 0 <= doc[key].number <= INT_MAX then Some(doc[key].number)
    else None
  }

  function ParsePlaintextPayload(c: Primitives, plaintext: Bytes): Result<ProvisioningValues> {
    if plaintext == [] || |plaintext| > MAX_PLAINTEXT_SIZE then Err("invalid plaintext payload size")
    else
      match c.parse(plaintext)
      case None => Err("provisioning JSON parse failed")
      case Some(doc) =>
        var delay := OptionalDelay(doc, "mqtt_connect_delay_seconds");
        if delay.None? || exists i :: 0 <= i < |REQUIRED_FIELDS| && !HasText(doc, REQUIRED_FIELDS[i]) then
          Err("missing or invalid provisioning field")
        else
          assert forall i :: 0 <= i < |REQUIRED_FIELDS| ==> HasText(doc, REQUIRED_FIELDS[i]);
          assert HasText(doc, REQUIRED_FIELDS[0]) && HasText(doc, REQUIRED_FIELDS[1])
                 && HasText(doc, REQUIRED_FIELDS[2]);
          assert HasText(doc, REQUIRED_FIELDS[3]) && HasText(doc, REQUIRED_FIELDS[4])
                 && HasText(doc, REQUIRED_FIELDS[5]);
          assert HasText(doc, REQUIRED_FIELDS[6]) && HasText(doc, REQUIRED_FIELDS[7])
                 && HasText(doc, REQUIRED_FIELDS[8]);
          Ok(ProvisioningValues(doc["user_id"].text, doc["home_id"].text, doc["device_id"].text,
                                doc["mqtt_host"].text, doc["mqtt_port"].text,
                                doc["mqtt_username"].text, doc["mqtt_password"].text, delay.value,
                                doc["wifi_ssid"].text, doc["wifi_password"].text))
  }

  function ValuesOf(p: ProvisioningPayload): ProvisioningValues {
    ProvisioningValues(p.userId, p.homeId, p.deviceId, p.mqttHost, p.mqttPort, p.mqttUsername, p.mqttPassword,
                       p.mqttConnectDelaySeconds, p.wifiSsid, p.wifiPassword)
  }

  /** A payload the server marshals is read back field by field, exactly when it fits the
      device's limit and its delay is a non-negative 32-bit number. */
  lemma PayloadRoundTrip(c: Primitives, p: ProvisioningPayload)
    requires c.parse(c.marshal(p)) == Some(Document(p)) && c.marshal(p) != []
    ensures ParsePlaintextPayload(c, c.marshal(p)).Ok?
       <==> |c.marshal(p)| <= MAX_PLAINTEXT_SIZE && 0 <= p.mqttConnectDelaySeconds <= INT_MAX
    ensures ParsePlaintextPayload(c, c.marshal(p)).Ok? ==> ParsePlaintextPayload(c, c.marshal(p)).value == ValuesOf(p)
  {
    var doc := Document(p);
    DistinctKeys(p);
    assert forall i :: 0 <= i < |REQUIRED_FIELDS| ==> HasText(doc, REQUIRED_FIELDS[i]);
  }

  lemma DistinctKeys(p: ProvisioningPayload)
    ensures var doc := Document(p);
            && doc["device_id"] == Text(p.deviceId) && doc["user_id"] == Text(p.userId)
            && doc["home_id"] == Text(p.homeId) && doc["mqtt_host"] == Text(p.mqttHost)
            && doc["mqtt_port"] == Text(p.mqttPort) && doc["mqtt_username"] == Text(p.mqttUsername)
            && doc["mqtt_password"] == Text(p.mqttPassword) && doc["wifi_ssid"] == Text(p.wifiSsid)
            && doc["wifi_password"] == Text(p.wifiPassword)
            && doc["mqtt_connect_delay_seconds"] == Number(p.mqttConnectDelaySeconds)
  {
  }
}
