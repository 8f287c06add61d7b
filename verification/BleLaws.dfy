/**
 The provisioning protocol octet by octet: what is written, and what is accepted, in terms of the bytes
 that cross the Bluetooth link.
 */
module BleLaws {
  import opened Arithmetic
  import opened Wrappers
  import opened ChunkPacket
  import opened Primitives
  import opened Envelope
  import opened ChunkReceiver
  import opened PublicKeyPull
  import opened Provisioning

  // ---------- packets ----------

  function BigEndian(high: Byte, low: Byte): U16 { 256 * (high as int) + low }

  lemma HeaderOctets(m: Metadata)
    ensures var h := Header(m);
            && h[0] == 1 && h[1] == m.transferId && BigEndian(h[2], h[3]) == m.chunkIndex
            && BigEndian(h[4], h[5]) == m.totalChunks && BigEndian(h[6], h[7]) == m.totalBytes
  {
    U16RoundTrip(m.chunkIndex);
    U16RoundTrip(m.totalChunks);
    U16RoundTrip(m.totalBytes);
    hide HighByte, LowByte;
  }

  lemma PacketForm(source: Bytes, size: nat, transferId: Byte, i: nat)
    requires 0 < size && |source| <= 65535 && i < CeilDiv(|source|, size)
    ensures Offset(i, size) < |source| && CeilDiv(|source|, size) <= 65535
    ensures var p, n := Packet(source, size, transferId, i), CeilDiv(|source|, size);
            && |p| >= 8 && p[0] == 1 && p[1] == transferId
            && BigEndian(p[2], p[3]) == i && BigEndian(p[4], p[5]) == n && BigEndian(p[6], p[7]) == |source|
            && p[8..] == Slice(source, size, i)
  {
    ChunkBounds(|source|, size, i);
    hide CeilDiv, Header, BigEndian, Slice, Offset;
    var m := Metadata(transferId, i, CeilDiv(|source|, size), |source|);
    HeaderOctets(m);
    var p := Packet(source, size, transferId, i);
    assert p[..8] == Header(m) && p[8..] == Slice(source, size, i);
  }

  /** A written packet: version 1, transfer id, then index, count and length in two octets each, the
      higher one first, then the chunk. */
  lemma PacketOctets(source: Bytes, size: nat, transferId: Byte, i: nat)
    requires 0 < size && |source| <= 65535 && i < CeilDiv(|source|, size)
    ensures i * size < |source| && CeilDiv(|source|, size) <= 65535
    ensures var p, n := Packet(source, size, transferId, i), CeilDiv(|source|, size);
            && |p| >= 8 && p[0] == 1 && p[1] == transferId
            && BigEndian(p[2], p[3]) == i && BigEndian(p[4], p[5]) == n && BigEndian(p[6], p[7]) == |source|
            && p[8..] == source[i * size..if i * size + size < |source| then i * size + size else |source|]
  {
    PacketForm(source, size, transferId, i);
    hide CeilDiv, Packet, BigEndian;
  }

  /** The number of chunks is the least that holds the source. */
  lemma CountExactly(len: nat, size: nat)
    requires 0 < len && 0 < size
    ensures var n := CeilDiv(len, size); n >= 1 && n * size >= len && (n - 1) * size < len
  {
    CeilDivPositive(len, size);
    ChunkBounds(len, size, CeilDiv(len, size) - 1);
    var n := CeilDiv(len, size);
    hide CeilDiv;
    assert n * size == (n - 1) * size + size;
  }

  /** The web page cuts a bundle into slices of 120 octets, all of them full but the last. */
  lemma BundleOctets(chunks: seq<Bytes>, bundle: Bytes, transferId: Byte, i: nat)
    requires 0 < |bundle| <= 65535 && ChunksOf(chunks, bundle, transferId) && i < |chunks|
    ensures (|chunks| - 1) * 120 < |bundle| <= |chunks| * 120
    ensures |chunks[i]| == 8 + (if i < |chunks| - 1 then 120 else |bundle| - i * 120)
    ensures chunks[i][8..] == bundle[i * 120..if i < |chunks| - 1 then i * 120 + 120 else |bundle|]
  {
    CountExactly(|bundle|, 120);
    PacketOctets(bundle, 120, transferId, i);
    ChunkBounds(|bundle|, 120, i);
    hide CeilDiv, Packet;
    assert chunks[i] == Packet(bundle, 120, transferId, i);
  }

  /** The firmware reads any packet of at least eight octets whose first is 1, and no other. */
  lemma HeaderExactly(packet: Bytes)
    ensures ParseChunkMetadata(packet).Ok? <==> |packet| >= 8 && packet[0] == 1
    ensures ParseChunkMetadata(packet).Ok? ==>
              ParseChunkMetadata(packet).value
              == Metadata(packet[1], BigEndian(packet[2], packet[3]), BigEndian(packet[4], packet[5]),
                          BigEndian(packet[6], packet[7]))
  {
  }

  /** The web page also wants a count, a length, and an index below the count. */
  lemma WebHeaderExactly(packet: Bytes)
    ensures ParseChunkPacket(packet).Ok? <==>
              && |packet| >= 8 && packet[0] == 1
              && BigEndian(packet[2], packet[3]) < BigEndian(packet[4], packet[5]) && (packet[6] != 0 || packet[7] != 0)
    ensures ParseChunkPacket(packet).Ok? ==>
              ParseChunkPacket(packet).value
              == Chunk(Metadata(packet[1], BigEndian(packet[2], packet[3]), BigEndian(packet[4], packet[5]),
                                BigEndian(packet[6], packet[7])), packet[8..])
  {
  }

  // ---------- the receiver ----------

  /** The packet opens a transfer, or is the next one of the transfer under way, and what it carries still
      fits the announced length of at most 2048 octets. */
  predicate Fits(r: Receiver, packet: Bytes) {
    && |packet| >= 8 && packet[0] == 1
    && var id, index := packet[1], BigEndian(packet[2], packet[3]);
    && var count, length := BigEndian(packet[4], packet[5]), BigEndian(packet[6], packet[7]);
    && index < count && 1 <= length <= 2048
    && if r.active && id == r.transferId then
         && count == r.totalChunks && length == r.totalBytes && index == r.expectedIndex
         && |r.buffer| + |packet| - 8 <= length
       else index == 0 && |packet| - 8 <= length
  }

  /** A packet is accepted exactly if it fits and is not the last; it completes exactly if it fits, is the
      last, and the assembled envelope has the announced length and opens. Everything else is refused and
      leaves the receiver idle. */
  lemma ReceivesExactly(k: Keys, r: Receiver, packet: Bytes)
    requires Lawful(k.c) && Valid(r)
    ensures var out := Ingest(k, r, packet);
            && (!Fits(r, packet) ==> out.status.Error? && !out.receiver.active && out.receiver.buffer == [])
            && (Fits(r, packet) ==>
                  var held := (if r.active && packet[1] == r.transferId then r.buffer else []) + packet[8..];
                  var index, count := BigEndian(packet[2], packet[3]), BigEndian(packet[4], packet[5]);
                  var length := BigEndian(packet[6], packet[7]);
                  && (out.status.Accepted? <==> index + 1 < count)
                  && (out.status.Accepted? ==>
                        out.receiver == Receiver(true, packet[1], index + 1, count, length, held, None))
                  && (out.status.Complete? <==> index + 1 == count && |held| == length && Opened(k, held).Ok?)
                  && (out.status.Complete? ==> out.receiver.pending == Some(Opened(k, held).value))
                  && (!out.status.Accepted? ==> !out.receiver.active && out.receiver.buffer == []))
  {
    HeaderExactly(packet);
    IngestExtendsOrResets(k, r, packet);
    FitsExtends(r, packet);
    hide Ingest, Opened, Lawful, Fits, Extends, ParseChunkMetadata;
  }

  lemma FitsExtends(r: Receiver, packet: Bytes)
    requires Valid(r)
    ensures Fits(r, packet) <==> Extends(r, packet)
    ensures Fits(r, packet) ==>
              Extended(r, packet)
              == Receiver(true, packet[1], BigEndian(packet[2], packet[3]) + 1, BigEndian(packet[4], packet[5]),
                          BigEndian(packet[6], packet[7]),
                          (if r.active && packet[1] == r.transferId then r.buffer else []) + packet[8..], None)
  {
    HeaderExactly(packet);
  }

  /** In particular no packet with another version octet is ever accepted. */
  lemma OtherVersionsRefused(k: Keys, r: Receiver, packet: Bytes)
    requires Lawful(k.c) && Valid(r) && packet != [] && packet[0] != 1
    ensures Ingest(k, r, packet).status.Error? && !Ingest(k, r, packet).receiver.active
    ensures ParseChunkPacket(packet).Err?
  {
    ReceivesExactly(k, r, packet);
    WebHeaderExactly(packet);
    hide Ingest, Lawful, Valid;
  }

  // ---------- envelopes ----------

  /** The key derivation's label. */
  lemma LabelOctets()
    ensures |HKDF_INFO| == |"iot-provisioning-v1"|
    ensures forall i :: 0 <= i < |HKDF_INFO| ==> HKDF_INFO[i] == "iot-provisioning-v1"[i] as int
  {
  }

  /** A written envelope: version 1, 32 octets of key, 12 of nonce, then what was sealed. */
  lemma EnvelopeOctets(c: Primitives, ephemeral: Bytes, devicePublicKey: Bytes, nonce: Bytes, plaintext: Bytes)
    requires Lawful(c) && |nonce| == 12
    ensures Encrypted(c, ephemeral, devicePublicKey, nonce, plaintext).Ok?
       <==> c.ecdh(ephemeral, devicePublicKey).Some?
    ensures Encrypted(c, ephemeral, devicePublicKey, nonce, plaintext).Ok? ==>
              var e := Encrypted(c, ephemeral, devicePublicKey, nonce, plaintext).value;
              && |e| == 61 + |plaintext| && e[0] == 1 && e[1..33] == c.publicKey(ephemeral) && e[33..45] == nonce
              && e[45..] == c.seal(Hkdf(c, None, c.ecdh(ephemeral, devicePublicKey).value, HKDF_INFO, 32), nonce,
                                   plaintext)
  {
    hide Hkdf;
    if c.ecdh(ephemeral, devicePublicKey).Some? {
      var key := Hkdf(c, None, c.ecdh(ephemeral, devicePublicKey).value, HKDF_INFO, 32);
      assert SealOpens(c, key, nonce, plaintext);
      assert |c.publicKey(ephemeral)| == 32;
    }
  }

  /** The device opens an envelope exactly if it has more than 61 octets, the first of them is 1, the keys
      agree, and the tag in the last 16 fits. */
  lemma EnvelopeExactly(c: Primitives, privateKey: Bytes, e: Bytes)
    requires Lawful(c)
    ensures Decrypted(c, privateKey, e).Ok? <==>
              && |e| > 61 && e[0] == 1 && c.ecdh(privateKey, e[1..33]).Some?
              && c.open(Hkdf(c, None, c.ecdh(privateKey, e[1..33]).value, HKDF_INFO, 32), e[33..45],
                        e[45..|e| - 16], e[|e| - 16..]).Some?
    ensures Decrypted(c, privateKey, e).Ok? ==>
              c.open(Hkdf(c, None, c.ecdh(privateKey, e[1..33]).value, HKDF_INFO, 32), e[33..45],
                     e[45..|e| - 16], e[|e| - 16..]) == Some(Decrypted(c, privateKey, e).value)
  {
    hide Hkdf;
  }

  lemma OtherEnvelopesRefused(c: Primitives, privateKey: Bytes, e: Bytes)
    requires Lawful(c) && e != [] && e[0] != 1
    ensures Decrypted(c, privateKey, e).Err?
  {
    hide Hkdf, Lawful;
  }

  // ---------- the decrypted payload ----------

  predicate IsText(doc: map<string, Json>, key: string) { key in doc && doc[key].Text? }

  /** A payload is accepted exactly if it has 1 to 1024 octets, parses, has all nine texts, and its delay
      is missing, null or a number of 31 bits; the device then holds exactly its values. */
  lemma PayloadExactly(c: Primitives, plaintext: Bytes)
    ensures ParsePlaintextPayload(c, plaintext).Ok? <==>
              && 1 <= |plaintext| <= 1024 && c.parse(plaintext).Some?
              && var doc := c.parse(plaintext).value;
              && IsText(doc, "user_id") && IsText(doc, "home_id") && IsText(doc, "device_id")
              && IsText(doc, "mqtt_host") && IsText(doc, "mqtt_port") && IsText(doc, "mqtt_username")
              && IsText(doc, "mqtt_password") && IsText(doc, "wifi_ssid") && IsText(doc, "wifi_password")
              && ("mqtt_connect_delay_seconds" in doc ==>
                    || doc["mqtt_connect_delay_seconds"].Null?
                    || (doc["mqtt_connect_delay_seconds"].Number?
                        && 0 <= doc["mqtt_connect_delay_seconds"].number < 0x8000_0000))
    ensures ParsePlaintextPayload(c, plaintext).Ok? ==>
              var v, doc := ParsePlaintextPayload(c, plaintext).value, c.parse(plaintext).value;
              && Text(v.userId) == doc["user_id"] && Text(v.homeId) == doc["home_id"]
              && Text(v.deviceId) == doc["device_id"] && Text(v.mqttHost) == doc["mqtt_host"]
              && Text(v.mqttPort) == doc["mqtt_port"] && Text(v.mqttUsername) == doc["mqtt_username"]
              && Text(v.mqttPassword) == doc["mqtt_password"] && Text(v.wifiSsid) == doc["wifi_ssid"]
              && Text(v.wifiPassword) == doc["wifi_password"]
              && v.mqttConnectDelaySeconds == (
                   if "mqtt_connect_delay_seconds" in doc && doc["mqtt_connect_delay_seconds"].Number? then
                     doc["mqtt_connect_delay_seconds"].number
                   else 15)
  {
    if plaintext != [] && c.parse(plaintext).Some? {
      FieldsExactly(c.parse(plaintext).value);
    }
  }

  lemma FieldsExactly(doc: map<string, Json>)
    ensures (forall i :: 0 <= i < |REQUIRED_FIELDS| ==> HasText(doc, REQUIRED_FIELDS[i])) <==>
              && IsText(doc, "user_id") && IsText(doc, "home_id") && IsText(doc, "device_id")
              && IsText(doc, "mqtt_host") && IsText(doc, "mqtt_port") && IsText(doc, "mqtt_username")
              && IsText(doc, "mqtt_password") && IsText(doc, "wifi_ssid") && IsText(doc, "wifi_password")
  {
    assert REQUIRED_FIELDS[0] == "user_id" && REQUIRED_FIELDS[1] == "home_id" && REQUIRED_FIELDS[2] == "device_id";
    assert REQUIRED_FIELDS[3] == "mqtt_host" && REQUIRED_FIELDS[4] == "mqtt_port";
    assert REQUIRED_FIELDS[5] == "mqtt_username" && REQUIRED_FIELDS[6] == "mqtt_password";
    assert REQUIRED_FIELDS[7] == "wifi_ssid" && REQUIRED_FIELDS[8] == "wifi_password";
  }

  // ---------- the device's public key ----------

  /** Reply `i` of `n` to a pull of a 32-octet key in this transfer. */
  predicate IsKeyChunk(reply: Bytes, id: Byte, i: nat, n: nat) {
    && |reply| >= 8 && reply[0] == 1 && reply[1] == id && BigEndian(reply[2], reply[3]) == i
    && BigEndian(reply[4], reply[5]) == n && BigEndian(reply[6], reply[7]) == 32
  }

  /** The web page takes a key exactly from consecutive chunks of one transfer that carry 32 octets. */
  lemma PullsExactly(replies: seq<Bytes>, n: nat, id: Byte)
    ensures Pulled(replies, n, id) <==>
              && 0 < n <= |replies| && n <= 65535 && (forall i :: 0 <= i < n ==> IsKeyChunk(replies[i], id, i, n))
              && |Payloads(replies[..n])| == 32
  {
    if n <= |replies| && n <= 65535 {
      forall i | 0 <= i < n
        ensures InTransfer(replies[i], n, id, i) <==> IsKeyChunk(replies[i], id, i, n)
      {
        KeyChunkExactly(replies[i], n, id, i);
      }
    }
    hide InTransfer, IsKeyChunk, Payloads;
  }

  lemma KeyChunkExactly(reply: Bytes, n: U16, id: Byte, i: U16)
    requires i < n
    ensures InTransfer(reply, n, id, i) <==> IsKeyChunk(reply, id, i, n)
  {
    WebHeaderExactly(reply);
    hide ParseChunkPacket;
  }

  /** A request: version 1, transfer id, and the index in two octets. */
  lemma RequestOctets(transferId: Byte, index: U16)
    ensures var q := PublicKeyRequest(transferId, index);
            |q| == 4 && q[0] == 1 && q[1] == transferId && BigEndian(q[2], q[3]) == index
  {
    U16RoundTrip(index);
  }

  /** The device answers exactly the requests of four octets with version 1, transfer 1 and an index below
      three, with 14, 14 and 4 octets of its key. */
  lemma RepliesExactly(key: Bytes, request: Bytes)
    requires |key| == 32
    ensures PublicKeyReply(key, request).Ok? <==>
              |request| == 4 && request[0] == 1 && request[1] == 1 && request[2] == 0 && request[3] < 3
    ensures PublicKeyReply(key, request).Ok? ==>
              var p, i := PublicKeyReply(key, request).value, request[3];
              && |p| >= 8 && p[..8] == [1, 1, 0, i, 0, 3, 0, 32]
              && p[8..] == key[14 * i..if i < 2 then 14 * i + 14 else 32]
  {
    ThreeChunks(key);
    if |request| == 4 {
      SmallNumber(request[2], request[3]);
      if request[2] == 0 && request[3] < 3 {
        KeyOctets(key, request[3]);
      }
    }
    hide Packet, CeilDiv;
  }

  lemma SmallNumber(high: Byte, low: Byte)
    ensures ReadU16(high, low) == BigEndian(high, low)
    ensures BigEndian(high, low) < 256 <==> high == 0
    ensures high == 0 ==> BigEndian(high, low) == low
  {
  }

  lemma OneOctet(high: Byte, low: Byte, n: nat)
    requires BigEndian(high, low) == n < 256
    ensures high == 0 && low == n
  {
  }

  lemma EightOctets(p: Bytes, i: Byte)
    requires |p| >= 8 && p[0] == 1 && p[1] == 1
    requires BigEndian(p[2], p[3]) == i && BigEndian(p[4], p[5]) == 3 && BigEndian(p[6], p[7]) == 32
    ensures p[..8] == [1, 1, 0, i, 0, 3, 0, 32]
  {
    OneOctet(p[2], p[3], i);
    OneOctet(p[4], p[5], 3);
    OneOctet(p[6], p[7], 32);
    hide BigEndian;
  }

  lemma KeySlice(key: Bytes, i: nat)
    requires |key| == 32 && i < 3
    ensures Offset(i, 14) < 32
    ensures Slice(key, 14, i) == key[14 * i..if i < 2 then 14 * i + 14 else 32]
  {
    if i == 0 {
      assert Offset(0, 14) == 0;
    } else if i == 1 {
      assert Offset(1, 14) == 14;
    } else {
      assert Offset(2, 14) == 28;
    }
  }

  lemma KeyOctets(key: Bytes, i: Byte)
    requires |key| == 32 && i < 3
    ensures CeilDiv(|key|, 14) == 3
    ensures var p := Packet(key, 14, 1, i);
            |p| >= 8 && p[..8] == [1, 1, 0, i, 0, 3, 0, 32] && p[8..] == key[14 * i..if i < 2 then 14 * i + 14 else 32]
  {
    hide Packet, CeilDiv, BigEndian, Offset, Slice;
    ThreeChunks(key);
    PacketForm(key, 14, 1, i);
    EightOctets(Packet(key, 14, 1, i), i);
    KeySlice(key, i);
  }

  lemma ThreeChunks(key: Bytes)
    requires |key| == 32
    ensures CeilDiv(|key|, 14) == 3
  {
  }
}
