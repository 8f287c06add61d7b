/**
 Enrollment end to end: the server encrypts a payload, the web page cuts the envelope into
 packets, and the device takes them in.
 */
module Provisioning {
  import opened Arithmetic
  import opened Wrappers
  import opened ChunkPacket
  import opened Primitives
  import opened Envelope
  import opened ChunkReceiver

  const CHUNK_PAYLOAD_SIZE: nat := 120

  /** The web page's chunker. */
  method BuildProvisioningChunks(bundle: Bytes, transferId: Byte) returns (chunks: Result<seq<Bytes>>)
    ensures chunks.Ok? <==> 0 < |bundle| <= U16_MAX
    ensures chunks.Ok? ==> ChunksOf(chunks.value, bundle, transferId)
  {
    if |bundle| == 0 {
      return Err("Encrypted provisioning bundle is empty.");
    }
    if |bundle| > U16_MAX {
      return Err("Encrypted provisioning bundle is too large for BLE transport.");
    }
    var totalChunks := CeilDiv(|bundle|, CHUNK_PAYLOAD_SIZE);
    CeilDivPositive(|bundle|, CHUNK_PAYLOAD_SIZE);
    ChunkBounds(|bundle|, CHUNK_PAYLOAD_SIZE, 0);
    if totalChunks > U16_MAX {
      return Err("Encrypted provisioning bundle requires too many BLE chunks.");
    }
    hide CeilDiv, Offset, Header;
    var packets: seq<Bytes> := [];
    var chunkIndex := 0;
    while chunkIndex < totalChunks
      invariant chunkIndex <= totalChunks
      invariant |packets| == chunkIndex
      invariant IsTransferOf(packets, bundle, CHUNK_PAYLOAD_SIZE, transferId)
    {
      ChunkBounds(|bundle|, CHUNK_PAYLOAD_SIZE, chunkIndex);
      var packet := BuildPacket(bundle, transferId, chunkIndex, totalChunks);
      packets := packets + [packet];
      chunkIndex := chunkIndex + 1;
    }
    return Ok(packets);
  }

  /** One iteration of the chunker: fill a fresh byte array with header and slice. */
  method BuildPacket(bundle: Bytes, transferId: Byte, chunkIndex: U16, totalChunks: U16) returns (packet: Bytes)
    requires 0 < |bundle| <= U16_MAX && chunkIndex < totalChunks == CeilDiv(|bundle|, CHUNK_PAYLOAD_SIZE)
    ensures packet == Packet(bundle, CHUNK_PAYLOAD_SIZE, transferId, chunkIndex)
  {
    ChunkBounds(|bundle|, CHUNK_PAYLOAD_SIZE, chunkIndex);
    hide CeilDiv, HighByte, LowByte;
    var start := Offset(chunkIndex, CHUNK_PAYLOAD_SIZE);
    hide Offset;
    var end := Min(start + CHUNK_PAYLOAD_SIZE, |bundle|);
    var payload := bundle[start..end];
    var bytes := new Byte[HEADER_SIZE + |payload|];
    bytes[0] := CHUNK_VERSION;
    bytes[1] := transferId;
    bytes[2], bytes[3] := HighByte(chunkIndex), LowByte(chunkIndex);
    bytes[4], bytes[5] := HighByte(totalChunks), LowByte(totalChunks);
    bytes[6], bytes[7] := HighByte(|bundle|), LowByte(|bundle|);
    assert bytes[..HEADER_SIZE] == Header(Metadata(transferId, chunkIndex, totalChunks, |bundle|));
    forall i | 0 <= i < |payload| {
      bytes[HEADER_SIZE + i] := payload[i];
    }
    assert bytes[..HEADER_SIZE] == Header(Metadata(transferId, chunkIndex, totalChunks, |bundle|));
    assert bytes[HEADER_SIZE..] == payload;
    packet := bytes[..];
    assert packet == bytes[..HEADER_SIZE] + bytes[HEADER_SIZE..];
  }

  /** All the packets of a bundle. */
  predicate ChunksOf(packets: seq<Bytes>, bundle: Bytes, transferId: Byte) {
    && |bundle| <= U16_MAX
    && |packets| == CeilDiv(|bundle|, CHUNK_PAYLOAD_SIZE)
    && IsTransferOf(packets, bundle, CHUNK_PAYLOAD_SIZE, transferId)
  }

  /** What the web page sends is a whole transfer in the device's eyes, and carries the bundle. */
  lemma ChunksAreWholeTransfer(packets: seq<Bytes>, bundle: Bytes, transferId: Byte)
    requires ChunksOf(packets, bundle, transferId) && 0 < |bundle| <= MAX_TRANSFER_SIZE
    ensures WholeTransfer(packets, transferId, |bundle|) && Payloads(packets) == bundle
  {
    var n := |packets|;
    CeilDivPositive(|bundle|, CHUNK_PAYLOAD_SIZE);
    ChunkBounds(|bundle|, CHUNK_PAYLOAD_SIZE, 0);
    TransferCarriesSource(packets, bundle, CHUNK_PAYLOAD_SIZE, transferId);
    hide CeilDiv, ParseChunkMetadata, Payloads, Header, Offset;
    forall i | 0 <= i < n
      ensures ParseChunkMetadata(packets[i]) == Ok(Metadata(transferId, i, n, |bundle|))
    {
      ChunkBounds(|bundle|, CHUNK_PAYLOAD_SIZE, i);
      assert packets[i] == Packet(bundle, CHUNK_PAYLOAD_SIZE, transferId, i);
      HeaderRoundTrip(Metadata(transferId, i, n, |bundle|), Slice(bundle, CHUNK_PAYLOAD_SIZE, i));
    }
  }

  /** The server's envelope of a plaintext for the holder of the device key. */
  ghost function Bundle(k: Keys, ephemeral: Bytes, nonce: Bytes, plaintext: Bytes): Result<Bytes>
    requires Lawful(k.c)
  {
    Encrypted(k.c, ephemeral, k.c.publicKey(k.privateKey), nonce, plaintext)
  }

  /** An envelope opens to the settings in its plaintext, within the sizes the device accepts. */
  lemma BundleOpens(k: Keys, ephemeral: Bytes, nonce: Bytes, plaintext: Bytes)
    requires Lawful(k.c) && |nonce| == NONCE_SIZE && 0 < |plaintext| <= MAX_PLAINTEXT_SIZE
    requires Bundle(k, ephemeral, nonce, plaintext).Ok?
    ensures 0 < |Bundle(k, ephemeral, nonce, plaintext).value| <= MAX_TRANSFER_SIZE
    ensures Opened(k, Bundle(k, ephemeral, nonce, plaintext).value) == ParsePlaintextPayload(k.c, plaintext)
  {
    EnvelopeRoundTrip(k.c, ephemeral, k.privateKey, nonce, plaintext);
    hide Encrypted, Decrypted, ParsePlaintextPayload, Lawful;
  }

  /** Every plaintext of 1 to 1024 bytes, sent to a receiver that is not busy with the same
      transfer id, arrives: all packets but the last are accepted, the last one completes if
      and only if the plaintext is valid, and then exactly its settings are pending. */
  lemma EndToEnd(k: Keys, r: Receiver, ephemeral: Bytes, nonce: Bytes, plaintext: Bytes,
                 packets: seq<Bytes>, transferId: Byte)
    requires Lawful(k.c) && Valid(r) && Free(r, transferId)
    requires |nonce| == NONCE_SIZE && 0 < |plaintext| <= MAX_PLAINTEXT_SIZE
    requires Bundle(k, ephemeral, nonce, plaintext).Ok?
    requires ChunksOf(packets, Bundle(k, ephemeral, nonce, plaintext).value, transferId)
    ensures |packets| > 0
    ensures forall i :: 0 <= i < |packets| - 1 ==> StatusOf(k, r, packets, i) == Accepted
    ensures StatusOf(k, r, packets, |packets| - 1).Complete? <==> ParsePlaintextPayload(k.c, plaintext).Ok?
    ensures ParsePlaintextPayload(k.c, plaintext).Ok? ==>
              IngestAll(k, r, packets).pending == Some(ParsePlaintextPayload(k.c, plaintext).value)
  {
    var bundle := Bundle(k, ephemeral, nonce, plaintext).value;
    BundleOpens(k, ephemeral, nonce, plaintext);
    ChunksAreWholeTransfer(packets, bundle, transferId);
    WholeTransferReceived(k, r, packets, transferId, |bundle|);
    hide Opened, ParsePlaintextPayload, Lawful, Ingest, ChunksOf, Bundle;
  }

  /** A payload enrolled at the server ends up, field for field, on the device. */
  lemma PayloadArrives(k: Keys, r: Receiver, ephemeral: Bytes, nonce: Bytes, payload: ProvisioningPayload,
                       packets: seq<Bytes>, transferId: Byte)
    requires Lawful(k.c) && Valid(r) && Free(r, transferId) && |nonce| == NONCE_SIZE
    requires k.c.parse(k.c.marshal(payload)) == Some(Document(payload))
    requires 0 < |k.c.marshal(payload)| <= MAX_PLAINTEXT_SIZE && 0 <= payload.mqttConnectDelaySeconds <= INT_MAX
    requires Bundle(k, ephemeral, nonce, k.c.marshal(payload)).Ok?
    requires ChunksOf(packets, Bundle(k, ephemeral, nonce, k.c.marshal(payload)).value, transferId)
    ensures IngestAll(k, r, packets).pending == Some(ValuesOf(payload))
  {
    PayloadRoundTrip(k.c, payload);
    EndToEnd(k, r, ephemeral, nonce, k.c.marshal(payload), packets, transferId);
    hide ParsePlaintextPayload, Document, Lawful, ChunksOf, Bundle;
  }

  /** From every state the device can be in, a valid bundle sent twice gets through. */
  lemma RetryProvisions(k: Keys, events: seq<Event>, ephemeral: Bytes, nonce: Bytes, plaintext: Bytes,
                        first: seq<Bytes>, id1: Byte, second: seq<Bytes>, id2: Byte)
    requires Lawful(k.c) && |nonce| == NONCE_SIZE && 0 < |plaintext| <= MAX_PLAINTEXT_SIZE
    requires Bundle(k, ephemeral, nonce, plaintext).Ok? && ParsePlaintextPayload(k.c, plaintext).Ok?
    requires ChunksOf(first, Bundle(k, ephemeral, nonce, plaintext).value, id1)
    requires ChunksOf(second, Bundle(k, ephemeral, nonce, plaintext).value, id2)
    ensures var r := Run(k, Device(INITIAL, []), events).receiver;
            IngestAll(k, IngestAll(k, r, first), second).pending
            == Some(ParsePlaintextPayload(k.c, plaintext).value)
  {
    var bundle := Bundle(k, ephemeral, nonce, plaintext).value;
    BundleOpens(k, ephemeral, nonce, plaintext);
    ChunksAreWholeTransfer(first, bundle, id1);
    ChunksAreWholeTransfer(second, bundle, id2);
    RunKeeps(k, Device(INITIAL, []), events);
    var r := Run(k, Device(INITIAL, []), events).receiver;
    SendingTwiceProvisions(k, r, first, second, id1, id2, |bundle|);
    hide Opened, ParsePlaintextPayload, Lawful, ChunksOf, Bundle, Ingest, Run;
  }
}
