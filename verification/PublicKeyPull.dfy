/**
 How the web page pulls the device's public key: it reads a first chunk, asks for the others
 by index, and assembles 32 bytes.
 */
module PublicKeyPull {
  import opened Arithmetic
  import opened Wrappers
  import opened ChunkPacket

  const PUBLIC_KEY_BYTES: nat := 32
  const PUBLIC_KEY_CHUNK_PAYLOAD_SIZE: nat := 14
  const PUBLIC_KEY_REQUEST_SIZE: nat := 4
  const PUBLIC_KEY_TRANSFER_ID: Byte := 1

  // ---------- the device's answers ----------

  function PublicKeyReply(key: Bytes, request: Bytes): Result<Bytes> {
    if |request| != PUBLIC_KEY_REQUEST_SIZE then Err("public key chunk request must be 4 bytes")
    else if request[0] != CHUNK_VERSION then Err("unsupported public key chunk request version")
    else if request[1] != PUBLIC_KEY_TRANSFER_ID then Err("unexpected public key transfer id")
    else BuiltPacket(key, PUBLIC_KEY_CHUNK_PAYLOAD_SIZE, PUBLIC_KEY_TRANSFER_ID, ReadU16(request[2], request[3]))
  }

  /** The answer while no keys are loaded. */
  function PublicKeyRefusal(request: Bytes): Result<Bytes> {
    if |request| != PUBLIC_KEY_REQUEST_SIZE then Err("public key chunk request must be 4 bytes")
    else if request[0] != CHUNK_VERSION then Err("unsupported public key chunk request version")
    else if request[1] != PUBLIC_KEY_TRANSFER_ID then Err("unexpected public key transfer id")
    else Err("device key material unavailable")
  }

  // ---------- the web page's requests and reads ----------

  function PublicKeyRequest(transferId: Byte, chunkIndex: nat): Bytes {
    [CHUNK_VERSION, transferId, HighByte(chunkIndex), LowByte(chunkIndex)]
  }

  method BuildPublicKeyChunkRequest(transferId: Byte, chunkIndex: U16) returns (request: Bytes)
    ensures request == PublicKeyRequest(transferId, chunkIndex)
    ensures |request| == PUBLIC_KEY_REQUEST_SIZE && ReadU16(request[2], request[3]) == chunkIndex
  {
    U16RoundTrip(chunkIndex);
    var bytes := new Byte[PUBLIC_KEY_REQUEST_SIZE];
    bytes[0] := CHUNK_VERSION;
    bytes[1] := transferId;
    bytes[2] := HighByte(chunkIndex);
    bytes[3] := LowByte(chunkIndex);
    request := bytes[..];
  }

  /** The first `n` replies are all chunks of one transfer of 32 bytes, in order and complete. */
  predicate Pulled(replies: seq<Bytes>, n: nat, id: Byte) {
    && 0 < n <= |replies| && n <= U16_MAX
    && (forall i :: 0 <= i < n ==> InTransfer(replies[i], n, id, i))
    && |Payloads(replies[..n])| == PUBLIC_KEY_BYTES
  }

  predicate InTransfer(reply: Bytes, n: U16, id: Byte, i: U16) {
    ParseChunkPacket(reply).Ok? && ParseChunkPacket(reply).value.meta == Metadata(id, i, n, PUBLIC_KEY_BYTES)
  }

  /** Against any device whatsoever: a key is returned if and only if the replies are the in-order
      chunks of one 32-byte transfer, and then it is their concatenation. */
  method ReadChunkedDevicePublicKey(replies: seq<Bytes>) returns (key: Result<Bytes>, requests: seq<Bytes>)
    ensures key.Ok? <==> exists n: nat, id: Byte :: Pulled(replies, n, id)
    ensures key.Ok? ==> |key.value| == PUBLIC_KEY_BYTES
    ensures forall n: nat, id: Byte :: Pulled(replies, n, id) ==> key == Ok(Payloads(replies[..n]))
    ensures replies != [] && ParseChunkPacket(replies[0]).Ok? ==>
              var id := ParseChunkPacket(replies[0]).value.meta.transferId;
              forall i :: 0 <= i < |requests| ==> requests[i] == PublicKeyRequest(id, i + 1)
  {
    requests := [];
    hide ParseChunkPacket, Payload, Payloads, Pulled, PublicKeyRequest;
    PulledFirst(replies);
    if replies == [] {
      return Err("no reply"), requests;
    }
    var parsed := ParseChunkPacket(replies[0]);
    if parsed.Err? {
      return Err(parsed.error), requests;
    }
    var first := parsed.value.meta;
    if first.chunkIndex != 0 {
      return Err("transfer did not start at chunk 0"), requests;
    }
    if first.totalBytes != PUBLIC_KEY_BYTES {
      return Err("wrong key size"), requests;
    }
    var n, id := first.totalChunks, first.transferId;
    FirstInTransfer(replies, n, id);
    var assembled := new Byte[PUBLIC_KEY_BYTES];
    var offset := 0;
    if offset + |parsed.value.payload| > assembled.Length {
      TooLong(replies, 1, n, id);
      return Err("offset is out of bounds"), requests;
    }
    Store(assembled, offset, parsed.value.payload);
    offset := offset + |parsed.value.payload|;
    assert assembled[..offset] == parsed.value.payload;

    var chunkIndex: nat := 1;
    while chunkIndex < n
      invariant 1 <= chunkIndex <= n && chunkIndex <= |replies|
      invariant 0 <= offset <= assembled.Length
      invariant PulledSoFar(replies, chunkIndex, n, id)
      invariant assembled[..offset] == Payloads(replies[..chunkIndex])
      invariant |requests| == chunkIndex - 1
      invariant forall i :: 0 <= i < |requests| ==> requests[i] == PublicKeyRequest(id, i + 1)
    {
      var request := BuildPublicKeyChunkRequest(id, chunkIndex);
      requests := requests + [request];
      MissingChunk(replies, chunkIndex, n, id);
      if chunkIndex >= |replies| {
        return Err("no reply"), requests;
      }
      var next := ParseChunkPacket(replies[chunkIndex]);
      if next.Err? {
        return Err(next.error), requests;
      }
      var packet := next.value;
      if packet.meta.transferId != id {
        return Err("transfer ID changed mid-transfer"), requests;
      }
      if packet.meta.chunkIndex != chunkIndex {
        return Err("unexpected chunk"), requests;
      }
      if packet.meta.totalChunks != n || packet.meta.totalBytes != first.totalBytes {
        return Err("metadata changed mid-transfer"), requests;
      }
      NextInTransfer(replies, chunkIndex, n, id);
      if offset + |packet.payload| > assembled.Length {
        TooLong(replies, chunkIndex + 1, n, id);
        return Err("offset is out of bounds"), requests;
      }
      Store(assembled, offset, packet.payload);
      offset := offset + |packet.payload|;
      chunkIndex := chunkIndex + 1;
    }

    AllPulled(replies, n, id);
    if offset != first.totalBytes {
      return Err("transfer incomplete"), requests;
    }
    assert assembled[..offset] == assembled[..];
    return Ok(assembled[..]), requests;
  }

  predicate PulledSoFar(replies: seq<Bytes>, m: nat, n: U16, id: Byte) {
    m <= |replies| && m <= n && forall i :: 0 <= i < m ==> InTransfer(replies[i], n, id, i)
  }

  /** `TypedArray.set`. */
  method Store(target: array<Byte>, offset: nat, source: Bytes)
    requires offset + |source| <= target.Length
    modifies target
    ensures target[..offset + |source|] == old(target[..offset]) + source
  {
    forall i | 0 <= i < |source| {
      target[offset + i] := source[i];
    }
  }

  /** Any complete pull is the one the first reply announces. */
  lemma PulledFirst(replies: seq<Bytes>)
    ensures forall n: nat, id: Byte :: Pulled(replies, n, id) ==>
              replies != [] && ParseChunkPacket(replies[0]).Ok?
              && ParseChunkPacket(replies[0]).value.meta == Metadata(id, 0, n, PUBLIC_KEY_BYTES)
  {
    hide ParseChunkPacket, Payloads;
    forall n: nat, id: Byte | Pulled(replies, n, id)
      ensures InTransfer(replies[0], n, id, 0)
    {
    }
  }

  lemma FirstInTransfer(replies: seq<Bytes>, n: U16, id: Byte)
    requires replies != [] && InTransfer(replies[0], n, id, 0)
    ensures n > 0 && PulledSoFar(replies, 1, n, id)
    ensures Payloads(replies[..1]) == ParseChunkPacket(replies[0]).value.payload
  {
    PayloadsOfOne(replies);
    ParsedPayload(replies[0]);
  }

  lemma NextInTransfer(replies: seq<Bytes>, m: nat, n: U16, id: Byte)
    requires PulledSoFar(replies, m, n, id) && m < |replies| && m < n && InTransfer(replies[m], n, id, m)
    ensures PulledSoFar(replies, m + 1, n, id)
    ensures Payloads(replies[..m + 1]) == Payloads(replies[..m]) + ParseChunkPacket(replies[m]).value.payload
  {
    hide Payload;
    PayloadsStep(replies, m);
    ParsedPayload(replies[m]);
  }

  lemma MissingChunk(replies: seq<Bytes>, m: nat, n: U16, id: Byte)
    requires m < n
    ensures m >= |replies| || !InTransfer(replies[m], n, id, m) ==> !Pulled(replies, n, id)
  {
    hide InTransfer, Payloads;
  }

  lemma TooLong(replies: seq<Bytes>, m: nat, n: U16, id: Byte)
    requires m <= |replies| && m <= n && |Payloads(replies[..m])| > PUBLIC_KEY_BYTES
    ensures !Pulled(replies, n, id)
  {
    PayloadsGrow(replies, m, n);
    hide InTransfer, Payloads;
  }

  lemma AllPulled(replies: seq<Bytes>, n: U16, id: Byte)
    requires n > 0 && PulledSoFar(replies, n, n, id)
    ensures Pulled(replies, n, id) <==> |Payloads(replies[..n])| == PUBLIC_KEY_BYTES
  {
    hide InTransfer, Payloads;
  }

  lemma ParsedPayload(packet: Bytes)
    requires ParseChunkPacket(packet).Ok?
    ensures ParseChunkPacket(packet).value.payload == Payload(packet)
  {
  }

  lemma PayloadsOfOne(replies: seq<Bytes>)
    requires replies != []
    ensures Payloads(replies[..1]) == Payload(replies[0])
  {
    assert replies[..1][..0] == [];
    assert Payloads([]) == [];
  }

  lemma PayloadsStep(replies: seq<Bytes>, n: nat)
    requires n < |replies|
    ensures Payloads(replies[..n + 1]) == Payloads(replies[..n]) + Payload(replies[n])
  {
    assert replies[..n + 1][..n] == replies[..n];
  }

  lemma {:induction false} PayloadsGrow(replies: seq<Bytes>, m: nat, n: nat)
    requires m <= |replies|
    ensures m <= n <= |replies| ==> |Payloads(replies[..m])| <= |Payloads(replies[..n])|
    decreases n
  {
    hide Payloads, Payload;
    if m < n <= |replies| {
      PayloadsGrow(replies, m, n - 1);
      PayloadsStep(replies, n - 1);
    }
  }

  // ---------- against a real device ----------

  /** A device that answers every request returns its key: the pull yields exactly the 32 bytes. */
  lemma PullYieldsKey(key: Bytes, replies: seq<Bytes>)
    requires |key| == PUBLIC_KEY_BYTES && |replies| >= 3
    requires Ok(replies[0]) == BuiltPacket(key, PUBLIC_KEY_CHUNK_PAYLOAD_SIZE, PUBLIC_KEY_TRANSFER_ID, 0)
    requires forall i :: 1 <= i < 3 ==>
               Ok(replies[i]) == PublicKeyReply(key, PublicKeyRequest(PUBLIC_KEY_TRANSFER_ID, i))
    ensures Pulled(replies, 3, PUBLIC_KEY_TRANSFER_ID) && Payloads(replies[..3]) == key
  {
    var n, size, id := 3, PUBLIC_KEY_CHUNK_PAYLOAD_SIZE, PUBLIC_KEY_TRANSFER_ID;
    ThreeChunks(key);
    hide BuiltPacket, Packet, InTransfer, Payloads, PublicKeyReply, PublicKeyRequest, CeilDiv;
    forall i | 0 <= i < n
      ensures replies[i] == Packet(key, size, id, i) && InTransfer(replies[i], n, id, i)
    {
      assert i == 0 || i == 1 || i == 2;
      DeviceChunk(key, i);
    }
    var whole := replies[..n];
    assert forall i :: 0 <= i < n ==> whole[i] == replies[i];
    TransferCarriesSource(whole, key, size, id);
  }

  lemma ThreeChunks(key: Bytes)
    requires |key| == PUBLIC_KEY_BYTES
    ensures CeilDiv(|key|, PUBLIC_KEY_CHUNK_PAYLOAD_SIZE) == 3
  {
  }

  /** What the device has to say about chunk `i` of its key. */
  lemma DeviceChunk(key: Bytes, i: nat)
    requires |key| == PUBLIC_KEY_BYTES && i < CeilDiv(|key|, PUBLIC_KEY_CHUNK_PAYLOAD_SIZE) == 3
    ensures var built := BuiltPacket(key, PUBLIC_KEY_CHUNK_PAYLOAD_SIZE, PUBLIC_KEY_TRANSFER_ID, i);
            var packet := Packet(key, PUBLIC_KEY_CHUNK_PAYLOAD_SIZE, PUBLIC_KEY_TRANSFER_ID, i);
            && built == Ok(packet)
            && PublicKeyReply(key, PublicKeyRequest(PUBLIC_KEY_TRANSFER_ID, i)) == built
            && InTransfer(packet, 3, PUBLIC_KEY_TRANSFER_ID, i)
  {
    hide Packet, HighByte, LowByte, ReadU16, CeilDiv, InTransfer;
    RequestRoundTrip(i);
    KeyChunkInTransfer(key, i);
  }

  lemma RequestRoundTrip(i: U16)
    ensures ReadU16(HighByte(i), LowByte(i)) == i
  {
    U16RoundTrip(i);
  }

  lemma KeyChunkInTransfer(key: Bytes, i: nat)
    requires |key| == PUBLIC_KEY_BYTES && i < CeilDiv(|key|, PUBLIC_KEY_CHUNK_PAYLOAD_SIZE) == 3
    ensures InTransfer(Packet(key, PUBLIC_KEY_CHUNK_PAYLOAD_SIZE, PUBLIC_KEY_TRANSFER_ID, i), 3,
                       PUBLIC_KEY_TRANSFER_ID, i)
  {
    hide Header, Slice, CeilDiv, ParseChunkPacket, Offset;
    ChunkBounds(|key|, PUBLIC_KEY_CHUNK_PAYLOAD_SIZE, i);
    HeaderRoundTrip(Metadata(PUBLIC_KEY_TRANSFER_ID, i, 3, |key|), Slice(key, PUBLIC_KEY_CHUNK_PAYLOAD_SIZE, i));
  }
}
