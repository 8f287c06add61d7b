/** The device's side of enrollment: its keys, the transfer in progress and the settings it may apply. */
module SecureBle {
  import opened Wrappers
  import opened ChunkPacket
  import opened Primitives
  import opened Envelope
  import opened ChunkReceiver
  import opened PublicKeyPull

  class SecureBle {
    const c: Primitives
    var privateKey: Bytes
    var publicKey: Bytes
    var keyMaterialLoaded: bool
    var transferActive: bool
    var activeTransferId: Byte
    var expectedChunkIndex: U16
    var expectedTotalChunks: U16
    var expectedTotalBytes: U16
    var transferBuffer: Bytes
    var pendingValues: Option<ProvisioningValues>

    ghost function State(): Receiver
      reads this
    {
      Receiver(transferActive, activeTransferId, expectedChunkIndex, expectedTotalChunks, expectedTotalBytes,
               transferBuffer, pendingValues)
    }

    ghost function DeviceKeys(): Keys
      reads this
    {
      Keys(c, privateKey)
    }

    ghost predicate Ready()
      reads this
    {
      Lawful(c) && Valid(State())
    }

    /** What the device makes of a packet, as it is now. */
    ghost function OnChunk(packet: Bytes): Outcome
      requires Ready()
      reads this
    {
      if keyMaterialLoaded then Ingest(DeviceKeys(), State(), packet)
      else Outcome(State(), Error("secure key material not initialized"))
    }

    /** What the device answers to a public key request, as it is now. */
    ghost function OnKeyRequest(request: Bytes): Result<Bytes>
      requires |publicKey| == KEY_SIZE
      reads this
    {
      if keyMaterialLoaded then PublicKeyReply(publicKey, request) else PublicKeyRefusal(request)
    }

    constructor (c: Primitives, privateKey: Bytes)
      requires Lawful(c)
      ensures Ready() && State() == INITIAL && keyMaterialLoaded
      ensures this.c == c && this.privateKey == privateKey && publicKey == c.publicKey(privateKey)
    {
      this.c, this.privateKey, this.publicKey := c, privateKey, c.publicKey(privateKey);
      keyMaterialLoaded := true;
      transferActive, activeTransferId, expectedChunkIndex := false, 0, 0;
      expectedTotalChunks, expectedTotalBytes, transferBuffer, pendingValues := 0, 0, [], None;
    }

    method ResetTransferState()
      modifies this`transferActive, this`activeTransferId, this`expectedChunkIndex,
               this`expectedTotalChunks, this`expectedTotalBytes, this`transferBuffer
      ensures State() == Reset(old(State()))
    {
      transferActive := false;
      activeTransferId := 0;
      expectedChunkIndex := 0;
      expectedTotalChunks := 0;
      expectedTotalBytes := 0;
      transferBuffer := [];
    }

    method ClearRuntimeState()
      modifies this`transferActive, this`activeTransferId, this`expectedChunkIndex,
               this`expectedTotalChunks, this`expectedTotalBytes, this`transferBuffer, this`pendingValues
      ensures State() == INITIAL
    {
      ResetTransferState();
      pendingValues := None;
    }

    /** Afterwards no key is left to read: every packet is refused and leaves the device as it is, and
        no request is answered with a chunk of a key. A transfer under way is not forgotten. */
    method ClearKeyCache()
      modifies this`keyMaterialLoaded, this`privateKey, this`publicKey
      ensures State() == old(State()) && |publicKey| == KEY_SIZE && privateKey == publicKey == Zeros(KEY_SIZE)
      ensures forall packet :: Ready() ==> OnChunk(packet).receiver == State() && OnChunk(packet).status.Error?
      ensures forall request :: OnKeyRequest(request).Err?
    {
      keyMaterialLoaded := false;
      privateKey := Zeros(KEY_SIZE);
      publicKey := Zeros(KEY_SIZE);
    }

    method BeginTransfer(m: Metadata)
      modifies this`transferActive, this`activeTransferId, this`expectedChunkIndex,
               this`expectedTotalChunks, this`expectedTotalBytes, this`transferBuffer, this`pendingValues
      ensures State() == Begin(m)
    {
      ResetTransferState();
      pendingValues := None;
      transferActive := true;
      activeTransferId := m.transferId;
      expectedChunkIndex := 0;
      expectedTotalChunks := m.totalChunks;
      expectedTotalBytes := m.totalBytes;
    }

    /** Without key material nothing changes; with it, the automaton takes one step. */
    method IngestChunk(packet: Bytes) returns (status: ChunkStatus)
      requires Ready()
      modifies this`transferActive, this`activeTransferId, this`expectedChunkIndex,
               this`expectedTotalChunks, this`expectedTotalBytes, this`transferBuffer, this`pendingValues
      ensures Ready()
      ensures Outcome(State(), status) == old(OnChunk(packet))
    {
      if !keyMaterialLoaded {
        return Error("secure key material not initialized");
      }
      IngestKeepsValid(DeviceKeys(), State(), packet);
      hide Lawful, ParseChunkMetadata, Proceed, Valid, Append, Payload;
      var parsed := ParseChunkMetadata(packet);
      if parsed.Err? {
        ResetTransferState();
        return Error(parsed.error);
      }
      var m := parsed.value;
      var payload := Payload(packet);
      if m.totalChunks == 0 || m.totalBytes == 0 {
        ResetTransferState();
        return Error("invalid chunk metadata");
      }
      if m.totalBytes > MAX_TRANSFER_SIZE {
        ResetTransferState();
        return Error("encrypted bundle exceeds supported size");
      }
      if m.chunkIndex >= m.totalChunks {
        ResetTransferState();
        return Error("chunk index out of range");
      }
      if !transferActive || m.transferId != activeTransferId {
        if m.chunkIndex != 0 {
          ResetTransferState();
          return Error("received non-initial chunk without active transfer");
        }
        BeginTransfer(m);
      }
      status := AppendChunk(m, payload);
    }

    /** Checks the packet against the transfer in progress and stores its payload. */
    method AppendChunk(m: Metadata, payload: Bytes) returns (status: ChunkStatus)
      requires Lawful(c)
      modifies this`transferActive, this`activeTransferId, this`expectedChunkIndex,
               this`expectedTotalChunks, this`expectedTotalBytes, this`transferBuffer, this`pendingValues
      ensures Outcome(State(), status) == old(Append(DeviceKeys(), State(), m, payload))
    {
      hide Lawful, Proceed;
      if m.transferId != activeTransferId || m.totalChunks != expectedTotalChunks
        || m.totalBytes != expectedTotalBytes {
        ResetTransferState();
        return Error("chunk metadata mismatch");
      }
      if m.chunkIndex != expectedChunkIndex {
        ResetTransferState();
        return Error("chunk order mismatch");
      }
      if |transferBuffer| + |payload| > m.totalBytes {
        ResetTransferState();
        return Error("transfer buffer overflow");
      }
      transferBuffer := transferBuffer + payload;
      expectedChunkIndex := Increment(expectedChunkIndex);
      status := FinishChunk();
    }

    /** Waits for more chunks, or opens the complete envelope. */
    method FinishChunk() returns (status: ChunkStatus)
      requires Lawful(c)
      modifies this`transferActive, this`activeTransferId, this`expectedChunkIndex,
               this`expectedTotalChunks, this`expectedTotalBytes, this`transferBuffer, this`pendingValues
      ensures Outcome(State(), status) == old(Proceed(DeviceKeys(), State()))
    {
      hide Lawful, Decrypted, ParsePlaintextPayload;
      if expectedChunkIndex < expectedTotalChunks {
        return Accepted;
      }
      if |transferBuffer| != expectedTotalBytes {
        ResetTransferState();
        return Error("incomplete encrypted bundle");
      }
      var plaintext := DecryptEnvelope(c, privateKey, transferBuffer);
      if plaintext.Err? {
        ResetTransferState();
        return Error(plaintext.error);
      }
      var values := ParsePlaintextPayload(c, plaintext.value);
      if values.Err? {
        ResetTransferState();
        return Error(values.error);
      }
      pendingValues := Some(values.value);
      ResetTransferState();
      return Complete;
    }

    /** Hands out the validated settings once. */
    method ApplyPendingProvisioning() returns (values: Result<ProvisioningValues>)
      modifies this`pendingValues
      ensures State() == old(State()).(pending := None)
      ensures values == match old(pendingValues)
                        case None => Err("no validated provisioning bundle available")
                        case Some(v) => Ok(v)
    {
      if pendingValues.None? {
        return Err("no validated provisioning bundle available");
      }
      values := Ok(pendingValues.value);
      pendingValues := None;
    }

    method HandlePublicKeyChunkRequest(request: Bytes) returns (packet: Result<Bytes>)
      requires |publicKey| == KEY_SIZE
      ensures packet == OnKeyRequest(request)
    {
      if |request| != PUBLIC_KEY_REQUEST_SIZE {
        return Err("public key chunk request must be 4 bytes");
      }
      if request[0] != CHUNK_VERSION {
        return Err("unsupported public key chunk request version");
      }
      if request[1] != PUBLIC_KEY_TRANSFER_ID {
        return Err("unexpected public key transfer id");
      }
      var chunkIndex := ReadU16(request[2], request[3]);
      if !keyMaterialLoaded {
        return Err("device key material unavailable");
      }
      packet := BuildChunkPacket(publicKey, PUBLIC_KEY_CHUNK_PAYLOAD_SIZE, PUBLIC_KEY_TRANSFER_ID, chunkIndex);
    }
  }
}
