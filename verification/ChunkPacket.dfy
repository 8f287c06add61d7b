/**
 The chunk protocol of the Bluetooth link: an 8-byte header (version, transfer id and three
 big-endian 16-bit numbers) followed by a slice of the payload.  The firmware and the web
 page each have a writer and a reader of it.
 */
module ChunkPacket {
  import opened Arithmetic
  import opened Wrappers

  type Byte = x: int | 0 <= x < 0x100
  type U16 = x: int | 0 <= x < 0x1_0000
  type Bytes = seq<Byte>

  const CHUNK_VERSION: Byte := 1
  const HEADER_SIZE: nat := 8
  const U16_MAX: nat := 0xffff

  /** `size_t` on the device is 32 bits wide. */
  const SIZE_MODULUS: nat := 0x1_0000_0000

  datatype Metadata = Metadata(transferId: Byte, chunkIndex: U16, totalChunks: U16, totalBytes: U16)

  // ---------- 16-bit numbers ----------

  function HighByte(value: nat): Byte { (value / 0x100) % 0x100 }

  function LowByte(value: nat): Byte { value % 0x100 }

  function ReadU16(high: Byte, low: Byte): U16 { high * 0x100 + low }

  lemma U16RoundTrip(value: U16)
    ensures ReadU16(HighByte(value), LowByte(value)) == value
  {
  }

  // ---------- header ----------

  function Header(m: Metadata): (h: Bytes)
    ensures |h| == HEADER_SIZE
  {
    [CHUNK_VERSION, m.transferId,
     HighByte(m.chunkIndex), LowByte(m.chunkIndex),
     HighByte(m.totalChunks), LowByte(m.totalChunks),
     HighByte(m.totalBytes), LowByte(m.totalBytes)]
  }

  function ReadMetadata(packet: Bytes): Metadata
    requires |packet| >= HEADER_SIZE
  {
    Metadata(packet[1], ReadU16(packet[2], packet[3]), ReadU16(packet[4], packet[5]), ReadU16(packet[6], packet[7]))
  }

  /** The firmware's reader. */
  function ParseChunkMetadata(packet: Bytes): Result<Metadata> {
    if |packet| < HEADER_SIZE then Err("chunk too short")
    else if packet[0] != CHUNK_VERSION then Err("unsupported chunk protocol version")
    else Ok(ReadMetadata(packet))
  }

  function Payload(packet: Bytes): Bytes {
    if |packet| < HEADER_SIZE then [] else packet[HEADER_SIZE..]
  }

  datatype Chunk = Chunk(meta: Metadata, payload: Bytes)

  /** The web page's reader; it also rejects impossible counts. */
  function ParseChunkPacket(packet: Bytes): Result<Chunk> {
    if |packet| < HEADER_SIZE then Err("packet is too short")
    else
      var m := ReadMetadata(packet);
      if packet[0] != CHUNK_VERSION then Err("unsupported version")
      else if m.totalChunks == 0 then Err("zero chunks")
      else if m.chunkIndex >= m.totalChunks then Err("out-of-range chunk index")
      else if m.totalBytes == 0 then Err("zero bytes")
      else Ok(Chunk(m, packet[HEADER_SIZE..]))
  }

  /** Both readers undo both writers. */
  lemma HeaderRoundTrip(m: Metadata, payload: Bytes)
    ensures ParseChunkMetadata(Header(m) + payload) == Ok(m)
    ensures Payload(Header(m) + payload) == payload
    ensures ParseChunkPacket(Header(m) + payload)
         == if m.totalChunks == 0 then Err("zero chunks")
            else if m.chunkIndex >= m.totalChunks then Err("out-of-range chunk index")
            else if m.totalBytes == 0 then Err("zero bytes")
            else Ok(Chunk(m, payload))
  {
    U16RoundTrip(m.chunkIndex);
    U16RoundTrip(m.totalChunks);
    U16RoundTrip(m.totalBytes);
    var packet := Header(m) + payload;
    assert packet[..HEADER_SIZE] == Header(m) && packet[HEADER_SIZE..] == payload;
    assert ReadMetadata(packet) == ReadMetadata(Header(m));
  }

  // ---------- slicing a source into chunks ----------

  /** Where chunk `i` begins. */
  function Offset(i: nat, size: nat): nat { i * size }

  /** The slice of the source that chunk `i` carries. */
  function Slice(source: Bytes, size: nat, i: nat): Bytes
    requires size > 0 && Offset(i, size) <= |source|
  {
    source[Offset(i, size)..Min(Offset(i, size) + size, |source|)]
  }

  function Payloads(packets: seq<Bytes>): Bytes {
    if packets == [] then [] else Payloads(packets[..|packets| - 1]) + Payload(packets[|packets| - 1])
  }

  /** Packet `i` of the transfer of `source` in slices of `size`. */
  function Packet(source: Bytes, size: nat, transferId: Byte, i: nat): Bytes
    requires 0 < size && |source| <= U16_MAX && i < CeilDiv(|source|, size)
  {
    ChunkBounds(|source|, size, i);
    Header(Metadata(transferId, i, CeilDiv(|source|, size), |source|)) + Slice(source, size, i)
  }

  /** Every chunk but the last is full and begins inside the source; the chunks fit 16 bits. */
  lemma ChunkBounds(len: nat, size: nat, i: nat)
    requires 0 < size && i < CeilDiv(len, size)
    ensures Offset(i, size) < len
    ensures i + 1 < CeilDiv(len, size) ==> Offset(i, size) + size < len
    ensures i + 1 == CeilDiv(len, size) ==> len <= Offset(i, size) + size
    ensures CeilDiv(len, size) <= len
  {
    var n := CeilDiv(len, size);
    DivisionBounds(len + size - 1, size);
    hide CeilDiv;
    CountBounds(n, len, size, i);
  }

  lemma CountBounds(n: nat, len: nat, size: nat, i: nat)
    requires 0 < size && i < n && Offset(n, size) <= len + size - 1 < Offset(n, size) + size
    ensures Offset(i, size) < len
    ensures i + 1 < n ==> Offset(i, size) + size < len
    ensures i + 1 == n ==> len <= Offset(i, size) + size
    ensures n <= len
  {
    Product(i + 1, size);
    Scale(i + 1, n, size);
    if i + 2 <= n {
      Product(i + 2, size);
      Scale(i + 2, n, size);
    }
    AtLeastCount(n, size);
    hide Offset;
  }

  lemma {:induction false} AtLeastCount(n: nat, size: nat)
    requires 0 < n && 0 < size
    ensures Offset(n, size) >= n + size - 1
  {
    hide Offset;
    Product(n, size);
    if n > 1 {
      AtLeastCount(n - 1, size);
    } else {
      Product(0, size);
    }
  }

  predicate IsTransferOf(packets: seq<Bytes>, source: Bytes, size: nat, transferId: Byte)
    requires 0 < size && |source| <= U16_MAX
  {
    && |packets| <= CeilDiv(|source|, size)
    && forall i :: 0 <= i < |packets| ==> packets[i] == Packet(source, size, transferId, i)
  }

  /** The first packets of a transfer carry a prefix of the source, and all of them all of it. */
  lemma {:induction false} TransferCarriesSource(packets: seq<Bytes>, source: Bytes, size: nat, transferId: Byte)
    requires 0 < size && 0 < |source| <= U16_MAX
    requires IsTransferOf(packets, source, size, transferId)
    ensures Payloads(packets) == source[..Min(Offset(|packets|, size), |source|)]
    ensures |packets| == CeilDiv(|source|, size) ==> Payloads(packets) == source
    decreases |packets|
  {
    hide CeilDiv, Packet, Offset, Payload;
    var n := |packets|;
    if n == 0 {
      CeilDivPositive(|source|, size);
      Product(0, size);
    } else {
      var before := packets[..n - 1];
      var start := Offset(n - 1, size);
      TransferCarriesSource(before, source, size, transferId);
      ChunkBounds(|source|, size, n - 1);
      Product(n, size);
      PacketPayload(source, size, transferId, n - 1);
      assert packets[n - 1] == Packet(source, size, transferId, n - 1);
      assert Payload(packets[n - 1]) == source[start..Min(start + size, |source|)];
      assert Payloads(before) == source[..start];
      assert source[..start] + source[start..Min(start + size, |source|)] == source[..Min(start + size, |source|)];
    }
  }

  lemma Product(n: nat, size: nat)
    ensures n == 0 ==> Offset(n, size) == 0
    ensures n > 0 ==> Offset(n, size) == Offset(n - 1, size) + size
  {
  }

  lemma CeilDivPositive(len: nat, size: nat)
    requires 0 < len && 0 < size
    ensures CeilDiv(len, size) > 0
  {
    QuotientAtLeastOne(len + size - 1, size);
  }

  lemma PacketPayload(source: Bytes, size: nat, transferId: Byte, i: nat)
    requires 0 < size && |source| <= U16_MAX && i < CeilDiv(|source|, size)
    ensures Offset(i, size) < |source| && Payload(Packet(source, size, transferId, i)) == Slice(source, size, i)
  {
    ChunkBounds(|source|, size, i);
    HeaderRoundTrip(Metadata(transferId, i, CeilDiv(|source|, size), |source|), Slice(source, size, i));
    hide CeilDiv;
  }

  // ---------- the firmware's writer ----------

  /** `size_t` arithmetic wraps, and the quotient is cut to 16 bits. */
  function CalculateTotalChunks(totalBytes: nat, payloadSize: nat): U16
    requires totalBytes < SIZE_MODULUS && payloadSize < SIZE_MODULUS
  {
    if payloadSize == 0 || totalBytes == 0 then 0
    else (((totalBytes + payloadSize - 1) % SIZE_MODULUS) / payloadSize) % 0x1_0000
  }

  method BuildChunkPacket(source: Bytes, payloadSize: nat, transferId: Byte, chunkIndex: U16)
    returns (packet: Result<Bytes>)
    requires |source| < SIZE_MODULUS && payloadSize < SIZE_MODULUS
    ensures packet == BuiltPacket(source, payloadSize, transferId, chunkIndex)
  {
    if |source| == 0 {
      return Err("chunk source is empty");
    }
    if |source| > U16_MAX {
      return Err("chunk source exceeds 16-bit protocol size");
    }
    var totalChunks := CalculateTotalChunks(|source|, payloadSize);
    TotalChunksExact(|source|, payloadSize);
    if totalChunks == 0 {
      return Err("chunk source has invalid payload sizing");
    }
    if chunkIndex >= totalChunks {
      return Err("requested chunk is out of range");
    }
    ChunkBounds(|source|, payloadSize, chunkIndex);
    SliceDoesNotWrap(|source|, payloadSize, chunkIndex);
    var start := Offset(chunkIndex, payloadSize) % SIZE_MODULUS;
    var end := Min((start + payloadSize) % SIZE_MODULUS, |source|);
    hide CeilDiv, CalculateTotalChunks, Offset;
    var out: Bytes := [];
    out := out + [CHUNK_VERSION];
    out := out + [transferId];
    out := out + [HighByte(chunkIndex), LowByte(chunkIndex)];
    out := out + [HighByte(totalChunks), LowByte(totalChunks)];
    out := out + [HighByte(|source|), LowByte(|source|)];
    assert out == Header(Metadata(transferId, chunkIndex, totalChunks, |source|));
    out := out + source[start..end];
    return Ok(out);
  }

  /** What the firmware's writer must produce: the chunk, unless a limit is exceeded. */
  function BuiltPacket(source: Bytes, payloadSize: nat, transferId: Byte, chunkIndex: U16): Result<Bytes> {
    if |source| == 0 then Err("chunk source is empty")
    else if |source| > U16_MAX then Err("chunk source exceeds 16-bit protocol size")
    else if payloadSize == 0 || |source| + payloadSize > SIZE_MODULUS
      then Err("chunk source has invalid payload sizing")
    else if chunkIndex >= CeilDiv(|source|, payloadSize) then Err("requested chunk is out of range")
    else Ok(Packet(source, payloadSize, transferId, chunkIndex))
  }

  /** The truncations never bite: the count is exact, and zero exactly when the sizes overflow. */
  lemma TotalChunksExact(len: nat, size: nat)
    requires 0 < len <= U16_MAX && size < SIZE_MODULUS
    ensures size == 0 || len + size > SIZE_MODULUS ==> CalculateTotalChunks(len, size) == 0
    ensures size > 0 && len + size <= SIZE_MODULUS ==> CalculateTotalChunks(len, size) == CeilDiv(len, size) > 0
  {
    if size > 0 {
      CeilDivPositive(len, size);
      ChunkBounds(len, size, 0);
      if len + size <= SIZE_MODULUS {
        WithinWord(len + size - 1);
        assert CeilDiv(len, size) < 0x1_0000;
        SmallModulus(CeilDiv(len, size));
      } else {
        OverWord(len + size - 1);
        SmallQuotient(len + size - 1 - SIZE_MODULUS, size);
      }
    }
  }

  lemma WithinWord(a: nat)
    requires a < SIZE_MODULUS
    ensures a % SIZE_MODULUS == a
  {
  }

  lemma OverWord(a: nat)
    requires SIZE_MODULUS <= a < 2 * SIZE_MODULUS
    ensures a % SIZE_MODULUS == a - SIZE_MODULUS
  {
  }

  lemma SmallModulus(a: nat)
    requires a < 0x1_0000
    ensures a % 0x1_0000 == a
  {
  }

  lemma SmallQuotient(a: nat, b: nat)
    requires a < b
    ensures a / b == 0
  {
  }

  lemma QuotientAtLeastOne(a: nat, b: nat)
    requires 0 < b <= a
    ensures a / b >= 1
  {
  }

  lemma SliceDoesNotWrap(len: nat, size: nat, i: nat)
    requires 0 < len <= U16_MAX && 0 < size && len + size <= SIZE_MODULUS && i < CeilDiv(len, size)
    ensures Offset(i, size) % SIZE_MODULUS == Offset(i, size)
    ensures (Offset(i, size) + size) % SIZE_MODULUS == Offset(i, size) + size
  {
    ChunkBounds(len, size, i);
    WithinWord(Offset(i, size));
    WithinWord(Offset(i, size) + size);
  }
}
