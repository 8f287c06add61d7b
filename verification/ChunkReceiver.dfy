/**
 The device's reassembly automaton: it takes chunk packets one at a time, builds up the
 envelope in a bounded buffer and, on the last chunk, decrypts and validates it.
 */
module ChunkReceiver {
  import opened Wrappers
  import opened ChunkPacket
  import opened Primitives
  import opened Envelope

  const MAX_TRANSFER_SIZE: nat := 2048

  datatype ChunkStatus = Accepted | Complete | Error(reason: string)

  /** The static transfer state; `pending` is the validated settings, if any. */
  datatype Receiver = Receiver(
    active: bool, transferId: Byte, expectedIndex: U16, totalChunks: U16, totalBytes: U16,
    buffer: Bytes, pending: Option<ProvisioningValues>)

  const INITIAL: Receiver := Receiver(false, 0, 0, 0, 0, [], None)

  /** The primitives and the device's private key. */
  datatype Keys = Keys(c: Primitives, privateKey: Bytes)

  function Reset(r: Receiver): Receiver {
    r.(active := false, transferId := 0, expectedIndex := 0, totalChunks := 0, totalBytes := 0, buffer := [])
  }

  function Begin(m: Metadata): Receiver {
    Receiver(true, m.transferId, 0, m.totalChunks, m.totalBytes, [], None)
  }

  datatype Outcome = Outcome(receiver: Receiver, status: ChunkStatus)

  function Reject(r: Receiver, reason: string): Outcome { Outcome(Reset(r), Error(reason)) }

  /** One packet, with the key material loaded. */
  ghost function Ingest(k: Keys, r: Receiver, packet: Bytes): Outcome
    requires Lawful(k.c)
  {
    match ParseChunkMetadata(packet)
    case Err(reason) => Reject(r, reason)
    case Ok(m) =>
      if m.totalChunks == 0 || m.totalBytes == 0 then Reject(r, "invalid chunk metadata")
      else if m.totalBytes > MAX_TRANSFER_SIZE then Reject(r, "encrypted bundle exceeds supported size")
      else if m.chunkIndex >= m.totalChunks then Reject(r, "chunk index out of range")
      else if !r.active || m.transferId != r.transferId then
        if m.chunkIndex != 0 then Reject(r, "received non-initial chunk without active transfer")
        else Append(k, Begin(m), m, Payload(packet))
      else Append(k, r, m, Payload(packet))
  }

  /** The packet belongs to the transfer in progress, or is refused. */
  ghost function Append(k: Keys, r: Receiver, m: Metadata, payload: Bytes): Outcome
    requires Lawful(k.c)
  {
    if m.transferId != r.transferId || m.totalChunks != r.totalChunks || m.totalBytes != r.totalBytes then
      Reject(r, "chunk metadata mismatch")
    else if m.chunkIndex != r.expectedIndex then Reject(r, "chunk order mismatch")
    else if |r.buffer| + |payload| > m.totalBytes then Reject(r, "transfer buffer overflow")
    else Proceed(k, r.(buffer := r.buffer + payload, expectedIndex := Increment(r.expectedIndex)))
  }

  /** 16-bit increment. */
  function Increment(x: U16): U16 { (x + 1) % 0x1_0000 }

  /** After a chunk has been stored: wait for more, or decrypt and validate the envelope. */
  ghost function Proceed(k: Keys, r: Receiver): Outcome
    requires Lawful(k.c)
  {
    if r.expectedIndex < r.totalChunks then Outcome(r, Accepted)
    else if |r.buffer| != r.totalBytes then Reject(r, "incomplete encrypted bundle")
    else
    match Opened(k, r.buffer)
    case Err(reason) => Reject(r, reason)
    case Ok(values) => Outcome(Reset(r.(pending := Some(values))), Complete)
  }

  /** The settings an envelope holds for this device. */
  ghost function Opened(k: Keys, envelope: Bytes): Result<ProvisioningValues>
    requires Lawful(k.c)
  {
    match Decrypted(k.c, k.privateKey, envelope)
    case Err(reason) => Err(reason)
    case Ok(plaintext) => ParsePlaintextPayload(k.c, plaintext)
  }

  // ---------- the invariant ----------

  /** A transfer in progress is bounded and nothing is pending beside it; otherwise the buffer is empty. */
  ghost predicate Valid(r: Receiver) {
    if r.active then
      && 0 < r.expectedIndex < r.totalChunks
      && |r.buffer| <= r.totalBytes <= MAX_TRANSFER_SIZE
      && r.pending.None?
    else r == Reset(r)
  }

  /** The transfer a packet with this header would extend. */
  function Base(r: Receiver, m: Metadata): Receiver {
    if !r.active || m.transferId != r.transferId then Begin(m) else r
  }

  /** The packet is the next one of that transfer and leaves room for its payload. */
  predicate Extends(r: Receiver, packet: Bytes) {
    ParseChunkMetadata(packet).Ok? &&
    var m := ParseChunkMetadata(packet).value;
    var b := Base(r, m);
    && m.chunkIndex < m.totalChunks && 0 < m.totalBytes <= MAX_TRANSFER_SIZE
    && m == Metadata(b.transferId, b.expectedIndex, b.totalChunks, b.totalBytes)
    && |b.buffer| + |Payload(packet)| <= m.totalBytes
  }

  function Extended(r: Receiver, packet: Bytes): Receiver
    requires Extends(r, packet)
  {
    var b := Base(r, ParseChunkMetadata(packet).value);
    b.(buffer := b.buffer + Payload(packet), expectedIndex := b.expectedIndex + 1)
  }

  /** The automaton in one sentence: the next packet of a transfer extends it, every other
      packet is an error that leaves the receiver idle. */
  lemma IngestExtendsOrResets(k: Keys, r: Receiver, packet: Bytes)
    requires Lawful(k.c) && Valid(r)
    ensures var out := Ingest(k, r, packet);
            if Extends(r, packet) then out == Proceed(k, Extended(r, packet))
            else out.status.Error? && out.receiver == Reset(out.receiver)
  {
    hide Append, Proceed, Lawful, ParseChunkMetadata, Payload;
    if ParseChunkMetadata(packet).Ok? {
      var m := ParseChunkMetadata(packet).value;
      if m.chunkIndex < m.totalChunks {
        AppendExtendsOrResets(k, Base(r, m), m, Payload(packet));
      }
    }
  }

  /** A refused packet puts nothing into the pending settings. */
  lemma RefusalAddsNothing(k: Keys, r: Receiver, packet: Bytes)
    requires Lawful(k.c)
    ensures var out := Ingest(k, r, packet);
            out.status.Error? ==> out.receiver.pending.None? || out.receiver.pending == r.pending
  {
    hide Lawful, ParseChunkMetadata, Payload, Increment, Opened;
  }

  lemma AppendExtendsOrResets(k: Keys, b: Receiver, m: Metadata, payload: Bytes)
    requires Lawful(k.c) && m.chunkIndex < m.totalChunks
    ensures var out := Append(k, b, m, payload);
            if m == Metadata(b.transferId, b.expectedIndex, b.totalChunks, b.totalBytes)
               && |b.buffer| + |payload| <= m.totalBytes
            then out == Proceed(k, b.(buffer := b.buffer + payload, expectedIndex := b.expectedIndex + 1))
            else out.status.Error? && out.receiver == Reset(out.receiver) && out.receiver.pending == b.pending
  {
    hide Proceed, Lawful;
    IndexDoesNotWrap(m);
    hide Increment;
  }

  /** The 16-bit index never wraps: it is incremented only below the total. */
  lemma IndexDoesNotWrap(m: Metadata)
    requires m.chunkIndex < m.totalChunks
    ensures Increment(m.chunkIndex) == m.chunkIndex + 1 <= m.totalChunks
  {
  }

  lemma IngestKeepsValid(k: Keys, r: Receiver, packet: Bytes)
    requires Lawful(k.c) && Valid(r)
    ensures Valid(Ingest(k, r, packet).receiver)
    ensures Ingest(k, r, packet).status.Accepted? <==> Ingest(k, r, packet).receiver.active
  {
    IngestExtendsOrResets(k, r, packet);
    hide Ingest, Opened, Lawful, ParseChunkMetadata, Payload;
  }

  // ---------- whole transfers ----------

  /** The packets carry chunks 0, 1, ... of one transfer of `total` chunks and `bytes` bytes. */
  predicate InOrder(packets: seq<Bytes>, id: Byte, total: U16, bytes: U16) {
    |packets| <= total
    && forall i :: 0 <= i < |packets| ==> ParseChunkMetadata(packets[i]) == Ok(Metadata(id, i, total, bytes))
  }

  /** All chunks of one transfer, whose payloads have exactly the announced length. */
  predicate WholeTransfer(packets: seq<Bytes>, id: Byte, bytes: U16) {
    && 0 < |packets| <= U16_MAX && 0 < bytes <= MAX_TRANSFER_SIZE
    && InOrder(packets, id, |packets|, bytes)
    && |Payloads(packets)| == bytes
  }

  function Last<T>(s: seq<T>, n: nat): seq<T>
    requires n <= |s|
  {
    s[|s| - n..]
  }

  /** What an active receiver knows: its buffer is the payload of the latest packets. */
  ghost predicate Tracks(r: Receiver, log: seq<Bytes>) {
    r.active ==>
      && r.expectedIndex <= |log|
      && InOrder(Last(log, r.expectedIndex), r.transferId, r.totalChunks, r.totalBytes)
      && Payloads(Last(log, r.expectedIndex)) == r.buffer
  }

  /** The receiver completes only on the last packet of a whole transfer that makes up the
      latest packets of the log, and then holds the settings of the envelope they carry. */
  ghost predicate CompletedBy(k: Keys, log: seq<Bytes>, after: Receiver)
    requires Lawful(k.c)
  {
    exists n: nat, id: Byte, bytes: U16 :: n <= |log| && WholeTransfer(Last(log, n), id, bytes)
      && Opened(k, Payloads(Last(log, n))).Ok?
      && after.pending == Some(Opened(k, Payloads(Last(log, n))).value)
  }

  lemma IngestTracks(k: Keys, r: Receiver, log: seq<Bytes>, packet: Bytes)
    requires Lawful(k.c) && Valid(r) && Tracks(r, log)
    ensures var after := Ingest(k, r, packet);
            && Tracks(after.receiver, log + [packet])
            && (after.status.Complete? ==> CompletedBy(k, log + [packet], after.receiver))
  {
    IngestExtendsOrResets(k, r, packet);
    if Extends(r, packet) {
      ExtendTracks(r, log, packet);
      hide Extends, Extended;
      ProceedTracks(k, Extended(r, packet), log + [packet]);
    }
    hide Ingest, Proceed, Lawful, CompletedBy, InOrder, Payloads, Extends, Last;
  }

  lemma ProceedTracks(k: Keys, next: Receiver, log: seq<Bytes>)
    requires Lawful(k.c) && 0 < next.expectedIndex <= |log| && next.expectedIndex <= next.totalChunks
    requires 0 < next.totalBytes <= MAX_TRANSFER_SIZE
    requires InOrder(Last(log, next.expectedIndex), next.transferId, next.totalChunks, next.totalBytes)
    requires Payloads(Last(log, next.expectedIndex)) == next.buffer
    ensures var out := Proceed(k, next);
            && Tracks(out.receiver, log)
            && (out.status.Complete? ==> CompletedBy(k, log, out.receiver))
  {
    hide Opened, Lawful, InOrder, Payloads, CompletedBy;
    if Proceed(k, next).status.Complete? {
      TransferCompletes(k, log, Proceed(k, next).receiver, next.expectedIndex, next.transferId, next.totalBytes);
    }
  }

  /** The packets that an extended transfer consists of. */
  lemma ExtendTracks(r: Receiver, log: seq<Bytes>, packet: Bytes)
    requires Valid(r) && Tracks(r, log) && Extends(r, packet)
    ensures var next := Extended(r, packet);
            && 0 < next.expectedIndex <= |log| + 1 && next.expectedIndex <= next.totalChunks
            && 0 < next.totalBytes <= MAX_TRANSFER_SIZE
            && InOrder(Last(log + [packet], next.expectedIndex), next.transferId, next.totalChunks, next.totalBytes)
            && Payloads(Last(log + [packet], next.expectedIndex)) == next.buffer
  {
    hide ParseChunkMetadata, Payload, InOrder, Payloads;
    var m := ParseChunkMetadata(packet).value;
    var b := Base(r, m);
    var earlier := Last(log, b.expectedIndex);
    assert Last(log + [packet], b.expectedIndex + 1) == earlier + [packet];
    if b.expectedIndex == 0 {
      assert earlier == [];
      EmptyTransfer(m);
    }
    InOrderLength(earlier, m);
    AppendInOrder(earlier, packet, m);
    AppendPayload(earlier, packet);
  }

  lemma EmptyTransfer(m: Metadata)
    ensures InOrder([], m.transferId, m.totalChunks, m.totalBytes) && Payloads([]) == []
  {
  }

  lemma InOrderLength(packets: seq<Bytes>, m: Metadata)
    requires InOrder(packets, m.transferId, m.totalChunks, m.totalBytes)
    ensures |packets| <= m.totalChunks
  {
  }

  lemma TransferCompletes(k: Keys, log: seq<Bytes>, after: Receiver, n: nat, id: Byte, bytes: U16)
    requires Lawful(k.c) && 0 < n <= |log| && n <= U16_MAX && 0 < bytes <= MAX_TRANSFER_SIZE
    requires InOrder(Last(log, n), id, n, bytes) && |Payloads(Last(log, n))| == bytes
    requires Opened(k, Payloads(Last(log, n))).Ok?
    requires after.pending == Some(Opened(k, Payloads(Last(log, n))).value)
    ensures CompletedBy(k, log, after)
  {
    hide Opened, Lawful, InOrder, Payloads;
    assert WholeTransfer(Last(log, n), id, bytes);
  }

  lemma AppendInOrder(packets: seq<Bytes>, packet: Bytes, m: Metadata)
    requires InOrder(packets, m.transferId, m.totalChunks, m.totalBytes)
    requires ParseChunkMetadata(packet) == Ok(m) && m.chunkIndex == |packets| < m.totalChunks
    ensures InOrder(packets + [packet], m.transferId, m.totalChunks, m.totalBytes)
  {
    hide ParseChunkMetadata;
  }

  lemma AppendPayload(packets: seq<Bytes>, packet: Bytes)
    ensures Payloads(packets + [packet]) == Payloads(packets) + Payload(packet)
  {
    hide Payload;
    var all := packets + [packet];
    assert all[..|all| - 1] == packets;
  }

  // ---------- runs ----------

  /** What can happen to a device whose keys stay loaded. */
  datatype Event = Write(packet: Bytes) | Apply | Clear

  /** The receiver together with the packets written since the last clear. */
  datatype Device = Device(receiver: Receiver, log: seq<Bytes>)

  ghost function Take(k: Keys, d: Device, e: Event): Device
    requires Lawful(k.c)
  {
    match e
    case Write(packet) => Device(Ingest(k, d.receiver, packet).receiver, d.log + [packet])
    case Apply => d.(receiver := d.receiver.(pending := None))
    case Clear => Device(Reset(d.receiver).(pending := None), [])
  }

  ghost function Run(k: Keys, d: Device, events: seq<Event>): Device
    requires Lawful(k.c)
    decreases |events|
  {
    if events == [] then d else Run(k, Take(k, d, events[0]), events[1..])
  }

  lemma {:induction false} RunKeeps(k: Keys, d: Device, events: seq<Event>)
    requires Lawful(k.c) && Valid(d.receiver) && Tracks(d.receiver, d.log)
    ensures Valid(Run(k, d, events).receiver) && Tracks(Run(k, d, events).receiver, Run(k, d, events).log)
    decreases |events|
  {
    if events != [] {
      if events[0].Write? {
        IngestKeepsValid(k, d.receiver, events[0].packet);
        IngestTracks(k, d.receiver, d.log, events[0].packet);
      }
      hide Ingest, Lawful;
      RunKeeps(k, Take(k, d, events[0]), events[1..]);
    }
  }

  /** In every run, a packet completes provisioning only as the end of a whole transfer. */
  lemma CompletesOnlyOnWholeTransfer(k: Keys, events: seq<Event>, packet: Bytes)
    requires Lawful(k.c)
    ensures var d := Run(k, Device(INITIAL, []), events);
            var after := Ingest(k, d.receiver, packet);
            after.status.Complete? ==> CompletedBy(k, d.log + [packet], after.receiver)
  {
    RunKeeps(k, Device(INITIAL, []), events);
    var d := Run(k, Device(INITIAL, []), events);
    IngestTracks(k, d.receiver, d.log, packet);
  }

  // ---------- receiving a whole transfer ----------

  ghost function IngestAll(k: Keys, r: Receiver, packets: seq<Bytes>): Receiver
    requires Lawful(k.c)
  {
    if packets == [] then r
    else Ingest(k, IngestAll(k, r, packets[..|packets| - 1]), packets[|packets| - 1]).receiver
  }

  /** The status answered to packet `i`. */
  ghost function StatusOf(k: Keys, r: Receiver, packets: seq<Bytes>, i: nat): ChunkStatus
    requires Lawful(k.c) && i < |packets|
  {
    Ingest(k, IngestAll(k, r, packets[..i]), packets[i]).status
  }

  lemma {:induction false} IngestAllKeepsValid(k: Keys, r: Receiver, packets: seq<Bytes>)
    requires Lawful(k.c) && Valid(r)
    ensures Valid(IngestAll(k, r, packets))
  {
    if packets != [] {
      IngestAllKeepsValid(k, r, packets[..|packets| - 1]);
      IngestKeepsValid(k, IngestAll(k, r, packets[..|packets| - 1]), packets[|packets| - 1]);
    }
  }

  /** A receiver that is not in the middle of a transfer with this id. */
  predicate Free(r: Receiver, id: Byte) { !r.active || r.transferId != id }

  /** After `n` packets of a transfer have been accepted. */
  function Midway(packets: seq<Bytes>, id: Byte, bytes: U16, n: nat): Receiver
    requires n <= |packets| <= U16_MAX
  {
    Receiver(true, id, n, |packets|, bytes, Payloads(packets[..n]), None)
  }

  /** The next packet of a transfer extends what has been received so far. */
  lemma NextPacket(k: Keys, r: Receiver, packets: seq<Bytes>, id: Byte, bytes: U16, n: nat)
    requires Lawful(k.c) && WholeTransfer(packets, id, bytes) && n < |packets|
    requires if n == 0 then Valid(r) && Free(r, id) else r == Midway(packets, id, bytes, n) && Valid(r)
    ensures Ingest(k, r, packets[n]) == Proceed(k, Midway(packets, id, bytes, n + 1))
  {
    hide Ingest, Proceed, Lawful, ParseChunkMetadata, Payload, Payloads;
    var next := packets[n];
    assert ParseChunkMetadata(next) == Ok(Metadata(id, n, |packets|, bytes));
    assert packets[..n + 1] == packets[..n] + [next];
    AppendPayload(packets[..n], next);
    PayloadsPrefix(packets, n + 1);
    assert packets[..0] == [];
    NoPayloads();
    IngestExtendsOrResets(k, r, next);
  }

  lemma NoPayloads()
    ensures Payloads([]) == []
  {
  }

  /** Halfway through a transfer the receiver has accepted every packet so far. */
  lemma {:induction false} AcceptsPrefix(k: Keys, r: Receiver, packets: seq<Bytes>, id: Byte, bytes: U16, n: nat)
    requires Lawful(k.c) && Valid(r) && Free(r, id) && WholeTransfer(packets, id, bytes) && 0 < n < |packets|
    ensures IngestAll(k, r, packets[..n]) == Midway(packets, id, bytes, n)
    ensures StatusOf(k, r, packets, n - 1) == Accepted
  {
    hide Ingest, Opened, Lawful, InOrder, Payloads;
    assert packets[..n][..n - 1] == packets[..n - 1];
    if n == 1 {
      assert packets[..0] == [];
    } else {
      AcceptsPrefix(k, r, packets, id, bytes, n - 1);
    }
    IngestAllKeepsValid(k, r, packets[..n - 1]);
    NextPacket(k, IngestAll(k, r, packets[..n - 1]), packets, id, bytes, n - 1);
  }

  lemma {:induction false} PayloadsPrefix(packets: seq<Bytes>, n: nat)
    requires n <= |packets|
    ensures |Payloads(packets[..n])| <= |Payloads(packets)|
  {
    if n < |packets| {
      PayloadsPrefix(packets[..|packets| - 1], n);
      assert packets[..|packets| - 1][..n] == packets[..n];
    } else {
      assert packets[..n] == packets;
    }
  }

  /** A whole transfer sent to a free receiver: every packet but the last is accepted, and the
      last completes if and only if the envelope opens; the receiver is then idle again. */
  lemma WholeTransferReceived(k: Keys, r: Receiver, packets: seq<Bytes>, id: Byte, bytes: U16)
    requires Lawful(k.c) && Valid(r) && Free(r, id) && WholeTransfer(packets, id, bytes)
    ensures forall i :: 0 <= i < |packets| - 1 ==> StatusOf(k, r, packets, i) == Accepted
    ensures StatusOf(k, r, packets, |packets| - 1).Complete? <==> Opened(k, Payloads(packets)).Ok?
    ensures var after := IngestAll(k, r, packets);
            && !after.active
            && after.pending == match Opened(k, Payloads(packets))
                                case Ok(values) => Some(values)
                                case Err(_) => None
  {
    var n := |packets|;
    hide Ingest, Opened, Lawful, InOrder, Payloads;
    forall i | 0 <= i < n - 1
      ensures StatusOf(k, r, packets, i) == Accepted
    {
      AcceptsPrefix(k, r, packets, id, bytes, i + 1);
    }
    if n > 1 {
      AcceptsPrefix(k, r, packets, id, bytes, n - 1);
    } else {
      assert packets[..0] == [];
    }
    IngestAllKeepsValid(k, r, packets[..n - 1]);
    NextPacket(k, IngestAll(k, r, packets[..n - 1]), packets, id, bytes, n - 1);
    assert packets[..n] == packets;
  }

  // ---------- recovery ----------

  /** Whatever state the receiver is in, a whole transfer leaves it idle. */
  lemma WholeTransferEndsIdle(k: Keys, r: Receiver, packets: seq<Bytes>, id: Byte, bytes: U16)
    requires Lawful(k.c) && Valid(r) && WholeTransfer(packets, id, bytes)
    ensures !IngestAll(k, r, packets).active && Valid(IngestAll(k, r, packets))
  {
    IngestAllKeepsValid(k, r, packets);
    if Free(r, id) {
      WholeTransferReceived(k, r, packets, id, bytes);
    } else {
      BusyReceiverDrops(k, r, packets, id, bytes, |packets|);
      assert packets[..|packets|] == packets;
    }
  }

  /** A receiver stuck in a transfer with the same id drops it on chunk 0 and refuses the rest. */
  lemma {:induction false} BusyReceiverDrops(k: Keys, r: Receiver, packets: seq<Bytes>, id: Byte, bytes: U16, n: nat)
    requires Lawful(k.c) && Valid(r) && !Free(r, id) && WholeTransfer(packets, id, bytes) && 0 < n <= |packets|
    ensures !IngestAll(k, r, packets[..n]).active && IngestAll(k, r, packets[..n]).pending.None?
  {
    hide Opened, Lawful, ParseChunkMetadata, Payload;
    assert ParseChunkMetadata(packets[n - 1]) == Ok(Metadata(id, n - 1, |packets|, bytes));
    assert packets[..n][..n - 1] == packets[..n - 1];
    if n == 1 {
      assert packets[..0] == [];
    } else {
      BusyReceiverDrops(k, r, packets, id, bytes, n - 1);
    }
    var before := IngestAll(k, r, packets[..n - 1]);
    IngestAllKeepsValid(k, r, packets[..n - 1]);
    IngestExtendsOrResets(k, before, packets[n - 1]);
    RefusalAddsNothing(k, before, packets[n - 1]);
    hide Ingest;
    assert !Extends(before, packets[n - 1]);
  }

  /** Sent once, an openable envelope gets through exactly when the receiver was not in the middle
      of a transfer with the same id. */
  lemma OneSendSuffices(k: Keys, r: Receiver, packets: seq<Bytes>, id: Byte, bytes: U16)
    requires Lawful(k.c) && Valid(r) && WholeTransfer(packets, id, bytes) && Opened(k, Payloads(packets)).Ok?
    ensures IngestAll(k, r, packets).pending == Some(Opened(k, Payloads(packets)).value) <==> Free(r, id)
  {
    if Free(r, id) {
      WholeTransferReceived(k, r, packets, id, bytes);
    } else {
      BusyReceiverDrops(k, r, packets, id, bytes, |packets|);
      assert packets[..|packets|] == packets;
    }
  }

  /** From every valid state, sending the same openable envelope twice ends with its settings pending. */
  lemma SendingTwiceProvisions(k: Keys, r: Receiver, first: seq<Bytes>, second: seq<Bytes>, id1: Byte, id2: Byte,
                               bytes: U16)
    requires Lawful(k.c) && Valid(r)
    requires WholeTransfer(first, id1, bytes) && WholeTransfer(second, id2, bytes)
    requires Payloads(first) == Payloads(second) && Opened(k, Payloads(first)).Ok?
    ensures var after := IngestAll(k, IngestAll(k, r, first), second);
            !after.active && after.pending == Some(Opened(k, Payloads(first)).value)
  {
    WholeTransferEndsIdle(k, r, first, id1, bytes);
    WholeTransferReceived(k, IngestAll(k, r, first), second, id2, bytes);
  }
}
