/** Cutting a payload into datagram-sized chunks and putting it back together. */
module Reassembly {
  import opened Common
  import opened Checksum

  const CHUNK_BYTES: nat := 1024
  const MAX_PAYLOAD: nat := 4 * 1024 * 1024
  const MAX_CHUNKS: nat := 4096
  const TIMEOUT: real := 0.5

  datatype Chunk = Chunk(
    kind: nat, sequence: nat, index: nat, count: nat, totalSize: nat, checksum: Word, payload: Bytes)

  type Key = (nat, nat)

  datatype Partial = Partial(createdAt: real, totalSize: nat, checksum: Word, chunks: seq<Option<Bytes>>)

  type Table = map<Key, Partial>

  datatype Outcome = InvalidBounds | MetadataChanged | ChecksumMismatch | Waiting | Complete(payload: Bytes)

  // ----- cutting ------------------------------------------------------------------

  function CountFor(size: nat): nat {
    (size + CHUNK_BYTES - 1) / CHUNK_BYTES
  }

  function Piece(payload: Bytes, index: nat): Bytes {
    var start := Min(index * CHUNK_BYTES, |payload|);
    payload[start..Min(start + CHUNK_BYTES, |payload|)]
  }

  function ChunkOf(kind: nat, sequence: nat, payload: Bytes, index: nat): Chunk {
    Chunk(kind, sequence, index, CountFor(|payload|), |payload|, Crc32(payload), Piece(payload, index))
  }

  /** `encode_cursor_chunks`: refuses an empty or oversized payload. */
  function Encode(kind: nat, sequence: nat, payload: Bytes): Option<seq<Chunk>> {
    if payload == [] || |payload| > MAX_PAYLOAD then None
    else Some(seq(CountFor(|payload|), i requires 0 <= i < CountFor(|payload|) => ChunkOf(kind, sequence, payload, i)))
  }

  // ----- putting together -----------------------------------------------------------

  function KeyOf(c: Chunk): Key { (c.kind, c.sequence) }

  function Unexpired(table: Table, now: real): Table {
    map k | k in table && now - table[k].createdAt <= TIMEOUT :: table[k]
  }

  predicate BoundsValid(c: Chunk) {
    0 < c.totalSize <= MAX_PAYLOAD && 0 < c.count <= MAX_CHUNKS && c.index < c.count
  }

  function Blank(n: nat): (r: seq<Option<Bytes>>)
    ensures |r| == n && forall i :: 0 <= i < n ==> r[i] == None
  {
    if n == 0 then [] else Blank(n - 1) + [None]
  }

  function EntryFor(table: Table, c: Chunk, now: real): Partial {
    if KeyOf(c) in table then table[KeyOf(c)] else Partial(now, c.totalSize, c.checksum, Blank(c.count))
  }

  predicate MetadataAgrees(entry: Partial, c: Chunk) {
    entry.totalSize == c.totalSize && entry.checksum == c.checksum && |entry.chunks| == c.count
  }

  predicate AllPresent(chunks: seq<Option<Bytes>>) {
    forall i :: 0 <= i < |chunks| ==> chunks[i].Some?
  }

  function Join(chunks: seq<Option<Bytes>>): Bytes {
    if chunks == [] then [] else Join(chunks[..|chunks| - 1]) + chunks[|chunks| - 1].GetOr([])
  }

  /** `CursorReassembler::push` on the table left after expiry. */
  function PushInto(table: Table, c: Chunk, now: real): (Table, Outcome) {
    if !BoundsValid(c) then (table, InvalidBounds)
    else
      var entry := EntryFor(table, c, now);
      if !MetadataAgrees(entry, c) then (table - {KeyOf(c)}, MetadataChanged)
      else
        var chunks := entry.chunks[c.index := Some(c.payload)];
        if !AllPresent(chunks) then (table[KeyOf(c) := entry.(chunks := chunks)], Waiting)
        else
          var payload := Join(chunks);
          (table - {KeyOf(c)},
           if |payload| != c.totalSize || Crc32(payload) != c.checksum then ChecksumMismatch else Complete(payload))
  }

  function Push(table: Table, c: Chunk, now: real): (Table, Outcome) {
    PushInto(Unexpired(table, now), c, now)
  }

  class CursorReassembler {
    var partial: Table
    var expiredPayloads: nat

    constructor ()
      ensures partial == map[] && expiredPayloads == 0
    {
      partial, expiredPayloads := map[], 0;
    }

    method PushChunk(c: Chunk, now: real) returns (outcome: Outcome)
      modifies this
      ensures (partial, outcome) == Push(old(partial), c, now)
      ensures expiredPayloads == old(expiredPayloads) + |old(partial)| - |Unexpired(old(partial), now)|
    {
      var before := partial;
      partial := Unexpired(partial, now);
      SubsetSize(partial.Keys, before.Keys);
      expiredPayloads := expiredPayloads + (|before| - |partial|);
      if c.totalSize == 0 || c.totalSize > MAX_PAYLOAD || c.count == 0 || c.count > MAX_CHUNKS || c.index >= c.count {
        return InvalidBounds;
      }
      ghost var table := partial;
      var key := KeyOf(c);
      var entry := EntryFor(partial, c, now);
      if entry.totalSize != c.totalSize || entry.checksum != c.checksum || |entry.chunks| != c.count {
        partial := partial - {key};
        return MetadataChanged;
      }
      var chunks := entry.chunks[c.index := Some(c.payload)];
      partial := partial[key := entry.(chunks := chunks)];
      var present := Scan(chunks);
      if !present {
        return Waiting;
      }
      var payload := Gather(chunks);
      partial := partial - {key};
      assert partial == table - {key};
      if |payload| != c.totalSize {
        return ChecksumMismatch;
      }
      var checksum := Checksum32(payload);
      if checksum != c.checksum {
        return ChecksumMismatch;
      }
      outcome := Complete(payload);
    }
  }

  method Scan(chunks: seq<Option<Bytes>>) returns (present: bool)
    ensures present <==> AllPresent(chunks)
  {
    for i := 0 to |chunks|
      invariant forall k :: 0 <= k < i ==> chunks[k].Some?
    {
      if chunks[i].None? {
        return false;
      }
    }
    present := true;
  }

  method Gather(chunks: seq<Option<Bytes>>) returns (payload: Bytes)
    ensures payload == Join(chunks)
  {
    payload := [];
    for i := 0 to |chunks|
      invariant payload == Join(chunks[..i])
    {
      assert chunks[..i + 1][..i] == chunks[..i];
      payload := payload + chunks[i].GetOr([]);
    }
    assert chunks[..|chunks|] == chunks;
  }

  // ----- the pieces make up the payload ------------------------------------------------

  function Pieces(payload: Bytes, n: nat): (r: seq<Option<Bytes>>)
    ensures |r| == n && forall i :: 0 <= i < n ==> r[i] == Some(Piece(payload, i))
  {
    if n == 0 then [] else Pieces(payload, n - 1) + [Some(Piece(payload, n - 1))]
  }

  lemma OnePiece(payload: Bytes, n: nat)
    ensures payload[..Min(n * CHUNK_BYTES, |payload|)] + Piece(payload, n) == payload[..Min((n + 1) * CHUNK_BYTES, |payload|)]
  {
    var start, end := Min(n * CHUNK_BYTES, |payload|), Min((n + 1) * CHUNK_BYTES, |payload|);
    assert Min(start + CHUNK_BYTES, |payload|) == end;
    assert payload[..start] + payload[start..end] == payload[..end];
  }

  lemma {:induction false} PiecesJoin(payload: Bytes, n: nat)
    ensures Join(Pieces(payload, n)) == payload[..Min(n * CHUNK_BYTES, |payload|)]
  {
    if n > 0 {
      var pieces, m := Pieces(payload, n), n - 1;
      PiecesJoin(payload, m);
      OnePiece(payload, m);
      assert pieces[..m] == Pieces(payload, m);
      assert Join(pieces) == Join(pieces[..m]) + Piece(payload, m);
    }
  }

  lemma AllPiecesJoin(payload: Bytes)
    ensures Join(Pieces(payload, CountFor(|payload|))) == payload
  {
    PiecesJoin(payload, CountFor(|payload|));
    assert payload[..|payload|] == payload;
  }

  // ----- any schedule of pushes ----------------------------------------------------------

  datatype ChunkArrival = ChunkArrival(chunk: Chunk, now: real)

  function PushAll(table: Table, arrivals: seq<ChunkArrival>): Table {
    if arrivals == [] then table
    else
      var last := arrivals[|arrivals| - 1];
      Push(PushAll(table, arrivals[..|arrivals| - 1]), last.chunk, last.now).0
  }

  /** Chunks of `payload` for this key in any order and any number, chunks of other keys whatever they hold, no timeout. */
  ghost predicate Schedule(arrivals: seq<ChunkArrival>, kind: nat, sequence: nat, payload: Bytes, since: real) {
    forall i :: 0 <= i < |arrivals| ==>
      && since <= arrivals[i].now <= since + TIMEOUT
      && (KeyOf(arrivals[i].chunk) == (kind, sequence) ==>
            && arrivals[i].chunk.index < CountFor(|payload|)
            && arrivals[i].chunk == ChunkOf(kind, sequence, payload, arrivals[i].chunk.index))
  }

  function Everything(payload: Bytes): set<nat> {
    Below(CountFor(|payload|))
  }

  function Below(n: nat): (r: set<nat>)
    ensures forall i: nat :: i in r <==> i < n
  {
    if n == 0 then {} else Below(n - 1) + {n - 1}
  }

  /** The indices received for the key since the payload was last completed. */
  function Received(arrivals: seq<ChunkArrival>, key: Key, payload: Bytes): set<nat> {
    if arrivals == [] then {}
    else
      var before := Received(arrivals[..|arrivals| - 1], key, payload);
      var chunk := arrivals[|arrivals| - 1].chunk;
      if KeyOf(chunk) != key then before
      else if before + {chunk.index} == Everything(payload) then {}
      else before + {chunk.index}
  }

  ghost predicate Holds(table: Table, key: Key, payload: Bytes, got: set<nat>, since: real) {
    if got == {} then key !in table
    else
      && key in table
      && since <= table[key].createdAt
      && table[key].totalSize == |payload| && table[key].checksum == Crc32(payload)
      && |table[key].chunks| == CountFor(|payload|)
      && forall i :: 0 <= i < CountFor(|payload|) ==> table[key].chunks[i] == if i in got then Some(Piece(payload, i)) else None
  }

  lemma ExpiryKeeps(table: Table, key: Key, payload: Bytes, got: set<nat>, since: real, now: real)
    requires Holds(table, key, payload, got, since) && now <= since + TIMEOUT
    ensures Holds(Unexpired(table, now), key, payload, got, since)
  {
  }

  lemma OtherKeyKeeps(table: Table, key: Key, payload: Bytes, got: set<nat>, since: real, c: Chunk, now: real)
    requires Holds(table, key, payload, got, since) && KeyOf(c) != key
    ensures Holds(PushInto(table, c, now).0, key, payload, got, since)
  {
  }

  lemma SizesValid(payload: Bytes, index: nat)
    requires 0 < |payload| <= MAX_PAYLOAD && index < CountFor(|payload|)
    ensures 0 < CountFor(|payload|) <= MAX_CHUNKS
  {
  }

  lemma MissingOne(got: set<nat>, payload: Bytes)
    requires got <= Everything(payload) && got != Everything(payload)
    ensures exists i :: i in Everything(payload) && i !in got
  {
    var rest := Everything(payload) - got;
    assert got + rest == Everything(payload);
    assert rest == {} ==> got + rest == got;
    SomeMember(rest);
  }

  /** The chunk vector after one of our chunks has been stored. */
  lemma StoredChunks(table: Table, c: Chunk, payload: Bytes, got: set<nat>, since: real, now: real)
    requires 0 < |payload| <= MAX_PAYLOAD && c.index < CountFor(|payload|)
    requires c == ChunkOf(c.kind, c.sequence, payload, c.index)
    requires Holds(table, KeyOf(c), payload, got, since) && since <= now
    ensures BoundsValid(c) && MetadataAgrees(EntryFor(table, c, now), c) && since <= EntryFor(table, c, now).createdAt
    ensures var chunks := EntryFor(table, c, now).chunks[c.index := Some(c.payload)];
            |chunks| == CountFor(|payload|)
            && forall i :: 0 <= i < |chunks| ==> chunks[i] == if i in got + {c.index} then Some(Piece(payload, i)) else None
  {
    SizesValid(payload, c.index);
  }

  lemma AllStored(payload: Bytes, chunks: seq<Option<Bytes>>)
    requires |chunks| == CountFor(|payload|)
    requires forall i :: 0 <= i < |chunks| ==> chunks[i] == Some(Piece(payload, i))
    ensures AllPresent(chunks) && Join(chunks) == payload
  {
    assert chunks == Pieces(payload, CountFor(|payload|));
    AllPiecesJoin(payload);
  }

  /** A chunk of the payload: completes it exactly when it was the last one missing. */
  lemma OwnChunk(table: Table, c: Chunk, payload: Bytes, got: set<nat>, since: real, now: real)
    requires 0 < |payload| <= MAX_PAYLOAD && c.index < CountFor(|payload|) && since <= now
    requires c == ChunkOf(c.kind, c.sequence, payload, c.index)
    requires got <= Everything(payload) && Holds(table, KeyOf(c), payload, got, since)
    ensures var (after, outcome) := PushInto(table, c, now);
            if got + {c.index} == Everything(payload)
            then outcome == Complete(payload) && Holds(after, KeyOf(c), payload, {}, since)
            else outcome == Waiting && Holds(after, KeyOf(c), payload, got + {c.index}, since)
  {
    StoredChunks(table, c, payload, got, since, now);
    var chunks := EntryFor(table, c, now).chunks[c.index := Some(c.payload)];
    var next := got + {c.index};
    if next == Everything(payload) {
      AllStored(payload, chunks);
    } else {
      assert next <= Everything(payload);
      MissingOne(next, payload);
      var i :| i in Everything(payload) && i !in next;
      assert chunks[i] == None;
      assert c.index in next;
    }
  }

  lemma {:induction false} ScheduleHolds(table: Table, arrivals: seq<ChunkArrival>, kind: nat, sequence: nat, payload: Bytes, since: real)
    requires 0 < |payload| <= MAX_PAYLOAD && (kind, sequence) !in table
    requires Schedule(arrivals, kind, sequence, payload, since)
    ensures Received(arrivals, (kind, sequence), payload) <= Everything(payload)
    ensures Holds(PushAll(table, arrivals), (kind, sequence), payload, Received(arrivals, (kind, sequence), payload), since)
  {
    if arrivals != [] {
      var init, last := arrivals[..|arrivals| - 1], arrivals[|arrivals| - 1];
      assert forall i :: 0 <= i < |init| ==> init[i] == arrivals[i];
      ScheduleHolds(table, init, kind, sequence, payload, since);
      var before, got := PushAll(table, init), Received(init, (kind, sequence), payload);
      ExpiryKeeps(before, (kind, sequence), payload, got, since, last.now);
      if KeyOf(last.chunk) != (kind, sequence) {
        OtherKeyKeeps(Unexpired(before, last.now), (kind, sequence), payload, got, since, last.chunk, last.now);
      } else {
        OwnChunk(Unexpired(before, last.now), last.chunk, payload, got, since, last.now);
      }
    }
  }

  /**
   Chunk round trip: in any schedule, a chunk of the payload is answered by nothing
   while some index is still missing, and by exactly the original bytes when it was
   the last one missing.
   */
  lemma ChunkRoundTrip(table: Table, arrivals: seq<ChunkArrival>, next: ChunkArrival, kind: nat, sequence: nat, payload: Bytes, since: real)
    requires Encode(kind, sequence, payload).Some? && (kind, sequence) !in table
    requires Schedule(arrivals + [next], kind, sequence, payload, since) && KeyOf(next.chunk) == (kind, sequence)
    ensures Push(PushAll(table, arrivals), next.chunk, next.now).1
              == if Received(arrivals, (kind, sequence), payload) + {next.chunk.index} == Everything(payload)
                 then Complete(payload) else Waiting
  {
    var all := arrivals + [next];
    assert all[|arrivals|] == next;
    assert forall i :: 0 <= i < |arrivals| ==> all[i] == arrivals[i];
    ScheduleHolds(table, arrivals, kind, sequence, payload, since);
    var before, got := PushAll(table, arrivals), Received(arrivals, (kind, sequence), payload);
    ExpiryKeeps(before, (kind, sequence), payload, got, since, next.now);
    OwnChunk(Unexpired(before, next.now), next.chunk, payload, got, since, next.now);
  }

  /** The encoder refuses exactly the payloads whose chunks the reassembler would refuse. */
  lemma EncodedIffAccepted(kind: nat, sequence: nat, payload: Bytes)
    ensures Encode(kind, sequence, payload).Some? <==> BoundsValid(ChunkOf(kind, sequence, payload, 0))
  {
    if Encode(kind, sequence, payload).Some? {
      assert 0 < CountFor(|payload|);
      SizesValid(payload, 0);
    }
  }

  /** The chunks `Encode` produces are the ones the schedule speaks of, and together they are everything. */
  lemma EncodeCoversEverything(kind: nat, sequence: nat, payload: Bytes)
    requires Encode(kind, sequence, payload).Some?
    ensures var chunks := Encode(kind, sequence, payload).value;
            && (set c | c in chunks :: c.index) == Everything(payload)
            && forall c :: c in chunks ==> KeyOf(c) == (kind, sequence) && |c.payload| <= CHUNK_BYTES && BoundsValid(c)
  {
    var chunks := Encode(kind, sequence, payload).value;
    forall c | c in chunks
      ensures c.index in Everything(payload) && KeyOf(c) == (kind, sequence) && |c.payload| <= CHUNK_BYTES && BoundsValid(c)
    {
      SizesValid(payload, c.index);
    }
    forall i | i in Everything(payload)
      ensures i in (set c | c in chunks :: c.index)
    {
      assert chunks[i] in chunks && chunks[i].index == i;
    }
  }

  /**
   A payload damaged only inside four consecutive bytes is never handed on: whatever
   completes under the original's size and checksum and differs no further is the original.
   */
  lemma DamagedPayloadRejected(table: Table, c: Chunk, now: real, original: Bytes, start: nat)
    requires c.totalSize == |original| && c.checksum == Crc32(original)
    requires Push(table, c, now).1.Complete?
    requires |Push(table, c, now).1.payload| == |original| ==> DifferOnlyIn(Push(table, c, now).1.payload, original, start)
    ensures Push(table, c, now).1 == Complete(original)
  {
    var received := Push(table, c, now).1.payload;
    if received != original {
      ShortBurstDetected(received, original, start);
    }
  }

  // ----- damage in transit ----------------------------------------------------------------

  /** A chunk of the original, or of the damaged payload under the original's checksum. */
  predicate IntactOrDamaged(c: Chunk, original: Bytes, damaged: Bytes) {
    && c.index < CountFor(|original|)
    && (c == ChunkOf(c.kind, c.sequence, original, c.index)
        || c == ChunkOf(c.kind, c.sequence, damaged, c.index).(checksum := Crc32(original)))
  }

  predicate PieceOfEither(chunk: Option<Bytes>, original: Bytes, damaged: Bytes, i: nat) {
    chunk.Some? ==> chunk.value == Piece(original, i) || chunk.value == Piece(damaged, i)
  }

  /** What is held for the key is a mixture of intact and damaged pieces under the original's checksum. */
  ghost predicate Mixed(table: Table, key: Key, original: Bytes, damaged: Bytes) {
    key in table ==>
      && table[key].totalSize == |original| && table[key].checksum == Crc32(original)
      && |table[key].chunks| == CountFor(|original|)
      && forall i :: 0 <= i < |table[key].chunks| ==> PieceOfEither(table[key].chunks[i], original, damaged, i)
  }

  lemma PiecesMixed(start: nat, r: Bytes, piece: Bytes, original: Bytes, damaged: Bytes, i: nat)
    requires |original| == |damaged| && |r| == Min(i * CHUNK_BYTES, |original|)
    requires piece == Piece(original, i) || piece == Piece(damaged, i)
    requires forall j :: 0 <= j < |r| ==> r[j] == original[j] || r[j] == damaged[j]
    ensures |r + piece| == Min((i + 1) * CHUNK_BYTES, |original|)
    ensures forall j :: 0 <= j < |r + piece| ==> (r + piece)[j] == original[j] || (r + piece)[j] == damaged[j]
  {
    forall j | |r| <= j < |r + piece|
      ensures (r + piece)[j] == original[j] || (r + piece)[j] == damaged[j]
    {
      assert (r + piece)[j] == piece[j - |r|];
    }
  }

  lemma {:induction false} JoinMixed(chunks: seq<Option<Bytes>>, original: Bytes, damaged: Bytes)
    requires |original| == |damaged| && AllPresent(chunks)
    requires forall i :: 0 <= i < |chunks| ==> PieceOfEither(chunks[i], original, damaged, i)
    ensures |Join(chunks)| == Min(|chunks| * CHUNK_BYTES, |original|)
    ensures forall j :: 0 <= j < |Join(chunks)| ==> Join(chunks)[j] == original[j] || Join(chunks)[j] == damaged[j]
  {
    if chunks != [] {
      var init, last := chunks[..|chunks| - 1], chunks[|chunks| - 1];
      JoinMixed(init, original, damaged);
      PiecesMixed(0, Join(init), last.value, original, damaged, |init|);
    }
  }

  lemma CountCovers(size: nat)
    ensures size <= CountFor(size) * CHUNK_BYTES
  {
  }

  /** However intact and damaged copies of the chunks mix, their join passes the checksum only as the original. */
  lemma MixtureRejected(chunks: seq<Option<Bytes>>, original: Bytes, damaged: Bytes, start: nat)
    requires |original| == |damaged| && DifferOnlyIn(damaged, original, start)
    requires |chunks| == CountFor(|original|) && AllPresent(chunks)
    requires forall i :: 0 <= i < |chunks| ==> PieceOfEither(chunks[i], original, damaged, i)
    ensures Crc32(Join(chunks)) == Crc32(original) ==> Join(chunks) == original
  {
    JoinMixed(chunks, original, damaged);
    CountCovers(|original|);
    if Join(chunks) != original {
      ShortBurstDetected(Join(chunks), original, start);
    }
  }

  lemma MixedPush(table: Table, c: Chunk, now: real, original: Bytes, damaged: Bytes, start: nat)
    requires 0 < |original| <= MAX_PAYLOAD && |damaged| == |original| && DifferOnlyIn(damaged, original, start)
    requires Mixed(table, KeyOf(c), original, damaged) && IntactOrDamaged(c, original, damaged)
    ensures var (after, outcome) := PushInto(table, c, now);
            && Mixed(after, KeyOf(c), original, damaged)
            && (outcome == Waiting || outcome == ChecksumMismatch || outcome == Complete(original))
  {
    SizesValid(original, c.index);
    var entry := EntryFor(table, c, now);
    var chunks := entry.chunks[c.index := Some(c.payload)];
    assert |chunks| == CountFor(|original|);
    forall i | 0 <= i < |chunks|
      ensures PieceOfEither(chunks[i], original, damaged, i)
    {
    }
    if AllPresent(chunks) {
      MixtureRejected(chunks, original, damaged, start);
    }
  }

  lemma OtherPush(table: Table, c: Chunk, now: real, key: Key, original: Bytes, damaged: Bytes)
    requires Mixed(table, key, original, damaged) && KeyOf(c) != key
    ensures Mixed(PushInto(table, c, now).0, key, original, damaged)
  {
  }

  /** Every chunk of the key is intact or damaged; chunks of other keys and all times are arbitrary. */
  ghost predicate DamagedSchedule(arrivals: seq<ChunkArrival>, key: Key, original: Bytes, damaged: Bytes) {
    forall i :: 0 <= i < |arrivals| ==> KeyOf(arrivals[i].chunk) == key ==> IntactOrDamaged(arrivals[i].chunk, original, damaged)
  }

  lemma {:induction false} ScheduleMixed(table: Table, arrivals: seq<ChunkArrival>, key: Key, original: Bytes, damaged: Bytes, start: nat)
    requires 0 < |original| <= MAX_PAYLOAD && |damaged| == |original| && DifferOnlyIn(damaged, original, start)
    requires key !in table && DamagedSchedule(arrivals, key, original, damaged)
    ensures Mixed(PushAll(table, arrivals), key, original, damaged)
  {
    if arrivals != [] {
      var init, last := arrivals[..|arrivals| - 1], arrivals[|arrivals| - 1];
      assert forall i :: 0 <= i < |init| ==> init[i] == arrivals[i];
      ScheduleMixed(table, init, key, original, damaged, start);
      var before := Unexpired(PushAll(table, init), last.now);
      if KeyOf(last.chunk) == key {
        MixedPush(before, last.chunk, last.now, original, damaged, start);
      } else {
        OtherPush(before, last.chunk, last.now, key, original, damaged);
      }
    }
  }

  /**
   Damage inside four consecutive bytes of a payload, on any copies of its chunks, in any schedule with
   repeats, other payloads and timeouts: the reassembler waits, reports a mismatch, or returns the original.
   */
  lemma DamagedTransfer(table: Table, arrivals: seq<ChunkArrival>, next: ChunkArrival, original: Bytes, damaged: Bytes, start: nat)
    requires 0 < |original| <= MAX_PAYLOAD && |damaged| == |original| && DifferOnlyIn(damaged, original, start)
    requires KeyOf(next.chunk) !in table && DamagedSchedule(arrivals, KeyOf(next.chunk), original, damaged)
    requires IntactOrDamaged(next.chunk, original, damaged)
    ensures var outcome := Push(PushAll(table, arrivals), next.chunk, next.now).1;
            outcome == Waiting || outcome == ChecksumMismatch || outcome == Complete(original)
  {
    ScheduleMixed(table, arrivals, KeyOf(next.chunk), original, damaged, start);
    MixedPush(Unexpired(PushAll(table, arrivals), next.now), next.chunk, next.now, original, damaged, start);
  }

  // ----- where the pieces of a payload come from ---------------------------------------------

  ghost predicate ClockRuns(arrivals: seq<ChunkArrival>) {
    forall i, j :: 0 <= i < j < |arrivals| ==> arrivals[i].now <= arrivals[j].now
  }

  /** The arrival is the chunk that the entry of `key` holds at index `i`, and not from before the entry. */
  predicate Supplies(a: ChunkArrival, key: Key, entry: Partial, i: nat) {
    && KeyOf(a.chunk) == key && a.chunk.index == i && i < |entry.chunks| && entry.chunks[i] == Some(a.chunk.payload)
    && MetadataAgrees(entry, a.chunk) && entry.createdAt <= a.now
  }

  ghost predicate Supplied(arrivals: seq<ChunkArrival>, key: Key, entry: Partial, i: nat) {
    exists a :: 0 <= a < |arrivals| && Supplies(arrivals[a], key, entry, i)
  }

  /** Everything an entry holds arrived under its key since it was opened. */
  ghost predicate EntrySupplied(arrivals: seq<ChunkArrival>, key: Key, entry: Partial) {
    && (arrivals != [] && entry.createdAt <= arrivals[|arrivals| - 1].now)
    && forall i :: 0 <= i < |entry.chunks| && entry.chunks[i].Some? ==> Supplied(arrivals, key, entry, i)
  }

  ghost predicate TableSupplied(arrivals: seq<ChunkArrival>, table: Table) {
    forall k :: k in table ==> EntrySupplied(arrivals, k, table[k])
  }

  lemma LaterSupplied(arrivals: seq<ChunkArrival>, next: ChunkArrival, key: Key, entry: Partial)
    requires ClockRuns(arrivals + [next]) && EntrySupplied(arrivals, key, entry)
    ensures EntrySupplied(arrivals + [next], key, entry)
  {
    var all := arrivals + [next];
    assert all[|arrivals|] == next && all[|arrivals| - 1] == arrivals[|arrivals| - 1];
    forall i | 0 <= i < |entry.chunks| && entry.chunks[i].Some?
      ensures Supplied(all, key, entry, i)
    {
      var a :| 0 <= a < |arrivals| && Supplies(arrivals[a], key, entry, i);
      assert Supplies(all[a], key, entry, i);
    }
  }

  /** The entry a chunk is stored into, with the chunk stored. */
  function StoredInto(table: Table, c: Chunk, now: real): Partial
    requires BoundsValid(c) && MetadataAgrees(EntryFor(table, c, now), c)
  {
    var entry := EntryFor(table, c, now);
    entry.(chunks := entry.chunks[c.index := Some(c.payload)])
  }

  lemma StoredSupplied(arrivals: seq<ChunkArrival>, next: ChunkArrival, table: Table)
    requires ClockRuns(arrivals + [next]) && TableSupplied(arrivals, table)
    requires BoundsValid(next.chunk) && MetadataAgrees(EntryFor(table, next.chunk, next.now), next.chunk)
    ensures EntrySupplied(arrivals + [next], KeyOf(next.chunk), StoredInto(table, next.chunk, next.now))
  {
    var all, key := arrivals + [next], KeyOf(next.chunk);
    var entry, stored := EntryFor(table, next.chunk, next.now), StoredInto(table, next.chunk, next.now);
    assert all[|arrivals|] == next;
    if key in table {
      LaterSupplied(arrivals, next, key, entry);
      assert all[|arrivals| - 1].now <= all[|arrivals|].now;
    }
    forall i | 0 <= i < |stored.chunks| && stored.chunks[i].Some?
      ensures Supplied(all, key, stored, i)
    {
      if i == next.chunk.index {
        assert Supplies(all[|arrivals|], key, stored, i);
      } else {
        assert Supplied(all, key, entry, i);
        var a :| 0 <= a < |all| && Supplies(all[a], key, entry, i);
        assert Supplies(all[a], key, stored, i);
      }
    }
  }

  /** What a push leaves of the entries: those younger than the timeout, but for the one it is about. */
  lemma PushLeaves(table: Table, c: Chunk, now: real, k: Key)
    ensures var after := Push(table, c, now).0;
            && (k != KeyOf(c) ==>
                  (k in after <==> k in table && now - table[k].createdAt <= TIMEOUT) && (k in after ==> after[k] == table[k]))
            && (k == KeyOf(c) && k in after ==>
                  || (k in table && after[k] == table[k] && now - table[k].createdAt <= TIMEOUT)
                  || (&& BoundsValid(c) && MetadataAgrees(EntryFor(Unexpired(table, now), c, now), c)
                      && after[k] == StoredInto(Unexpired(table, now), c, now)))
  {
  }

  lemma {:induction false} RunSupplied(arrivals: seq<ChunkArrival>)
    requires ClockRuns(arrivals)
    ensures TableSupplied(arrivals, PushAll(map[], arrivals))
  {
    if arrivals != [] {
      var init, last := arrivals[..|arrivals| - 1], arrivals[|arrivals| - 1];
      assert forall i :: 0 <= i < |init| ==> init[i] == arrivals[i];
      assert init + [last] == arrivals;
      RunSupplied(init);
      PushSupplied(init, last, PushAll(map[], init));
    }
  }

  lemma PushSupplied(arrivals: seq<ChunkArrival>, next: ChunkArrival, table: Table)
    requires ClockRuns(arrivals + [next]) && TableSupplied(arrivals, table)
    ensures TableSupplied(arrivals + [next], Push(table, next.chunk, next.now).0)
  {
    var after := Push(table, next.chunk, next.now).0;
    var young := Unexpired(table, next.now);
    assert TableSupplied(arrivals, young);
    forall k | k in after
      ensures EntrySupplied(arrivals + [next], k, after[k])
    {
      PushLeaves(table, next.chunk, next.now, k);
      if k in table && after[k] == table[k] {
        LaterSupplied(arrivals, next, k, table[k]);
      } else {
        StoredSupplied(arrivals, next, young);
      }
    }
  }

  /** The pieces, in the order of their indices, that the arrivals named hold. */
  function PiecesOf(all: seq<ChunkArrival>, sources: seq<nat>): seq<Option<Bytes>>
    requires forall i :: 0 <= i < |sources| ==> sources[i] < |all|
  {
    seq(|sources|, i requires 0 <= i < |sources| => Some(all[sources[i]].chunk.payload))
  }

  /**
   Over every run from an empty table, damaged and foreign chunks included: a payload that completes is the join of
   one arrival for each index of its key, all under one size and checksum and none older than the timeout; so pieces
   of an earlier transfer under the same key are never mixed in once it has expired.
   */
  lemma CompletedIsRecent(arrivals: seq<ChunkArrival>, next: ChunkArrival) returns (sources: seq<nat>)
    requires ClockRuns(arrivals + [next])
    requires Push(PushAll(map[], arrivals), next.chunk, next.now).1.Complete?
    ensures |sources| == next.chunk.count
    ensures forall i :: 0 <= i < |sources| ==> sources[i] <= |arrivals|
    ensures forall i :: 0 <= i < |sources| ==>
              var a := (arrivals + [next])[sources[i]];
              && KeyOf(a.chunk) == KeyOf(next.chunk) && a.chunk.index == i && a.chunk.count == next.chunk.count
              && a.chunk.totalSize == next.chunk.totalSize && a.chunk.checksum == next.chunk.checksum
              && next.now - TIMEOUT <= a.now <= next.now
    ensures var payload := Push(PushAll(map[], arrivals), next.chunk, next.now).1.payload;
            && payload == Join(PiecesOf(arrivals + [next], sources))
            && |payload| == next.chunk.totalSize <= MAX_PAYLOAD && Crc32(payload) == next.chunk.checksum
  {
    var all, key := arrivals + [next], KeyOf(next.chunk);
    assert forall i :: 0 <= i < |arrivals| ==> all[i] == arrivals[i];
    var young := Unexpired(PushAll(map[], arrivals), next.now);
    RunSupplied(arrivals);
    StoredSupplied(arrivals, next, young);
    var stored := StoredInto(young, next.chunk, next.now);
    sources := SourcesOf(all, key, stored);
    assert PiecesOf(all, sources) == stored.chunks;
    forall i | 0 <= i < |sources|
      ensures next.now - TIMEOUT <= all[sources[i]].now <= next.now
    {
      assert all[|arrivals|] == next;
    }
  }

  lemma SourcesOf(all: seq<ChunkArrival>, key: Key, entry: Partial) returns (sources: seq<nat>)
    requires EntrySupplied(all, key, entry) && AllPresent(entry.chunks)
    ensures |sources| == |entry.chunks|
    ensures forall i :: 0 <= i < |sources| ==> sources[i] < |all| && Supplies(all[sources[i]], key, entry, i)
  {
    sources := [];
    while |sources| < |entry.chunks|
      invariant |sources| <= |entry.chunks|
      invariant forall i :: 0 <= i < |sources| ==> sources[i] < |all| && Supplies(all[sources[i]], key, entry, i)
    {
      assert Supplied(all, key, entry, |sources|);
      var a: nat :| a < |all| && Supplies(all[a], key, entry, |sources|);
      sources := sources + [a];
    }
  }
}
