/**
  The staging writer (src/object_store.cpp:742-958) for one movement: the staging
  file, its journal, and every way they can be left behind by a crash.

  A file is its bytes; replacing the journal is atomic; everything else a crash can
  interrupt is a step of its own. `absorbed` is what the writer's running hash has
  been fed.
 */
module Staging {
  import opened Types
  import opened StateObject

  const MAX_JOURNAL_CHUNKS := 65536

  datatype Journal = Journal(descriptor: Descriptor, chunks: u32, bytes: u64, digests: seq<Digest>)

  /** On disk: the data file and the journal. */
  datatype Staged = Staged(data: Option<Bytes>, journal: Option<Journal>)

  const NOTHING := Staged(None, None)

  datatype Writer = Writer(journal: Journal, absorbed: Bytes, journaling: bool, open: bool, completed: bool)

  /** `StagingJournal::validate` */
  predicate ValidJournal(sha: HashFn, j: Journal) {
    Valid(sha, j.descriptor) && j.chunks <= j.descriptor.chunkCount && |j.digests| == j.chunks &&
    j.bytes == PrefixEnd(j.descriptor, j.chunks)
  }

  /** Chunk `i` of `data` hashes to `digest` in its slot. */
  predicate SlotMatches(sha: HashFn, d: Descriptor, data: Bytes, i: u32, digest: Digest) {
    && PrefixEnd(d, i) <= PrefixEnd(d, i + 1) <= |data|
    && ChunkDigest(sha, d, i, PrefixEnd(d, i), data[PrefixEnd(d, i)..PrefixEnd(d, i + 1)]) == digest
  }

  /** The re-hash of the journalled prefix. */
  predicate Rehashes(sha: HashFn, d: Descriptor, data: Bytes, digests: seq<Digest>)
    requires |digests| < U32_LIMIT
  {
    forall i | 0 <= i < |digests| :: SlotMatches(sha, d, data, i, digests[i])
  }

  // ---- begin ----------------------------------------------------------------

  predicate Journals(allowResume: bool, d: Descriptor) {
    allowResume && d.chunkCount <= MAX_JOURNAL_CHUNKS
  }

  predicate Resumes(sha: HashFn, allowResume: bool, st: Staged, d: Descriptor) {
    && Journals(allowResume, d) && st.journal.Some? && ValidJournal(sha, st.journal.value)
    && ResumeCompatible(d, st.journal.value.descriptor) && st.journal.value.chunks > 0
  }

  function Contents(st: Staged): Bytes {
    if st.data.Some? then st.data.value else []
  }

  function Fresh(d: Descriptor): Journal {
    Journal(d, 0, 0, [])
  }

  /** `begin`: the disk afterwards, and the writer unless it is refused. */
  function Begin(sha: HashFn, allowResume: bool, st: Staged, d: Descriptor): (Staged, Option<Writer>) {
    if !Valid(sha, d) then (st, None)
    else if !Resumes(sha, allowResume, st, d) then
      var journaling := Journals(allowResume, d);
      (Staged(Some([]), if journaling then Some(Fresh(d)) else None),
       Some(Writer(Fresh(d), [], journaling, true, false)))
    else
      var j, data := st.journal.value, Contents(st);
      var ready := st.(data := Some(data));
      if |data| < j.bytes || !Rehashes(sha, d, data, j.digests) then (ready, None)
      else (ready, Some(Writer(j, data[..j.bytes], true, true, false)))
  }

  // ---- append ---------------------------------------------------------------

  datatype Verdict =
    | Accepted | Duplicate | NotOpen | OutOfRange | WrongOffset | WrongLength | WrongDigest | Conflict | OutOfOrder

  /** Write at an offset, filling any gap. */
  function WriteAt(data: Bytes, offset: nat, payload: Bytes): Bytes {
    var end := offset + |payload|;
    if offset <= |data| then data[..offset] + payload + (if end < |data| then data[end..] else [])
    else data + Zeros(offset - |data|) + payload
  }

  function Judge(sha: HashFn, st: Staged, w: Writer, index: u32, offset: u64, payload: Bytes, digest: Digest): Verdict {
    var d, j, data := w.journal.descriptor, w.journal, Contents(st);
    if !w.open || st.data.None? then NotOpen
    else if index >= d.chunkCount then OutOfRange
    else if ChunkOffset(d, index) != Some(offset) then WrongOffset
    else if ChunkLength(d, index) != Some(|payload|) then WrongLength
    else if ChunkDigest(sha, d, index, offset, payload) != digest then WrongDigest
    else if index < j.chunks then
      if w.journaling && (index >= |j.digests| || j.digests[index] != digest) then Conflict
      else if offset + |payload| > |data| then Conflict
      else if ChunkDigest(sha, d, index, offset, data[offset..offset + |payload|]) != digest then Conflict
      else Duplicate
    else if index != j.chunks then OutOfOrder
    else Accepted
  }

  function Extended(w: Writer, payload: Bytes, digest: Digest): Writer
    requires w.journal.chunks + 1 < U32_LIMIT && w.journal.bytes + |payload| < U64_LIMIT
  {
    var j := w.journal;
    w.(absorbed := w.absorbed + payload,
       journal := Journal(j.descriptor, j.chunks + 1, j.bytes + |payload|,
                          if w.journaling then j.digests + [digest] else j.digests))
  }

  // ---- finish ---------------------------------------------------------------

  predicate Complete(w: Writer) {
    w.open && w.journal.chunks == w.journal.descriptor.chunkCount && w.journal.bytes == w.journal.descriptor.totalBytes
  }

  function Finish(sha: HashFn, w: Writer): (Writer, Option<Digest>) {
    if Complete(w) then (w.(open := false, completed := true), Some(sha(w.absorbed))) else (w, None)
  }

  // ---- the state machine ----------------------------------------------------

  /**
    `current` is the version the data file was last started for, and `accepted` the
    chunks accepted towards it so far, in order; `orphaned` records that a crash hit a
    promotion or a removal.
   */
  datatype State = State(
    staged: Staged, writer: Option<Writer>, current: Option<Descriptor>, accepted: seq<Bytes>, orphaned: bool)

  const EMPTY := State(NOTHING, None, None, [], false)

  datatype Step =
    | Start(d: Descriptor)
    | StartCrash(d: Descriptor, keepData: bool, keepJournal: bool)
    | StartTorn(d: Descriptor)
    | Append(index: u32, offset: u64, payload: Bytes, digest: Digest)
    | AppendCrash(index: u32, offset: u64, payload: Bytes, digest: Digest, written: nat)
    | Seal
    | Release
    | Rename
    | Clear
    | ClearCrash(keepData: bool, keepJournal: bool)

  /** A crash inside a recursive removal leaves any part of the directory. */
  function Removed(st: Staged, keepData: bool, keepJournal: bool): Staged {
    Staged(if keepData then st.data else None, if keepJournal then st.journal else None)
  }

  predicate Accepts(sha: HashFn, s: State, step: Step)
    requires step.Append? || step.AppendCrash?
  {
    s.writer.Some? && Judge(sha, s.staged, s.writer.value, step.index, step.offset, step.payload, step.digest).Accepted?
  }

  /**
    `StartCrash` dies while the old staging is removed, `StartTorn` after the data file is
    created and before the journal is. `Release` is an abort or the death of the process;
    `Rename` is promotion up to and including the rename.
   */
  predicate Enabled(sha: HashFn, allowResume: bool, s: State, step: Step) {
    match step
    case Start(d) => s.writer.None?
    case StartCrash(d, _, _) => s.writer.None? && Valid(sha, d) && !Resumes(sha, allowResume, s.staged, d)
    case StartTorn(d) => s.writer.None? && Valid(sha, d) && !Resumes(sha, allowResume, s.staged, d)
    case Append(_, _, _, _) => s.writer.Some?
    case AppendCrash(_, _, payload, _, written) => Accepts(sha, s, step) && written <= |payload|
    case Seal => s.writer.Some?
    case Release => true
    case Rename => s.writer.Some? && s.writer.value.completed && s.staged.data.Some?
    case Clear => true
    case ClearCrash(_, _) => true
  }

  function AfterStart(sha: HashFn, allowResume: bool, s: State, d: Descriptor): State {
    var (st, w) := Begin(sha, allowResume, s.staged, d);
    var resumed := !Valid(sha, d) || Resumes(sha, allowResume, s.staged, d);
    State(st, w, if resumed then s.current else Some(d), if resumed then s.accepted else [], s.orphaned && resumed)
  }

  function AfterAppend(sha: HashFn, s: State, step: Step): State
    requires step.Append? && s.writer.Some?
    requires Accepts(sha, s, step) ==>
      s.writer.value.journal.chunks + 1 < U32_LIMIT && s.writer.value.journal.bytes + |step.payload| < U64_LIMIT
  {
    if !Accepts(sha, s, step) then s
    else
      var w := Extended(s.writer.value, step.payload, step.digest);
      State(Staged(Some(WriteAt(Contents(s.staged), step.offset, step.payload)),
                   if w.journaling then Some(w.journal) else s.staged.journal),
            Some(w), s.current, s.accepted + [step.payload], s.orphaned)
  }

  function Apply(sha: HashFn, allowResume: bool, s: State, step: Step): State
    requires Enabled(sha, allowResume, s, step)
    requires step.Append? && Accepts(sha, s, step) ==>
      s.writer.value.journal.chunks + 1 < U32_LIMIT && s.writer.value.journal.bytes + |step.payload| < U64_LIMIT
  {
    match step
    case Start(d) => AfterStart(sha, allowResume, s, d)
    case StartCrash(_, keepData, keepJournal) =>
      s.(staged := Removed(s.staged, keepData, keepJournal), orphaned := s.orphaned || (keepJournal && !keepData))
    case StartTorn(d) => State(Staged(Some([]), None), None, Some(d), [], false)
    case Append(_, _, _, _) => AfterAppend(sha, s, step)
    case AppendCrash(_, offset, payload, _, written) =>
      s.(staged := s.staged.(data := Some(WriteAt(Contents(s.staged), offset, payload[..written]))), writer := None)
    case Seal => s.(writer := Some(Finish(sha, s.writer.value).0))
    case Release => s.(writer := None)
    case Rename => s.(staged := s.staged.(data := None), writer := None, orphaned := true)
    case Clear => EMPTY
    case ClearCrash(keepData, keepJournal) =>
      s.(staged := Removed(s.staged, keepData, keepJournal), writer := None,
         orphaned := s.orphaned || (keepJournal && !keepData))
  }

  // ---- the invariant --------------------------------------------------------

  /** `data` begins with the accepted chunks, which end where `chunks` chunks of the plan end. */
  ghost predicate Holds(d: Descriptor, chunks: u32, bytes: u64, data: Bytes, accepted: seq<Bytes>) {
    && ValidSegmentation(d) && chunks <= d.chunkCount && bytes == PrefixEnd(d, chunks)
    && |accepted| == chunks && bytes <= |data| <= d.totalBytes
    && data[..bytes] == Concat(accepted) && Sized(d, accepted)
  }

  /** Every accepted chunk has its planned length. */
  ghost predicate Sized(d: Descriptor, accepted: seq<Bytes>) {
    forall i | 0 <= i < |accepted| :: |accepted[i]| == PrefixEnd(d, i + 1) - PrefixEnd(d, i)
  }

  /** What an open or finished writer stands on. */
  ghost predicate WriterOk(sha: HashFn, s: State, w: Writer) {
    var j := w.journal;
    && s.staged.data.Some? && Valid(sha, j.descriptor)
    && Holds(j.descriptor, j.chunks, j.bytes, s.staged.data.value, s.accepted)
    && w.absorbed == s.staged.data.value[..j.bytes]
    && (if w.journaling
        then s.staged.journal == Some(j) && |j.digests| == j.chunks &&
             Rehashes(sha, j.descriptor, s.staged.data.value, j.digests)
        else s.staged.journal.None?)
    && (w.completed ==> !w.open && j.chunks == j.descriptor.chunkCount)
  }

  /** A journal left on disk: the bytes bear it out, or the data file is gone. */
  ghost predicate JournalOk(sha: HashFn, s: State) {
    s.staged.journal.Some? ==>
      var j := s.staged.journal.value;
      && ValidJournal(sha, j)
      && (if s.orphaned then s.staged.data.None? || s.staged.data.value == [] || Borne(sha, s, j)
          else Borne(sha, s, j))
  }

  ghost predicate Borne(sha: HashFn, s: State, j: Journal)
    requires ValidJournal(sha, j)
  {
    && s.staged.data.Some?
    && Holds(j.descriptor, j.chunks, j.bytes, s.staged.data.value, s.accepted)
    && Rehashes(sha, j.descriptor, s.staged.data.value, j.digests)
  }

  /** The file, with or without a writer or a journal, begins with the accepted chunks of the current version. */
  ghost predicate DataOk(sha: HashFn, s: State) {
    && (s.staged.journal.Some? ==> s.current == Some(s.staged.journal.value.descriptor))
    && (s.writer.Some? ==> s.current == Some(s.writer.value.journal.descriptor))
    && (s.staged.data.Some? ==>
        (s.orphaned && s.staged.data.value == []) || (s.current.Some? && HoldsAccepted(s.current.value, s)))
  }

  ghost predicate HoldsAccepted(d: Descriptor, s: State)
    requires s.staged.data.Some?
  {
    |s.accepted| < U32_LIMIT && PrefixEnd(d, |s.accepted|) < U64_LIMIT &&
    Holds(d, |s.accepted|, PrefixEnd(d, |s.accepted|), s.staged.data.value, s.accepted)
  }

  ghost predicate Inv(sha: HashFn, s: State) {
    JournalOk(sha, s) && DataOk(sha, s) && (s.writer.Some? ==> WriterOk(sha, s, s.writer.value))
  }

  // ---- each step keeps the invariant ----------------------------------------

  lemma WriteAtKeeps(data: Bytes, offset: nat, payload: Bytes)
    requires offset <= |data|
    ensures var data' := WriteAt(data, offset, payload);
      && data'[..offset] == data[..offset]
      && |data'| == (if offset + |payload| < |data| then |data| else offset + |payload|)
      && data'[offset..offset + |payload|] == payload
      && data'[..offset + |payload|] == data[..offset] + payload
  {
  }

  lemma SlotKept(sha: HashFn, d: Descriptor, data: Bytes, data': Bytes, i: u32, digest: Digest, end: nat)
    requires SlotMatches(sha, d, data, i, digest) && PrefixEnd(d, i + 1) <= end <= |data| && end <= |data'|
    requires data'[..end] == data[..end]
    ensures SlotMatches(sha, d, data', i, digest)
  {
    var a, b := PrefixEnd(d, i), PrefixEnd(d, i + 1);
    assert data'[a..b] == data'[..end][a..b] == data[..end][a..b] == data[a..b];
  }

  /** Bytes beyond the verified prefix do not matter to the re-hash. */
  lemma RehashKept(sha: HashFn, d: Descriptor, data: Bytes, data': Bytes, digests: seq<Digest>, end: nat)
    requires |digests| < U32_LIMIT && Rehashes(sha, d, data, digests) && PrefixEnd(d, |digests|) <= end
    requires end <= |data| && end <= |data'| && data'[..end] == data[..end]
    ensures Rehashes(sha, d, data', digests)
  {
    forall i | 0 <= i < |digests| ensures SlotMatches(sha, d, data', i, digests[i]) {
      PrefixEndMonotone(d, i + 1, |digests|);
      SlotKept(sha, d, data, data', i, digests[i], end);
    }
  }

  lemma RehashSnoc(sha: HashFn, d: Descriptor, data: Bytes, digests: seq<Digest>, digest: Digest)
    requires |digests| + 1 < U32_LIMIT && Rehashes(sha, d, data, digests)
    requires SlotMatches(sha, d, data, |digests|, digest)
    ensures Rehashes(sha, d, data, digests + [digest])
  {
    var more := digests + [digest];
    forall i | 0 <= i < |more| ensures SlotMatches(sha, d, data, i, more[i]) {
      if i < |digests| { assert more[i] == digests[i]; }
    }
  }

  lemma HoldsMore(d: Descriptor, chunks: u32, bytes: u64, data: Bytes, accepted: seq<Bytes>, payload: Bytes)
    requires Holds(d, chunks, bytes, data, accepted) && chunks < d.chunkCount
    requires ChunkLength(d, chunks) == Some(|payload|)
    ensures chunks + 1 < U32_LIMIT && bytes + |payload| < U64_LIMIT
    ensures Holds(d, chunks + 1, bytes + |payload|, WriteAt(data, bytes, payload), accepted + [payload])
  {
    ChunkIsPrefixStep(d, chunks);
    PrefixEndMonotone(d, chunks, chunks + 1);
    WriteAtKeeps(data, bytes, payload);
    var more := accepted + [payload];
    assert more[..|more| - 1] == accepted;
  }

  /** A partial write past the verified prefix leaves it standing. */
  lemma HoldsTorn(
    d: Descriptor, chunks: u32, bytes: u64, data: Bytes, accepted: seq<Bytes>, payload: Bytes, written: nat)
    requires Holds(d, chunks, bytes, data, accepted) && chunks < d.chunkCount
    requires ChunkLength(d, chunks) == Some(|payload|) && written <= |payload|
    ensures Holds(d, chunks, bytes, WriteAt(data, bytes, payload[..written]), accepted)
  {
    ChunkIsPrefixStep(d, chunks);
    PrefixEndMonotone(d, chunks, chunks + 1);
    WriteAtKeeps(data, bytes, payload[..written]);
  }

  /** A chunk is accepted exactly when it is the next one, in its planned place, and hashes to the digest it carries. */
  lemma JudgedInTurn(sha: HashFn, st: Staged, w: Writer, index: u32, offset: u64, payload: Bytes, digest: Digest)
    ensures var d := w.journal.descriptor;
      Judge(sha, st, w, index, offset, payload, digest).Accepted? <==>
      && w.open && st.data.Some?
      && w.journal.chunks == index < d.chunkCount
      && ChunkOffset(d, index) == Some(offset) && ChunkLength(d, index) == Some(|payload|)
      && ChunkDigest(sha, d, index, offset, payload) == digest
  {
    hide ChunkOffset, ChunkLength, ChunkDigest;
  }

  /** A chunk laid out as planned: at its offset, of its length, hashing to the digest it carries. */
  predicate Planned(sha: HashFn, d: Descriptor, index: u32, offset: u64, payload: Bytes, digest: Digest) {
    && offset == PrefixEnd(d, index) && |payload| == PrefixEnd(d, index + 1) - PrefixEnd(d, index)
    && ChunkDigest(sha, d, index, offset, payload) == digest
  }

  /** What a standing writer answers to any chunk at all, in terms of the plan and the stored slots. */
  lemma JudgedAs(sha: HashFn, s: State, w: Writer, index: u32, offset: u64, payload: Bytes, digest: Digest)
    requires WriterOk(sha, s, w)
    ensures var d, k, verdict := w.journal.descriptor, w.journal.chunks,
                                 Judge(sha, s.staged, w, index, offset, payload, digest);
      && (verdict.NotOpen? <==> !w.open)
      && (verdict.OutOfRange? <==> w.open && index >= d.chunkCount)
      && (verdict.WrongOffset? <==> w.open && index < d.chunkCount && offset != PrefixEnd(d, index))
      && (verdict.WrongLength? <==>
          w.open && index < d.chunkCount && offset == PrefixEnd(d, index) &&
          |payload| != PrefixEnd(d, index + 1) - PrefixEnd(d, index))
      && (verdict.WrongDigest? <==>
          w.open && index < d.chunkCount && offset == PrefixEnd(d, index) &&
          |payload| == PrefixEnd(d, index + 1) - PrefixEnd(d, index) &&
          ChunkDigest(sha, d, index, offset, payload) != digest)
      && (verdict.Accepted? <==> w.open && index == k < d.chunkCount && Planned(sha, d, index, offset, payload, digest))
      && (verdict.OutOfOrder? <==>
          w.open && k < index < d.chunkCount && Planned(sha, d, index, offset, payload, digest))
      && (verdict.Duplicate? <==>
          w.open && index < k && Planned(sha, d, index, offset, payload, digest) &&
          SlotMatches(sha, d, s.staged.data.value, index, digest))
      && (verdict.Conflict? <==>
          w.open && index < k && Planned(sha, d, index, offset, payload, digest) &&
          !SlotMatches(sha, d, s.staged.data.value, index, digest))
  {
    var d := w.journal.descriptor;
    ValidSegments(sha, d);
    if w.open && index < w.journal.chunks && Planned(sha, d, index, offset, payload, digest) {
      JudgedReplay(sha, s, w, index, offset, payload, digest);
    }
    hide ChunkDigest, Concat, Valid, ChunkLength, ChunkOffset, Sized, ValidSegmentation, PrefixEnd;
    hide Rehashes, SlotMatches;
    if index < d.chunkCount { ChunkIsPrefixStep(d, index); }
  }

  lemma JudgedReplay(sha: HashFn, s: State, w: Writer, index: u32, offset: u64, payload: Bytes, digest: Digest)
    requires WriterOk(sha, s, w) && w.open && index < w.journal.chunks
    requires Planned(sha, w.journal.descriptor, index, offset, payload, digest)
    ensures Judge(sha, s.staged, w, index, offset, payload, digest) ==
      if SlotMatches(sha, w.journal.descriptor, s.staged.data.value, index, digest) then Duplicate else Conflict
  {
    var d, data := w.journal.descriptor, s.staged.data.value;
    ValidSegments(sha, d);
    hide ChunkDigest, Concat, Valid, ChunkLength, ChunkOffset, Sized, ValidSegmentation, PrefixEnd;
    ChunkIsPrefixStep(d, index);
    PrefixEndMonotone(d, index, index + 1);
    PrefixEndMonotone(d, index + 1, w.journal.chunks);
    if w.journaling { assert SlotMatches(sha, d, data, index, w.journal.digests[index]); }
  }

  /** A duplicate passes only when the bytes already stored in that slot hash to the digest it carries. */
  lemma DuplicateMatches(sha: HashFn, s: State, w: Writer, index: u32, offset: u64, payload: Bytes, digest: Digest)
    requires WriterOk(sha, s, w) && Judge(sha, s.staged, w, index, offset, payload, digest).Duplicate?
    ensures index < w.journal.chunks
    ensures ChunkDigest(sha, w.journal.descriptor, index, offset, payload) == digest
    ensures SlotMatches(sha, w.journal.descriptor, s.staged.data.value, index, digest)
    ensures w.journaling ==> w.journal.digests[index] == digest
  {
    hide ChunkDigest, Concat, Rehashes, Valid, ChunkLength, ChunkOffset;
    ValidSegments(sha, w.journal.descriptor);
    ChunkIsPrefixStep(w.journal.descriptor, index);
  }

  lemma ValidSegments(sha: HashFn, d: Descriptor)
    requires Valid(sha, d)
    ensures ValidSegmentation(d)
  {
  }

  lemma WrittenSlot(sha: HashFn, d: Descriptor, k: u32, data: Bytes, payload: Bytes, digest: Digest)
    requires ValidSegmentation(d) && k < d.chunkCount && PrefixEnd(d, k) <= |data|
    requires ChunkLength(d, k) == Some(|payload|) && ChunkDigest(sha, d, k, PrefixEnd(d, k), payload) == digest
    ensures SlotMatches(sha, d, WriteAt(data, PrefixEnd(d, k), payload), k, digest)
  {
    hide ChunkDigest;
    ChunkIsPrefixStep(d, k);
    WriteAtKeeps(data, PrefixEnd(d, k), payload);
  }

  lemma AcceptedSlot(sha: HashFn, s: State, w: Writer, index: u32, offset: u64, payload: Bytes, digest: Digest)
    requires WriterOk(sha, s, w) && Judge(sha, s.staged, w, index, offset, payload, digest).Accepted?
    ensures var j := w.journal;
      && j.chunks == index && j.chunks < j.descriptor.chunkCount && offset == j.bytes
      && ChunkLength(j.descriptor, j.chunks) == Some(|payload|)
      && j.chunks + 1 < U32_LIMIT && j.bytes + |payload| < U64_LIMIT
      && SlotMatches(sha, j.descriptor, WriteAt(s.staged.data.value, j.bytes, payload), j.chunks, digest)
  {
    hide Valid, ChunkDigest, ChunkLength, ChunkOffset, SlotMatches, Judge, Concat, Rehashes, WriteAt, ValidSegmentation;
    var d, k := w.journal.descriptor, w.journal.chunks;
    JudgedInTurn(sha, s.staged, w, index, offset, payload, digest);
    ChunkIsPrefixStep(d, k);
    HoldsMore(d, k, w.journal.bytes, s.staged.data.value, s.accepted, payload);
    WrittenSlot(sha, d, k, s.staged.data.value, payload, digest);
  }

  lemma AppendInv(sha: HashFn, s: State, step: Step)
    requires Inv(sha, s) && step.Append? && s.writer.Some? && Accepts(sha, s, step)
    ensures s.writer.value.journal.chunks + 1 < U32_LIMIT && s.writer.value.journal.bytes + |step.payload| < U64_LIMIT
    ensures Inv(sha, AfterAppend(sha, s, step))
  {
    hide Valid, ChunkDigest, ChunkLength, ChunkOffset, SlotMatches, Judge, Concat, Rehashes, WriteAt, ValidSegmentation;
    var w := s.writer.value;
    var j, data := w.journal, s.staged.data.value;
    var d := j.descriptor;
    JudgedInTurn(sha, s.staged, w, step.index, step.offset, step.payload, step.digest);
    AcceptedSlot(sha, s, w, step.index, step.offset, step.payload, step.digest);
    HoldsMore(d, j.chunks, j.bytes, data, s.accepted, step.payload);
    var data' := WriteAt(data, j.bytes, step.payload);
    WriteAtKeeps(data, j.bytes, step.payload);
    if w.journaling {
      RehashKept(sha, d, data, data', j.digests, j.bytes);
      RehashSnoc(sha, d, data', j.digests, step.digest);
    }
  }

  lemma AppendCrashInv(sha: HashFn, s: State, step: Step)
    requires Inv(sha, s) && step.AppendCrash? && Accepts(sha, s, step) && step.written <= |step.payload|
    ensures Inv(sha, s.(
      staged := s.staged.(data := Some(WriteAt(Contents(s.staged), step.offset, step.payload[..step.written]))),
      writer := None))
  {
    hide Valid, ChunkDigest, ChunkLength, ChunkOffset, SlotMatches, Judge, Concat, Rehashes, WriteAt, ValidSegmentation;
    var w := s.writer.value;
    var j, data := w.journal, s.staged.data.value;
    var d := j.descriptor;
    JudgedInTurn(sha, s.staged, w, step.index, step.offset, step.payload, step.digest);
    AcceptedSlot(sha, s, w, step.index, step.offset, step.payload, step.digest);
    HoldsTorn(d, j.chunks, j.bytes, data, s.accepted, step.payload, step.written);
    WriteAtKeeps(data, j.bytes, step.payload[..step.written]);
    if w.journaling {
      RehashKept(sha, d, data, WriteAt(data, j.bytes, step.payload[..step.written]), j.digests, j.bytes);
    }
  }

  /** Compatible descriptors cut and hash alike. */
  lemma CompatibleSlots(sha: HashFn, d: Descriptor, e: Descriptor, data: Bytes, digests: seq<Digest>)
    requires ResumeCompatible(d, e) && |digests| < U32_LIMIT
    ensures Rehashes(sha, d, data, digests) <==> Rehashes(sha, e, data, digests)
  {
    assert forall k: nat :: PrefixEnd(d, k) == PrefixEnd(e, k);
    forall i | 0 <= i < |digests|
      ensures SlotMatches(sha, d, data, i, digests[i]) <==> SlotMatches(sha, e, data, i, digests[i])
    {
      SlotCompatible(sha, d, e, data, i, digests[i]);
    }
  }

  lemma SlotCompatible(sha: HashFn, d: Descriptor, e: Descriptor, data: Bytes, i: u32, digest: Digest)
    requires ResumeCompatible(d, e)
    ensures SlotMatches(sha, d, data, i, digest) <==> SlotMatches(sha, e, data, i, digest)
  {
    assert PrefixEnd(d, i) == PrefixEnd(e, i) && PrefixEnd(d, i + 1) == PrefixEnd(e, i + 1);
  }

  /** In a reachable state the re-hash never fails: a resume is refused exactly when the data file is gone. */
  lemma BeginRefusedIff(sha: HashFn, allowResume: bool, s: State, d: Descriptor)
    requires Inv(sha, s) && Valid(sha, d)
    ensures Begin(sha, allowResume, s.staged, d).1.None? <==>
      Resumes(sha, allowResume, s.staged, d) && |Contents(s.staged)| < s.staged.journal.value.bytes
    ensures Begin(sha, allowResume, s.staged, d).1.None? ==> s.orphaned && Contents(s.staged) == []
  {
    hide Valid, Concat, Rehashes, ValidSegmentation;
    if Resumes(sha, allowResume, s.staged, d) {
      var j := s.staged.journal.value;
      CompatibleSlots(sha, d, j.descriptor, Contents(s.staged), j.digests);
      ValidSegments(sha, j.descriptor);
      PrefixPositive(j.descriptor, j.chunks);
    }
  }

  lemma PrefixPositive(d: Descriptor, k: u32)
    requires ValidSegmentation(d) && 0 < k <= d.chunkCount
    ensures PrefixEnd(d, k) > 0
  {
    ChunkIsPrefixStep(d, 0);
    PrefixEndMonotone(d, 1, k);
  }

  lemma StartInv(sha: HashFn, allowResume: bool, s: State, d: Descriptor)
    requires Inv(sha, s) && s.writer.None?
    ensures Inv(sha, AfterStart(sha, allowResume, s, d))
  {
    hide ChunkDigest, SlotMatches;
    if Valid(sha, d) {
      BeginRefusedIff(sha, allowResume, s, d);
      if Resumes(sha, allowResume, s.staged, d) {
        hide Valid, Concat, Rehashes, ValidSegmentation;
        var j := s.staged.journal.value;
        CompatibleSlots(sha, d, j.descriptor, Contents(s.staged), j.digests);
        ValidSegments(sha, j.descriptor);
        PrefixPositive(j.descriptor, j.chunks);
      } else {
        PrefixEndsAtTotal(d);
        assert Concat([]) == [];
      }
    }
  }

  lemma OtherInv(sha: HashFn, allowResume: bool, s: State, step: Step)
    requires Inv(sha, s) && Enabled(sha, allowResume, s, step)
    requires !step.Start? && !step.Append? && !step.AppendCrash?
    ensures Inv(sha, Apply(sha, allowResume, s, step))
  {
    hide Valid, ChunkDigest, SlotMatches, Concat, Rehashes;
    if step.StartTorn? { TornInv(sha, step.d); }
  }

  /** An empty data file holds the no chunks accepted yet. */
  lemma TornInv(sha: HashFn, d: Descriptor)
    requires Valid(sha, d)
    ensures Inv(sha, State(Staged(Some([]), None), None, Some(d), [], false))
  {
    ValidSegments(sha, d);
    PrefixEndsAtTotal(d);
    assert Concat([]) == [];
  }

  lemma StepInv(sha: HashFn, allowResume: bool, s: State, step: Step)
    requires Inv(sha, s) && Enabled(sha, allowResume, s, step)
    ensures step.Append? && Accepts(sha, s, step) ==>
      s.writer.value.journal.chunks + 1 < U32_LIMIT && s.writer.value.journal.bytes + |step.payload| < U64_LIMIT
    ensures Inv(sha, Apply(sha, allowResume, s, step))
  {
    hide Inv, AfterStart, AfterAppend, Accepts;
    match step
    case Start(d) => StartInv(sha, allowResume, s, d);
    case Append(_, _, _, _) => if Accepts(sha, s, step) { AppendInv(sha, s, step); } else { Unaccepted(sha, s, step); }
    case AppendCrash(_, _, _, _, _) => AppendCrashInv(sha, s, step);
    case _ => OtherInv(sha, allowResume, s, step);
  }

  lemma Unaccepted(sha: HashFn, s: State, step: Step)
    requires step.Append? && s.writer.Some? && !Accepts(sha, s, step)
    ensures AfterAppend(sha, s, step) == s
  {
  }

  // ---- whole runs -----------------------------------------------------------

  ghost predicate IsStep(sha: HashFn, allowResume: bool, s: State, step: Step, s': State) {
    && Enabled(sha, allowResume, s, step)
    && (step.Append? && Accepts(sha, s, step) ==>
        s.writer.value.journal.chunks + 1 < U32_LIMIT && s.writer.value.journal.bytes + |step.payload| < U64_LIMIT)
    && s' == Apply(sha, allowResume, s, step)
  }

  ghost predicate IsRun(sha: HashFn, allowResume: bool, states: seq<State>, steps: seq<Step>) {
    && |states| == |steps| + 1 && states[0] == EMPTY
    && (forall i | 0 <= i < |steps| :: IsStep(sha, allowResume, states[i], steps[i], states[i + 1]))
  }

  lemma {:induction false} RunInv(sha: HashFn, allowResume: bool, states: seq<State>, steps: seq<Step>, n: nat)
    requires IsRun(sha, allowResume, states, steps) && n < |states|
    ensures Inv(sha, states[n])
  {
    hide Inv, Apply, Enabled, Accepts;
    if n == 0 {
      EmptyInv(sha);
    } else {
      RunInv(sha, allowResume, states, steps, n - 1);
      assert IsStep(sha, allowResume, states[n - 1], steps[n - 1], states[n]);
      StepInv(sha, allowResume, states[n - 1], steps[n - 1]);
    }
  }

  lemma EmptyInv(sha: HashFn)
    ensures Inv(sha, EMPTY)
  {
  }

  /**
    Any interleaving of begin, append, duplicates, refusals, aborts, crashes and resumed
    begins: while a writer stands, the file never exceeds the object's size and begins
    with exactly the accepted chunks in order, which is also what the running hash has
    absorbed; and finishing succeeds exactly when every chunk was accepted, on a file of
    exactly the object's size, whose SHA-256 it returns.
   */
  lemma StagedExactly(sha: HashFn, allowResume: bool, states: seq<State>, steps: seq<Step>, n: nat)
    requires IsRun(sha, allowResume, states, steps) && n < |states| && states[n].writer.Some?
    ensures var s, w := states[n], states[n].writer.value;
      var d := w.journal.descriptor;
      && s.staged.data.Some?
      && var data := s.staged.data.value;
      && |data| <= d.totalBytes && w.journal.bytes <= |data| && w.journal.chunks == |s.accepted|
      && data[..w.journal.bytes] == w.absorbed == Concat(s.accepted)
      && (Finish(sha, w).1.Some? <==> w.open && |s.accepted| == d.chunkCount)
      && (Finish(sha, w).1.Some? ==>
          && |data| == d.totalBytes && data == Concat(s.accepted)
          && Finish(sha, w).1 == Some(sha(data)))
  {
    RunInv(sha, allowResume, states, steps, n);
    hide IsRun, Rehashes, Concat, Sized;
    var s, w := states[n], states[n].writer.value;
    ValidSegments(sha, w.journal.descriptor);
    PrefixEndsAtTotal(w.journal.descriptor);
    hide Valid, ValidSegmentation;
    if Complete(w) { assert s.staged.data.value[..w.journal.bytes] == s.staged.data.value; }
  }

  lemma {:induction false} ConcatEnds(d: Descriptor, accepted: seq<Bytes>)
    requires Sized(d, accepted)
    ensures |Concat(accepted)| == PrefixEnd(d, |accepted|) - PrefixEnd(d, 0)
  {
    if accepted != [] { ConcatEnds(d, accepted[..|accepted| - 1]); }
  }

  lemma {:induction false} ConcatSlot(d: Descriptor, accepted: seq<Bytes>, i: nat)
    requires Sized(d, accepted) && PrefixEnd(d, 0) == 0 && i < |accepted|
    ensures PrefixEnd(d, i) <= PrefixEnd(d, i + 1) <= |Concat(accepted)|
    ensures Concat(accepted)[PrefixEnd(d, i)..PrefixEnd(d, i + 1)] == accepted[i]
    decreases |accepted|
  {
    hide PrefixEnd;
    var before := accepted[..|accepted| - 1];
    ConcatEnds(d, before);
    ConcatEnds(d, accepted);
    if i < |accepted| - 1 {
      ConcatSlot(d, before, i);
      var a, b := PrefixEnd(d, i), PrefixEnd(d, i + 1);
      assert Concat(accepted)[a..b] == Concat(before)[a..b];
    }
  }

  /**
    In every reachable state with an open writer, a chunk sent again exactly as it was accepted,
    whichever of them it is, passes as a duplicate and changes nothing.
   */
  lemma ReplayPasses(sha: HashFn, allowResume: bool, states: seq<State>, steps: seq<Step>, n: nat, i: u32)
    requires IsRun(sha, allowResume, states, steps) && n < |states|
    requires states[n].writer.Some? && states[n].writer.value.open && i < |states[n].accepted|
    ensures var s, w := states[n], states[n].writer.value;
      var d := w.journal.descriptor;
      PrefixEnd(d, i) < U64_LIMIT &&
      var offset: u64, payload := PrefixEnd(d, i), s.accepted[i];
      var digest := ChunkDigest(sha, d, i, offset, payload);
      && Judge(sha, s.staged, w, i, offset, payload, digest).Duplicate?
      && Enabled(sha, allowResume, s, Append(i, offset, payload, digest))
      && Apply(sha, allowResume, s, Append(i, offset, payload, digest)) == s
  {
    RunInv(sha, allowResume, states, steps, n);
    hide IsRun, Valid, Rehashes, Judge, ChunkDigest;
    AcceptedAgain(sha, states[n], i);
  }

  lemma AcceptedAgain(sha: HashFn, s: State, i: u32)
    requires s.writer.Some? && WriterOk(sha, s, s.writer.value) && s.writer.value.open && i < |s.accepted|
    ensures var w := s.writer.value;
      var d := w.journal.descriptor;
      PrefixEnd(d, i) < U64_LIMIT &&
      var offset: u64, payload := PrefixEnd(d, i), s.accepted[i];
      Judge(sha, s.staged, w, i, offset, payload, ChunkDigest(sha, d, i, offset, payload)).Duplicate?
  {
    hide Judge, ChunkDigest, Valid, Concat, PrefixEnd, Rehashes, Holds;
    var w := s.writer.value;
    var d := w.journal.descriptor;
    SlotIsAccepted(d, w.journal.chunks, w.journal.bytes, s.staged.data.value, s.accepted, i);
    JudgedAs(sha, s, w, i, PrefixEnd(d, i), s.accepted[i], ChunkDigest(sha, d, i, PrefixEnd(d, i), s.accepted[i]));
  }

  lemma SlotIsAccepted(d: Descriptor, chunks: u32, bytes: u64, data: Bytes, accepted: seq<Bytes>, i: u32)
    requires Holds(d, chunks, bytes, data, accepted) && i < |accepted|
    ensures i < chunks && PrefixEnd(d, i) <= PrefixEnd(d, i + 1) <= |data| < U64_LIMIT
    ensures |accepted[i]| == PrefixEnd(d, i + 1) - PrefixEnd(d, i)
    ensures data[PrefixEnd(d, i)..PrefixEnd(d, i + 1)] == accepted[i]
  {
    PrefixEndsAtTotal(d);
    hide PrefixEnd, Concat, ValidSegmentation;
    ConcatSlot(d, accepted, i);
    var a, b := PrefixEnd(d, i), PrefixEnd(d, i + 1);
    assert data[a..b] == data[..bytes][a..b];
  }

  /**
    The same between writers and after any crash: what is left in the data file is never
    longer than the object it was started for and begins with exactly the chunks accepted
    for it; the one exception is a file emptied by a crash inside a promotion or removal.
   */
  lemma LeftExactly(sha: HashFn, allowResume: bool, states: seq<State>, steps: seq<Step>, n: nat)
    requires IsRun(sha, allowResume, states, steps) && n < |states| && states[n].staged.data.Some?
    ensures var s, data := states[n], states[n].staged.data.value;
      || (s.orphaned && data == [])
      || (&& s.current.Some? && |data| <= s.current.value.totalBytes
          && |Concat(s.accepted)| == PrefixEnd(s.current.value, |s.accepted|) && Concat(s.accepted) <= data)
  {
    RunInv(sha, allowResume, states, steps, n);
    hide IsRun, Valid, Rehashes, Concat;
  }

  /**
    If the process dies while a journalling writer stands, wherever it has got to, the next
    begin resumes exactly when resuming is allowed, a chunk was accepted, and the object asked
    for is the same version with the same contents cut the same way.
   */
  lemma ResumesIff(sha: HashFn, allowResume: bool, states: seq<State>, steps: seq<Step>, n: nat, d: Descriptor)
    requires IsRun(sha, allowResume, states, steps) && n < |states|
    requires states[n].writer.Some? && states[n].writer.value.journaling
    ensures var s, c := states[n], states[n].writer.value.journal.descriptor;
      Resumes(sha, allowResume, s.staged, d) <==>
        && allowResume && d.chunkCount <= MAX_JOURNAL_CHUNKS && s.accepted != []
        && (d.objectId, d.generation, d.contentDigest) == (c.objectId, c.generation, c.contentDigest)
        && (d.totalBytes, d.chunkBytes, d.chunkCount) == (c.totalBytes, c.chunkBytes, c.chunkCount)
  {
    RunInv(sha, allowResume, states, steps, n);
    hide IsRun, Valid, Rehashes, Concat, ValidSegmentation, PrefixEnd;
  }

  /**
    Resumption: after any crash that did not hit a promotion or a removal, the next begin
    is never refused, and when it resumes it stands on exactly the chunks accepted before.
   */
  lemma ResumesWhatWasAccepted(
    sha: HashFn, allowResume: bool, states: seq<State>, steps: seq<Step>, n: nat, d: Descriptor)
    requires IsRun(sha, allowResume, states, steps) && n < |states| && states[n].writer.None?
    requires Valid(sha, d) && !states[n].orphaned
    ensures var s, w := states[n], Begin(sha, allowResume, states[n].staged, d).1;
      && w.Some?
      && (Resumes(sha, allowResume, s.staged, d) ==>
          w.value.journal.chunks == |s.accepted| && w.value.absorbed == Concat(s.accepted))
      && (!Resumes(sha, allowResume, s.staged, d) ==> w.value.journal.chunks == 0 && w.value.absorbed == [])
  {
    RunInv(sha, allowResume, states, steps, n);
    hide IsRun, Valid, Rehashes, Concat;
    BeginRefusedIff(sha, allowResume, states[n], d);
  }

  /**
    The exception. A crash between the rename and the removal of a promotion leaves a
    journal without its data; every later begin for that version is then refused, although
    such a journal is meant to be discarded rather than trusted.
   */
  lemma OrphanRefused(sha: HashFn, allowResume: bool, s: State, d: Descriptor)
    requires Inv(sha, s) && Enabled(sha, allowResume, s, Rename) && s.writer.value.journaling
    requires Valid(sha, d) && Journals(allowResume, d) && d.chunkCount > 0
    requires ResumeCompatible(d, s.writer.value.journal.descriptor)
    ensures var s1 := Apply(sha, allowResume, s, Rename);
      && Begin(sha, allowResume, s1.staged, d).1.None?
      && Begin(sha, allowResume, Begin(sha, allowResume, s1.staged, d).0, d).1.None?
  {
    hide Valid, Rehashes, Concat, ValidSegmentation;
    var j := s.writer.value.journal;
    ValidSegments(sha, j.descriptor);
    PrefixPositive(j.descriptor, j.chunks);
  }

  lemma ExtendedRun(sha: HashFn, allowResume: bool, states: seq<State>, steps: seq<Step>, step: Step)
    returns (states': seq<State>, steps': seq<Step>)
    requires IsRun(sha, allowResume, states, steps) && Enabled(sha, allowResume, states[|states| - 1], step)
    ensures IsRun(sha, allowResume, states', steps')
    ensures |states'| == |states| + 1 && states' == states + [states'[|states|]]
    ensures IsStep(sha, allowResume, states[|states| - 1], step, states'[|states|])
  {
    hide Enabled, Apply, Accepts, Inv;
    var last := states[|states| - 1];
    RunInv(sha, allowResume, states, steps, |states| - 1);
    StepInv(sha, allowResume, last, step);
    states', steps' := states + [Apply(sha, allowResume, last, step)], steps + [step];
    forall i | 0 <= i < |steps'| ensures IsStep(sha, allowResume, states'[i], steps'[i], states'[i + 1]) {
      if i < |steps| { assert IsStep(sha, allowResume, states[i], steps[i], states[i + 1]); }
    }
  }

  /** A journalling writer for `d`, open, with its first `k` chunks accepted. */
  predicate Standing(s: State, d: Descriptor, k: u32) {
    && s.writer.Some? && s.writer.value.open && s.writer.value.journaling && s.staged.data.Some?
    && s.writer.value.journal.descriptor == d && s.writer.value.journal.chunks == k && !s.orphaned
  }

  lemma StandingStart(sha: HashFn, d: Descriptor, s': State)
    requires Valid(sha, d) && Journals(true, d) && IsStep(sha, true, EMPTY, Start(d), s')
    ensures Standing(s', d, 0)
  {
    hide Valid;
  }

  lemma StandingAppend(sha: HashFn, s: State, d: Descriptor, k: u32, payload: Bytes, s': State)
    requires Inv(sha, s) && Standing(s, d, k) && k < d.chunkCount && ChunkLength(d, k) == Some(|payload|)
    requires ChunkOffset(d, k) == Some(s.writer.value.journal.bytes)
    requires var offset := s.writer.value.journal.bytes;
      IsStep(sha, true, s, Append(k, offset, payload, ChunkDigest(sha, d, k, offset, payload)), s')
    ensures Standing(s', d, k + 1)
  {
    hide Inv, ChunkDigest, ChunkLength, ChunkOffset, Judge, WriteAt;
    var w := s.writer.value;
    JudgedInTurn(sha, s.staged, w, k, w.journal.bytes, payload, ChunkDigest(sha, d, k, w.journal.bytes, payload));
  }

  lemma NextPlace(sha: HashFn, s: State, d: Descriptor, k: u32)
    requires Inv(sha, s) && Standing(s, d, k) && k < d.chunkCount
    ensures ChunkOffset(d, k) == Some(s.writer.value.journal.bytes) && ChunkLength(d, k).Some?
  {
    hide Concat, Rehashes, Valid;
    ValidSegments(sha, d);
    ChunkIsPrefixStep(d, k);
  }

  lemma {:induction false} StandingRun(sha: HashFn, d: Descriptor, k: u32)
    returns (states: seq<State>, steps: seq<Step>)
    requires Valid(sha, d) && Journals(true, d) && k <= d.chunkCount
    ensures IsRun(sha, true, states, steps) && Standing(states[|states| - 1], d, k)
    decreases k
  {
    hide Valid, Inv, IsStep, Standing, ChunkDigest, ChunkLength, ChunkOffset;
    if k == 0 {
      states, steps := ExtendedRun(sha, true, [EMPTY], [], Start(d));
      StandingStart(sha, d, states[|states| - 1]);
    } else {
      states, steps := StandingRun(sha, d, k - 1);
      var s, n := states[|states| - 1], |states|;
      RunInv(sha, true, states, steps, n - 1);
      NextPlace(sha, s, d, k - 1);
      states, steps := AppendedRun(sha, d, k - 1, states, steps);
    }
  }

  lemma AppendedRun(sha: HashFn, d: Descriptor, k: u32, states: seq<State>, steps: seq<Step>)
    returns (states': seq<State>, steps': seq<Step>)
    requires IsRun(sha, true, states, steps) && Standing(states[|states| - 1], d, k) && k < d.chunkCount
    requires ChunkOffset(d, k) == Some(states[|states| - 1].writer.value.journal.bytes) && ChunkLength(d, k).Some?
    ensures IsRun(sha, true, states', steps') && Standing(states'[|states'| - 1], d, k + 1)
  {
    hide Inv, IsStep, ChunkDigest, ChunkLength, ChunkOffset;
    var s := states[|states| - 1];
    var offset, payload := s.writer.value.journal.bytes, Zeros(ChunkLength(d, k).value);
    RunInv(sha, true, states, steps, |states| - 1);
    states', steps' := ExtendedRun(
      sha, true, states, steps, Append(k, offset, payload, ChunkDigest(sha, d, k, offset, payload)));
    StandingAppend(sha, s, d, k, payload, states'[|states|]);
  }

  /** For every version that is journalled at all there is a run into that state, with one crash. */
  lemma OrphanRun(sha: HashFn, d: Descriptor) returns (states: seq<State>, steps: seq<Step>)
    requires Valid(sha, d) && Journals(true, d) && d.chunkCount > 0
    ensures IsRun(sha, true, states, steps) && states[|states| - 1].writer.None?
    ensures Begin(sha, true, states[|states| - 1].staged, d).1.None?
  {
    hide Valid, Inv, IsStep, Standing;
    states, steps := StandingRun(sha, d, d.chunkCount);
    var s, n := states[|states| - 1], |states|;
    RunInv(sha, true, states, steps, n - 1);
    WholeWriter(sha, s, d);
    states, steps := ExtendedRun(sha, true, states, steps, Seal);
    var s1 := states[n];
    SealedWriter(sha, s, d, s1);
    RunInv(sha, true, states, steps, n);
    states, steps := ExtendedRun(sha, true, states, steps, Rename);
    RenamedAway(sha, s1, d, states[n + 1]);
  }

  lemma WholeWriter(sha: HashFn, s: State, d: Descriptor)
    requires Inv(sha, s) && Standing(s, d, d.chunkCount)
    ensures Complete(s.writer.value) && Enabled(sha, true, s, Seal)
  {
    hide Concat, Rehashes, Valid;
    ValidSegments(sha, d);
    PrefixEndsAtTotal(d);
  }

  lemma SealedWriter(sha: HashFn, s: State, d: Descriptor, s': State)
    requires Standing(s, d, d.chunkCount) && Complete(s.writer.value) && IsStep(sha, true, s, Seal, s')
    ensures Enabled(sha, true, s', Rename) && s'.writer.value.journaling && s'.writer.value.journal.descriptor == d
  {
  }

  lemma RenamedAway(sha: HashFn, s: State, d: Descriptor, s': State)
    requires Inv(sha, s) && Valid(sha, d) && Journals(true, d) && d.chunkCount > 0
    requires Enabled(sha, true, s, Rename) && s.writer.value.journaling && s.writer.value.journal.descriptor == d
    requires IsStep(sha, true, s, Rename, s')
    ensures s'.writer.None? && Begin(sha, true, s'.staged, d).1.None?
  {
    hide Inv, Valid, Begin;
    OrphanRefused(sha, true, s, d);
  }

  // ---- opening a data session -------------------------------------------------

  datatype Opening = Opened | BeginFailed | ResumeRefused

  /**
    The resume point that the source acknowledges. The request for it is not encoded
    (src/wire.cpp:1358-1405), so the source always reads, and acknowledges, zero.
   */
  const ACKNOWLEDGED: u32 := 0

  /**
    How the destination opens a session (src/endpoint_agent.cpp:932-1003): begin, then abort
    unless the source acknowledges the writer's own resume point.
   */
  function OpenSession(sha: HashFn, allowResume: bool, s: State, d: Descriptor): (State, Opening) {
    var begun := AfterStart(sha, allowResume, s, d);
    if begun.writer.None? then (begun, BeginFailed)
    else if begun.writer.value.journal.chunks != ACKNOWLEDGED then (begun.(writer := None), ResumeRefused)
    else (begun, Opened)
  }

  /**
    The journal is there so that an interrupted transfer can go on where it stopped. In every
    run, a session opens if and only if the begin does not resume; a begin that could resume
    is aborted with everything left as it was, so the next session is refused in the same way.
   */
  lemma SessionOpensIff(sha: HashFn, allowResume: bool, states: seq<State>, steps: seq<Step>, n: nat, d: Descriptor)
    requires IsRun(sha, allowResume, states, steps) && n < |states| && states[n].writer.None? && Valid(sha, d)
    ensures var s := states[n];
      && (OpenSession(sha, allowResume, s, d).1.Opened? <==> !Resumes(sha, allowResume, s.staged, d))
      && (OpenSession(sha, allowResume, s, d).1.ResumeRefused? ==> OpenSession(sha, allowResume, s, d).0 == s)
      && (Resumes(sha, allowResume, s.staged, d) && !s.orphaned ==>
          OpenSession(sha, allowResume, s, d) == (s, ResumeRefused))
  {
    RunInv(sha, allowResume, states, steps, n);
    hide IsRun, Valid, Rehashes, Concat, ValidSegmentation;
    BeginRefusedIff(sha, allowResume, states[n], d);
    if Resumes(sha, allowResume, states[n].staged, d) {
      var j := states[n].staged.journal.value;
      ValidSegments(sha, j.descriptor);
      PrefixPositive(j.descriptor, j.chunks);
    }
  }

  lemma ReleasedResumes(sha: HashFn, s: State, d: Descriptor, k: u32, s': State)
    requires Inv(sha, s) && Valid(sha, d) && Journals(true, d) && Standing(s, d, k) && k > 0
    requires IsStep(sha, true, s, Release, s')
    ensures s'.writer.None? && !s'.orphaned && Resumes(sha, true, s'.staged, d)
  {
    hide Valid, Rehashes, Concat;
  }

  /** For every journalled version: one crash after any accepted chunk, and no session opens for it again. */
  lemma ResumeRefusedRun(sha: HashFn, d: Descriptor, k: u32) returns (states: seq<State>, steps: seq<Step>)
    requires Valid(sha, d) && Journals(true, d) && 0 < k <= d.chunkCount
    ensures IsRun(sha, true, states, steps)
    ensures var s := states[|states| - 1]; OpenSession(sha, true, s, d) == (s, ResumeRefused)
  {
    hide Valid, Inv, IsStep, Standing, OpenSession, Resumes;
    states, steps := StandingRun(sha, d, k);
    var s, n := states[|states| - 1], |states|;
    RunInv(sha, true, states, steps, n - 1);
    states, steps := ExtendedRun(sha, true, states, steps, Release);
    ReleasedResumes(sha, s, d, k, states[n]);
    SessionOpensIff(sha, true, states, steps, n, d);
  }
}
