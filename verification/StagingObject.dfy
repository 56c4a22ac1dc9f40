/**
  The object store and the staging writer as objects (src/object_store.cpp), each
  method tied to the functions the results about runs are stated for. Files are byte
  sequences in the store's maps; the running hash is the bytes it has absorbed.
 */
module StagingObject {
  import opened Types
  import opened StateObject
  import Staging
  import Spec = ObjectStore

  class ObjectStore {
    const sha: HashFn
    const allowResume: bool
    var staging: map<Id16, Staging.Staged>
    var objects: map<Spec.Version, Bytes>
    var markers: map<Spec.Version, Spec.MarkerFile>

    constructor (sha: HashFn, allowResume: bool)
      ensures this.sha == sha && this.allowResume == allowResume
      ensures staging == map[] && objects == map[] && markers == map[]
    {
      this.sha, this.allowResume := sha, allowResume;
      staging, objects, markers := map[], map[], map[];
    }

    function StagedOf(m: Id16): Staging.Staged
      reads this
    {
      if m in staging then staging[m] else Staging.NOTHING
    }

    /** `write_commit_marker` for a sealed, valid marker. */
    method WriteCommitMarker(marker: Spec.Marker) returns (outcome: Spec.MarkerOutcome)
      modifies `markers
      ensures outcome == Spec.MarkerVerdict(old(markers), marker)
      ensures markers == Spec.WriteMarker(old(markers), marker)
    {
      var v := Spec.VersionOf(marker.descriptor);
      if v in markers {
        var decoded := Spec.SealIn(markers[v]);
        if decoded.Some? {
          return if decoded.value == marker.seal then Spec.Repeated else Spec.AlreadyExists;
        }
      }
      markers := markers[v := Spec.Whole(marker)];
      return Spec.Written;
    }

    /** `authority` */
    method Authority(v: Spec.Version) returns (report: Spec.Authority)
      ensures report == Spec.Report(Spec.Store(map[], objects, markers), v)
    {
      var bytesPresent := v in objects;
      if v !in markers { return Spec.Authority(false, bytesPresent, false, None); }
      if markers[v].Unread? { return Spec.Authority(true, bytesPresent, false, None); }
      var marker := markers[v].marker;
      var stored := if bytesPresent then |objects[v]| else 0;
      if !bytesPresent || stored != marker.descriptor.totalBytes {
        return Spec.Authority(true, bytesPresent, false, Some(marker.seal));
      }
      return Spec.Authority(true, true, true, Some(marker.seal));
    }

    /** `promote_staging`: clear the place, rename, remove the staging directory. */
    method PromoteStaging(m: Id16, d: Descriptor) returns (ok: bool)
      modifies `staging, `objects
      ensures ok <==> old(StagedOf(m)).data.Some?
      ensures !ok ==> staging == old(staging) && objects == old(objects)
      ensures ok ==>
        && objects == old(objects)[Spec.VersionOf(d) := old(StagedOf(m)).data.value]
        && staging == old(staging) - {m}
    {
      if m !in staging || staging[m].data.None? { return false; }
      var v, bytes := Spec.VersionOf(d), staging[m].data.value;
      if v in objects { objects := objects - {v}; }
      objects := objects[v := bytes];
      staging := staging - {m};
      assert objects == old(objects)[v := bytes];
      return true;
    }

    /** `cleanup`: the staging directory and, when asked, the placed bytes and then the marker. */
    method Cleanup(m: Id16, v: Spec.Version, removePlaced: bool)
      modifies this
      ensures StagedOf(m) == Staging.NOTHING && staging == old(staging) - {m}
      ensures objects == if removePlaced then old(objects) - {v} else old(objects)
      ensures markers == if removePlaced then old(markers) - {v} else old(markers)
      ensures removePlaced ==>
        Spec.Report(Spec.Store(map[], objects, markers), v) == Spec.Authority(false, false, false, None)
    {
      var marked := v in markers;
      if m in staging { staging := staging - {m}; }
      if removePlaced {
        if v in objects { objects := objects - {v}; }
        if marked { markers := markers - {v}; }
      }
    }
  }

  class StagingWriter {
    const store: ObjectStore
    const movement: Id16
    var journal: Staging.Journal
    var absorbed: Bytes
    var journaling: bool
    var isOpen: bool
    var completed: bool
    var finalized: bool

    constructor (store: ObjectStore, movement: Id16, journal: Staging.Journal, absorbed: Bytes, journaling: bool)
      ensures this.store == store && this.movement == movement && !finalized
      ensures View() == Staging.Writer(journal, absorbed, journaling, true, false)
    {
      this.store, this.movement := store, movement;
      this.journal, this.absorbed, this.journaling := journal, absorbed, journaling;
      isOpen, completed, finalized := true, false, false;
    }

    ghost function View(): Staging.Writer
      reads this
    {
      Staging.Writer(journal, absorbed, journaling, isOpen, completed)
    }

    /** The journal's byte count is where its chunks end. */
    ghost predicate Accounted()
      reads this
    {
      ValidSegmentation(journal.descriptor) && journal.chunks <= journal.descriptor.chunkCount &&
      journal.bytes == PrefixEnd(journal.descriptor, journal.chunks)
    }

    /** Re-read the journalled prefix and hash it again, chunk by chunk. */
    static method Rehash(sha: HashFn, d: Descriptor, j: Staging.Journal, data: Bytes)
      returns (ok: bool, absorbed: Bytes)
      requires Valid(sha, d) && Staging.ValidJournal(sha, j) && ResumeCompatible(d, j.descriptor)
      ensures ok <==> |data| >= j.bytes && Staging.Rehashes(sha, d, data, j.digests)
      ensures ok ==> absorbed == data[..j.bytes]
    {
      absorbed := [];
      if |data| < j.bytes { return false, absorbed; }
      var index: u32, offset: nat := 0, 0;
      PrefixEndsAtTotal(d);
      while index < j.chunks
        invariant index <= j.chunks && offset == PrefixEnd(d, index) <= |data|
        invariant absorbed == data[..offset]
        invariant Staging.Rehashes(sha, d, data, j.digests[..index])
      {
        hide Valid, ChunkDigest, Staging.Rehashes;
        Staging.ValidSegments(sha, d);
        ChunkIsPrefixStep(d, index);
        PrefixEndMonotone(d, index + 1, j.chunks);
        var length := ChunkLength(d, index).value;
        var buffer := data[offset..offset + length];
        var matches := ChunkDigest(sha, d, index, offset, buffer) == j.digests[index];
        assert matches <==> Staging.SlotMatches(sha, d, data, index, j.digests[index]);
        if !matches {
          Unmatched(sha, d, data, j.digests, index);
          return false, absorbed;
        }
        assert j.digests[..index + 1] == j.digests[..index] + [j.digests[index]];
        Staging.RehashSnoc(sha, d, data, j.digests[..index], j.digests[index]);
        SliceJoin(data, offset, offset + length);
        absorbed := absorbed + buffer;
        offset := offset + length;
        index := index + 1;
      }
      assert j.digests[..index] == j.digests;
      return true, absorbed;
    }

    static lemma Unmatched(sha: HashFn, d: Descriptor, data: Bytes, digests: seq<Digest>, i: u32)
      requires |digests| < U32_LIMIT && i < |digests| && !Staging.SlotMatches(sha, d, data, i, digests[i])
      ensures !Staging.Rehashes(sha, d, data, digests)
    {
    }

    /** `begin`: resume a compatible journalled prefix that still hashes, otherwise start clean, or refuse. */
    static method Begin(store: ObjectStore, m: Id16, d: Descriptor) returns (writer: StagingWriter?)
      modifies store`staging
      ensures var (staged, w) := Staging.Begin(store.sha, store.allowResume, old(store.StagedOf(m)), d);
        && (Valid(store.sha, d) ==> store.staging == old(store.staging)[m := staged])
        && (!Valid(store.sha, d) ==> store.staging == old(store.staging))
        && (writer == null <==> w.None?)
        && (writer != null ==>
            && fresh(writer) && writer.store == store && writer.movement == m
            && !writer.finalized && writer.Accounted() && Some(writer.View()) == w)
    {
      var sha := store.sha;
      if !Valid(sha, d) { return null; }
      var staged := store.StagedOf(m);
      var journaling := store.allowResume && d.chunkCount <= Staging.MAX_JOURNAL_CHUNKS;
      if Staging.Resumes(sha, store.allowResume, staged, d) {
        Staging.ValidSegments(sha, staged.journal.value.descriptor);
        hide Valid, Staging.Rehashes;
        var j, data := staged.journal.value, Staging.Contents(staged);
        store.staging := store.staging[m := staged.(data := Some(data))];
        var ok, absorbed := Rehash(sha, d, j, data);
        if !ok { return null; }
        writer := new StagingWriter(store, m, j, absorbed, true);
      } else {
        PrefixEndsAtTotal(d);
        var journal := Staging.Fresh(d);
        store.staging := store.staging[m := Staging.Staged(Some([]), if journaling then Some(journal) else None)];
        writer := new StagingWriter(store, m, journal, [], journaling);
      }
    }

    /** `append`: stages the next chunk, lets an exact duplicate pass, refuses everything else unchanged. */
    method Append(index: u32, offset: u64, payload: Bytes, digest: Digest) returns (verdict: Staging.Verdict)
      requires Accounted()
      modifies this, store`staging
      ensures verdict ==
        Staging.Judge(store.sha, old(store.StagedOf(movement)), old(View()), index, offset, payload, digest)
      ensures !verdict.Accepted? ==> store.staging == old(store.staging) && View() == old(View())
      ensures Accounted()
      ensures verdict.Accepted? ==>
        && old(journal.chunks) + 1 < U32_LIMIT && old(journal.bytes) + |payload| < U64_LIMIT
        && View() == Staging.Extended(old(View()), payload, digest)
        && var before := old(store.StagedOf(movement));
           store.staging == old(store.staging)[movement := Staging.Staged(
             Some(Staging.WriteAt(before.data.value, offset, payload)),
             if journaling then Some(journal) else before.journal)]
      ensures finalized == old(finalized)
    {
      hide ChunkDigest, ChunkOffset, ChunkLength, Staging.WriteAt;
      var sha, d, staged := store.sha, journal.descriptor, store.StagedOf(movement);
      if !isOpen || staged.data.None? { return Staging.NotOpen; }
      var data := staged.data.value;
      if index >= d.chunkCount { return Staging.OutOfRange; }
      if ChunkOffset(d, index) != Some(offset) { return Staging.WrongOffset; }
      if ChunkLength(d, index) != Some(|payload|) { return Staging.WrongLength; }
      if ChunkDigest(sha, d, index, offset, payload) != digest { return Staging.WrongDigest; }
      if index < journal.chunks {
        if journaling && (index >= |journal.digests| || journal.digests[index] != digest) { return Staging.Conflict; }
        if offset + |payload| > |data| { return Staging.Conflict; }
        var stored := data[offset..offset + |payload|];
        if ChunkDigest(sha, d, index, offset, stored) != digest { return Staging.Conflict; }
        return Staging.Duplicate;
      }
      if index != journal.chunks { return Staging.OutOfOrder; }
      ChunkIsPrefixStep(d, index);
      PrefixEndMonotone(d, index, index + 1);
      store.staging := store.staging[movement := staged.(data := Some(Staging.WriteAt(data, offset, payload)))];
      absorbed := absorbed + payload;
      var digests := if journaling then journal.digests + [digest] else journal.digests;
      journal := Staging.Journal(d, journal.chunks + 1, journal.bytes + |payload|, digests);
      if journaling {
        store.staging := store.staging[movement := store.staging[movement].(journal := Some(journal))];
      }
      return Staging.Accepted;
    }

    method Finish() returns (digest: Option<Digest>)
      modifies this
      ensures (View(), digest) == Staging.Finish(store.sha, old(View())) && finalized == old(finalized)
      ensures old(Accounted()) ==> Accounted()
    {
      if !isOpen || journal.chunks != journal.descriptor.chunkCount || journal.bytes != journal.descriptor.totalBytes {
        return None;
      }
      isOpen, completed := false, true;
      return Some(store.sha(absorbed));
    }

    method Promote() returns (ok: bool)
      modifies this, store`staging, store`objects
      ensures ok <==> old(completed) && old(store.StagedOf(movement)).data.Some?
      ensures !ok ==> store.staging == old(store.staging) && store.objects == old(store.objects)
      ensures ok ==>
        && store.objects ==
           old(store.objects)[Spec.VersionOf(journal.descriptor) := old(store.StagedOf(movement)).data.value]
        && store.staging == old(store.staging) - {movement} && finalized
      ensures View() == old(View())
    {
      if !completed { return false; }
      ok := store.PromoteStaging(movement, journal.descriptor);
      if ok { finalized := true; }
    }

    method Abort()
      modifies this
      ensures View() == old(View()).(open := false) && finalized == old(finalized)
    {
      isOpen := false;
    }
  }
}
