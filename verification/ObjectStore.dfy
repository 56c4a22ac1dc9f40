/**
  The destination's object store (src/object_store.cpp): placed bytes, write-once
  commit markers, promotion out of staging, cleanup, and what an authority report
  vouches for.
 */
module ObjectStore {
  import opened Types
  import opened StateObject
  import Staging

  datatype Version = Version(objectId: Digest, generation: u64)

  function VersionOf(d: Descriptor): Version {
    Version(d.objectId, d.generation)
  }

  /** A marker's content digest and byte count are those of its descriptor. */
  datatype Marker = Marker(movement: Id16, descriptor: Descriptor, seal: Digest)

  /**
    What a marker file holds. `Unread` is a file that reading a marker refuses; it may
    still decode as far as the seal, which is all that writing a marker looks at.
   */
  datatype MarkerFile = Whole(marker: Marker) | Unread(seal: Option<Digest>)

  datatype Store = Store(
    staging: map<Id16, Staging.State>, objects: map<Version, Bytes>, markers: map<Version, MarkerFile>)

  const EMPTY := Store(map[], map[], map[])

  function StagingOf(s: Store, m: Id16): Staging.State {
    if m in s.staging then s.staging[m] else Staging.EMPTY
  }

  // ---- commit markers -------------------------------------------------------

  datatype MarkerOutcome = Written | Repeated | AlreadyExists

  /** The seal that a later write finds in the file. */
  function SealIn(file: MarkerFile): Option<Digest> {
    match file case Whole(marker) => Some(marker.seal) case Unread(seal) => seal
  }

  function MarkerVerdict(markers: map<Version, MarkerFile>, marker: Marker): MarkerOutcome {
    var v := VersionOf(marker.descriptor);
    if v !in markers || SealIn(markers[v]).None? then Written
    else if SealIn(markers[v]) == Some(marker.seal) then Repeated
    else AlreadyExists
  }

  /** `write_commit_marker`: only over a file that does not decode is a marker ever written again. */
  function WriteMarker(markers: map<Version, MarkerFile>, marker: Marker): map<Version, MarkerFile> {
    if MarkerVerdict(markers, marker).Written? then markers[VersionOf(marker.descriptor) := Whole(marker)] else markers
  }

  datatype Authority = Authority(markerPresent: bool, bytesPresent: bool, authoritative: bool, seal: Option<Digest>)

  /** `authority` looks at the marker and at the size of the bytes; it does not hash them. */
  function Report(s: Store, v: Version): Authority {
    if v !in s.markers || s.markers[v].Unread? then Authority(v in s.markers, v in s.objects, false, None)
    else
      var marker := s.markers[v].marker;
      var sized := v in s.objects && |s.objects[v]| == marker.descriptor.totalBytes;
      Authority(true, v in s.objects, sized, Some(marker.seal))
  }

  // ---- steps ----------------------------------------------------------------

  /** How far a promotion or a publication gets before it ends or the process dies. */
  datatype Reach = Cleared | Renamed | Finished

  /** How far a cleanup that removes placed objects gets: staging, then the bytes, then the marker. */
  datatype Removal = StagingGone | BytesGone | MarkerGone

  datatype Step =
    | Stage(m: Id16, step: Staging.Step)
    | Promote(m: Id16, reach: Reach)
    | Commit(marker: Marker)
    | Publish(marker: Marker, contents: Bytes, reach: Reach)
    | Cleanup(m: Id16, v: Version, extent: Removal)
    | Damage(v: Version, seal: Option<Digest>)

  /** The transfer's check before it promotes: the finished digest is the authorized one. */
  predicate Promotable(sha: HashFn, s: Staging.State) {
    && s.writer.Some? && s.writer.value.completed && s.staged.data.Some?
    && sha(s.writer.value.absorbed) == s.writer.value.journal.descriptor.contentDigest
  }

  /** `on_commit_request` re-hashes what is placed before it commits. */
  predicate Committable(sha: HashFn, s: Store, d: Descriptor) {
    var v := VersionOf(d);
    v in s.objects && sha(s.objects[v]) == d.contentDigest && |s.objects[v]| == d.totalBytes
  }

  predicate Enabled(sha: HashFn, allowResume: bool, s: Store, step: Step) {
    match step
    case Stage(m, inner) => Staging.Enabled(sha, allowResume, StagingOf(s, m), inner) && !inner.Rename?
    case Promote(m, _) => Promotable(sha, StagingOf(s, m))
    case Commit(marker) => Committable(sha, s, marker.descriptor)
    case Publish(marker, contents, _) =>
      sha(contents) == marker.descriptor.contentDigest && |contents| == marker.descriptor.totalBytes
    case Cleanup(_, _, _) => true
    case Damage(v, _) => v in s.markers
  }

  ghost predicate IsStep(sha: HashFn, allowResume: bool, s: Store, step: Step, s': Store) {
    && Enabled(sha, allowResume, s, step)
    && match step
       case Stage(m, inner) =>
         var before := StagingOf(s, m);
         && Staging.IsStep(sha, allowResume, before, inner, StagingOf(s', m))
         && s' == s.(staging := s.staging[m := StagingOf(s', m)])
       case Promote(m, reach) => s' == AfterPromote(s, m, reach)
       case Commit(marker) => s' == s.(markers := WriteMarker(s.markers, marker))
       case Publish(marker, contents, reach) => s' == AfterPublish(s, marker, contents, reach)
       case Cleanup(m, v, reach) => s' == AfterCleanup(s, m, v, reach)
       case Damage(v, seal) => s' == s.(markers := s.markers[v := Unread(seal)])
  }

  /** `cleanup` with `remove_placed`; moving into quarantine takes the same files out of place. */
  function AfterCleanup(s: Store, m: Id16, v: Version, reach: Removal): Store {
    var cleared := s.(staging := s.staging[m := Staging.EMPTY]);
    match reach
    case StagingGone => cleared
    case BytesGone => cleared.(objects := s.objects - {v})
    case MarkerGone => cleared.(objects := s.objects - {v}, markers := s.markers - {v})
  }

  function AfterPromote(s: Store, m: Id16, reach: Reach): Store
    requires var st := StagingOf(s, m); st.writer.Some? && st.staged.data.Some?
  {
    var st := StagingOf(s, m);
    var v := VersionOf(st.writer.value.journal.descriptor);
    match reach
    case Cleared => s.(objects := s.objects - {v}, staging := s.staging[m := st.(writer := None)])
    case Renamed =>
      s.(objects := s.objects[v := st.staged.data.value],
         staging := s.staging[m := st.(staged := st.staged.(data := None), writer := None, orphaned := true)])
    case Finished =>
      s.(objects := s.objects[v := st.staged.data.value], staging := s.staging[m := Staging.EMPTY])
  }

  /** Local publication: clear the place, rename the import into it, write a marker. */
  function AfterPublish(s: Store, marker: Marker, contents: Bytes, reach: Reach): Store {
    var v := VersionOf(marker.descriptor);
    match reach
    case Cleared => s.(objects := s.objects - {v})
    case Renamed => s.(objects := s.objects[v := contents])
    case Finished => s.(objects := s.objects[v := contents], markers := WriteMarker(s.markers, marker))
  }

  ghost predicate IsRun(sha: HashFn, allowResume: bool, states: seq<Store>, steps: seq<Step>) {
    && |states| == |steps| + 1 && states[0] == EMPTY
    && (forall i | 0 <= i < |steps| :: IsStep(sha, allowResume, states[i], steps[i], states[i + 1]))
  }

  // ---- one content digest per version ---------------------------------------

  type DigestOf = Version -> Digest

  predicate Agrees(of: DigestOf, d: Descriptor) {
    d.contentDigest == of(VersionOf(d))
  }

  /** The descriptor a step brings in, if any, carries its version's digest. */
  predicate StepAgrees(of: DigestOf, step: Step) {
    match step
    case Stage(_, Start(d)) => Agrees(of, d)
    case Commit(marker) => Agrees(of, marker.descriptor)
    case Publish(marker, _, _) => Agrees(of, marker.descriptor)
    case _ => true
  }

  predicate StagingAgrees(of: DigestOf, st: Staging.State) {
    && (st.writer.Some? ==> Agrees(of, st.writer.value.journal.descriptor))
    && (st.staged.journal.Some? ==> Agrees(of, st.staged.journal.value.descriptor))
  }

  ghost predicate Inv(sha: HashFn, of: DigestOf, s: Store) {
    && (forall m | m in s.staging :: Staging.Inv(sha, s.staging[m]) && StagingAgrees(of, s.staging[m]))
    && (forall v | v in s.objects :: sha(s.objects[v]) == of(v))
    && (forall v | v in s.markers && s.markers[v].Whole? :: MarkerAgrees(of, v, s.markers[v].marker))
  }

  predicate MarkerAgrees(of: DigestOf, v: Version, marker: Marker) {
    VersionOf(marker.descriptor) == v && Agrees(of, marker.descriptor)
  }

  lemma StagingKept(sha: HashFn, of: DigestOf, s: Store, m: Id16)
    requires Inv(sha, of, s)
    ensures Staging.Inv(sha, StagingOf(s, m)) && StagingAgrees(of, StagingOf(s, m))
  {
    Staging.EmptyInv(sha);
  }

  /** A staging step brings in no descriptor but the one it starts with. */
  lemma StageAgrees(
    sha: HashFn, allowResume: bool, of: DigestOf, st: Staging.State, step: Staging.Step, st': Staging.State)
    requires StagingAgrees(of, st) && Staging.IsStep(sha, allowResume, st, step, st')
    requires step.Start? ==> Agrees(of, step.d)
    ensures StagingAgrees(of, st')
  {
    hide Staging.Judge, Valid, Staging.Rehashes, ResumeCompatible, Staging.WriteAt;
  }

  /** The promoted bytes are what the finished digest was taken of. */
  lemma PromotedBytes(sha: HashFn, of: DigestOf, st: Staging.State)
    requires Staging.Inv(sha, st) && StagingAgrees(of, st) && Promotable(sha, st)
    ensures sha(st.staged.data.value) == of(VersionOf(st.writer.value.journal.descriptor))
  {
    hide Valid, Staging.Rehashes, Concat;
    var w := st.writer.value;
    PrefixEndsAtTotal(w.journal.descriptor);
    assert st.staged.data.value[..w.journal.bytes] == st.staged.data.value;
  }

  lemma StageInv(sha: HashFn, allowResume: bool, of: DigestOf, s: Store, m: Id16, step: Staging.Step, s': Store)
    requires Inv(sha, of, s) && IsStep(sha, allowResume, s, Stage(m, step), s') && StepAgrees(of, Stage(m, step))
    ensures Inv(sha, of, s')
  {
    hide Staging.Inv, Staging.IsStep, StagingAgrees;
    StagingKept(sha, of, s, m);
    var st, st' := StagingOf(s, m), StagingOf(s', m);
    StageAgrees(sha, allowResume, of, st, step, st');
    assert Staging.Inv(sha, st') by { StageStepInv(sha, allowResume, st, step, st'); }
  }

  lemma StageStepInv(sha: HashFn, allowResume: bool, st: Staging.State, step: Staging.Step, st': Staging.State)
    requires Staging.Inv(sha, st) && Staging.IsStep(sha, allowResume, st, step, st')
    ensures Staging.Inv(sha, st')
  {
    hide Staging.Inv, Staging.Apply, Staging.Enabled, Staging.Accepts;
    Staging.StepInv(sha, allowResume, st, step);
  }

  lemma PromoteInv(sha: HashFn, of: DigestOf, s: Store, m: Id16, reach: Reach)
    requires Inv(sha, of, s) && Promotable(sha, StagingOf(s, m))
    ensures Inv(sha, of, AfterPromote(s, m, reach))
  {
    StagingKept(sha, of, s, m);
    var st := StagingOf(s, m);
    PromotedBytes(sha, of, st);
    Staging.EmptyInv(sha);
    assert Staging.Inv(sha, st.(writer := None));
    assert Staging.Inv(sha, st.(staged := st.staged.(data := None), writer := None, orphaned := true));
    hide Staging.Inv;
  }

  lemma CommitInv(sha: HashFn, of: DigestOf, s: Store, marker: Marker)
    requires Inv(sha, of, s) && Agrees(of, marker.descriptor)
    ensures Inv(sha, of, s.(markers := WriteMarker(s.markers, marker)))
  {
    hide Staging.Inv, StagingAgrees;
  }

  lemma PublishInv(sha: HashFn, of: DigestOf, s: Store, marker: Marker, contents: Bytes, reach: Reach)
    requires Inv(sha, of, s) && Agrees(of, marker.descriptor) && sha(contents) == marker.descriptor.contentDigest
    ensures Inv(sha, of, AfterPublish(s, marker, contents, reach))
  {
    hide Staging.Inv, StagingAgrees, WriteMarker;
    var placed := s.(objects := s.objects[VersionOf(marker.descriptor) := contents]);
    assert Inv(sha, of, placed);
    CommitInv(sha, of, placed, marker);
  }

  lemma CleanupInv(sha: HashFn, of: DigestOf, s: Store, m: Id16, v: Version, extent: Removal)
    requires Inv(sha, of, s)
    ensures Inv(sha, of, AfterCleanup(s, m, v, extent))
  {
    Staging.EmptyInv(sha);
    hide Staging.Inv;
  }

  lemma DamageInv(sha: HashFn, of: DigestOf, s: Store, v: Version, seal: Option<Digest>)
    requires Inv(sha, of, s)
    ensures Inv(sha, of, s.(markers := s.markers[v := Unread(seal)]))
  {
    hide Staging.Inv, StagingAgrees;
  }

  lemma StepInv(sha: HashFn, allowResume: bool, of: DigestOf, s: Store, step: Step, s': Store)
    requires Inv(sha, of, s) && IsStep(sha, allowResume, s, step, s') && StepAgrees(of, step)
    ensures Inv(sha, of, s')
  {
    hide Inv, Staging.IsStep, Staging.Enabled, AfterPublish, AfterCleanup, AfterPromote, WriteMarker;
    match step
    case Stage(m, inner) => StageInv(sha, allowResume, of, s, m, inner, s');
    case Promote(m, reach) => PromoteInv(sha, of, s, m, reach);
    case Commit(marker) => CommitInv(sha, of, s, marker);
    case Publish(marker, contents, reach) => PublishInv(sha, of, s, marker, contents, reach);
    case Cleanup(m, v, extent) => CleanupInv(sha, of, s, m, v, extent);
    case Damage(v, seal) => DamageInv(sha, of, s, v, seal);
  }

  lemma {:induction false} RunInv(
    sha: HashFn, allowResume: bool, of: DigestOf, states: seq<Store>, steps: seq<Step>, n: nat)
    requires IsRun(sha, allowResume, states, steps) && n < |states|
    requires forall i | 0 <= i < n :: StepAgrees(of, steps[i])
    ensures Inv(sha, of, states[n])
  {
    hide IsStep, StepAgrees;
    if n > 0 {
      RunInv(sha, allowResume, of, states, steps, n - 1);
      StepInv(sha, allowResume, of, states[n - 1], steps[n - 1], states[n]);
    }
  }

  /**
    In every reachable destination store, with crashes anywhere inside staging,
    promotion, publication and cleanup, and with marker files damaged at any time:
    when all descriptors of a version carry one content digest, an authoritative report
    means that the placed bytes hash to the marker's content digest and are exactly as
    long as it says, although the report only looks at their length.
   */
  lemma AuthorityIsReal(
    sha: HashFn, allowResume: bool, of: DigestOf, states: seq<Store>, steps: seq<Step>, n: nat, v: Version)
    requires IsRun(sha, allowResume, states, steps) && n < |states|
    requires forall i | 0 <= i < n :: StepAgrees(of, steps[i])
    requires Report(states[n], v).authoritative
    ensures var s := states[n];
      && v in s.objects && v in s.markers && s.markers[v].Whole?
      && sha(s.objects[v]) == s.markers[v].marker.descriptor.contentDigest
      && |s.objects[v]| == s.markers[v].marker.descriptor.totalBytes
  {
    hide IsRun, Staging.Inv;
    RunInv(sha, allowResume, of, states, steps, n);
  }

  /**
    The assumption is needed: publish two contents of one length under one version, and
    the report still calls the first marker authoritative over the second's bytes.
   */
  lemma TwoDigests(sha: HashFn, allowResume: bool, first: Marker, a: Bytes, second: Marker, b: Bytes)
    returns (states: seq<Store>, steps: seq<Step>)
    requires sha(a) == first.descriptor.contentDigest && |a| == first.descriptor.totalBytes
    requires sha(b) == second.descriptor.contentDigest && |b| == second.descriptor.totalBytes
    requires VersionOf(first.descriptor) == VersionOf(second.descriptor)
    requires |a| == |b| && sha(a) != sha(b)
    ensures steps == [Publish(first, a, Finished), Publish(second, b, Finished)]
    ensures IsRun(sha, allowResume, states, steps)
    ensures var s, v := states[2], VersionOf(first.descriptor);
      && Report(s, v).authoritative && v in s.objects && v in s.markers && s.markers[v].Whole?
      && sha(s.objects[v]) != s.markers[v].marker.descriptor.contentDigest
  {
    var s1 := AfterPublish(EMPTY, first, a, Finished);
    var s2 := AfterPublish(s1, second, b, Finished);
    states, steps := [EMPTY, s1, s2], [Publish(first, a, Finished), Publish(second, b, Finished)];
    assert IsStep(sha, allowResume, EMPTY, steps[0], s1) && IsStep(sha, allowResume, s1, steps[1], s2);
  }

  /** The only steps that take a readable marker away: the end of a cleanup, and damage to its file. */
  predicate Takes(step: Step, v: Version) {
    (step.Cleanup? && step.v == v && step.extent.MarkerGone?) || (step.Damage? && step.v == v)
  }

  lemma MarkerStep(sha: HashFn, allowResume: bool, s: Store, step: Step, s': Store, v: Version)
    requires IsStep(sha, allowResume, s, step, s') && v in s.markers && s.markers[v].Whole?
    ensures v in s'.markers && s'.markers[v] == s.markers[v] <==> !Takes(step, v)
    ensures Takes(step, v) || (step.Cleanup? && step.v == v && step.extent.BytesGone?) ==> !Report(s', v).authoritative
  {
    hide Staging.IsStep, Staging.Enabled, Promotable;
  }

  /**
    A readable marker is write-once: over every stretch of every run it stays in place
    unchanged, through repeats, second commits, republication and unfinished cleanups,
    unless a cleanup that removes placed objects got to it or its file was damaged.
   */
  lemma {:induction false} MarkerStands(
    sha: HashFn, allowResume: bool, states: seq<Store>, steps: seq<Step>, i: nat, j: nat, v: Version)
    requires IsRun(sha, allowResume, states, steps) && i <= j < |states|
    requires v in states[i].markers && states[i].markers[v].Whole?
    requires forall k | i <= k < j :: !Takes(steps[k], v)
    ensures v in states[j].markers && states[j].markers[v] == states[i].markers[v]
    decreases j
  {
    hide IsStep, Takes;
    if i < j {
      MarkerStands(sha, allowResume, states, steps, i, j - 1, v);
      MarkerStep(sha, allowResume, states[j - 1], steps[j - 1], states[j], v);
    }
  }

  /** A step that can bring bytes into a place. */
  predicate Places(s: Store, step: Step, v: Version) {
    || (step.Publish? && VersionOf(step.marker.descriptor) == v)
    || (step.Promote? && var st := StagingOf(s, step.m);
        st.writer.Some? && VersionOf(st.writer.value.journal.descriptor) == v)
  }

  lemma EmptyPlaceStep(sha: HashFn, allowResume: bool, s: Store, step: Step, s': Store, v: Version)
    requires IsStep(sha, allowResume, s, step, s') && !Places(s, step, v)
    requires v !in s.objects || (step.Cleanup? && step.v == v && !step.extent.StagingGone?)
    ensures v !in s'.objects
  {
    hide Staging.IsStep, Staging.Enabled, WriteMarker;
  }

  /**
    Cleanup takes authority away at once, before it reaches the marker, and nothing brings
    it back but another promotion or publication of that version.
   */
  lemma {:induction false} CleanedStaysCleaned(
    sha: HashFn, allowResume: bool, states: seq<Store>, steps: seq<Step>, i: nat, j: nat, v: Version)
    requires IsRun(sha, allowResume, states, steps) && i < j < |states|
    requires steps[i].Cleanup? && steps[i].v == v && !steps[i].extent.StagingGone?
    requires forall k | i < k < j :: !Places(states[k], steps[k], v)
    ensures v !in states[j].objects && !Report(states[j], v).authoritative
    decreases j
  {
    hide IsStep, Places;
    if i < j - 1 { CleanedStaysCleaned(sha, allowResume, states, steps, i, j - 1, v); }
    assert !Places(states[j - 1], steps[j - 1], v) by { if i == j - 1 { NoPlace(states[i], steps[i], v); } }
    EmptyPlaceStep(sha, allowResume, states[j - 1], steps[j - 1], states[j], v);
  }

  lemma NoPlace(s: Store, step: Step, v: Version)
    requires step.Cleanup?
    ensures !Places(s, step, v)
  {
  }

  // ---- what a commit that is not refused vouches for --------------------------

  /** The version's file carries the marker's seal but does not read back as a marker. */
  predicate Shadowed(s: Store, marker: Marker) {
    var v := VersionOf(marker.descriptor);
    v in s.markers && s.markers[v] == Unread(Some(marker.seal))
  }

  /** The version's marker has the same seal and another length. */
  predicate Resized(s: Store, marker: Marker) {
    var v := VersionOf(marker.descriptor);
    && v in s.markers && s.markers[v].Whole? && s.markers[v].marker.seal == marker.seal
    && s.markers[v].marker.descriptor.totalBytes != marker.descriptor.totalBytes
  }

  predicate Granted(s: Store, marker: Marker) {
    var report := Report(s, VersionOf(marker.descriptor));
    report.authoritative && report.seal == Some(marker.seal)
  }

  lemma CommitStepGrants(sha: HashFn, allowResume: bool, s: Store, marker: Marker, s': Store)
    requires IsStep(sha, allowResume, s, Commit(marker), s') && !MarkerVerdict(s.markers, marker).AlreadyExists?
    ensures Granted(s', marker) <==> !Shadowed(s, marker) && !Resized(s, marker)
  {
  }

  /** Before step `n` the file of `v` was damaged so that it still shows `seal`, and it was not touched since. */
  ghost predicate DamagedTo(steps: seq<Step>, n: nat, v: Version, seal: Digest)
    requires n <= |steps|
  {
    exists k | 0 <= k < n :: steps[k] == Damage(v, Some(seal)) && Untouched(steps, k, n, v)
  }

  ghost predicate Untouched(steps: seq<Step>, k: nat, n: nat, v: Version)
    requires n <= |steps|
  {
    forall j | k < j < n :: !Takes(steps[j], v)
  }

  lemma ShadowStep(sha: HashFn, allowResume: bool, s: Store, step: Step, s': Store, v: Version, seal: Digest)
    requires IsStep(sha, allowResume, s, step, s')
    ensures v in s'.markers && s'.markers[v] == Unread(Some(seal)) <==>
      step == Damage(v, Some(seal)) ||
      (!Takes(step, v) && v in s.markers && s.markers[v] == Unread(Some(seal)))
  {
    hide Staging.IsStep, Staging.Enabled, Promotable;
  }

  lemma {:induction false} ShadowedIff(
    sha: HashFn, allowResume: bool, states: seq<Store>, steps: seq<Step>, n: nat, v: Version, seal: Digest)
    requires IsRun(sha, allowResume, states, steps) && n < |states|
    ensures v in states[n].markers && states[n].markers[v] == Unread(Some(seal)) <==> DamagedTo(steps, n, v, seal)
  {
    hide IsStep, Takes;
    if n > 0 {
      ShadowedIff(sha, allowResume, states, steps, n - 1, v, seal);
      ShadowStep(sha, allowResume, states[n - 1], steps[n - 1], states[n], v, seal);
      DamagedSnoc(steps, n - 1, v, seal);
    }
  }

  lemma DamagedSnoc(steps: seq<Step>, n: nat, v: Version, seal: Digest)
    requires n < |steps|
    ensures DamagedTo(steps, n + 1, v, seal) <==>
      steps[n] == Damage(v, Some(seal)) || (!Takes(steps[n], v) && DamagedTo(steps, n, v, seal))
  {
    if steps[n] == Damage(v, Some(seal)) {
      assert Untouched(steps, n, n + 1, v);
    } else if DamagedTo(steps, n + 1, v, seal) {
      var k :| 0 <= k < n + 1 && steps[k] == Damage(v, Some(seal)) && Untouched(steps, k, n + 1, v);
      assert Untouched(steps, k, n, v) && !Takes(steps[n], v);
    } else if !Takes(steps[n], v) && DamagedTo(steps, n, v, seal) {
      var k :| 0 <= k < n && steps[k] == Damage(v, Some(seal)) && Untouched(steps, k, n, v);
      assert Untouched(steps, k, n + 1, v);
    }
  }

  /**
    In every run: a commit that is not refused leaves an authoritative version under the
    commit's own seal, if and only if the marker file was not damaged in a way that still
    shows that seal, and no marker of another length carries it.
   */
  lemma CommitGrantsIff(sha: HashFn, allowResume: bool, states: seq<Store>, steps: seq<Step>, n: nat, marker: Marker)
    requires IsRun(sha, allowResume, states, steps) && n < |steps| && steps[n] == Commit(marker)
    requires !MarkerVerdict(states[n].markers, marker).AlreadyExists?
    ensures Granted(states[n + 1], marker) <==>
      !DamagedTo(steps, n, VersionOf(marker.descriptor), marker.seal) && !Resized(states[n], marker)
  {
    hide Granted, Resized, DamagedTo;
    assert IsStep(sha, allowResume, states[n], steps[n], states[n + 1]);
    CommitStepGrants(sha, allowResume, states[n], marker, states[n + 1]);
    ShadowedIff(sha, allowResume, states, steps, n, VersionOf(marker.descriptor), marker.seal);
  }

  /**
    The first case at work: the commit is told that its marker is already there, and the
    version has no authority.
   */
  lemma RepeatedWithoutAuthority(sha: HashFn, allowResume: bool, marker: Marker, contents: Bytes)
    returns (states: seq<Store>, steps: seq<Step>)
    requires sha(contents) == marker.descriptor.contentDigest && |contents| == marker.descriptor.totalBytes
    ensures var v := VersionOf(marker.descriptor);
      steps == [Publish(marker, contents, Finished), Damage(v, Some(marker.seal)), Commit(marker)]
    ensures IsRun(sha, allowResume, states, steps)
    ensures MarkerVerdict(states[2].markers, marker).Repeated?
    ensures !Report(states[3], VersionOf(marker.descriptor)).authoritative
  {
    var v := VersionOf(marker.descriptor);
    var s1 := AfterPublish(EMPTY, marker, contents, Finished);
    var s2 := s1.(markers := s1.markers[v := Unread(Some(marker.seal))]);
    steps := [Publish(marker, contents, Finished), Damage(v, Some(marker.seal)), Commit(marker)];
    states := [EMPTY, s1, s2, s2];
    assert IsStep(sha, allowResume, EMPTY, steps[0], s1) && IsStep(sha, allowResume, s1, steps[1], s2);
    assert IsStep(sha, allowResume, s2, steps[2], s2);
  }

  // ---- what a report says -------------------------------------------------------

  /**
    For every store: a marker is reported present exactly when its file is there, readable or
    not; bytes exactly when they are placed; the seal is the readable marker's; and the version
    is authoritative exactly when its marker is readable and the placed bytes have its length.
   */
  lemma ReportIs(s: Store, v: Version)
    ensures var report, readable := Report(s, v), v in s.markers && s.markers[v].Whole?;
      && (report.markerPresent <==> v in s.markers)
      && (report.bytesPresent <==> v in s.objects)
      && report.seal == (if readable then Some(s.markers[v].marker.seal) else None)
      && (report.authoritative <==>
          readable && v in s.objects && |s.objects[v]| == s.markers[v].marker.descriptor.totalBytes)
  {
  }

  predicate RemovesMarker(step: Step, v: Version) {
    step.Cleanup? && step.v == v && step.extent.MarkerGone?
  }

  lemma PresentStep(sha: HashFn, allowResume: bool, s: Store, step: Step, s': Store, v: Version)
    requires IsStep(sha, allowResume, s, step, s') && !RemovesMarker(step, v)
    requires v in s.markers || (step.Commit? && VersionOf(step.marker.descriptor) == v)
    ensures v in s'.markers
  {
    hide Staging.IsStep, Staging.Enabled;
  }

  /** In every run a version is reported present from a commit request on, until a cleanup removes its marker. */
  lemma {:induction false} PresentUntilRemoved(
    sha: HashFn, allowResume: bool, states: seq<Store>, steps: seq<Step>, i: nat, j: nat, v: Version)
    requires IsRun(sha, allowResume, states, steps) && i < j < |states|
    requires steps[i].Commit? && VersionOf(steps[i].marker.descriptor) == v
    requires forall k | i < k < j :: !RemovesMarker(steps[k], v)
    ensures Report(states[j], v).markerPresent
    decreases j
  {
    hide IsStep;
    if i < j - 1 {
      PresentUntilRemoved(sha, allowResume, states, steps, i, j - 1, v);
      ReportIs(states[j - 1], v);
    }
    PresentStep(sha, allowResume, states[j - 1], steps[j - 1], states[j], v);
    ReportIs(states[j], v);
  }

  // ---- what the steps place and remove --------------------------------------------

  /** Everything about other versions is as it was. */
  ghost predicate OtherVersionsKept(s: Store, s': Store, v: Version) {
    forall x: Version | x != v ::
      && (x in s'.objects <==> x in s.objects) && (x in s.objects ==> s'.objects[x] == s.objects[x])
      && (x in s'.markers <==> x in s.markers) && (x in s.markers ==> s'.markers[x] == s.markers[x])
  }

  /** A finished promotion places exactly the chunks that were accepted, and leaves nothing staged. */
  lemma PromotionPlaces(sha: HashFn, of: DigestOf, s: Store, m: Id16)
    requires Inv(sha, of, s) && Promotable(sha, StagingOf(s, m))
    ensures var st, s' := StagingOf(s, m), AfterPromote(s, m, Finished);
      var d := st.writer.value.journal.descriptor;
      && VersionOf(d) in s'.objects && s'.objects[VersionOf(d)] == Concat(st.accepted)
      && |Concat(st.accepted)| == d.totalBytes && sha(Concat(st.accepted)) == d.contentDigest
      && OtherVersionsKept(s, s', VersionOf(d)) && s'.markers == s.markers
      && StagingOf(s', m) == Staging.EMPTY && (forall x | x != m :: StagingOf(s', x) == StagingOf(s, x))
  {
    StagingKept(sha, of, s, m);
    hide Valid, Staging.Rehashes, Concat, Inv;
    var st := StagingOf(s, m);
    PrefixEndsAtTotal(st.writer.value.journal.descriptor);
    assert st.staged.data.value[..st.writer.value.journal.bytes] == st.staged.data.value;
  }

  /** A finished publication places its contents, and writes its marker unless one is there that decodes. */
  lemma PublicationPlaces(s: Store, marker: Marker, contents: Bytes)
    ensures var s', v := AfterPublish(s, marker, contents, Finished), VersionOf(marker.descriptor);
      && v in s'.objects && s'.objects[v] == contents && v in s'.markers
      && s'.markers[v] == (if v in s.markers && SealIn(s.markers[v]).Some? then s.markers[v] else Whole(marker))
      && OtherVersionsKept(s, s', v) && s'.staging == s.staging
  {
  }

  /** A whole cleanup leaves nothing of its version and its movement's staging, and everything else. */
  lemma CleanupRemoves(s: Store, m: Id16, v: Version)
    ensures var s' := AfterCleanup(s, m, v, MarkerGone);
      && v !in s'.objects && v !in s'.markers && OtherVersionsKept(s, s', v)
      && StagingOf(s', m) == Staging.EMPTY && (forall x | x != m :: StagingOf(s', x) == StagingOf(s, x))
  {
  }
}
