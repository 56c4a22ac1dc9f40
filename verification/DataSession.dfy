/**
  The peer-to-peer data session (src/endpoint_agent.cpp): the source serves chunks and
  waits for an acknowledgement after every full window of its own, the destination
  stages chunks and acknowledges every full window of its own. The two windows come
  from two configurations and are not negotiated.

  The two sides run concurrently over a FIFO connection; a step is one send or receive.
 */
module DataSession {
  import opened Types
  import StateObject

  /** `chunks` are the object's chunks in order; `ws` and `wd` the source's and the destination's window. */
  datatype Config = Config(chunks: seq<Bytes>, ws: nat, wd: nat)

  predicate ValidConfig(c: Config) {
    c.ws > 0 && c.wd > 0
  }

  datatype Frame = Chunk(index: nat, payload: Bytes) | End | Abort
  datatype Answer = Ack | Result

  datatype Source = Sending | WaitAck | WaitResult | Served | SourceFailed
  datatype Destination = Receiving | Stored | DestinationFailed

  /** `data` flows to the destination, `back` to the source; `taken` counts acknowledgements consumed. */
  datatype Session = Session(
    source: Source, sent: nat, taken: nat,
    data: seq<Frame>, back: seq<Answer>,
    destination: Destination, staged: seq<Bytes>, sinceAck: nat)

  const START := Session(Sending, 0, 0, [], [], Receiving, [], 0)

  /**
    The connection breaks for one side at a time. What the broken side had sent arrives as
    far as `kept`; the other side goes on until it notices, which is a break of its own.
   */
  datatype Step =
    | SendChunk | TakeAck | SendEnd | TakeResult | Receive | Cancel
    | SourceBreaks(kept: nat) | DestinationBreaks(kept: nat)

  predicate Enabled(c: Config, s: Session, step: Step) {
    match step
    case SendChunk => s.source.Sending? && s.sent < |c.chunks|
    case TakeAck => s.source.WaitAck? && s.back != []
    case SendEnd => s.source.Sending? && s.sent == |c.chunks|
    case TakeResult => s.source.WaitResult? && s.back != []
    case Receive => s.destination.Receiving? && s.data != []
    case Cancel => s.source.Sending?
    case SourceBreaks(kept) => !s.source.Served? && kept <= |s.data|
    case DestinationBreaks(kept) => kept <= |s.back|
  }

  /** `append` stages a chunk only in its turn; a full window is acknowledged. */
  function Staging(c: Config, s: Session, index: nat, payload: Bytes): Session
    requires ValidConfig(c) && s.data != []
  {
    var rest := s.(data := s.data[1..]);
    if index != |s.staged| then rest.(destination := DestinationFailed)
    else
      var full := s.sinceAck + 1 >= c.wd;
      rest.(staged := s.staged + [payload],
            sinceAck := if full then 0 else s.sinceAck + 1,
            back := if full then s.back + [Ack] else s.back)
  }

  function Apply(c: Config, s: Session, step: Step): Session
    requires ValidConfig(c) && Enabled(c, s, step)
  {
    match step
    case SendChunk =>
      s.(data := s.data + [Chunk(s.sent, c.chunks[s.sent])], sent := s.sent + 1,
         source := if (s.sent + 1) % c.ws == 0 then WaitAck else Sending)
    case TakeAck =>
      if s.back[0].Ack? then s.(back := s.back[1..], taken := s.taken + 1, source := Sending)
      else s.(source := SourceFailed)
    case SendEnd => s.(data := s.data + [End], source := WaitResult)
    case TakeResult =>
      if s.back[0].Result? then s.(back := s.back[1..], source := Served) else s.(source := SourceFailed)
    case Receive =>
      (match s.data[0]
       case Chunk(index, payload) => Staging(c, s, index, payload)
       case End => s.(data := s.data[1..], destination := Stored, back := s.back + [Result])
       case Abort => s.(data := s.data[1..], destination := DestinationFailed))
    case Cancel => s.(data := s.data + [Abort], source := SourceFailed)
    case SourceBreaks(kept) => s.(source := SourceFailed, data := s.data[..kept])
    case DestinationBreaks(kept) =>
      s.(destination := if s.destination.Stored? then Stored else DestinationFailed, back := s.back[..kept])
  }

  predicate Fault(step: Step) {
    step.Cancel? || step.SourceBreaks? || step.DestinationBreaks?
  }

  ghost predicate IsStep(c: Config, s: Session, step: Step, s': Session)
    requires ValidConfig(c)
  {
    Enabled(c, s, step) && s' == Apply(c, s, step)
  }

  ghost predicate IsRun(c: Config, states: seq<Session>, steps: seq<Step>)
    requires ValidConfig(c)
  {
    && |states| == |steps| + 1 && states[0] == START
    && (forall i | 0 <= i < |steps| :: IsStep(c, states[i], steps[i], states[i + 1]))
  }

  ghost predicate FaultFree(steps: seq<Step>) {
    forall i | 0 <= i < |steps| :: !Fault(steps[i])
  }

  // ---- what is staged is what was served ------------------------------------

  /**
    The frames in flight are the next chunks in order, then at most one closing frame; a
    source that breaks loses the last of them.
   */
  ghost predicate InOrder(c: Config, s: Session) {
    && |s.staged| <= s.sent <= |c.chunks|
    && s.staged == c.chunks[..|s.staged|]
    && (s.destination.Receiving? ==>
        && (!s.source.SourceFailed? ==> |s.staged| + |s.data| >= s.sent)
        && |s.data| <= s.sent - |s.staged| + 1
        && (forall i | 0 <= i < s.sent - |s.staged| && i < |s.data| ::
              s.data[i] == Chunk(|s.staged| + i, c.chunks[|s.staged| + i]))
        && (|s.data| > s.sent - |s.staged| ==>
            var last := s.data[s.sent - |s.staged|];
            (last.End? && s.sent == |c.chunks| && !s.source.Sending?) || (last.Abort? && s.source.SourceFailed?))
        && (s.source.WaitResult? ==> |s.data| > s.sent - |s.staged|)
        && (s.source.Sending? || s.source.WaitAck? ==> |s.data| == s.sent - |s.staged|))
    && (s.destination.Stored? ==> s.staged == c.chunks && s.data == [] && !s.source.Sending? && !s.source.WaitAck?)
  }

  lemma SendKeepsOrder(c: Config, s: Session)
    requires ValidConfig(c) && InOrder(c, s) && Enabled(c, s, SendChunk)
    ensures InOrder(c, Apply(c, s, SendChunk))
  {
  }

  lemma ReceiveKeepsOrder(c: Config, s: Session)
    requires ValidConfig(c) && InOrder(c, s) && Enabled(c, s, Receive)
    ensures InOrder(c, Apply(c, s, Receive))
  {
    var k := |s.staged|;
    assert s.sent > k ==> s.data[0] == Chunk(k + 0, c.chunks[k + 0]);
    if s.data[0].Chunk? {
      assert c.chunks[..k] + [c.chunks[k]] == c.chunks[..k + 1];
      var s' := Apply(c, s, Receive);
      forall i | 0 <= i < s'.sent - |s'.staged| && i < |s'.data|
        ensures s'.data[i] == Chunk(|s'.staged| + i, c.chunks[|s'.staged| + i])
      {
        assert s'.data[i] == s.data[i + 1];
      }
    } else if s.data[0].End? {
      assert c.chunks[..|c.chunks|] == c.chunks;
    }
  }

  lemma StepKeepsOrder(c: Config, s: Session, step: Step)
    requires ValidConfig(c) && InOrder(c, s) && Enabled(c, s, step)
    ensures InOrder(c, Apply(c, s, step))
  {
    if step.SendChunk? { SendKeepsOrder(c, s); }
    if step.Receive? { ReceiveKeepsOrder(c, s); }
  }

  /**
    Any run at all, with cancellations and connections broken on either side anywhere: what the
    destination has staged is a prefix of the source's chunks, in order, each once; it
    reports the object stored only when it holds every chunk.
   */
  lemma {:induction false} StagesTheSource(c: Config, states: seq<Session>, steps: seq<Step>, n: nat)
    requires ValidConfig(c) && IsRun(c, states, steps) && n < |states|
    ensures InOrder(c, states[n])
    ensures states[n].staged <= c.chunks
    ensures states[n].destination.Stored? ==> states[n].staged == c.chunks
  {
    if n > 0 {
      StagesTheSource(c, states, steps, n - 1);
      assert IsStep(c, states[n - 1], steps[n - 1], states[n]);
      StepKeepsOrder(c, states[n - 1], steps[n - 1]);
    }
  }

  // ---- what each side learns -------------------------------------------------

  lemma ServedStep(c: Config, s: Session, step: Step)
    requires ValidConfig(c) && Enabled(c, s, step)
    requires s.source.Served? || Result in s.back ==> s.destination.Stored?
    ensures var s' := Apply(c, s, step); s'.source.Served? || Result in s'.back ==> s'.destination.Stored?
  {
  }

  /** Faults or not, the source has served the object only if the destination stored all of it. */
  lemma {:induction false} ServedMeansStored(c: Config, states: seq<Session>, steps: seq<Step>, n: nat)
    requires ValidConfig(c) && IsRun(c, states, steps) && n < |states|
    ensures states[n].source.Served? || Result in states[n].back ==>
      states[n].destination.Stored? && states[n].staged == c.chunks
  {
    hide Apply, Enabled, InOrder;
    StagesTheSource(c, states, steps, n);
    if n > 0 {
      ServedMeansStored(c, states, steps, n - 1);
      assert IsStep(c, states[n - 1], steps[n - 1], states[n]);
      ServedStep(c, states[n - 1], steps[n - 1]);
    }
  }

  predicate Cancelled(s: Session) {
    && s.source.SourceFailed? && !s.destination.Stored?
    && (s.destination.Receiving? ==> forall i | 0 <= i < |s.data| :: !s.data[i].End?)
  }

  /** The destination has failed, or will when it reaches the last frame in flight. */
  predicate AbortAhead(s: Session) {
    s.destination.DestinationFailed? || (s.data != [] && s.data[|s.data| - 1].Abort?)
  }

  lemma CancelStep(c: Config, s: Session)
    requires ValidConfig(c) && InOrder(c, s) && Enabled(c, s, Step.Cancel)
    ensures Cancelled(Apply(c, s, Step.Cancel)) && AbortAhead(Apply(c, s, Step.Cancel))
  {
    if s.destination.Receiving? {
      forall i | 0 <= i < |s.data| ensures s.data[i].Chunk? { assert i < s.sent - |s.staged|; }
    }
  }

  lemma CancelledStep(c: Config, s: Session, step: Step)
    requires ValidConfig(c) && Enabled(c, s, step) && Cancelled(s)
    ensures Cancelled(Apply(c, s, step))
    ensures AbortAhead(s) && !step.SourceBreaks? ==> AbortAhead(Apply(c, s, step))
  {
  }

  /**
    A cancelled session stays failed at the source and never stores anything; unless the
    source's connection breaks as well, the destination fails once it has read what was sent.
   */
  lemma {:induction false} CancelledFails(c: Config, states: seq<Session>, steps: seq<Step>, i: nat, n: nat)
    requires ValidConfig(c) && IsRun(c, states, steps) && i < n < |states| && steps[i].Cancel?
    ensures Cancelled(states[n]) && states[n].source.SourceFailed? && !states[n].destination.Stored?
    ensures (forall k | i < k < n :: !steps[k].SourceBreaks?) ==> AbortAhead(states[n])
    ensures (forall k | i < k < n :: !steps[k].SourceBreaks?) && states[n].data == [] ==>
      states[n].destination.DestinationFailed?
    decreases n
  {
    hide Apply, Enabled, InOrder;
    assert IsStep(c, states[n - 1], steps[n - 1], states[n]);
    if n == i + 1 {
      StagesTheSource(c, states, steps, i);
      CancelStep(c, states[i]);
    } else {
      CancelledFails(c, states, steps, i, n - 1);
      CancelledStep(c, states[n - 1], steps[n - 1]);
    }
  }

  // ---- acknowledgements -----------------------------------------------------

  function Acks(k: nat): seq<Answer> {
    if k == 0 then [] else [Ack] + Acks(k - 1)
  }

  lemma {:induction false} AcksSnoc(k: nat)
    ensures Acks(k) + [Ack] == Acks(k + 1) && |Acks(k)| == k
    ensures forall i | 0 <= i < k :: Acks(k)[i] == Ack
  {
    if k > 0 {
      AcksSnoc(k - 1);
      assert ([Ack] + Acks(k - 1)) + [Ack] == [Ack] + (Acks(k - 1) + [Ack]);
    }
  }

  /** Acknowledgements on their way back, in a run without faults. */
  ghost predicate Counted(c: Config, s: Session)
    requires ValidConfig(c)
  {
    var received := |s.staged|;
    && s.sinceAck == received % c.wd
    && s.taken <= received / c.wd
    && s.back == Acks(received / c.wd - s.taken) + (if s.destination.Stored? && !s.source.Served? then [Result] else [])
    && !s.destination.DestinationFailed? && (forall i | 0 <= i < |s.data| :: !s.data[i].Abort?)
    && (s.taken > 0 ==> c.wd <= c.ws)
    && match s.source
       case Sending => s.taken == s.sent / c.ws
       case WaitAck => s.sent % c.ws == 0 && s.sent > 0 && s.taken == s.sent / c.ws - 1
       case WaitResult => s.sent == |c.chunks| && s.taken == s.sent / c.ws
       case Served => s.sent == |c.chunks| && s.taken == s.sent / c.ws && s.destination.Stored? && s.back == []
       case SourceFailed => !Completes(|c.chunks|, c.ws, c.wd)
  }

  /** The exact condition on the number of chunks and the two windows. */
  predicate Completes(n: nat, ws: nat, wd: nat)
    requires ws > 0 && wd > 0
  {
    n / ws == n / wd && (n < ws || wd <= ws)
  }

  lemma DivMod(n: nat, w: nat)
    requires w > 0
    ensures n == w * (n / w) + n % w && 0 <= n % w < w
  {
  }

  lemma NextQuotient(n: nat, w: nat)
    requires w > 0
    ensures (n + 1) % w == 0 ==> (n + 1) / w == n / w + 1
    ensures (n + 1) % w != 0 ==> (n + 1) / w == n / w && (n + 1) % w == n % w + 1
    ensures n % w + 1 >= w <==> (n + 1) % w == 0
  {
    var q, r := n / w, n % w;
    DivMod(n, w);
    if r + 1 == w {
      Quotient(n + 1, w, q + 1, 0);
    } else {
      Quotient(n + 1, w, q, r + 1);
    }
  }

  lemma Sign(w: int, d: int)
    requires w > 0 && w * d > -w
    ensures d >= 0
  {
  }

  lemma Quotient(n: nat, w: nat, q: nat, r: nat)
    requires w > 0 && n == w * q + r && r < w
    ensures n / w == q && n % w == r
  {
    DivMod(n, w);
    var d := q - n / w;
    assert w * d == w * q - w * (n / w);
    assert w * (-d) == -(w * d);
    Sign(w, d);
    Sign(w, -d);
  }

  lemma QuotientMonotone(a: nat, b: nat, w: nat)
    requires w > 0 && a <= b
    ensures a / w <= b / w
  {
    DivMod(a, w);
    DivMod(b, w);
    assert w * (b / w - a / w) == w * (b / w) - w * (a / w);
    Sign(w, b / w - a / w);
  }

  lemma WiderQuotient(n: nat, small: nat, large: nat)
    requires 0 < small <= large
    ensures n / large <= n / small
  {
    var q := n / large;
    DivMod(n, small);
    DivMod(n, large);
    Scales(small, large, q);
    Distributes(small, n / small, q);
    Sign(small, n / small - q);
  }

  lemma Scales(small: nat, large: nat, q: nat)
    requires small <= large
    ensures small * q <= large * q
  {
  }

  lemma Distributes(w: int, a: int, b: int)
    ensures w * (a - b) == w * a - w * b
  {
  }

  lemma SendCounted(c: Config, s: Session)
    requires ValidConfig(c) && Counted(c, s) && InOrder(c, s) && Enabled(c, s, SendChunk)
    ensures Counted(c, Apply(c, s, SendChunk))
  {
    NextQuotient(s.sent, c.ws);
  }

  lemma ChunkCounted(c: Config, s: Session, payload: Bytes)
    requires ValidConfig(c) && Counted(c, s) && s.data != [] && s.destination.Receiving?
    ensures Counted(c, Staging(c, s, |s.staged|, payload))
  {
    var k := |s.staged|;
    NextQuotient(k, c.wd);
    AcksSnoc(k / c.wd - s.taken);
    var acks, s' := Acks(k / c.wd - s.taken), Staging(c, s, k, payload);
    assert acks + [] == acks;
    assert Acks((k + 1) / c.wd - s.taken) + [] == Acks((k + 1) / c.wd - s.taken);
  }

  lemma ReceiveCounted(c: Config, s: Session)
    requires ValidConfig(c) && Counted(c, s) && InOrder(c, s) && Enabled(c, s, Receive)
    ensures Counted(c, Apply(c, s, Receive))
  {
    var k := |s.staged|;
    assert s.sent > k ==> s.data[0] == Chunk(k + 0, c.chunks[k + 0]);
    if s.data[0].Chunk? {
      hide Counted, Staging;
      ChunkCounted(c, s, s.data[0].payload);
    } else {
      assert Acks(k / c.wd - s.taken) + [] == Acks(k / c.wd - s.taken);
    }
  }

  /** Taking an acknowledgement: the first one shows that the destination's window is no wider. */
  lemma TakeAckCounted(c: Config, s: Session)
    requires ValidConfig(c) && Counted(c, s) && InOrder(c, s) && Enabled(c, s, TakeAck)
    ensures Counted(c, Apply(c, s, TakeAck))
  {
    var k := |s.staged| / c.wd - s.taken;
    assert s.back == Acks(k) + [] == Acks(k);
    assert Acks(k)[1..] == Acks(k - 1);
    assert Acks(k - 1) + [] == Acks(k - 1);
    if s.taken == 0 {
      DivMod(s.sent, c.ws);
      DivMod(|s.staged|, c.wd);
      assert c.wd * (|s.staged| / c.wd) >= c.wd;
    }
  }

  /** An acknowledgement left over where the result is expected. */
  lemma LeftoverCounted(c: Config, s: Session)
    requires ValidConfig(c) && Counted(c, s) && InOrder(c, s) && s.source.WaitResult?
    requires |s.staged| / c.wd > s.taken
    ensures Counted(c, s.(source := SourceFailed))
  {
    hide Acks;
    QuotientMonotone(|s.staged|, |c.chunks|, c.wd);
  }

  lemma ServedCounted(c: Config, s: Session)
    requires ValidConfig(c) && Counted(c, s) && s.source.WaitResult?
    requires |s.staged| / c.wd == s.taken && s.destination.Stored?
    ensures s.back == [Result] && Counted(c, s.(back := [], source := Served))
  {
    assert Acks(0) + [Result] == [Result] && Acks(0) + [] == [];
  }

  lemma TakeResultCounted(c: Config, s: Session)
    requires ValidConfig(c) && Counted(c, s) && InOrder(c, s) && Enabled(c, s, TakeResult)
    ensures Counted(c, Apply(c, s, TakeResult))
  {
    var k := |s.staged| / c.wd - s.taken;
    AcksSnoc(k);
    if k > 0 {
      assert s.back[0] == Ack;
      hide Counted;
      LeftoverCounted(c, s);
    } else {
      assert Acks(0) + [] == [];
      hide Counted;
      ServedCounted(c, s);
      assert [Result][1..] == [];
    }
  }

  lemma StepCounted(c: Config, s: Session, step: Step)
    requires ValidConfig(c) && Counted(c, s) && InOrder(c, s) && Enabled(c, s, step) && !Fault(step)
    ensures Counted(c, Apply(c, s, step))
  {
    match step
    case SendChunk => SendCounted(c, s);
    case TakeAck => TakeAckCounted(c, s);
    case SendEnd =>
    case TakeResult => TakeResultCounted(c, s);
    case Receive => ReceiveCounted(c, s);
  }

  lemma {:induction false} RunCounted(c: Config, states: seq<Session>, steps: seq<Step>, n: nat)
    requires ValidConfig(c) && IsRun(c, states, steps) && FaultFree(steps) && n < |states|
    ensures Counted(c, states[n]) && InOrder(c, states[n])
  {
    hide Counted, InOrder, Apply, Enabled;
    if n == 0 {
      StartOk(c);
    } else {
      RunCounted(c, states, steps, n - 1);
      assert IsStep(c, states[n - 1], steps[n - 1], states[n]);
      StepKeepsOrder(c, states[n - 1], steps[n - 1]);
      StepCounted(c, states[n - 1], steps[n - 1]);
    }
  }

  lemma StartOk(c: Config)
    requires ValidConfig(c)
    ensures Counted(c, START) && InOrder(c, START)
  {
    assert Acks(0) + [] == [];
    DivMod(0, c.ws);
    DivMod(0, c.wd);
    Quotient(0, c.ws, 0, 0);
    Quotient(0, c.wd, 0, 0);
  }

  // ---- completion -----------------------------------------------------------

  predicate Complete(c: Config, s: Session) {
    s.source.Served? && s.destination.Stored? && s.staged == c.chunks && s.data == [] && s.back == []
  }

  ghost predicate CanMove(c: Config, s: Session) {
    exists step: Step :: Enabled(c, s, step) && !Fault(step)
  }

  /** Every step uses up something: no run without faults is longer than this. */
  function Remaining(c: Config, s: Session): int {
    3 * (|c.chunks| - s.sent) + 2 * (|c.chunks| - |s.staged|) + 2 * (|c.chunks| - s.taken)
      + (if s.source.Sending? || s.source.WaitAck? then 4 else if s.source.WaitResult? then 3 else 0)
      + (if s.destination.Receiving? then 2 else 0)
      + (if s.source.Sending? then 1 else 0)
  }

  lemma StepUses(c: Config, s: Session, step: Step)
    requires ValidConfig(c) && Counted(c, s) && InOrder(c, s) && Enabled(c, s, step) && !Fault(step)
    ensures Remaining(c, Apply(c, s, step)) < Remaining(c, s)
  {
    if step.Receive? && s.sent > |s.staged| {
      assert s.data[0] == Chunk(|s.staged| + 0, c.chunks[|s.staged| + 0]);
    }
  }

  /** With the condition, a session that cannot move has finished: there is no deadlock. */
  lemma Progress(c: Config, s: Session)
    requires ValidConfig(c) && Counted(c, s) && InOrder(c, s) && Completes(|c.chunks|, c.ws, c.wd)
    ensures CanMove(c, s) || Complete(c, s)
  {
    var n, k := |c.chunks|, |s.staged| / c.wd - s.taken;
    AcksSnoc(k);
    if s.destination.Receiving? && s.data != [] {
      assert Enabled(c, s, Receive);
    } else if s.source.Sending? {
      assert if s.sent < n then Enabled(c, s, SendChunk) else Enabled(c, s, SendEnd);
    } else if s.source.WaitAck? {
      QuotientMonotone(s.sent, n, c.ws);
      DivMod(s.sent, c.ws);
      DivMod(n, c.ws);
      WindowReached(s.sent, n, c.ws);
      WiderQuotient(s.sent, c.wd, c.ws);
      assert Enabled(c, s, TakeAck);
    } else if s.source.WaitResult? {
      assert Enabled(c, s, TakeResult);
    } else {
      assert Acks(0) + [] == [];
    }
  }

  lemma WindowReached(sent: nat, n: nat, w: nat)
    requires w > 0 && 0 < sent <= n && sent % w == 0
    ensures n >= w
  {
    DivMod(sent, w);
    assert w * (sent / w - 1) >= 0;
  }

  /** A source that was told its object is stored shows that the condition held. */
  lemma ServedOnlyIf(c: Config, s: Session)
    requires ValidConfig(c) && Counted(c, s) && InOrder(c, s) && s.source.Served?
    ensures Completes(|c.chunks|, c.ws, c.wd)
  {
    var n := |c.chunks|;
    if n >= c.ws { QuotientMonotone(c.ws, n, c.ws); Quotient(c.ws, c.ws, 1, 0); }
  }

  // ---- theorems about whole runs --------------------------------------------

  /** A run without faults that cannot be continued. */
  ghost predicate Finished(c: Config, states: seq<Session>, steps: seq<Step>)
    requires ValidConfig(c)
  {
    IsRun(c, states, steps) && FaultFree(steps) && !CanMove(c, states[|states| - 1])
  }

  lemma {:induction false} RunsEnd(c: Config, states: seq<Session>, steps: seq<Step>, n: nat)
    requires ValidConfig(c) && IsRun(c, states, steps) && FaultFree(steps) && n < |states|
    ensures n + Remaining(c, states[n]) <= Remaining(c, START)
  {
    hide Counted, InOrder, Apply, Enabled, Remaining;
    if n > 0 {
      RunsEnd(c, states, steps, n - 1);
      RunCounted(c, states, steps, n - 1);
      assert IsStep(c, states[n - 1], steps[n - 1], states[n]);
      StepUses(c, states[n - 1], steps[n - 1]);
    }
  }

  lemma RemainingPositive(c: Config, s: Session)
    requires ValidConfig(c) && Counted(c, s) && InOrder(c, s)
    ensures Remaining(c, s) >= 0
  {
    Quotient(|s.staged|, 1, |s.staged|, 0);
    WiderQuotient(|s.staged|, 1, c.wd);
    assert s.taken <= |c.chunks|;
  }

  /** No run without faults goes on for ever: its length is bounded by the number of chunks. */
  lemma BoundedRun(c: Config, states: seq<Session>, steps: seq<Step>)
    requires ValidConfig(c) && IsRun(c, states, steps) && FaultFree(steps)
    ensures |steps| <= 7 * |c.chunks| + 7
  {
    RunsEnd(c, states, steps, |steps|);
    RunCounted(c, states, steps, |steps|);
    RemainingPositive(c, states[|steps|]);
  }

  /**
    Exactly when the two windows fit: if they do, every run without faults that cannot
    be continued has completed, with every chunk staged and both directions drained; if
    they do not, in no run without faults does the source ever learn that it has served.
   */
  lemma CompletesIff(c: Config, states: seq<Session>, steps: seq<Step>)
    requires ValidConfig(c) && Finished(c, states, steps)
    ensures Complete(c, states[|states| - 1]) <==> Completes(|c.chunks|, c.ws, c.wd)
    ensures forall n | 0 <= n < |states| && !Completes(|c.chunks|, c.ws, c.wd) :: !states[n].source.Served?
  {
    hide IsStep, FaultFree, CanMove, Counted, InOrder, Completes;
    var last := |states| - 1;
    RunCounted(c, states, steps, last);
    if Completes(|c.chunks|, c.ws, c.wd) { Progress(c, states[last]); }
    forall n | 0 <= n < |states| && states[n].source.Served? ensures Completes(|c.chunks|, c.ws, c.wd) {
      RunCounted(c, states, steps, n);
      ServedOnlyIf(c, states[n]);
    }
  }

  lemma ExtendedRun(c: Config, states: seq<Session>, steps: seq<Step>, step: Step)
    requires ValidConfig(c) && IsRun(c, states, steps) && FaultFree(steps) && !Fault(step)
    requires Enabled(c, states[|states| - 1], step)
    ensures IsRun(c, states + [Apply(c, states[|states| - 1], step)], steps + [step]) && FaultFree(steps + [step])
  {
    hide Enabled, Apply, Fault;
    var states', steps' := states + [Apply(c, states[|states| - 1], step)], steps + [step];
    forall i | 0 <= i < |steps'| ensures IsStep(c, states'[i], steps'[i], states'[i + 1]) {
      if i < |steps| { assert IsStep(c, states[i], steps[i], states[i + 1]); }
    }
  }

  /** Every run without faults can be continued until it cannot move any more. */
  lemma {:induction false} FinishRun(c: Config, states: seq<Session>, steps: seq<Step>)
    returns (states': seq<Session>, steps': seq<Step>)
    requires ValidConfig(c) && IsRun(c, states, steps) && FaultFree(steps)
    ensures Finished(c, states', steps') && steps <= steps'
    decreases 7 * |c.chunks| + 7 - |steps|
  {
    hide Enabled, Apply, Fault;
    if CanMove(c, states[|states| - 1]) {
      var step :| Enabled(c, states[|states| - 1], step) && !Fault(step);
      ExtendedRun(c, states, steps, step);
      BoundedRun(c, states + [Apply(c, states[|states| - 1], step)], steps + [step]);
      states', steps' := FinishRun(c, states + [Apply(c, states[|states| - 1], step)], steps + [step]);
    } else {
      states', steps' := states, steps;
    }
  }

  /**
    With windows that do not fit, every run without faults goes on to a state in which the
    session can neither move nor has completed.
   */
  lemma MisfitEndsIncomplete(c: Config, states: seq<Session>, steps: seq<Step>)
    returns (states': seq<Session>, steps': seq<Step>)
    requires ValidConfig(c) && IsRun(c, states, steps) && FaultFree(steps) && !Completes(|c.chunks|, c.ws, c.wd)
    ensures Finished(c, states', steps') && steps <= steps' && !Complete(c, states'[|states'| - 1])
  {
    hide Finished, IsRun, FaultFree, Completes;
    states', steps' := FinishRun(c, states, steps);
    CompletesIff(c, states', steps');
  }

  /** The smallest instance: a window of two at the source, of four at the destination, and two chunks. */
  lemma StuckRun(a: Bytes, b: Bytes) returns (c: Config, states: seq<Session>, steps: seq<Step>)
    ensures c == Config([a, b], 2, 4) && Finished(c, states, steps)
    ensures steps == [SendChunk, SendChunk, Receive, Receive]
    ensures var s := states[|states| - 1];
      s.source.WaitAck? && s.destination.Receiving? && s.staged == c.chunks && s.data == [] && s.back == []
  {
    c := Config([a, b], 2, 4);
    var s1 := START.(data := [Chunk(0, a)], sent := 1);
    var s2 := s1.(data := [Chunk(0, a), Chunk(1, b)], sent := 2, source := WaitAck);
    var s3 := s2.(data := [Chunk(1, b)], staged := [a], sinceAck := 1);
    var s4 := s3.(data := [], staged := [a, b], sinceAck := 2);
    states, steps := [START, s1, s2, s3, s4], [SendChunk, SendChunk, Receive, Receive];
    assert IsStep(c, START, SendChunk, s1);
    assert IsStep(c, s1, SendChunk, s2);
    assert IsStep(c, s2, Receive, s3);
    assert IsStep(c, s3, Receive, s4);
  }

  /**
    Both endpoints configured alike: at every point of every run without faults at most
    one window of chunks is in flight, an acknowledgement is on its way only to a source
    that waits for it, none is left before the result, neither side fails, and unless
    the session is complete some side can move.
   */
  lemma EqualWindows(c: Config, states: seq<Session>, steps: seq<Step>, n: nat)
    requires ValidConfig(c) && c.ws == c.wd && IsRun(c, states, steps) && FaultFree(steps) && n < |states|
    ensures var s := states[n];
      && s.sent - |s.staged| <= c.ws
      && !s.source.SourceFailed? && !s.destination.DestinationFailed?
      && (Ack in s.back ==> s.source.WaitAck? && s.back == [Ack])
      && (Result in s.back ==> s.back == [Result] && s.source.WaitResult?)
      && (CanMove(c, s) || Complete(c, s))
  {
    hide IsRun, FaultFree, CanMove;
    RunCounted(c, states, steps, n);
    Progress(c, states[n]);
    OneWindow(c, states[n]);
    OneAnswer(c, states[n]);
  }

  lemma WithinWindow(sent: nat, staged: nat, taken: nat, w: nat, waiting: bool)
    requires w > 0 && taken <= staged / w && taken == (if waiting then sent / w - 1 else sent / w)
    requires waiting ==> sent % w == 0
    ensures sent - staged <= w
  {
    DivMod(sent, w);
    DivMod(staged, w);
    Distributes(w, staged / w, taken);
    assert w * (staged / w - taken) >= 0;
    Distributes(w, sent / w, taken);
    if waiting { assert w * (sent / w - taken) == w; } else { assert w * (sent / w - taken) == 0; }
  }

  lemma OneWindow(c: Config, s: Session)
    requires ValidConfig(c) && c.ws == c.wd && Counted(c, s) && InOrder(c, s)
    ensures s.sent - |s.staged| <= c.ws && !s.source.SourceFailed?
  {
    WithinWindow(s.sent, |s.staged|, s.taken, c.ws, s.source.WaitAck?);
  }

  lemma OneAnswer(c: Config, s: Session)
    requires ValidConfig(c) && c.ws == c.wd && Counted(c, s) && InOrder(c, s)
    ensures Ack in s.back ==> s.source.WaitAck? && s.back == [Ack]
    ensures Result in s.back ==> s.back == [Result] && s.source.WaitResult?
  {
    var k := |s.staged| / c.wd - s.taken;
    AcksSnoc(k);
    QuotientMonotone(|s.staged|, s.sent, c.wd);
    assert k <= 1;
    assert k == 1 ==> s.source.WaitAck? && Acks(1) == [Ack];
    assert Acks(0) + [Result] == [Result];
  }

  /** Served from an object's own chunks, what the destination stores is that object, byte for byte. */
  lemma StoresTheObject(
    c: Config, states: seq<Session>, steps: seq<Step>, n: nat, d: StateObject.Descriptor, content: Bytes)
    requires ValidConfig(c) && IsRun(c, states, steps) && n < |states|
    requires StateObject.ValidSegmentation(d) && |content| == d.totalBytes
    requires c.chunks == StateObject.Chunks(d, content, d.chunkCount)
    ensures states[n].destination.Stored? ==> StateObject.Concat(states[n].staged) == content
  {
    hide IsRun, InOrder;
    StagesTheSource(c, states, steps, n);
    StateObject.ChunksTile(d, content);
  }
}
