/**
  Concrete runs of the protocol, built step by step: the beginnings shared by the runs
  in which a promised property fails.
 */
module ProtocolScripts {
  import opened Types
  import Movement
  import opened Protocol

  datatype Script = Script(worlds: seq<World>, steps: seq<Step>)

  ghost predicate Plays(c: Config, run: Script) {
    run.worlds != [] && IsRun(c, run.worlds, run.steps)
  }

  function End(run: Script): World
    requires run.worlds != []
  {
    run.worlds[|run.worlds| - 1]
  }

  /** The run goes on with one more step. */
  lemma Then(c: Config, run: Script, s: Step) returns (next: Script)
    requires Plays(c, run) && Enabled(c, End(run), s)
    ensures Plays(c, next) && End(next) == Apply(c, End(run), s)
    ensures next.steps == run.steps + [s] && next.worlds == run.worlds + [End(next)]
    ensures |next.worlds| == |next.steps| + 1
  {
    hide Enabled, Apply;
    next := Script(run.worlds + [Apply(c, End(run), s)], run.steps + [s]);
    forall i | 0 <= i < |next.steps| ensures IsStep(c, next.worlds[i], next.steps[i], next.worlds[i + 1]) {
      if i < |run.steps| { assert IsStep(c, run.worlds[i], run.steps[i], run.worlds[i + 1]); }
    }
  }

  const PLAN := Plan(0, 0)

  function RecordIn(state: State, generation: nat, attempts: nat): Rec {
    Rec(PLAN, state, generation, 0, attempts, generation, Movement.MAX_EVENTS, false)
  }

  /** Movement 0 alone in a running coordinator, its destination linked. */
  predicate Standing(w: World, r: Rec, owner: Option<Owner>, queued: bool, inbox: seq<Msg>) {
    && w.mode.Running? && w.store == map[0 := r]
    && w.owners == (if owner.Some? then map[0 := owner.value] else map[])
    && w.queue == (if queued then {0} else {})
    && 0 in w.procs && w.procs[0] == Proc(inbox, true)
    && w.plans == map[0 := PLAN] && w.born == map[0 := 0] && w.skipped == {}
  }

  /** A running coordinator with one registered endpoint and nothing else. */
  lemma LaunchedRun(c: Config) returns (run: Script)
    ensures Plays(c, run) && End(run) == INIT.(mode := Running, procs := map[0 := Proc([], true)])
  {
    run := Script([INIT], []);
    LaunchedWorld(c);
    hide Enabled, Apply;
    run := Then(c, run, Launch({}));
    run := Then(c, run, Recovered);
    run := Then(c, run, Register(0));
  }

  lemma LaunchedWorld(c: Config)
    ensures Enabled(c, INIT, Launch({}))
    ensures var w1 := Apply(c, INIT, Launch({}));
      && Enabled(c, w1, Recovered)
      && var w2 := Apply(c, w1, Recovered);
         && Enabled(c, w2, Register(0))
         && Apply(c, w2, Register(0)) == INIT.(mode := Running, procs := map[0 := Proc([], true)])
  {
    var w1 := DoLaunch(INIT, {});
    assert w1 == INIT.(mode := Mode.Recovering({}));
  }

  lemma SubmittedWorld(c: Config, w: World)
    requires w == INIT.(mode := Running, procs := map[0 := Proc([], true)])
    ensures var s, r := Submit(0, PLAN, Movement.MAX_EVENTS), RecordIn(Movement.Planned, 1, 0);
      && Enabled(c, w, s) && Apply(c, w, s).markers == map[]
      && Standing(Apply(c, w, s), r, Some(Submitting(r)), false, [])
  {
  }

  lemma AuthorizedWorld(c: Config, w: World)
    requires var r := RecordIn(Movement.Planned, 1, 0); Standing(w, r, Some(Submitting(r)), false, [])
    ensures Enabled(c, w, Authorize(0)) && Apply(c, w, Authorize(0)).markers == w.markers
    ensures Standing(Apply(c, w, Authorize(0)), RecordIn(Movement.Authorized, 2, 0), None, true, [])
  {
    var moved := Move(w.owners[0].r, Movement.Authorized, true);
    assert moved == Some(RecordIn(Movement.Authorized, 2, 0));
  }

  /** Submit and authorize a movement. */
  lemma OpeningRun(c: Config) returns (run: Script)
    ensures Plays(c, run) && End(run).markers == map[]
    ensures Standing(End(run), RecordIn(Movement.Authorized, 2, 0), None, true, [])
  {
    hide Enabled, Apply, Standing, IsRun;
    run := LaunchedRun(c);
    SubmittedWorld(c, End(run));
    run := Then(c, run, Submit(0, PLAN, Movement.MAX_EVENTS));
    AuthorizedWorld(c, End(run));
    run := Then(c, run, Authorize(0));
  }

  /** Storing a moved record and going on. */
  lemma Continued(w: World, r: Rec, owner: Option<Owner>, r': Rec, phase: Phase)
    requires Standing(w, r, owner, false, []) && !Movement.Terminal(r'.state)
    ensures Standing(Continue(w, 0, Some(r'), phase), r', Some(Driving(r', phase)), false, [])
    ensures Continue(w, 0, Some(r'), phase).markers == w.markers
  {
    var w' := Continue(w, 0, Some(r'), phase);
    assert w'.store == map[0 := r'] && w'.owners == map[0 := Driving(r', phase)];
  }

  lemma PickedWorld(c: Config, w: World)
    requires var r := RecordIn(Movement.Authorized, 2, 0); Standing(w, r, None, true, [])
    ensures Enabled(c, w, Pick(0)) && Apply(c, w, Pick(0)).markers == w.markers
    ensures var r := RecordIn(Movement.Authorized, 2, 0);
      Standing(Apply(c, w, Pick(0)), r, Some(Driving(r, Start)), false, [])
  {
  }

  lemma GrantedWorld(c: Config, w: World)
    requires var r := RecordIn(Movement.Authorized, 2, 0); Standing(w, r, Some(Driving(r, Start)), false, [])
    requires c.maxAttempts >= 1
    ensures Enabled(c, w, Attempt(0)) && Apply(c, w, Attempt(0)).markers == w.markers
    ensures var r := RecordIn(Movement.Authorized, 3, 1);
      Standing(Apply(c, w, Attempt(0)), r, Some(Driving(r, Granted(1))), false, [])
  {
    hide Continue;
    var r, r' := w.owners[0].r, RecordIn(Movement.Authorized, 3, 1);
    assert Begin(r) == Some(r');
    Continued(w.(grants := w.grants[0 := Count(w.grants, 0) + 1]), r, Some(w.owners[0]), r', Granted(1));
  }

  lemma DispatchedWorld(c: Config, w: World)
    requires var r := RecordIn(Movement.Authorized, 3, 1); Standing(w, r, Some(Driving(r, Granted(1))), false, [])
    ensures Enabled(c, w, Dispatch(0)) && Apply(c, w, Dispatch(0)).markers == w.markers
    ensures var r := RecordIn(Movement.Transferring, 4, 1);
      Standing(Apply(c, w, Dispatch(0)), r, Some(Driving(r, Awaiting(1, 0))), false, [])
  {
    hide Continue;
    var r, r' := w.owners[0].r, RecordIn(Movement.Transferring, 4, 1);
    assert Move(r, Movement.Transferring, true) == Some(r');
    Continued(w, r, Some(w.owners[0]), r', Awaiting(1, 0));
  }

  /** From the queue to a transfer under way. */
  lemma DispatchedRun(c: Config) returns (run: Script)
    requires c.maxAttempts >= 1
    ensures Plays(c, run) && End(run).markers == map[]
    ensures var r := RecordIn(Movement.Transferring, 4, 1);
      Standing(End(run), r, Some(Driving(r, Awaiting(1, 0))), false, [])
  {
    hide Enabled, Apply, Standing, IsRun;
    run := OpeningRun(c);
    PickedWorld(c, End(run));
    run := Then(c, run, Pick(0));
    GrantedWorld(c, End(run));
    run := Then(c, run, Attempt(0));
    DispatchedWorld(c, End(run));
    run := Then(c, run, Dispatch(0));
  }

  lemma ArrivedWorld(c: Config, w: World)
    requires var r := RecordIn(Movement.Transferring, 4, 1); Standing(w, r, Some(Driving(r, Awaiting(1, 0))), false, [])
    ensures Enabled(c, w, Result(0, true, true)) && Apply(c, w, Result(0, true, true)).markers == w.markers
    ensures var r := RecordIn(Movement.BytesArrived, 5, 1);
      Standing(Apply(c, w, Result(0, true, true)), r, Some(Driving(r, Arrived(1))), false, [])
  {
    hide Continue;
    var r, r' := w.owners[0].r, RecordIn(Movement.BytesArrived, 5, 1);
    assert Move(r, Movement.BytesArrived, true) == Some(r');
    Continued(w, r, Some(w.owners[0]), r', Arrived(1));
  }

  lemma VerifiedWorld(c: Config, w: World)
    requires var r := RecordIn(Movement.BytesArrived, 5, 1); Standing(w, r, Some(Driving(r, Arrived(1))), false, [])
    ensures Enabled(c, w, Verify(0, true, true)) && Apply(c, w, Verify(0, true, true)).markers == w.markers
    ensures var r := RecordIn(Movement.Verified, 6, 1);
      Standing(Apply(c, w, Verify(0, true, true)), r, Some(Driving(r, Barrier(1))), false, [])
  {
    hide Continue;
    var r, r' := w.owners[0].r, RecordIn(Movement.Verified, 6, 1);
    assert Move(r, Movement.Verified, true) == Some(r');
    Continued(w, r, Some(w.owners[0]), r', Barrier(1));
  }

  const REQUEST := Commit(0, 6, 0)

  lemma AskedWorld(c: Config, w: World)
    requires var r := RecordIn(Movement.Verified, 6, 1); Standing(w, r, Some(Driving(r, Barrier(1))), false, [])
    ensures Enabled(c, w, SendCommit(0, true)) && Apply(c, w, SendCommit(0, true)).markers == w.markers
    ensures var r := RecordIn(Movement.Verified, 6, 1);
      Standing(Apply(c, w, SendCommit(0, true)), r, Some(Driving(r, CommitWait)), false, [REQUEST])
  {
    assert [] + [REQUEST] == [REQUEST];
  }

  lemma MarkedWorld(c: Config, w: World)
    requires var r := RecordIn(Movement.Verified, 6, 1); Standing(w, r, Some(Driving(r, CommitWait)), false, [REQUEST])
    requires w.markers == map[]
    ensures Enabled(c, w, HandleCommit(0, true, 7))
    ensures var r := RecordIn(Movement.Verified, 6, 1);
      Standing(Apply(c, w, HandleCommit(0, true, 7)), r, Some(Driving(r, CommitWait)), false, [])
    ensures Apply(c, w, HandleCommit(0, true, 7)).markers == map[PLAN := Marker(Some(0), 7)]
    ensures CommitResult(0, 6, true, 7) in Apply(c, w, HandleCommit(0, true, 7)).sent
  {
    assert [REQUEST][1..] == [];
  }

  /** The worker waits for the answer to its commit request, and the marker is on disk. */
  lemma MarkedRun(c: Config) returns (run: Script)
    requires c.maxAttempts >= 1
    ensures Plays(c, run) && End(run).markers == map[PLAN := Marker(Some(0), 7)]
    ensures CommitResult(0, 6, true, 7) in End(run).sent
    ensures var r := RecordIn(Movement.Verified, 6, 1); Standing(End(run), r, Some(Driving(r, CommitWait)), false, [])
  {
    hide Enabled, Apply, Standing, IsRun;
    run := DispatchedRun(c);
    ArrivedWorld(c, End(run));
    run := Then(c, run, Result(0, true, true));
    VerifiedWorld(c, End(run));
    run := Then(c, run, Verify(0, true, true));
    AskedWorld(c, End(run));
    run := Then(c, run, SendCommit(0, true));
    MarkedWorld(c, End(run));
    run := Then(c, run, HandleCommit(0, true, 7));
  }
}
