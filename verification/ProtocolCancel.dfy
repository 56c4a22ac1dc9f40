/**
  Cancelling (src/coordinator.cpp:966-1001): in which states an operator's cancellation
  guarantees that the movement never takes effect, proved exactly, with a run for each
  state in which it does not.
 */
module ProtocolCancel {
  import opened Types
  import Movement
  import opened Protocol
  import opened ProtocolView
  import opened ProtocolRuns
  import opened ProtocolTheorems
  import opened ProtocolScripts

  /** Step `i` of the run cancels `m`, and the cancellation is recorded. */
  ghost predicate Cancels(worlds: seq<World>, steps: seq<Step>, i: nat, m: Id) {
    && i < |steps| && i + 1 < |worlds| && steps[i] == Cancel(m) && m in worlds[i].store
    && m in worlds[i + 1].store && worlds[i + 1].store[m].state.Cancelled?
  }

  /** Whatever the run, cancelling a movement stored in state `st` means that it never takes effect. */
  ghost predicate SafeToCancel(c: Config, st: State) {
    forall worlds: seq<World>, steps: seq<Step>, i: nat, m: Id |
      IsRun(c, worlds, steps) && Cancels(worlds, steps, i, m) && worlds[i].store[m].state == st ::
      NoEffect(worlds[|worlds| - 1], m)
  }

  lemma NotForced(c: Config, w: World, m: Id)
    requires Inv(c, w) && m in w.store && !Movement.Terminal(w.store[m].state)
    ensures m !in w.forced
  {
    hide ViewOf, Addressed, Named;
    assert Good(c, m, ViewOf(w, m));
    Fields(w, m);
  }

  lemma CancelSettles(c: Config, w: World, m: Id)
    requires Inv(c, w) && Enabled(c, w, Cancel(m))
    requires var w' := Apply(c, w, Cancel(m)); m in w'.store && w'.store[m].state.Cancelled?
    requires !Committing(w.store[m].state) || (w.store[m].state.Verified? && m !in w.skipped)
    ensures m in Apply(c, w, Cancel(m)).settled
  {
    hide Inv;
    NotForced(c, w, m);
  }

  lemma SettledStays(c: Config, worlds: seq<World>, steps: seq<Step>, i: nat, m: Id)
    requires IsRun(c, worlds, steps) && i < |worlds| && m in worlds[i].settled
    ensures NoEffect(worlds[|worlds| - 1], m)
  {
    hide IsRun, NoEffect, Inv;
    RunGrows(c, worlds, steps, i, |worlds| - 1);
    RunInv(c, worlds, steps, |worlds| - 1);
    SettledNoEffect(c, worlds[|worlds| - 1], m);
  }

  /** A cancellation outside VERIFIED and OUTCOME_UNKNOWN, or in VERIFIED when the last recovery listed the movement. */
  lemma SoundCancel(c: Config, worlds: seq<World>, steps: seq<Step>, i: nat, m: Id)
    requires IsRun(c, worlds, steps) && Cancels(worlds, steps, i, m)
    requires var st := worlds[i].store[m].state;
      !Committing(st) || (st.Verified? && m !in worlds[i].skipped)
    ensures NoEffect(worlds[|worlds| - 1], m)
  {
    hide NoEffect, Inv, Apply, Enabled;
    assert IsStep(c, worlds[i], steps[i], worlds[i + 1]);
    RunInv(c, worlds, steps, i);
    CancelSettles(c, worlds[i], m);
    SettledStays(c, worlds, steps, i + 1, m);
  }

  lemma SafeOutsideCommitting(c: Config, st: State)
    requires !Committing(st)
    ensures SafeToCancel(c, st)
  {
    hide IsRun, NoEffect;
    forall worlds: seq<World>, steps: seq<Step>, i: nat, m: Id |
      IsRun(c, worlds, steps) && Cancels(worlds, steps, i, m) && worlds[i].store[m].state == st
      ensures NoEffect(worlds[|worlds| - 1], m)
    {
      SoundCancel(c, worlds, steps, i, m);
    }
  }

  // ---- OUTCOME_UNKNOWN ------------------------------------------------------

  /** Movement 0 is stored as `r`, held by nobody. */
  predicate Openable(w: World, r: Rec) {
    w.mode.Running? && 0 in w.store && w.store[0] == r && 0 !in w.owners
  }

  /** The answer to the commit request is lost and the outcome is recorded as unknown. */
  lemma UnknownWorld(c: Config, w: World)
    requires var r := RecordIn(Movement.Verified, 6, 1); Standing(w, r, Some(Driving(r, CommitWait)), false, [])
    ensures Enabled(c, w, NoAnswer(0))
    ensures var w' := Apply(c, w, NoAnswer(0));
      Openable(w', RecordIn(Movement.OutcomeUnknown, 7, 1)) && w'.markers == w.markers
  {
    assert Move(w.owners[0].r, Movement.OutcomeUnknown, true) == Some(RecordIn(Movement.OutcomeUnknown, 7, 1));
  }

  /** The operator cancels. */
  lemma CancelledWorld(c: Config, w: World, r: Rec)
    requires Openable(w, r) && !Movement.Terminal(r.state) && HasRoom(r)
    ensures Enabled(c, w, Cancel(0))
    ensures var w' := Apply(c, w, Cancel(0));
      0 in w'.store && w'.store[0].state.Cancelled? && w'.markers == w.markers
  {
  }

  /**
    The design says that an unknown outcome is resolved only by reconciliation, but
    `cancel` accepts one: here the destination holds the marker of a movement whose
    record says CANCELLED.
   */
  lemma CancelledYetCommitted(c: Config) returns (worlds: seq<World>, steps: seq<Step>, i: nat)
    requires ValidConfig(c)
    ensures IsRun(c, worlds, steps) && Cancels(worlds, steps, i, 0) && worlds[i].store[0].state.OutcomeUnknown?
    ensures !NoEffect(worlds[|worlds| - 1], 0)
  {
    hide Enabled, Apply, Standing, IsRun;
    var run := MarkedRun(c);
    UnknownWorld(c, End(run));
    run := Then(c, run, NoAnswer(0));
    CancelledWorld(c, End(run), RecordIn(Movement.OutcomeUnknown, 7, 1));
    i := |run.steps|;
    run := Then(c, run, Cancel(0));
    worlds, steps := run.worlds, run.steps;
    assert PLAN in End(run).markers;
  }

  // ---- VERIFIED, after a recovery that did not list the movement -------------

  function Upto(k: nat): set<Id> {
    if k == 0 then {0} else Upto(k - 1) + {k}
  }

  lemma {:induction false} UptoIs(k: nat)
    ensures |Upto(k)| == k + 1 && (forall i: nat :: i in Upto(k) <==> i <= k)
  {
    if k > 0 { UptoIs(k - 1); }
  }

  /** Movement 0 committed at its destination but VERIFIED in the store, with `k` younger movements beside it. */
  ghost predicate Crowded(w: World, k: nat) {
    && w.store.Keys == w.plans.Keys == Upto(k)
    && (forall i | i in Upto(k) :: Count(w.born, i) == i)
    && 0 in w.store && w.store[0] == RecordIn(Movement.Verified, 6, 1)
    && w.markers == map[PLAN := Marker(Some(0), 7)]
  }

  lemma JoinedStore(w: World, k: nat)
    requires Crowded(w, k)
    ensures var w' := DoSubmit(w, k + 1, Plan(1, k), Movement.MAX_EVENTS);
      k + 1 !in w.plans && Crowded(w', k + 1) && w'.mode == w.mode
  {
    UptoIs(k);
    UptoIs(k + 1);
    assert |w.plans| == |w.plans.Keys| == k + 1;
    assert Upto(k + 1) == Upto(k) + {k + 1};
    hide Upto;
    var w' := DoSubmit(w, k + 1, Plan(1, k), Movement.MAX_EVENTS);
    assert w'.store.Keys == w.store.Keys + {k + 1};
    assert w'.plans.Keys == w.plans.Keys + {k + 1};
    assert w'.born == w.born[k + 1 := k + 1];
  }

  lemma JoinedWorld(c: Config, w: World, k: nat)
    requires Crowded(w, k) && w.mode.Running?
    ensures var s := Submit(k + 1, Plan(1, k), Movement.MAX_EVENTS);
      Enabled(c, w, s) && Crowded(Apply(c, w, s), k + 1) && Apply(c, w, s).mode.Running?
  {
    hide Crowded, DoSubmit;
    JoinedStore(w, k);
  }

  lemma {:induction false} CrowdedRun(c: Config, start: Script, k: nat) returns (run: Script)
    requires Plays(c, start) && Crowded(End(start), 0) && End(start).mode.Running?
    ensures Plays(c, run) && Crowded(End(run), k) && End(run).mode.Running?
  {
    hide Enabled, Apply, Crowded, IsRun;
    if k == 0 {
      run := start;
    } else {
      run := CrowdedRun(c, start, k - 1);
      JoinedWorld(c, End(run), k - 1);
      run := Then(c, run, Submit(k, Plan(1, k - 1), Movement.MAX_EVENTS));
    }
  }

  lemma StoppedWorld(w: World, n: nat)
    requires Crowded(w, n)
    ensures Crowded(DoStop(w), n) && DoStop(w).mode.Down? && DoStop(w).owners == map[]
  {
  }

  /** Of one movement more than may be listed, all but the oldest are the newest. */
  lemma AllButOldest(c: Config, w: World)
    requires ValidConfig(c) && Crowded(w, c.maxHistory)
    ensures Newest(c, w, Upto(c.maxHistory) - {0})
  {
    UptoIs(c.maxHistory);
    hide Upto;
    assert |w.store| == |w.store.Keys|;
  }

  lemma ReadWorld(w: World, n: nat)
    requires Crowded(w, n)
    ensures Crowded(DoLaunch(w, Upto(n) - {0}), n)
  {
    UptoIs(n);
    hide Upto;
    var w' := DoLaunch(w, Upto(n) - {0});
    assert w'.store.Keys == w.store.Keys;
    assert w'.store[0] == Reread(w.store[0]) == w.store[0];
  }

  /** The coordinator stops and starts again, and lists as many movements as it may: all but the oldest. */
  lemma RestartedWorld(c: Config, w: World)
    requires ValidConfig(c) && Crowded(w, c.maxHistory)
    ensures Enabled(c, w, Stop)
    ensures var w1, listed := Apply(c, w, Stop), Upto(c.maxHistory) - {0};
      && Enabled(c, w1, Launch(listed))
      && var w2 := Apply(c, w1, Launch(listed));
         Crowded(w2, c.maxHistory) && w2.owners == map[] && w2.mode == Mode.Recovering(listed)
  {
    hide Crowded, Newest, Upto, DoStop;
    StoppedWorld(w, c.maxHistory);
    AllButOldest(c, DoStop(w));
    ReadWorld(DoStop(w), c.maxHistory);
  }

  lemma PutBeside(w: World, n: nat, m: Id, r: Rec)
    requires Crowded(w, n) && m != 0 && m in w.store
    ensures Crowded(Put(w, m, r), n) && Put(w, m, r).owners == w.owners && Put(w, m, r).mode == w.mode
  {
    assert Put(w, m, r).store.Keys == w.store.Keys;
  }

  lemma NextTurn(n: nat, k: nat)
    requires k < n
    ensures k + 1 in Upto(n) - Upto(k) && (Upto(n) - Upto(k)) - {k + 1} == Upto(n) - Upto(k + 1)
  {
    UptoIs(n);
    UptoIs(k);
    UptoIs(k + 1);
    hide Upto;
  }

  lemma InCrowd(w: World, n: nat, m: Id, mode: Mode)
    requires Crowded(w, n) && m in Upto(n)
    ensures m in w.store && Crowded(w.(mode := mode), n)
  {
    hide Upto;
  }

  lemma TurnedWorld(w: World, n: nat, k: nat)
    requires Crowded(w, n) && w.owners == map[] && w.mode == Mode.Recovering(Upto(n) - Upto(k)) && k < n
    ensures k + 1 in w.store && k + 1 in w.mode.todo
    ensures var w' := DoRecover(w, k + 1);
      Crowded(w', n) && w'.owners == map[] && w'.mode == Mode.Recovering(Upto(n) - Upto(k + 1))
  {
    hide Upto, Put, Move, Crowded;
    NextTurn(n, k);
    var turned := w.(mode := Mode.Recovering(Upto(n) - Upto(k + 1)));
    InCrowd(w, n, k + 1, turned.mode);
    var r := w.store[k + 1];
    var moved := if Movement.Terminal(r.state) then None
                 else Move(r, if r.state.Planned? then Movement.Failed else Movement.OutcomeUnknown, true);
    if moved.Some? { PutBeside(turned, n, k + 1, moved.value); }
  }

  lemma TurnWorld(c: Config, w: World, n: nat, k: nat)
    requires Crowded(w, n) && w.owners == map[] && w.mode == Mode.Recovering(Upto(n) - Upto(k)) && k < n
    ensures Enabled(c, w, Recover(k + 1))
    ensures var w' := Apply(c, w, Recover(k + 1));
      Crowded(w', n) && w'.owners == map[] && w'.mode == Mode.Recovering(Upto(n) - Upto(k + 1))
  {
    hide Crowded, Upto, DoRecover;
    TurnedWorld(w, n, k);
  }

  lemma {:induction false} RecoveringRun(c: Config, start: Script, n: nat, k: nat) returns (run: Script)
    requires Plays(c, start) && Crowded(End(start), n) && End(start).owners == map[]
    requires End(start).mode == Mode.Recovering(Upto(n) - Upto(0)) && k <= n
    ensures Plays(c, run) && Crowded(End(run), n) && End(run).owners == map[]
    ensures End(run).mode == Mode.Recovering(Upto(n) - Upto(k))
  {
    hide Enabled, Apply, Crowded, IsRun;
    if k == 0 {
      run := start;
    } else {
      run := RecoveringRun(c, start, n, k - 1);
      TurnWorld(c, End(run), n, k - 1);
      run := Then(c, run, Recover(k));
    }
  }

  lemma ReleasedWorld(c: Config, w: World, n: nat)
    requires Crowded(w, n) && w.owners == map[] && w.mode == Mode.Recovering({})
    ensures Enabled(c, w, Recovered)
    ensures var w' := Apply(c, w, Recovered);
      Openable(w', RecordIn(Movement.Verified, 6, 1)) && w'.markers == w.markers
  {
    UptoIs(n);
  }

  /**
    A recovery lists at most max_history_records movements, newest first. One that it
    does not list stays VERIFIED although its commit request went out; cancelling it then
    leaves a CANCELLED record and the marker of the movement on the destination's disk.
   */
  lemma CancelledWhenUnlisted(c: Config) returns (worlds: seq<World>, steps: seq<Step>, i: nat)
    requires ValidConfig(c)
    ensures IsRun(c, worlds, steps) && Cancels(worlds, steps, i, 0) && worlds[i].store[0].state.Verified?
    ensures !NoEffect(worlds[|worlds| - 1], 0)
  {
    hide Enabled, Apply, IsRun;
    var n := c.maxHistory;
    var run := MarkedRun(c);
    assert Crowded(End(run), 0);
    hide Standing, Crowded, Upto;
    run := CrowdedRun(c, run, n);
    RestartedWorld(c, End(run));
    run := Then(c, run, Stop);
    run := Then(c, run, Launch(Upto(n) - {0}));
    AllButZero(n);
    run := RecoveringRun(c, run, n, n);
    assert Upto(n) - Upto(n) == {};
    ReleasedWorld(c, End(run), n);
    CrowdMarked(End(run), n);
    run := Then(c, run, Recovered);
    CancelledWorld(c, End(run), RecordIn(Movement.Verified, 6, 1));
    i := |run.steps|;
    run := Then(c, run, Cancel(0));
    worlds, steps := run.worlds, run.steps;
    assert PLAN in End(run).markers;
  }

  lemma AllButZero(n: nat)
    ensures Upto(n) - {0} == Upto(n) - Upto(0)
  {
  }

  lemma CrowdMarked(w: World, k: nat)
    requires Crowded(w, k)
    ensures w.markers == map[PLAN := Marker(Some(0), 7)]
  {
  }

  // ---- exactly --------------------------------------------------------------

  /** Cancelling is safe in exactly the states in which no commit request can be out. */
  lemma SafeToCancelIff(c: Config, st: State)
    requires ValidConfig(c)
    ensures SafeToCancel(c, st) <==> !st.Verified? && !st.OutcomeUnknown?
  {
    hide IsRun, NoEffect, Cancels;
    if st.OutcomeUnknown? {
      var worlds, steps, i := CancelledYetCommitted(c);
    } else if st.Verified? {
      var worlds, steps, i := CancelledWhenUnlisted(c);
    } else {
      SafeOutsideCommitting(c, st);
    }
  }
}
