/**
  The protocol's invariant over whole runs: the view of every movement stays good,
  whatever steps are taken in whatever order.
 */
module ProtocolRuns {
  import opened Types
  import Movement
  import opened Protocol
  import opened ProtocolView

  // ---- the view of one movement ---------------------------------------------

  /** The messages about `m`, in order. */
  function Lane(inbox: seq<Msg>, m: Id): seq<Msg> {
    if inbox == [] then []
    else if inbox[0].m == m then [inbox[0]] + Lane(inbox[1..], m)
    else Lane(inbox[1..], m)
  }

  function Inbox(w: World, e: Endpoint): seq<Msg> {
    if e in w.procs then w.procs[e].inbox else []
  }

  ghost function RepliesFor(sent: set<Reply>, m: Id): set<Reply> {
    set reply | reply in sent && reply.m == m
  }

  function StageOf(mode: Mode, m: Id): Stage {
    match mode
    case Down => Off
    case Recovering(todo) => if m in todo then Listed else Passed
    case Running => On
  }

  function Lookup<T>(values: map<Id, T>, m: Id): Option<T> {
    if m in values then Some(values[m]) else None
  }

  function MarkerAt(w: World, plan: Option<Plan>): Option<Marker> {
    if plan.Some? && plan.value in w.markers then Some(w.markers[plan.value]) else None
  }

  ghost function ViewOf(w: World, m: Id): View {
    var plan := Lookup(w.plans, m);
    View(StageOf(w.mode, m), plan, Lookup(w.store, m), Lookup(w.owners, m), m in w.queue,
         Count(w.grants, m), Count(w.commits, m),
         if plan.Some? then Lane(Inbox(w, plan.value.destination), m) else [],
         MarkerAt(w, plan), RepliesFor(w.sent, m), m in w.forced, m in w.skipped, m in w.settled,
         Lookup(w.finals, m))
  }

  // ---- the invariant --------------------------------------------------------

  /** Every message is in its own destination's inbox. */
  ghost predicate AddressedTo(plans: map<Id, Plan>, e: Endpoint, inbox: seq<Msg>) {
    forall i | 0 <= i < |inbox| :: inbox[i].m in plans && plans[inbox[i].m] == Plan(e, inbox[i].version)
  }

  ghost predicate Addressed(w: World) {
    forall e | e in w.procs :: AddressedTo(w.plans, e, w.procs[e].inbox)
  }

  /** A marker names only a movement planned for that place. */
  ghost predicate NamedAt(plans: map<Id, Plan>, place: Plan, marker: Marker) {
    marker.movement.Some? ==> marker.movement.value in plans && plans[marker.movement.value] == place
  }

  ghost predicate Named(w: World) {
    forall place | place in w.markers :: NamedAt(w.plans, place, w.markers[place])
  }

  ghost predicate AllGood(c: Config, w: World) {
    forall m: Id :: Good(c, m, ViewOf(w, m))
  }

  ghost predicate Inv(c: Config, w: World) {
    Addressed(w) && Named(w) && AllGood(c, w)
  }

  // ---- lanes ----------------------------------------------------------------

  lemma {:induction false} LaneSnoc(inbox: seq<Msg>, msg: Msg, m: Id)
    ensures Lane(inbox + [msg], m) == if msg.m == m then Lane(inbox, m) + [msg] else Lane(inbox, m)
  {
    if inbox == [] {
      assert inbox + [msg] == [msg] && [msg][1..] == [];
    } else {
      assert (inbox + [msg])[1..] == inbox[1..] + [msg];
      LaneSnoc(inbox[1..], msg, m);
    }
  }

  lemma {:induction false} LanePrefix(inbox: seq<Msg>, kept: nat, m: Id)
    requires kept <= |inbox|
    ensures Lane(inbox[..kept], m) <= Lane(inbox, m)
  {
    if kept > 0 {
      assert inbox[..kept][1..] == inbox[1..][..kept - 1];
      LanePrefix(inbox[1..], kept - 1, m);
    }
  }

  lemma {:induction false} LaneNone(inbox: seq<Msg>, m: Id)
    requires forall i | 0 <= i < |inbox| :: inbox[i].m != m
    ensures Lane(inbox, m) == []
  {
    if inbox != [] { LaneNone(inbox[1..], m); }
  }

  lemma AddressedSnoc(plans: map<Id, Plan>, e: Endpoint, inbox: seq<Msg>, msg: Msg)
    requires AddressedTo(plans, e, inbox) && msg.m in plans && plans[msg.m] == Plan(e, msg.version)
    ensures AddressedTo(plans, e, inbox + [msg])
  {
  }

  // ---- how elementary changes show in the views ------------------------------

  lemma Fields(w: World, x: Id)
    ensures var v := ViewOf(w, x);
      && v.stage == StageOf(w.mode, x) && v.plan == Lookup(w.plans, x) && v.stored == Lookup(w.store, x)
      && v.owner == Lookup(w.owners, x) && (v.queued <==> x in w.queue)
      && v.grants == Count(w.grants, x) && v.commits == Count(w.commits, x)
      && v.marker == MarkerAt(w, v.plan) && v.replies == RepliesFor(w.sent, x)
      && (v.forced <==> x in w.forced) && (v.skipped <==> x in w.skipped) && (v.settled <==> x in w.settled)
      && v.final == Lookup(w.finals, x)
  {
  }

  lemma OwnView(w: World, m: Id, o: Owner, x: Id)
    ensures ViewOf(Own(w, m, o), x) == if x == m then ViewOf(w, m).(owner := Some(o)) else ViewOf(w, x)
  {
    hide Lane, RepliesFor;
  }

  lemma UnqueueView(w: World, m: Id, x: Id)
    ensures ViewOf(w.(queue := w.queue - {m}), x) ==
      if x == m then ViewOf(w, m).(queued := false) else ViewOf(w, x)
  {
    hide Lane, RepliesFor;
  }

  lemma GrantView(w: World, m: Id, x: Id)
    ensures ViewOf(w.(grants := w.grants[m := Count(w.grants, m) + 1]), x) ==
      if x == m then ViewOf(w, m).(grants := ViewOf(w, m).grants + 1) else ViewOf(w, x)
  {
    hide Lane, RepliesFor;
  }

  lemma RequestView(w: World, m: Id, x: Id)
    ensures ViewOf(w.(commits := w.commits[m := Count(w.commits, m) + 1]), x) ==
      if x == m then ViewOf(w, m).(commits := ViewOf(w, m).commits + 1) else ViewOf(w, x)
  {
    hide Lane, RepliesFor;
  }

  lemma TurnView(w: World, m: Id, x: Id)
    requires w.mode.Recovering?
    ensures ViewOf(w.(mode := Mode.Recovering(w.mode.todo - {m})), x) ==
      if x == m then ViewOf(w, m).(stage := Passed) else ViewOf(w, x)
  {
    hide Lane, RepliesFor;
  }

  lemma MarkView(w: World, place: Plan, marker: Marker, x: Id)
    ensures ViewOf(w.(markers := w.markers[place := marker]), x) ==
      if ViewOf(w, x).plan == Some(place) then ViewOf(w, x).(marker := Some(marker)) else ViewOf(w, x)
  {
    hide Lane, RepliesFor;
  }

  lemma RetireView(w: World, m: Id, x: Id)
    ensures ViewOf(DoRetire(w, m), x) ==
      if x != m then ViewOf(w, x)
      else ViewOf(w, m).(stored := None, stage := if ViewOf(w, m).stage.Listed? then Passed else ViewOf(w, m).stage)
  {
    hide Lane, RepliesFor;
  }

  lemma PutView(w: World, m: Id, r: Rec, x: Id)
    ensures ViewOf(Put(w, m, r), x) == if x == m then PutV(ViewOf(w, m), r) else ViewOf(w, x)
  {
    hide Lane, RepliesFor;
  }

  lemma FinishView(w: World, m: Id, moved: Option<Rec>, x: Id)
    ensures ViewOf(Finish(w, m, moved), x) == if x == m then FinishV(ViewOf(w, m), moved) else ViewOf(w, x)
  {
    hide Lane, RepliesFor;
  }

  lemma ContinueView(w: World, m: Id, moved: Option<Rec>, phase: Phase, x: Id)
    ensures ViewOf(Continue(w, m, moved, phase), x) ==
      if x == m then ContinueV(ViewOf(w, m), moved, phase) else ViewOf(w, x)
  {
    hide Lane, RepliesFor;
  }

  lemma SendView(w: World, e: Endpoint, msg: Msg, x: Id)
    requires e in w.procs && msg.m in w.plans && w.plans[msg.m].destination == e
    ensures ViewOf(Send(w, e, msg), x) ==
      if x == msg.m then ViewOf(w, x).(lane := ViewOf(w, x).lane + [msg]) else ViewOf(w, x)
  {
    LaneSnoc(w.procs[e].inbox, msg, x);
  }

  lemma LanePop(inbox: seq<Msg>, x: Id)
    requires inbox != []
    ensures Lane(inbox[1..], x) == if x == inbox[0].m then Lane(inbox, x)[1..] else Lane(inbox, x)
    ensures x == inbox[0].m ==> Lane(inbox, x) != [] && Lane(inbox, x)[0] == inbox[0]
  {
  }

  lemma NetView(w: World, w': World, x: Id)
    requires w' == w.(procs := w'.procs)
    ensures ViewOf(w', x) == ViewOf(w, x).(lane := LaneOf(w', x))
    ensures ViewOf(w, x).lane == LaneOf(w, x)
  {
    hide Lane, RepliesFor;
  }

  function LaneOf(w: World, x: Id): seq<Msg> {
    if x in w.plans then Lane(Inbox(w, w.plans[x].destination), x) else []
  }

  lemma PopView(w: World, e: Endpoint, x: Id)
    requires e in w.procs && w.procs[e].inbox != [] && w.procs[e].inbox[0].m in w.plans
    requires w.plans[w.procs[e].inbox[0].m].destination == e
    ensures ViewOf(Pop(w, e), x) ==
      if x == w.procs[e].inbox[0].m then ViewOf(w, x).(lane := ViewOf(w, x).lane[1..]) else ViewOf(w, x)
    ensures x == w.procs[e].inbox[0].m ==> ViewOf(w, x).lane != [] && ViewOf(w, x).lane[0] == w.procs[e].inbox[0]
  {
    hide ViewOf, Lane, Grows;
    LanePop(w.procs[e].inbox, x);
    NetView(w, Pop(w, e), x);
    var v := ViewOf(w, x);
    if x != w.procs[e].inbox[0].m {
      assert LaneOf(Pop(w, e), x) == v.lane;
      assert v.(lane := v.lane) == v;
    }
  }

  lemma AnswerView(w: World, e: Endpoint, reply: Reply, x: Id)
    ensures var v, v' := ViewOf(w, x), ViewOf(Answer(w, e, reply), x);
      && v' == v.(replies := v'.replies)
      && (x != reply.m ==> v' == v)
      && forall other | other in v'.replies && other !in v.replies :: other == reply
  {
    if x != reply.m { assert RepliesFor(w.sent + {reply}, x) == RepliesFor(w.sent, x); }
  }

  // ---- each step keeps every view good --------------------------------------

  lemma PlanView(w: World, m: Id, plan: Plan, x: Id)
    requires Addressed(w) && Named(w) && m !in w.plans
    ensures var v, v' := ViewOf(w, x), ViewOf(w.(plans := w.plans[m := plan], born := w.born[m := |w.plans|]), x);
      if x != m then v' == v
      else
        && v.plan.None? && v' == v.(plan := Some(plan), marker := v'.marker)
        && (v'.marker.Some? ==> v'.marker.value.movement != Some(m))
  {
    hide Lane, RepliesFor, Addressed, Named;
    NoMessage(w, m, plan.destination);
    NoMarker(w, m, plan);
  }

  lemma NoMessage(w: World, m: Id, e: Endpoint)
    requires Addressed(w) && m !in w.plans
    ensures Lane(Inbox(w, e), m) == []
  {
    forall i | 0 <= i < |Inbox(w, e)| ensures Inbox(w, e)[i].m != m {
      assert AddressedTo(w.plans, e, w.procs[e].inbox);
    }
    LaneNone(Inbox(w, e), m);
  }

  lemma NoMarker(w: World, m: Id, place: Plan)
    requires Named(w) && m !in w.plans
    ensures place in w.markers ==> w.markers[place].movement != Some(m)
  {
    assert place in w.markers ==> NamedAt(w.plans, place, w.markers[place]);
  }

  lemma SubmitStep(c: Config, w: World, m: Id, plan: Plan, bound: nat, x: Id)
    requires Inv(c, w) && w.mode.Running? && m !in w.plans && 0 < bound <= Movement.MAX_EVENTS
    ensures Good(c, x, ViewOf(DoSubmit(w, m, plan, bound), x))
  {
    hide Good, ViewOf, Addressed, Named, Put, Own, PutV;
    assert Good(c, x, ViewOf(w, x));
    Fields(w, x);
    var r := Rec(plan, Movement.Planned, 1, 0, 0, 1, bound, false);
    var w' := w.(plans := w.plans[m := plan], born := w.born[m := |w.plans|]);
    PlanView(w, m, plan, x);
    PutView(w', m, r, x);
    OwnView(Put(w', m, r), m, Submitting(r), x);
    if x == m { SubmitGood(c, m, ViewOf(w, m), r); }
  }

  lemma AuthorizeView(w: World, m: Id, r: Rec, x: Id)
    ensures var moved := Move(r, Movement.Authorized, true);
      var v := ViewOf(w, x);
      ViewOf(DoAuthorize(w, m, r), x) ==
        if x != m then v else if moved.Some? then FinishV(v, moved).(queued := true) else FinishV(v, moved)
  {
    hide Move, Lane;
    FinishView(w, m, Move(r, Movement.Authorized, true), x);
  }

  lemma AuthorizeStep(c: Config, w: World, m: Id, x: Id)
    requires Inv(c, w) && m in w.owners && w.owners[m].Submitting?
    ensures Good(c, x, ViewOf(DoAuthorize(w, m, w.owners[m].r), x))
  {
    hide Good, ViewOf, DoAuthorize, Move, Addressed, Named;
    assert Good(c, x, ViewOf(w, x));
    Fields(w, m);
    AuthorizeView(w, m, w.owners[m].r, x);
    if x == m { AuthorizeGood(c, m, ViewOf(w, m), w.owners[m].r); }
  }

  lemma PickView(w: World, m: Id, x: Id)
    ensures var v := ViewOf(w, x);
      ViewOf(DoPick(w, m), x) ==
        if x != m then v
        else if StoredOpen(v) && !StoredUnknown(v)
        then v.(queued := false, owner := Some(Driving(v.stored.value, Start)))
        else v.(queued := false)
  {
    hide ViewOf, Own;
    Fields(w, m);
    UnqueueView(w, m, x);
    if m in w.store { OwnView(w.(queue := w.queue - {m}), m, Driving(w.store[m], Start), x); }
  }

  lemma PickStep(c: Config, w: World, m: Id, x: Id)
    requires Inv(c, w) && m in w.queue && m !in w.owners
    ensures Good(c, x, ViewOf(DoPick(w, m), x))
  {
    hide Good, ViewOf, DoPick, StoredOpen, StoredUnknown, Addressed, Named;
    assert Good(c, x, ViewOf(w, x));
    Fields(w, m);
    PickView(w, m, x);
    if x == m { PickGood(c, m, ViewOf(w, m)); }
  }

  /** Working copies and counters of a driven movement. */
  lemma DrivenFacts(c: Config, w: World, m: Id)
    requires Inv(c, w) && DrivingIn(w, m)
    ensures Good(c, m, ViewOf(w, m)) && ViewOf(w, m).owner == Some(w.owners[m])
    ensures var r := w.owners[m].r;
      && RecordOk(r) && !r.cancelRequested
      && m in w.plans && r.plan == w.plans[m] && w.mode.Running?
      && !Movement.Terminal(r.state) && !r.state.OutcomeUnknown?
      && AttemptsOk(c, ViewOf(w, m), r, w.owners[m].phase)
  {
    hide Lane, RepliesFor, Addressed, Named, LaneOk, RepliesOk;
    assert Good(c, m, ViewOf(w, m));
  }

  lemma AttemptStep(c: Config, w: World, m: Id, x: Id)
    requires Inv(c, w) && DrivingIn(w, m) && NextAttempt(c, w.owners[m].phase)
    ensures var o := w.owners[m];
      Good(c, x, ViewOf(DoAttempt(w, m, o.r, if o.phase.Start? then 1 else o.phase.n), x))
  {
    hide Good, ViewOf, Addressed, Named, Continue, ContinueV;
    assert Good(c, x, ViewOf(w, x));
    DrivenFacts(c, w, m);
    var v, o := ViewOf(w, m), w.owners[m];
    var n := if o.phase.Start? then 1 else o.phase.n;
    var begun := Begin(o.r);
    if begun.Some? {
      GrantView(w, m, x);
      ContinueView(w.(grants := w.grants[m := Count(w.grants, m) + 1]), m, begun, Granted(n), x);
      if x == m {
        ContinueGood(c, m, v, o.r, o.phase, begun.value, Granted(n), v.grants + 1);
      }
    } else {
      DriveStep(c, w, m, None, Granted(n), x);
    }
  }

  lemma DriveStep(c: Config, w: World, m: Id, moved: Option<Rec>, phase: Phase, x: Id)
    requires Inv(c, w) && DrivingIn(w, m) && !w.owners[m].phase.CommitWait? && !phase.CommitWait?
    requires moved.Some? ==>
      var r, r' := w.owners[m].r, moved.value;
      && r'.plan == r.plan && RecordOk(r') && r'.cancelRequested == r.cancelRequested
      && !Movement.Terminal(r'.state) && !r'.state.OutcomeUnknown?
      && AttemptsOk(c, ViewOf(w, m).(stored := Some(r')), r', phase)
    ensures Good(c, x, ViewOf(Continue(w, m, moved, phase), x))
  {
    hide Good, ViewOf, AttemptsOk, Addressed, Named, Continue;
    assert Good(c, x, ViewOf(w, x));
    DrivenFacts(c, w, m);
    ContinueView(w, m, moved, phase, x);
    if x == m {
      var v, o := ViewOf(w, m), w.owners[m];
      if moved.Some? {
        GrantsBounded(c, m, v);
        assert v.(grants := v.grants, stored := moved) == v.(stored := moved) && v.(grants := v.grants) == v;
        ContinueGood(c, m, v, o.r, o.phase, moved.value, phase, v.grants);
      } else {
        FinishGood(c, m, v, o.r, o.phase, None);
      }
    }
  }

  lemma GrantsBounded(c: Config, m: Id, v: View)
    requires Good(c, m, v)
    ensures v.grants <= c.maxAttempts
  {
  }

  lemma DispatchStep(c: Config, w: World, m: Id, x: Id)
    requires Inv(c, w) && DrivingIn(w, m) && w.owners[m].phase.Granted?
    ensures Good(c, x, ViewOf(
      Continue(w, m, Move(w.owners[m].r, Movement.Transferring, true), Awaiting(w.owners[m].phase.n, 0)), x))
  {
    hide Good, ViewOf, Inv, Continue;
    DrivenFacts(c, w, m);
    DriveStep(c, w, m, Move(w.owners[m].r, Movement.Transferring, true), Awaiting(w.owners[m].phase.n, 0), x);
  }

  lemma RetryStep(c: Config, w: World, m: Id, text: bool, x: Id)
    requires Inv(c, w) && DrivingIn(w, m) && (w.owners[m].phase.Awaiting? || w.owners[m].phase.Arrived?)
    requires w.owners[m].phase.n < c.maxAttempts
    ensures Good(c, x, ViewOf(DoRetry(w, m, w.owners[m].r, w.owners[m].phase.n, text), x))
  {
    hide Good, ViewOf, Inv, Continue;
    DrivenFacts(c, w, m);
    DriveStep(c, w, m, Some(Note(w.owners[m].r, text)), Between(w.owners[m].phase.n + 1), x);
  }

  lemma ArrivedStep(c: Config, w: World, m: Id, x: Id)
    requires Inv(c, w) && DrivingIn(w, m) && w.owners[m].phase.Awaiting?
    ensures Good(c, x, ViewOf(
      Continue(w, m, Move(w.owners[m].r, Movement.BytesArrived, true), Arrived(w.owners[m].phase.n)), x))
  {
    hide Good, ViewOf, Inv, Continue;
    DrivenFacts(c, w, m);
    DriveStep(c, w, m, Move(w.owners[m].r, Movement.BytesArrived, true), Arrived(w.owners[m].phase.n), x);
  }

  lemma VerifiedStep(c: Config, w: World, m: Id, x: Id)
    requires Inv(c, w) && DrivingIn(w, m) && w.owners[m].phase.Arrived?
    ensures Good(c, x, ViewOf(
      Continue(w, m, Move(w.owners[m].r, Movement.Verified, true), Barrier(w.owners[m].phase.n)), x))
  {
    hide Good, ViewOf, Inv, Continue;
    DrivenFacts(c, w, m);
    DriveStep(c, w, m, Move(w.owners[m].r, Movement.Verified, true), Barrier(w.owners[m].phase.n), x);
  }

  /** Giving up before the commit request. */
  lemma StopDriving(c: Config, w: World, m: Id, moved: Option<Rec>, x: Id)
    requires Inv(c, w) && DrivingIn(w, m) && !w.owners[m].phase.CommitWait?
    requires moved.Some? ==>
      var r, r' := w.owners[m].r, moved.value;
      r'.plan == r.plan && RecordOk(r') && !r'.state.Committed? && !r'.cancelRequested
    ensures Good(c, x, ViewOf(Finish(w, m, moved), x))
  {
    hide Good, ViewOf, Finish, FinishV, Addressed, Named;
    assert Good(c, x, ViewOf(w, x));
    Fields(w, m);
    FinishView(w, m, moved, x);
    if x == m { FinishGood(c, m, ViewOf(w, m), w.owners[m].r, w.owners[m].phase, moved); }
  }

  lemma GiveUpStep(c: Config, w: World, m: Id, to: State, text: bool, x: Id)
    requires Inv(c, w) && DrivingIn(w, m) && MayGiveUp(c, w.owners[m].r, w.owners[m].phase, to)
    ensures Good(c, x, ViewOf(Finish(w, m, Move(w.owners[m].r, to, text)), x))
  {
    hide Good, ViewOf, Inv, Finish;
    DrivenFacts(c, w, m);
    StopDriving(c, w, m, Move(w.owners[m].r, to, text), x);
  }

  lemma AbandonStep(c: Config, w: World, m: Id, x: Id)
    requires Inv(c, w) && DrivingIn(w, m) && !w.owners[m].phase.CommitWait?
    ensures Good(c, x, ViewOf(Disown(w, m), x))
  {
    hide Good, ViewOf, Inv;
    StopDriving(c, w, m, None, x);
  }

  lemma StaleStep(c: Config, w: World, m: Id, x: Id)
    requires Inv(c, w) && DrivingIn(w, m) && w.owners[m].phase.Awaiting?
    ensures var o := w.owners[m]; Good(c, x, ViewOf(DoStale(w, m, o.r, o.phase.n, o.phase.stale), x))
  {
    hide Good, ViewOf, Addressed, Named, Finish, Own;
    DrivenFacts(c, w, m);
    assert Good(c, x, ViewOf(w, x));
    var o := w.owners[m];
    if o.phase.stale + 1 >= 4 {
      StopDriving(c, w, m, Move(Note(o.r, true), Movement.OutcomeUnknown, true), x);
    } else {
      OwnView(w, m, Driving(Note(o.r, true), Awaiting(o.phase.n, o.phase.stale + 1)), x);
      if x == m { NoteGood(c, m, ViewOf(w, m), o.r, o.phase.n, o.phase.stale); }
    }
  }

  // ---- the commit barrier ---------------------------------------------------

  lemma SendCommitStep(c: Config, w: World, m: Id, delivered: bool, x: Id)
    requires Inv(c, w) && DrivingIn(w, m) && w.owners[m].phase.Barrier?
    requires delivered ==> Linked(w, w.owners[m].r.plan.destination)
    ensures Good(c, x, ViewOf(DoSendCommit(w, m, w.owners[m].r, delivered), x))
  {
    hide Good, ViewOf, Addressed, Named, Own, Send;
    DrivenFacts(c, w, m);
    assert Good(c, x, ViewOf(w, x));
    var o := w.owners[m];
    var w1 := w.(commits := w.commits[m := Count(w.commits, m) + 1]);
    RequestView(w, m, x);
    var w2 := OwnSame(w1, m, Driving(o.r, CommitWait));
    OwnView(w1, m, Driving(o.r, CommitWait), x);
    var msg := Commit(m, o.r.generation, o.r.plan.version);
    if delivered { SendView(w2, o.r.plan.destination, msg, x); }
    if x == m {
      var lane := if delivered then ViewOf(w, m).lane + [msg] else ViewOf(w, m).lane;
      SendCommitGood(c, m, ViewOf(w, m), o.r, o.phase.n, lane);
    }
  }

  lemma OwnSame(w: World, m: Id, o: Owner) returns (w': World)
    ensures w' == Own(w, m, o) && w'.procs == w.procs && w'.plans == w.plans
  {
    w' := Own(w, m, o);
  }

  lemma CommitAnswerStep(c: Config, w: World, m: Id, reply: Reply, text: bool, x: Id)
    requires Inv(c, w) && DrivingIn(w, m) && w.owners[m].phase.CommitWait?
    requires reply in w.sent && reply.CommitResult? && reply.m == m
    ensures Good(c, x, ViewOf(DoCommitAnswer(w, m, w.owners[m].r, reply, text), x))
  {
    hide Good, ViewOf, Addressed, Named, Move, Sealed, Finish, FinishV;
    assert Good(c, x, ViewOf(w, x));
    Fields(w, m);
    var r := w.owners[m].r;
    var moved := if reply.generation != r.generation then Move(r, Movement.OutcomeUnknown, true)
      else if !reply.ok then Move(r, Movement.Failed, text)
      else Sealed(Move(r, Movement.Committed, true), reply.seal);
    FinishView(w, m, moved, x);
    if x == m { CommitAnswerGood(c, m, ViewOf(w, m), r, reply, text); }
  }

  lemma NoAnswerStep(c: Config, w: World, m: Id, x: Id)
    requires Inv(c, w) && DrivingIn(w, m) && w.owners[m].phase.CommitWait?
    ensures Good(c, x, ViewOf(Finish(w, m, Move(w.owners[m].r, Movement.OutcomeUnknown, true)), x))
  {
    hide Good, ViewOf, Addressed, Named, Move, Finish, FinishV;
    assert Good(c, x, ViewOf(w, x));
    Fields(w, m);
    FinishView(w, m, Move(w.owners[m].r, Movement.OutcomeUnknown, true), x);
    if x == m { NoAnswerGood(c, m, ViewOf(w, m), w.owners[m].r); }
  }

  // ---- the destination ------------------------------------------------------

  lemma HeadPlanned(w: World, e: Endpoint, commit: bool)
    requires Addressed(w) && Head(w, e, commit)
    ensures var msg := w.procs[e].inbox[0]; msg.m in w.plans && w.plans[msg.m] == Plan(e, msg.version)
  {
    assert AddressedTo(w.plans, e, w.procs[e].inbox);
  }

  /** Taking a message and answering it changes the view of its own movement only. */
  lemma HandledView(w: World, e: Endpoint, reply: Reply, x: Id)
    requires e in w.procs && w.procs[e].inbox != [] && w.procs[e].inbox[0].m == reply.m
    requires reply.m in w.plans && w.plans[reply.m].destination == e
    ensures var v, v' := ViewOf(w, x), ViewOf(Answer(Pop(w, e), e, reply), x);
      if x != reply.m then v' == v
      else
        && v.lane != [] && v.lane[0] == w.procs[e].inbox[0]
        && v' == v.(lane := v.lane[1..], replies := v'.replies)
        && (forall other | other in v'.replies && other !in v.replies :: other == reply)
  {
    hide ViewOf, Answer, Pop;
    PopView(w, e, x);
    AnswerView(Pop(w, e), e, reply, x);
  }

  ghost function CommitReply(msg: Msg, ok: bool, seal: Seal): Reply
    requires msg.Commit?
  {
    CommitResult(msg.m, msg.generation, ok, if ok then seal else 0)
  }

  lemma HandleCommitStep(c: Config, w: World, e: Endpoint, willing: bool, seal: Seal, x: Id)
    requires Inv(c, w) && Head(w, e, true)
    ensures Good(c, x, ViewOf(DoHandleCommit(w, e, willing, seal), x))
  {
    var msg := w.procs[e].inbox[0];
    var place := Plan(e, msg.version);
    var ok := willing && (place in w.markers ==> w.markers[place].seal == seal);
    if ok && place !in w.markers {
      MarkedStep(c, w, e, seal, x);
    } else {
      UnmarkedStep(c, w, e, ok, seal, x);
    }
  }

  lemma UnmarkedStep(c: Config, w: World, e: Endpoint, ok: bool, seal: Seal, x: Id)
    requires Inv(c, w) && Head(w, e, true)
    requires var place := Plan(e, w.procs[e].inbox[0].version);
      ok ==> place in w.markers && w.markers[place].seal == seal
    ensures Good(c, x, ViewOf(Answer(Pop(w, e), e, CommitReply(w.procs[e].inbox[0], ok, seal)), x))
  {
    hide Good, ViewOf, Answer, Pop, Addressed, Named;
    HeadPlanned(w, e, true);
    assert Good(c, x, ViewOf(w, x));
    Fields(w, x);
    var msg := w.procs[e].inbox[0];
    var reply := CommitReply(msg, ok, seal);
    HandledView(w, e, reply, x);
    if x == msg.m { HandleCommitGood(c, x, ViewOf(w, x), ok, seal, ViewOf(Answer(Pop(w, e), e, reply), x).replies); }
  }

  lemma MarkedStep(c: Config, w: World, e: Endpoint, seal: Seal, x: Id)
    requires Inv(c, w) && Head(w, e, true) && Plan(e, w.procs[e].inbox[0].version) !in w.markers
    ensures var msg := w.procs[e].inbox[0];
      var w' := w.(markers := w.markers[Plan(e, msg.version) := Marker(Some(msg.m), seal)]);
      Good(c, x, ViewOf(Answer(Pop(w', e), e, CommitReply(msg, true, seal)), x))
  {
    hide Good, ViewOf, Answer, Pop, Addressed, Named;
    HeadPlanned(w, e, true);
    assert Good(c, x, ViewOf(w, x));
    Fields(w, x);
    var msg := w.procs[e].inbox[0];
    var place, marker, reply := Plan(e, msg.version), Marker(Some(msg.m), seal), CommitReply(msg, true, seal);
    var w' := w.(markers := w.markers[place := marker]);
    MarkView(w, place, marker, x);
    HandledView(w', e, reply, x);
    if x == msg.m {
      HandleCommitGood(c, x, ViewOf(w, x), true, seal, ViewOf(Answer(Pop(w', e), e, reply), x).replies);
    } else if ViewOf(w, x).plan == Some(place) {
      ForeignMarkerGood(c, x, ViewOf(w, x), marker);
    }
  }

  lemma HandleQueryStep(c: Config, w: World, e: Endpoint, bytes: bool, x: Id)
    requires Inv(c, w) && Head(w, e, false)
    ensures Good(c, x, ViewOf(DoHandleQuery(w, e, bytes), x))
  {
    hide Good, ViewOf, Answer, Pop, Addressed, Named;
    HeadPlanned(w, e, false);
    assert Good(c, x, ViewOf(w, x));
    Fields(w, x);
    var msg := w.procs[e].inbox[0];
    var place := Plan(e, msg.version);
    var present := place in w.markers;
    var reply := Report(msg.m, present, present && bytes, if present then w.markers[place].seal else 0);
    HandledView(w, e, reply, x);
    if x == msg.m {
      HandleQueryGood(c, x, ViewOf(w, x), bytes, ViewOf(Answer(Pop(w, e), e, reply), x).replies);
    }
  }

  lemma PublishStep(c: Config, w: World, e: Endpoint, version: Version, seal: Seal, x: Id)
    requires Inv(c, w) && Plan(e, version) !in w.markers
    ensures Good(c, x, ViewOf(w.(markers := w.markers[Plan(e, version) := Marker(None, seal)]), x))
  {
    hide Good, ViewOf, Addressed, Named;
    assert Good(c, x, ViewOf(w, x));
    Fields(w, x);
    MarkView(w, Plan(e, version), Marker(None, seal), x);
    if ViewOf(w, x).plan == Some(Plan(e, version)) { ForeignMarkerGood(c, x, ViewOf(w, x), Marker(None, seal)); }
  }

  /** A process loses messages from the end of its inbox, or all of them. */
  lemma ShrinkStep(c: Config, w: World, w': World, x: Id)
    requires Inv(c, w) && Shrinks(w, w')
    ensures Good(c, x, ViewOf(w', x))
  {
    hide Good, Lane;
    var v := ViewOf(w, x);
    assert Good(c, x, v);
    if v.plan.Some? {
      var e := v.plan.value.destination;
      var inbox, kept := Inbox(w, e), |Inbox(w', e)|;
      assert Inbox(w', e) == inbox[..kept];
      LanePrefix(inbox, kept, x);
      LoseGood(c, x, v, Lane(Inbox(w', e), x));
    }
  }

  // ---- operator requests, retention, stop and start --------------------------

  lemma NoteCancelView(w: World, m: Id, s: State, x: Id)
    ensures ViewOf(NoteCancel(w, m, s), x) == if x == m then Marked(ViewOf(w, m), s) else ViewOf(w, x)
  {
    hide Lane, RepliesFor;
  }

  lemma CancelView(w: World, m: Id, x: Id)
    requires m in w.store
    ensures var v, v' := ViewOf(w, x), ViewOf(DoCancel(w, m), x);
      var moved := Move(w.store[m].(cancelRequested := true), Movement.Cancelled, true);
      v' == if x == m && moved.Some? then PutV(Marked(v, w.store[m].state), moved.value) else v
  {
    hide ViewOf, Move, Put, PutV, NoteCancel, Marked;
    var moved := Move(w.store[m].(cancelRequested := true), Movement.Cancelled, true);
    if moved.Some? {
      NoteCancelView(w, m, w.store[m].state, x);
      PutView(NoteCancel(w, m, w.store[m].state), m, moved.value, x);
    }
  }

  lemma CancelStep(c: Config, w: World, m: Id, x: Id)
    requires Inv(c, w) && Idle(w, m) && !Movement.Terminal(w.store[m].state)
    ensures Good(c, x, ViewOf(DoCancel(w, m), x))
  {
    hide Good, ViewOf, DoCancel, Addressed, Named, Move, PutV;
    assert Good(c, x, ViewOf(w, x));
    Fields(w, m);
    CancelView(w, m, x);
    if x == m { CancelGood(c, m, ViewOf(w, m)); }
  }

  lemma StoredPlan(c: Config, w: World, m: Id)
    requires Inv(c, w) && m in w.store
    ensures m in w.plans && w.plans[m] == w.store[m].plan
  {
    assert Good(c, m, ViewOf(w, m));
  }

  lemma ReconcileBeginStep(c: Config, w: World, m: Id, delivered: bool, x: Id)
    requires Inv(c, w) && Idle(w, m) && w.store[m].state.OutcomeUnknown? && Linked(w, w.store[m].plan.destination)
    ensures Good(c, x, ViewOf(DoReconcileBegin(w, m, delivered), x))
  {
    hide Good, ViewOf, Addressed, Named, Own, Send;
    StoredPlan(c, w, m);
    assert Good(c, x, ViewOf(w, x));
    Fields(w, m);
    var r := w.store[m];
    var msg := Query(m, r.plan.version);
    var w' := OwnSame(w, m, Reconciling(r));
    OwnView(w, m, Reconciling(r), x);
    if delivered { SendView(w', r.plan.destination, msg, x); }
    if x == m {
      ReconcileBeginGood(c, m, ViewOf(w, m), if delivered then ViewOf(w, m).lane + [msg] else ViewOf(w, m).lane);
    }
  }

  lemma ReconcileAnswerStep(c: Config, w: World, m: Id, reply: Reply, x: Id)
    requires Inv(c, w) && m in w.owners && w.owners[m].Reconciling? && reply in w.sent && reply.Report? && reply.m == m
    ensures Good(c, x, ViewOf(DoReconcileAnswer(w, m, w.owners[m].r, reply), x))
  {
    hide Good, ViewOf, Addressed, Named, Move, Sealed, Finish, FinishV;
    assert Good(c, x, ViewOf(w, x));
    Fields(w, m);
    var r := w.owners[m].r;
    var moved := if reply.present && reply.mine then Sealed(Move(r, Movement.Committed, true), reply.seal)
      else if !reply.present then Move(r, if r.cancelRequested then Movement.Cancelled else Movement.Failed, true)
      else None;
    FinishView(w, m, moved, x);
    if x == m { ReconcileAnswerGood(c, m, ViewOf(w, m), r, reply); }
  }

  lemma ReconcileNoAnswerStep(c: Config, w: World, m: Id, x: Id)
    requires Inv(c, w) && m in w.owners && w.owners[m].Reconciling?
    ensures Good(c, x, ViewOf(Disown(w, m), x))
  {
    hide Good, ViewOf, Addressed, Named;
    assert Good(c, x, ViewOf(w, x));
    Fields(w, m);
    FinishView(w, m, None, x);
    if x == m { ReconcileEndGood(c, m, ViewOf(w, m), w.owners[m].r); }
  }

  lemma RetireStep(c: Config, w: World, m: Id, x: Id)
    requires Inv(c, w) && m in w.store && Movement.Terminal(w.store[m].state)
    ensures Good(c, x, ViewOf(DoRetire(w, m), x))
  {
    hide Good, ViewOf, Addressed, Named;
    assert Good(c, x, ViewOf(w, x));
    Fields(w, m);
    RetireView(w, m, x);
    if x == m { RetireGood(c, m, ViewOf(w, m), if ViewOf(w, m).stage.Listed? then Passed else ViewOf(w, m).stage); }
  }

  lemma StopView(w: World, x: Id)
    ensures ViewOf(DoStop(w), x) == ViewOf(w, x).(stage := Off, owner := None, queued := false, replies := {})
  {
    hide Lane;
    var v, v' := ViewOf(w, x), ViewOf(DoStop(w), x);
    assert v'.replies == RepliesFor({}, x) == {};
    assert v'.lane == v.lane by {
      hide RepliesFor;
      if v.plan.Some? { assert Inbox(DoStop(w), v.plan.value.destination) == Inbox(w, v.plan.value.destination); }
    }
  }

  lemma StopStep(c: Config, w: World, x: Id)
    requires Inv(c, w)
    ensures Good(c, x, ViewOf(DoStop(w), x))
  {
    hide Good, DoStop, ViewOf, Addressed, Named;
    assert Good(c, x, ViewOf(w, x));
    StopView(w, x);
    StopGood(c, x, ViewOf(w, x));
  }

  lemma LaunchView(w: World, listed: set<Id>, x: Id)
    requires listed <= w.store.Keys
    ensures var v := ViewOf(w, x);
      && (x in listed ==> v.stored.Some?)
      && ViewOf(DoLaunch(w, listed), x) == v.(
           stage := if x in listed then Listed else Passed,
           stored := if v.stored.Some? then Some(Reread(v.stored.value)) else None,
           skipped := v.stored.Some? && x !in listed)
  {
    hide Lane;
  }

  lemma LaunchStep(c: Config, w: World, listed: set<Id>, x: Id)
    requires Inv(c, w) && w.mode.Down? && listed <= w.store.Keys
    ensures Good(c, x, ViewOf(DoLaunch(w, listed), x))
  {
    hide Good, ViewOf, DoLaunch, Addressed, Named;
    assert Good(c, x, ViewOf(w, x));
    Fields(w, x);
    LaunchView(w, listed, x);
    LaunchGood(c, x, ViewOf(w, x), x in listed);
  }

  lemma RecoverView(w: World, m: Id, x: Id)
    requires w.mode.Recovering? && m in w.mode.todo && m in w.store
    ensures var r, v := w.store[m], ViewOf(w, x);
      var moved := if Movement.Terminal(r.state) then None
                   else Move(r, if r.state.Planned? then Movement.Failed else Movement.OutcomeUnknown, true);
      ViewOf(DoRecover(w, m), x) ==
        if x != m then v else if moved.Some? then PutV(v.(stage := Passed), moved.value) else v.(stage := Passed)
  {
    hide ViewOf, Move, Put, PutV;
    var r := w.store[m];
    var moved := if Movement.Terminal(r.state) then None
                 else Move(r, if r.state.Planned? then Movement.Failed else Movement.OutcomeUnknown, true);
    TurnView(w, m, x);
    if moved.Some? { PutView(w.(mode := Mode.Recovering(w.mode.todo - {m})), m, moved.value, x); }
  }

  lemma RecoverStep(c: Config, w: World, m: Id, x: Id)
    requires Inv(c, w) && w.mode.Recovering? && m in w.mode.todo && m in w.store
    ensures Good(c, x, ViewOf(DoRecover(w, m), x))
  {
    hide Good, ViewOf, DoRecover, Addressed, Named, Move;
    assert Good(c, x, ViewOf(w, x));
    Fields(w, m);
    RecoverView(w, m, x);
    if x == m { RecoverGood(c, m, ViewOf(w, m)); }
  }

  lemma RecoveredStep(c: Config, w: World, x: Id)
    requires Inv(c, w) && w.mode == Mode.Recovering({})
    ensures Good(c, x, ViewOf(w.(mode := Running), x))
  {
    hide Good, Lane, RepliesFor, Addressed, Named;
    assert Good(c, x, ViewOf(w, x));
    RecoveredGood(c, x, ViewOf(w, x));
  }

  // ---- every step -----------------------------------------------------------

  lemma WorkerStep(c: Config, w: World, s: Step, x: Id)
    requires Inv(c, w) && Enabled(c, w, s)
    requires s.Submit? || s.Authorize? || s.Pick? || s.Attempt? || s.Dispatch? || s.Stale? || s.Result? || s.Verify?
    ensures Good(c, x, ViewOf(Apply(c, w, s), x))
  {
    hide Inv, Good, ViewOf, Continue, DoSubmit, DoAuthorize, DoPick, DoAttempt, DoStale, DoRetry;
    match s
    case Submit(m, plan, bound) => SubmitStep(c, w, m, plan, bound, x);
    case Authorize(m) => AuthorizeStep(c, w, m, x);
    case Pick(m) => PickStep(c, w, m, x);
    case Attempt(m) => AttemptStep(c, w, m, x);
    case Dispatch(m) => DispatchStep(c, w, m, x);
    case Stale(m) => StaleStep(c, w, m, x);
    case Result(m, good, text) => if good { ArrivedStep(c, w, m, x); } else { RetryStep(c, w, m, text, x); }
    case Verify(m, good, text) => if good { VerifiedStep(c, w, m, x); } else { RetryStep(c, w, m, text, x); }
  }

  lemma BarrierStep(c: Config, w: World, s: Step, x: Id)
    requires Inv(c, w) && Enabled(c, w, s)
    requires s.SendCommit? || s.CommitAnswer? || s.NoAnswer? || s.GiveUp? || s.Abandon?
    ensures Good(c, x, ViewOf(Apply(c, w, s), x))
  {
    hide Inv, Good, ViewOf, Finish, Move, Disown, DoSendCommit, DoCommitAnswer;
    match s
    case SendCommit(m, delivered) => SendCommitStep(c, w, m, delivered, x);
    case CommitAnswer(m, reply, text) => CommitAnswerStep(c, w, m, reply, text, x);
    case NoAnswer(m) => NoAnswerStep(c, w, m, x);
    case GiveUp(m, to, text) => GiveUpStep(c, w, m, to, text, x);
    case Abandon(m) => AbandonStep(c, w, m, x);
  }

  lemma OperatorStep(c: Config, w: World, s: Step, x: Id)
    requires Inv(c, w) && Enabled(c, w, s)
    requires s.Cancel? || s.ReconcileBegin? || s.ReconcileAnswer? || s.ReconcileNoAnswer? || s.Retire?
    ensures Good(c, x, ViewOf(Apply(c, w, s), x))
  {
    hide Inv, Good, ViewOf, Disown, DoCancel, DoReconcileBegin, DoReconcileAnswer, DoRetire;
    match s
    case Cancel(m) => CancelStep(c, w, m, x);
    case ReconcileBegin(m, delivered) => ReconcileBeginStep(c, w, m, delivered, x);
    case ReconcileAnswer(m, reply) => ReconcileAnswerStep(c, w, m, reply, x);
    case ReconcileNoAnswer(m) => ReconcileNoAnswerStep(c, w, m, x);
    case Retire(m) => RetireStep(c, w, m, x);
  }

  lemma RestartStep(c: Config, w: World, s: Step, x: Id)
    requires Inv(c, w) && Enabled(c, w, s)
    requires s.Stop? || s.Launch? || s.Recover? || s.Recovered?
    ensures Good(c, x, ViewOf(Apply(c, w, s), x))
  {
    hide Inv, Good, ViewOf, DoStop, DoLaunch, DoRecover;
    match s
    case Stop => StopStep(c, w, x);
    case Launch(listed) => LaunchStep(c, w, listed, x);
    case Recover(m) => RecoverStep(c, w, m, x);
    case Recovered => RecoveredStep(c, w, x);
  }

  lemma EndpointStep(c: Config, w: World, s: Step, x: Id)
    requires Inv(c, w) && Enabled(c, w, s)
    requires s.HandleCommit? || s.HandleQuery? || s.Publish?
    ensures Good(c, x, ViewOf(Apply(c, w, s), x))
  {
    hide Inv, Good, ViewOf, DoHandleCommit, DoHandleQuery;
    match s
    case HandleCommit(e, willing, seal) => HandleCommitStep(c, w, e, willing, seal, x);
    case HandleQuery(e, bytes) => HandleQueryStep(c, w, e, bytes, x);
    case Publish(e, version, seal) => PublishStep(c, w, e, version, seal, x);
  }

  /** No inbox is other than before, but for messages lost from its end. */
  ghost predicate Shrinks(w: World, w': World) {
    w' == w.(procs := w'.procs) && forall e :: Inbox(w', e) <= Inbox(w, e)
  }

  lemma ProcShrinks(w: World, e: Endpoint, proc: Option<Proc>)
    requires proc.Some? ==> proc.value.inbox <= Inbox(w, e)
    ensures Shrinks(w, w.(procs := if proc.Some? then w.procs[e := proc.value] else w.procs - {e}))
  {
  }

  lemma LinkShrinks(c: Config, w: World, s: Step)
    requires Enabled(c, w, s) && (s.LinkDown? || s.Lose? || s.Exit? || s.Register?)
    ensures Shrinks(w, Apply(c, w, s))
  {
    hide Shrinks;
    match s
    case LinkDown(e) => ProcShrinks(w, e, Some(w.procs[e].(linked := false)));
    case Lose(e, kept) => ProcShrinks(w, e, Some(w.procs[e].(inbox := w.procs[e].inbox[..kept])));
    case Exit(e) => ProcShrinks(w, e, None);
    case Register(e) => ProcShrinks(w, e, Some(Proc([], true)));
  }

  lemma LinkStep(c: Config, w: World, s: Step, x: Id)
    requires Inv(c, w) && Enabled(c, w, s) && (s.LinkDown? || s.Lose? || s.Exit? || s.Register?)
    ensures Good(c, x, ViewOf(Apply(c, w, s), x))
  {
    hide Inv, Good, ViewOf, Apply, Enabled, Shrinks;
    LinkShrinks(c, w, s);
    ShrinkStep(c, w, Apply(c, w, s), x);
  }

  lemma ViewStep(c: Config, w: World, s: Step, x: Id)
    requires Inv(c, w) && Enabled(c, w, s)
    ensures Good(c, x, ViewOf(Apply(c, w, s), x))
  {
    hide Inv, Good, ViewOf, Apply, Enabled;
    match s
    case Submit(_, _, _) => WorkerStep(c, w, s, x);
    case Authorize(_) => WorkerStep(c, w, s, x);
    case Pick(_) => WorkerStep(c, w, s, x);
    case Attempt(_) => WorkerStep(c, w, s, x);
    case Dispatch(_) => WorkerStep(c, w, s, x);
    case Stale(_) => WorkerStep(c, w, s, x);
    case Result(_, _, _) => WorkerStep(c, w, s, x);
    case Verify(_, _, _) => WorkerStep(c, w, s, x);
    case SendCommit(_, _) => BarrierStep(c, w, s, x);
    case CommitAnswer(_, _, _) => BarrierStep(c, w, s, x);
    case NoAnswer(_) => BarrierStep(c, w, s, x);
    case GiveUp(_, _, _) => BarrierStep(c, w, s, x);
    case Abandon(_) => BarrierStep(c, w, s, x);
    case Cancel(_) => OperatorStep(c, w, s, x);
    case ReconcileBegin(_, _) => OperatorStep(c, w, s, x);
    case ReconcileAnswer(_, _) => OperatorStep(c, w, s, x);
    case ReconcileNoAnswer(_) => OperatorStep(c, w, s, x);
    case Retire(_) => OperatorStep(c, w, s, x);
    case Stop => RestartStep(c, w, s, x);
    case Launch(_) => RestartStep(c, w, s, x);
    case Recover(_) => RestartStep(c, w, s, x);
    case Recovered => RestartStep(c, w, s, x);
    case HandleCommit(_, _, _) => EndpointStep(c, w, s, x);
    case HandleQuery(_, _) => EndpointStep(c, w, s, x);
    case Publish(_, _, _) => EndpointStep(c, w, s, x);
    case LinkDown(_) => LinkStep(c, w, s, x);
    case Lose(_, _) => LinkStep(c, w, s, x);
    case Exit(_) => LinkStep(c, w, s, x);
    case Register(_) => LinkStep(c, w, s, x);
  }

  // ---- messages and markers stay in their places ----------------------------

  lemma SamePlaces(w: World, w': World)
    requires Addressed(w) && Named(w) && SameNet(w, w')
    ensures Addressed(w') && Named(w')
  {
  }

  lemma SubmitPlaces(w: World, m: Id, plan: Plan, bound: nat)
    requires Addressed(w) && Named(w) && m !in w.plans
    ensures var w' := DoSubmit(w, m, plan, bound); Addressed(w') && Named(w')
  {
    var w' := DoSubmit(w, m, plan, bound);
    forall e | e in w'.procs ensures AddressedTo(w'.plans, e, w'.procs[e].inbox) {
      assert AddressedTo(w.plans, e, w.procs[e].inbox);
    }
    forall place | place in w'.markers ensures NamedAt(w'.plans, place, w'.markers[place]) {
      assert NamedAt(w.plans, place, w.markers[place]);
    }
  }

  lemma SendPlaces(w: World, e: Endpoint, msg: Msg)
    requires Addressed(w) && Named(w) && e in w.procs && msg.m in w.plans && w.plans[msg.m] == Plan(e, msg.version)
    ensures Addressed(Send(w, e, msg)) && Named(Send(w, e, msg))
  {
    AddressedSnoc(w.plans, e, w.procs[e].inbox, msg);
  }

  lemma HandlePlaces(w: World, e: Endpoint, marker: Option<Marker>, w': World)
    requires Addressed(w) && Named(w) && e in w.procs && w.procs[e].inbox != []
    requires var msg := w.procs[e].inbox[0];
      && w'.plans == w.plans && w'.procs == w.procs[e := w.procs[e].(inbox := w.procs[e].inbox[1..])]
      && (marker.Some? ==> marker.value.movement == Some(msg.m))
      && w'.markers == if marker.Some? then w.markers[Plan(e, msg.version) := marker.value] else w.markers
    ensures Addressed(w') && Named(w')
  {
    var msg := w.procs[e].inbox[0];
    assert AddressedTo(w.plans, e, w.procs[e].inbox);
    forall d | d in w'.procs ensures AddressedTo(w'.plans, d, w'.procs[d].inbox) {
      assert AddressedTo(w.plans, d, w.procs[d].inbox);
    }
  }

  lemma ShrinkPlaces(w: World, w': World)
    requires Addressed(w) && Named(w) && Shrinks(w, w')
    ensures Addressed(w') && Named(w')
  {
    forall e | e in w'.procs ensures AddressedTo(w'.plans, e, w'.procs[e].inbox) {
      var inbox := Inbox(w, e);
      assert Inbox(w', e) == inbox[..|Inbox(w', e)|];
      if e in w.procs { assert AddressedTo(w.plans, e, w.procs[e].inbox); }
    }
  }

  lemma SendCommitPlaces(c: Config, w: World, m: Id, delivered: bool)
    requires Inv(c, w) && Enabled(c, w, SendCommit(m, delivered))
    ensures var w' := DoSendCommit(w, m, w.owners[m].r, delivered); Addressed(w') && Named(w')
  {
    hide Addressed, Named, AllGood;
    DrivenFacts(c, w, m);
    var r := w.owners[m].r;
    var w1 := Own(w.(commits := w.commits[m := Count(w.commits, m) + 1]), m, Driving(r, CommitWait));
    SamePlaces(w, w1);
    if delivered { SendPlaces(w1, r.plan.destination, Commit(m, r.generation, r.plan.version)); }
  }

  lemma ReconcilePlaces(c: Config, w: World, m: Id, delivered: bool)
    requires Inv(c, w) && Enabled(c, w, ReconcileBegin(m, delivered))
    ensures var w' := DoReconcileBegin(w, m, delivered); Addressed(w') && Named(w')
  {
    hide Addressed, Named, AllGood;
    StoredPlan(c, w, m);
    var r := w.store[m];
    var w1 := Own(w, m, Reconciling(r));
    SamePlaces(w, w1);
    if delivered { SendPlaces(w1, r.plan.destination, Query(m, r.plan.version)); }
  }

  lemma AnsweredPlaces(w: World, e: Endpoint, marker: Option<Marker>, reply: Reply)
    requires Addressed(w) && Named(w) && e in w.procs && w.procs[e].inbox != []
    requires marker.Some? ==> marker.value.movement == Some(w.procs[e].inbox[0].m)
    ensures var place := Plan(e, w.procs[e].inbox[0].version);
      var w1 := if marker.Some? then w.(markers := w.markers[place := marker.value]) else w;
      var w' := Answer(Pop(w1, e), e, reply);
      Addressed(w') && Named(w')
  {
    hide Addressed, Named;
    var place := Plan(e, w.procs[e].inbox[0].version);
    var w1 := if marker.Some? then w.(markers := w.markers[place := marker.value]) else w;
    HandlePlaces(w, e, marker, Answer(Pop(w1, e), e, reply));
  }

  lemma HandleCommitPlaces(w: World, e: Endpoint, willing: bool, seal: Seal)
    requires Addressed(w) && Named(w) && Head(w, e, true)
    ensures var w' := DoHandleCommit(w, e, willing, seal); Addressed(w') && Named(w')
  {
    hide Addressed, Named, Answer, Pop;
    var msg := w.procs[e].inbox[0];
    var place := Plan(e, msg.version);
    var ok := willing && (place in w.markers ==> w.markers[place].seal == seal);
    var marker := if ok && place !in w.markers then Some(Marker(Some(msg.m), seal)) else None;
    AnsweredPlaces(w, e, marker, CommitResult(msg.m, msg.generation, ok, if ok then seal else 0));
  }

  /** The steps that neither send nor handle a message nor write a marker. */
  predicate Silent(s: Step) {
    !s.Submit? && !s.SendCommit? && !s.ReconcileBegin? && !s.HandleCommit? && !s.HandleQuery? && !s.Publish? &&
    !s.Stop? && !s.LinkDown? && !s.Lose? && !s.Exit? && !s.Register?
  }

  lemma SilentPlaces(c: Config, w: World, s: Step)
    requires Enabled(c, w, s) && Silent(s)
    ensures SameNet(w, Apply(c, w, s))
  {
    hide Move, Sealed, Finish, Continue, Disown, DoAuthorize, DoPick, DoAttempt, DoStale, DoRetry,
      DoCommitAnswer, DoCancel, DoReconcileAnswer, DoRetire, DoLaunch, DoRecover;
  }

  lemma NoisyPlaces(c: Config, w: World, s: Step)
    requires Inv(c, w) && Enabled(c, w, s)
    requires s.Submit? || s.SendCommit? || s.ReconcileBegin? || s.HandleCommit? || s.HandleQuery? || s.Publish? ||
      s.Stop?
    ensures Addressed(Apply(c, w, s)) && Named(Apply(c, w, s))
  {
    hide Addressed, Named, AllGood, DoSubmit, DoSendCommit, DoReconcileBegin, DoHandleCommit, DoStop;
    match s
    case Submit(m, plan, bound) => SubmitPlaces(w, m, plan, bound);
    case SendCommit(m, delivered) => SendCommitPlaces(c, w, m, delivered);
    case ReconcileBegin(m, delivered) => ReconcilePlaces(c, w, m, delivered);
    case HandleCommit(e, willing, seal) => HandleCommitPlaces(w, e, willing, seal);
    case HandleQuery(e, bytes) => HandlePlaces(w, e, None, DoHandleQuery(w, e, bytes));
    case Publish(e, version, seal) => PublishPlaces(w, Plan(e, version), seal);
    case Stop => StopPlaces(w);
  }

  lemma PlacesStep(c: Config, w: World, s: Step)
    requires Inv(c, w) && Enabled(c, w, s)
    ensures Addressed(Apply(c, w, s)) && Named(Apply(c, w, s))
  {
    hide Addressed, Named, AllGood, Apply, Enabled, Shrinks, SameNet;
    if Silent(s) {
      SilentPlaces(c, w, s);
      SamePlaces(w, Apply(c, w, s));
    } else if s.LinkDown? || s.Lose? || s.Exit? || s.Register? {
      LinkShrinks(c, w, s);
      ShrinkPlaces(w, Apply(c, w, s));
    } else {
      NoisyPlaces(c, w, s);
    }
  }

  lemma PublishPlaces(w: World, place: Plan, seal: Seal)
    requires Addressed(w) && Named(w)
    ensures var w' := w.(markers := w.markers[place := Marker(None, seal)]); Addressed(w') && Named(w')
  {
  }

  lemma StopPlaces(w: World)
    requires Addressed(w) && Named(w)
    ensures Addressed(DoStop(w)) && Named(DoStop(w))
  {
    var cut := w.(procs := DoStop(w).procs);
    assert Shrinks(w, cut);
    ShrinkPlaces(w, cut);
    SamePlaces(cut, DoStop(w));
  }

  /** Every step keeps the invariant. */
  lemma StepInv(c: Config, w: World, s: Step)
    requires Inv(c, w) && Enabled(c, w, s)
    ensures Inv(c, Apply(c, w, s))
  {
    hide Addressed, Named, Good, ViewOf, Apply, Enabled;
    PlacesStep(c, w, s);
    forall m: Id ensures Good(c, m, ViewOf(Apply(c, w, s), m)) { ViewStep(c, w, s, m); }
  }

  lemma InitInv(c: Config)
    ensures Inv(c, INIT)
  {
    forall m: Id ensures Good(c, m, ViewOf(INIT, m)) {
      assert RepliesFor({}, m) == {};
    }
  }

  lemma {:induction false} RunInv(c: Config, worlds: seq<World>, steps: seq<Step>, n: nat)
    requires IsRun(c, worlds, steps) && n < |worlds|
    ensures Inv(c, worlds[n])
  {
    hide Inv, Apply, Enabled;
    if n == 0 {
      InitInv(c);
    } else {
      RunInv(c, worlds, steps, n - 1);
      assert IsStep(c, worlds[n - 1], steps[n - 1], worlds[n]);
      StepInv(c, worlds[n - 1], steps[n - 1]);
    }
  }
}
