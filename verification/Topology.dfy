/**
  The coordinator's view of its endpoints (src/topology.cpp): a vector of
  registrations, an index from endpoint to position, and a generation counter.
 */
module Topology {
  import opened Types
  import opened Movement
  import StateObject

  datatype Registration = Registration(
    endpoint: EndpointId, incarnation: Incarnation, servicePort: u16, dataPort: u16, contract: Bytes,
    capability: Digest, live: bool)

  datatype Link = Link(from: EndpointId, to: EndpointId)

  /** `EndpointRegistration::validate` */
  predicate ValidRegistration(r: Registration) {
    && r.endpoint != [] && r.incarnation.IsSet() && r.incarnation.endpoint == r.endpoint
    && r.servicePort != 0 && r.dataPort != 0 && 0 < |r.contract| <= StateObject.MAX_TEXT && !IsZero(r.capability)
  }

  // ---- what the view means --------------------------------------------------

  /** Linear search. */
  function Search(rs: seq<Registration>, e: EndpointId): Option<Registration> {
    if rs == [] then None else if rs[0].endpoint == e then Some(rs[0]) else Search(rs[1..], e)
  }

  datatype Status = Done | Invalid | StaleEpoch | Exhausted | NotFound

  datatype State = State(endpoints: seq<Registration>, links: seq<Link>, generation: u64)

  function Bump(g: u64): u64 {
    if g == U64_LIMIT - 1 then g else g + 1
  }

  /** The position of an endpoint, or the length when it is not there. */
  function Position(rs: seq<Registration>, e: EndpointId): (i: nat)
    ensures i <= |rs|
    ensures i < |rs| ==> rs[i].endpoint == e
    ensures forall j | 0 <= j < i :: rs[j].endpoint != e
  {
    if rs == [] || rs[0].endpoint == e then 0 else 1 + Position(rs[1..], e)
  }

  function LinksWithout(links: seq<Link>, e: EndpointId): seq<Link> {
    if links == [] then []
    else if links[0].from == e || links[0].to == e then LinksWithout(links[1..], e)
    else [links[0]] + LinksWithout(links[1..], e)
  }

  function PutStatus(s: State, r: Registration, maxEndpoints: nat): Status {
    if !ValidRegistration(r) then Invalid
    else match Search(s.endpoints, r.endpoint)
      case Some(current) => if current.incarnation.epoch > r.incarnation.epoch then StaleEpoch else Done
      case None => if |s.endpoints| >= maxEndpoints then Exhausted else Done
  }

  function Put(s: State, r: Registration, maxEndpoints: nat): State {
    var i := Position(s.endpoints, r.endpoint);
    if PutStatus(s, r, maxEndpoints) != Done then s
    else if i < |s.endpoints| then s.(endpoints := s.endpoints[i := r])
    else s.(endpoints := s.endpoints + [r])
  }

  function Remove(s: State, e: EndpointId): State {
    var i := Position(s.endpoints, e);
    if i == |s.endpoints| then s
    else s.(endpoints := s.endpoints[..i] + s.endpoints[i + 1..], links := LinksWithout(s.links, e))
  }

  function MarkDead(s: State, e: EndpointId): State {
    var i := Position(s.endpoints, e);
    if i == |s.endpoints| then s
    else State(s.endpoints[i := s.endpoints[i].(live := false)], s.links, Bump(s.generation))
  }

  function Reset(s: State): State {
    State([], [], Bump(s.generation))
  }

  // ---- properties over runs -------------------------------------------------

  /** The view as a coordinator constructs it. */
  const FRESH := State([], [], 1)

  /** `DoRestart` is a new coordinator process: a new view, reset before recovery. */
  datatype Op =
    | DoPut(r: Registration, maxEndpoints: nat)
    | DoRemove(e: EndpointId)
    | DoMarkDead(e: EndpointId)
    | DoReset
    | DoAdvance
    | DoRestart

  function Apply(s: State, op: Op): State {
    match op
    case DoPut(r, maxEndpoints) => Put(s, r, maxEndpoints)
    case DoRemove(e) => Remove(s, e)
    case DoMarkDead(e) => MarkDead(s, e)
    case DoReset => Reset(s)
    case DoAdvance => s.(generation := Bump(s.generation))
    case DoRestart => Reset(FRESH)
  }

  ghost predicate IsRun(states: seq<State>, ops: seq<Op>) {
    && |states| == |ops| + 1 && states[0] == FRESH
    && forall i | 0 <= i < |ops| :: states[i + 1] == Apply(states[i], ops[i])
  }

  /** No endpoint is listed twice. */
  ghost predicate Distinct(rs: seq<Registration>) {
    forall i, j | 0 <= i < j < |rs| :: rs[i].endpoint != rs[j].endpoint
  }

  function EpochOf(s: State, e: EndpointId): Option<u64> {
    match Search(s.endpoints, e) case None => None case Some(r) => Some(r.incarnation.epoch)
  }

  lemma {:induction false} SearchIs(rs: seq<Registration>, e: EndpointId)
    ensures Search(rs, e) == if Position(rs, e) < |rs| then Some(rs[Position(rs, e)]) else None
  {
    if rs != [] && rs[0].endpoint != e { SearchIs(rs[1..], e); }
  }

  lemma StepKeepsDistinct(s: State, op: Op)
    requires Distinct(s.endpoints)
    ensures Distinct(Apply(s, op).endpoints)
  {
    if op.DoPut? { SearchIs(s.endpoints, op.r.endpoint); }
  }

  lemma {:induction false} SearchConcat(a: seq<Registration>, b: seq<Registration>, e: EndpointId)
    ensures Search(a + b, e) == if Search(a, e).Some? then Search(a, e) else Search(b, e)
  {
    if a == [] {
      assert a + b == b;
    } else {
      assert (a + b)[1..] == a[1..] + b;
      SearchConcat(a[1..], b, e);
    }
  }

  /** The search looks at one registration after another. */
  lemma SearchSplit(rs: seq<Registration>, i: nat, e: EndpointId)
    requires i < |rs|
    ensures Search(rs, e) ==
      if Search(rs[..i], e).Some? then Search(rs[..i], e)
      else if rs[i].endpoint == e then Some(rs[i]) else Search(rs[i + 1..], e)
  {
    assert rs == rs[..i] + rs[i..];
    SearchConcat(rs[..i], rs[i..], e);
    assert rs[i..][1..] == rs[i + 1..];
  }

  lemma RemovedSearch(rs: seq<Registration>, i: nat, e: EndpointId)
    requires i < |rs| && e != rs[i].endpoint
    ensures Search(rs[..i] + rs[i + 1..], e) == Search(rs, e)
  {
    SearchSplit(rs, i, e);
    SearchConcat(rs[..i], rs[i + 1..], e);
  }

  lemma UpdatedSearch(rs: seq<Registration>, i: nat, r: Registration, e: EndpointId)
    requires Distinct(rs) && i < |rs| && r.endpoint == rs[i].endpoint
    ensures Search(rs[i := r], e) == if e == r.endpoint then Some(r) else Search(rs, e)
  {
    var rs' := rs[i := r];
    assert rs'[..i] == rs[..i] && rs'[i + 1..] == rs[i + 1..];
    SearchSplit(rs, i, e);
    SearchSplit(rs', i, e);
    SearchIs(rs[..i], e);
  }

  lemma AppendedSearch(rs: seq<Registration>, r: Registration, e: EndpointId)
    requires Search(rs, r.endpoint).None?
    ensures Search(rs + [r], e) == if e == r.endpoint then Some(r) else Search(rs, e)
  {
    SearchConcat(rs, [r], e);
    assert [r][1..] == [];
  }

  /** One operation never lowers the epoch of an endpoint it leaves registered. */
  lemma StepMonotone(s: State, op: Op, e: EndpointId)
    requires Distinct(s.endpoints)
    ensures EpochOf(s, e).Some? && EpochOf(Apply(s, op), e).Some? ==>
      EpochOf(s, e).value <= EpochOf(Apply(s, op), e).value
  {
    assert Search([], e).None?;
    hide ValidRegistration, LinksWithout, Search;
    match op
    case DoPut(r, maxEndpoints) =>
      SearchIs(s.endpoints, r.endpoint);
      if PutStatus(s, r, maxEndpoints) == Done {
        var i := Position(s.endpoints, r.endpoint);
        if i < |s.endpoints| { UpdatedSearch(s.endpoints, i, r, e); } else { AppendedSearch(s.endpoints, r, e); }
      }
    case DoRemove(f) =>
      var i := Position(s.endpoints, f);
      if i < |s.endpoints| && e != f { RemovedSearch(s.endpoints, i, e); }
      if i < |s.endpoints| && e == f { RemovedGone(s.endpoints, i); }
    case DoMarkDead(f) =>
      var i := Position(s.endpoints, f);
      if i < |s.endpoints| {
        SearchIs(s.endpoints, f);
        UpdatedSearch(s.endpoints, i, s.endpoints[i].(live := false), e);
      }
    case DoReset =>
    case DoAdvance =>
    case DoRestart =>
  }

  lemma RemovedGone(rs: seq<Registration>, i: nat)
    requires Distinct(rs) && i < |rs|
    ensures Search(rs[..i] + rs[i + 1..], rs[i].endpoint).None?
  {
    var rest := rs[..i] + rs[i + 1..];
    SearchIs(rest, rs[i].endpoint);
    forall k | 0 <= k < |rest| ensures rest[k].endpoint != rs[i].endpoint {
      assert rest[k] == rs[if k < i then k else k + 1];
    }
  }

  /** A removed endpoint takes exactly its own links with it. */
  lemma {:induction false} LinksGone(links: seq<Link>, e: EndpointId)
    ensures forall l :: l in LinksWithout(links, e) <==> l in links && l.from != e && l.to != e
  {
    if links != [] {
      LinksGone(links[1..], e);
      assert forall l :: l in links <==> l == links[0] || l in links[1..];
    }
  }

  lemma {:induction false} RunDistinct(states: seq<State>, ops: seq<Op>, n: nat)
    requires IsRun(states, ops) && n < |states|
    ensures Distinct(states[n].endpoints)
  {
    if n > 0 {
      RunDistinct(states, ops, n - 1);
      StepKeepsDistinct(states[n - 1], ops[n - 1]);
    }
  }

  /** The operations that make decisions taken under an older view stale. */
  predicate Invalidates(s: State, op: Op) {
    op.DoReset? || op.DoAdvance? || op.DoRestart? || (op.DoMarkDead? && Search(s.endpoints, op.e).Some?)
  }

  /** How often the view was invalidated between `i` and `j`, counted from the last restart in between. */
  function Invalidations(states: seq<State>, ops: seq<Op>, i: nat, j: nat): nat
    requires i <= j <= |ops| <= |states|
    decreases j
  {
    if i == j then 0
    else if ops[j - 1].DoRestart? then 1
    else Invalidations(states, ops, i, j - 1) + if Invalidates(states[j - 1], ops[j - 1]) then 1 else 0
  }

  /** The generation that count starts at. */
  function Base(states: seq<State>, ops: seq<Op>, i: nat, j: nat): u64
    requires i <= j <= |ops| && |ops| < |states|
    decreases j
  {
    if i == j then states[i].generation
    else if ops[j - 1].DoRestart? then FRESH.generation
    else Base(states, ops, i, j - 1)
  }

  function Capped(g: nat): u64 {
    if g < U64_LIMIT then g else U64_LIMIT - 1
  }

  lemma StepCounts(s: State, op: Op)
    requires !op.DoRestart?
    ensures Apply(s, op).generation == if Invalidates(s, op) then Bump(s.generation) else s.generation
  {
    if op.DoMarkDead? { SearchIs(s.endpoints, op.e); }
  }

  /**
    Over every run, restarts and empty views included: the generation is that of the last
    restart, or of the earlier state when there was none, plus the invalidations since, up
    to its last value.
   */
  lemma {:induction false} GenerationCounts(states: seq<State>, ops: seq<Op>, i: nat, j: nat)
    requires IsRun(states, ops) && i <= j < |states|
    ensures states[j].generation == Capped(Base(states, ops, i, j) + Invalidations(states, ops, i, j))
    decreases j
  {
    if i < j {
      GenerationCounts(states, ops, i, j - 1);
      if !ops[j - 1].DoRestart? {
        hide Apply, Invalidates;
        StepCounts(states[j - 1], ops[j - 1]);
      }
    }
  }

  lemma {:induction false} CountsOne(states: seq<State>, ops: seq<Op>, i: nat, k: nat, j: nat)
    requires i <= k < j <= |ops| <= |states| && Invalidates(states[k], ops[k])
    ensures Invalidations(states, ops, i, j) > 0
    decreases j
  {
    if k < j - 1 { CountsOne(states, ops, i, k, j - 1); }
  }

  lemma {:induction false} SameBase(states: seq<State>, ops: seq<Op>, i: nat, j: nat)
    requires i <= j <= |ops| && |ops| < |states| && forall k | i <= k < j :: !ops[k].DoRestart?
    ensures Base(states, ops, i, j) == states[i].generation
    decreases j
  {
    if i < j { SameBase(states, ops, i, j - 1); }
  }

  /** Within one process the generation never decreases, and below its last value every invalidation shows. */
  lemma GenerationMonotone(states: seq<State>, ops: seq<Op>, i: nat, j: nat)
    requires IsRun(states, ops) && i <= j < |states| && forall k | i <= k < j :: !ops[k].DoRestart?
    ensures states[i].generation <= states[j].generation
    ensures (exists k | i <= k < j :: Invalidates(states[k], ops[k])) && states[i].generation < U64_LIMIT - 1 ==>
      states[i].generation < states[j].generation
  {
    GenerationCounts(states, ops, i, j);
    SameBase(states, ops, i, j);
    forall k | i <= k < j && Invalidates(states[k], ops[k]) ensures Invalidations(states, ops, i, j) > 0 {
      CountsOne(states, ops, i, k, j);
    }
  }

  /** Exactly which steps lower the generation: a restart of a view that had got beyond two. */
  predicate Falls(s: State, op: Op) {
    op.DoRestart? && s.generation > 2
  }

  lemma FallsIff(s: State, op: Op)
    ensures Apply(s, op).generation < s.generation <==> Falls(s, op)
  {
    if !op.DoRestart? { StepCounts(s, op); }
  }

  /**
    The design says that the generation survives a restart. Over every run: it never falls
    on a stretch if and only if no restart on it finds a generation above two.
   */
  lemma {:induction false} NeverFallsIff(states: seq<State>, ops: seq<Op>, i: nat, j: nat)
    requires IsRun(states, ops) && i <= j < |states|
    ensures (forall a, b | i <= a <= b <= j :: states[a].generation <= states[b].generation) <==>
      (forall k | i <= k < j :: !Falls(states[k], ops[k]))
    decreases j
  {
    hide Apply, Falls;
    if k :| i <= k < j && Falls(states[k], ops[k]) {
      FallsIff(states[k], ops[k]);
      assert !(states[k].generation <= states[k + 1].generation);
    } else if i < j {
      NeverFallsIff(states, ops, i, j - 1);
      assert !Falls(states[j - 1], ops[j - 1]);
      FallsIff(states[j - 1], ops[j - 1]);
    }
  }

  /** A run in which a restart lowers the generation, after which an earlier one is shown again for another view. */
  lemma GenerationReused() returns (states: seq<State>, ops: seq<Op>)
    ensures IsRun(states, ops) && ops == [DoAdvance, DoAdvance, DoRestart, DoAdvance]
    ensures states[3].generation < states[2].generation && states[4].generation == states[2].generation
  {
    ops := [DoAdvance, DoAdvance, DoRestart, DoAdvance];
    states := [FRESH, State([], [], 2), State([], [], 3), State([], [], 2), State([], [], 3)];
  }

  /** As long as an endpoint stays registered, an older incarnation never displaces a newer one. */
  lemma {:induction false} EpochMonotone(states: seq<State>, ops: seq<Op>, i: nat, j: nat, e: EndpointId)
    requires IsRun(states, ops) && i <= j < |states|
    requires forall k | i <= k <= j :: EpochOf(states[k], e).Some?
    ensures EpochOf(states[i], e).value <= EpochOf(states[j], e).value
    decreases j
  {
    if i < j {
      EpochMonotone(states, ops, i, j - 1, e);
      RunDistinct(states, ops, j - 1);
      StepMonotone(states[j - 1], ops[j - 1], e);
    }
  }

  /** Why a registration is refused, and that nothing else refuses it. */
  lemma PutStatusIs(s: State, r: Registration, maxEndpoints: nat)
    ensures var known, status := Search(s.endpoints, r.endpoint), PutStatus(s, r, maxEndpoints);
      && (status.Invalid? <==> !ValidRegistration(r))
      && (status.StaleEpoch? <==>
          ValidRegistration(r) && known.Some? && r.incarnation.epoch < known.value.incarnation.epoch)
      && (status.Exhausted? <==> ValidRegistration(r) && known.None? && maxEndpoints <= |s.endpoints|)
      && (status.Done? <==>
          ValidRegistration(r) && (known.Some? ==> known.value.incarnation.epoch <= r.incarnation.epoch) &&
          (known.None? ==> |s.endpoints| < maxEndpoints))
  {
  }

  /** What is found for every endpoint after every operation, and which links are left. */
  lemma FoundAfter(s: State, op: Op, e: EndpointId)
    requires Distinct(s.endpoints)
    ensures var s', found := Apply(s, op), Search(s.endpoints, e);
      && Search(s'.endpoints, e) ==
         (match op
          case DoPut(r, max) => if e == r.endpoint && PutStatus(s, r, max).Done? then Some(r) else found
          case DoRemove(f) => if e == f then None else found
          case DoMarkDead(f) => if e == f && found.Some? then Some(found.value.(live := false)) else found
          case DoAdvance => found
          case _ => None)
      && (op.DoPut? || op.DoMarkDead? || op.DoAdvance? ==> s'.links == s.links)
      && (op.DoReset? || op.DoRestart? ==> s'.links == [])
  {
    assert Search([], e).None?;
    hide ValidRegistration, LinksWithout, Search, Bump;
    match op
    case DoPut(r, maxEndpoints) => FoundAfterPut(s, r, maxEndpoints, e);
    case DoRemove(f) =>
      SearchIs(s.endpoints, f);
      var i := Position(s.endpoints, f);
      if i < |s.endpoints| {
        if e == f { RemovedGone(s.endpoints, i); } else { RemovedSearch(s.endpoints, i, e); }
      }
    case DoMarkDead(f) =>
      SearchIs(s.endpoints, f);
      var i := Position(s.endpoints, f);
      if i < |s.endpoints| { UpdatedSearch(s.endpoints, i, s.endpoints[i].(live := false), e); }
    case DoReset =>
    case DoAdvance =>
    case DoRestart =>
  }

  lemma FoundAfterPut(s: State, r: Registration, maxEndpoints: nat, e: EndpointId)
    requires Distinct(s.endpoints)
    ensures Search(Put(s, r, maxEndpoints).endpoints, e) ==
      if e == r.endpoint && PutStatus(s, r, maxEndpoints).Done? then Some(r) else Search(s.endpoints, e)
  {
    hide ValidRegistration, Search;
    SearchIs(s.endpoints, r.endpoint);
    if PutStatus(s, r, maxEndpoints) == Done {
      var i := Position(s.endpoints, r.endpoint);
      if i < |s.endpoints| { UpdatedSearch(s.endpoints, i, r, e); } else { AppendedSearch(s.endpoints, r, e); }
    }
  }

  // ---- the object -----------------------------------------------------------

  class TopologyView {
    var endpoints: seq<Registration>
    var index: map<EndpointId, nat>
    var links: seq<Link>
    var generation: u64

    ghost function View(): State
      reads this
    {
      State(endpoints, links, generation)
    }

    /** The index is a bijection between the registered endpoints and the positions. */
    ghost predicate Valid()
      reads this
    {
      Bijective(endpoints, index)
    }

    lemma IndexIsPosition(e: EndpointId)
      requires Valid()
      ensures Distinct(endpoints)
      ensures e in index <==> Position(endpoints, e) < |endpoints|
      ensures e in index ==> index[e] == Position(endpoints, e)
      ensures Search(endpoints, e) == if e in index then Some(endpoints[index[e]]) else None
    {
      forall i, j | 0 <= i < j < |endpoints| ensures endpoints[i].endpoint != endpoints[j].endpoint {
        assert index[endpoints[i].endpoint] == i && index[endpoints[j].endpoint] == j;
      }
      SearchIs(endpoints, e);
    }

    constructor ()
      ensures Valid() && View() == FRESH
    {
      endpoints, index, links, generation := [], map[], [], 1;
    }

    method Advance() returns (ok: bool)
      requires Valid()
      modifies `generation
      ensures Valid() && generation == Bump(old(generation))
      ensures ok <==> old(generation) < U64_LIMIT - 1
    {
      if generation == U64_LIMIT - 1 { return false; }
      generation := generation + 1;
      return true;
    }

    method PutRegistration(r: Registration, maxEndpoints: nat) returns (status: Status)
      requires Valid()
      modifies this
      ensures Valid() && View() == Put(old(View()), r, maxEndpoints)
      ensures status == PutStatus(old(View()), r, maxEndpoints)
    {
      hide Search, Position, Distinct, Bijective, ValidRegistration;
      if !ValidRegistration(r) { return Invalid; }
      IndexIsPosition(r.endpoint);
      if r.endpoint in index {
        var i := index[r.endpoint];
        if endpoints[i].incarnation.epoch > r.incarnation.epoch { return StaleEpoch; }
        UpdatedIndex(endpoints, index, i, r);
        endpoints := endpoints[i := r];
        return Done;
      }
      if |endpoints| >= maxEndpoints { return Exhausted; }
      AppendedIndex(endpoints, index, r);
      index := index[r.endpoint := |endpoints|];
      endpoints := endpoints + [r];
      return Done;
    }

    /** The index found through is the linear search. */
    method Find(e: EndpointId) returns (found: Option<Registration>)
      requires Valid()
      ensures found == Search(endpoints, e)
    {
      IndexIsPosition(e);
      if e !in index { return None; }
      return Some(endpoints[index[e]]);
    }

    method MarkEndpointDead(e: EndpointId) returns (status: Status)
      requires Valid()
      modifies this
      ensures Valid() && View() == MarkDead(old(View()), e)
      ensures status == NotFound <==> Search(old(endpoints), e).None?
    {
      IndexIsPosition(e);
      if e !in index { return NotFound; }
      var i := index[e];
      UpdatedIndex(endpoints, index, i, endpoints[i].(live := false));
      endpoints := endpoints[i := endpoints[i].(live := false)];
      var ok := Advance();
      return if ok then Done else Exhausted;
    }

    method ResetDynamicState()
      requires Valid()
      modifies this
      ensures Valid() && View() == Reset(old(View()))
    {
      endpoints, links, index := [], [], map[];
      var ok := Advance();
    }

    /** What a coordinator process does with its view before it recovers anything. */
    static method Start() returns (view: TopologyView)
      ensures fresh(view) && view.Valid() && forall s :: view.View() == Apply(s, DoRestart)
    {
      view := new TopologyView();
      view.ResetDynamicState();
    }

    /** Move every index behind the gap down by one. */
    static method ShiftDown(old': map<EndpointId, nat>, position: nat) returns (index: map<EndpointId, nat>)
      ensures index.Keys == old'.Keys
      ensures forall f | f in index :: index[f] == if old'[f] > position then old'[f] - 1 else old'[f]
    {
      index := old';
      var todo := index.Keys;
      while todo != {}
        invariant todo <= index.Keys == old'.Keys
        invariant forall f | f in index :: index[f] == if f !in todo && old'[f] > position then old'[f] - 1 else old'[f]
        decreases |todo|
      {
        var f :| f in todo;
        if index[f] > position { index := index[f := index[f] - 1]; }
        todo := todo - {f};
      }
    }

    static method DropLinks(links: seq<Link>, e: EndpointId) returns (kept: seq<Link>)
      ensures kept == LinksWithout(links, e)
    {
      kept := [];
      var i := 0;
      while i < |links|
        invariant i <= |links| && kept + LinksWithout(links[i..], e) == LinksWithout(links, e)
      {
        assert links[i..][1..] == links[i + 1..];
        if links[i].from != e && links[i].to != e { kept := kept + [links[i]]; }
        i := i + 1;
      }
    }

    /** Close the gap in the vector, in the index and among the links. */
    method RemoveEndpoint(e: EndpointId) returns (status: Status)
      requires Valid()
      modifies this
      ensures Valid() && View() == Remove(old(View()), e)
      ensures status == if Search(old(endpoints), e).Some? then Done else NotFound
    {
      hide Search, Position, Distinct, Bijective, LinksWithout;
      IndexIsPosition(e);
      if e !in index { return NotFound; }
      var position := index[e];
      var rest := index - {e};
      var shifted := ShiftDown(rest, position);
      ShiftedIndex(endpoints, index, position, shifted);
      var kept := DropLinks(links, e);
      endpoints, index, links := endpoints[..position] + endpoints[position + 1..], shifted, kept;
      return Done;
    }
  }

  ghost predicate Bijective(endpoints: seq<Registration>, index: map<EndpointId, nat>) {
    && (forall i | 0 <= i < |endpoints| :: endpoints[i].endpoint in index && index[endpoints[i].endpoint] == i)
    && (forall e | e in index :: index[e] < |endpoints| && endpoints[index[e]].endpoint == e)
  }

  lemma UpdatedIndex(endpoints: seq<Registration>, index: map<EndpointId, nat>, i: nat, r: Registration)
    requires Bijective(endpoints, index) && i < |endpoints| && endpoints[i].endpoint == r.endpoint
    ensures Bijective(endpoints[i := r], index)
  {
  }

  lemma AppendedIndex(endpoints: seq<Registration>, index: map<EndpointId, nat>, r: Registration)
    requires Bijective(endpoints, index) && r.endpoint !in index
    ensures Bijective(endpoints + [r], index[r.endpoint := |endpoints|])
  {
  }

  lemma ShiftedIndex(
    endpoints: seq<Registration>, index: map<EndpointId, nat>, position: nat, shifted: map<EndpointId, nat>)
    requires Bijective(endpoints, index) && position < |endpoints|
    requires shifted.Keys == index.Keys - {endpoints[position].endpoint}
    requires forall f | f in shifted :: shifted[f] == if index[f] > position then index[f] - 1 else index[f]
    ensures Bijective(endpoints[..position] + endpoints[position + 1..], shifted)
  {
    var rest := endpoints[..position] + endpoints[position + 1..];
    forall k | 0 <= k < |rest| ensures rest[k].endpoint in shifted && shifted[rest[k].endpoint] == k {
      var j := if k < position then k else k + 1;
      assert rest[k] == endpoints[j] && index[endpoints[j].endpoint] == j;
    }
    forall f | f in shifted ensures shifted[f] < |rest| && rest[shifted[f]].endpoint == f {
      assert endpoints[index[f]].endpoint == f && index[f] != position;
    }
  }
}
