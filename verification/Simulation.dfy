/** The event-driven replay (vericcl/performance/simulation.py, predict with exact=True). */
module Simulation {
  import opened Basics
  import opened CostModel
  import opened Rates
  import opened RateChoice
  import opened Replaying
  import opened Faithfulness
  import opened Determinism
  import C = Components
  import G = Graphs
  import Kahn

  // ---------------------------------------------------------------- measure

  ghost function Work(s: Replay): nat {
    3 * |s.pending| + 2 * |s.startup.Keys| + |s.active|
  }

  predicate Due(p: Plan, s: Replay) {
    (exists k :: k in s.startup && s.startup[k] <= s.now)
    || (exists k :: k in s.releases && k in p.ops && p.ops[k].notBefore <= s.now)
  }

  lemma Minus(s: set<nat>, k: nat)
    requires k in s
    ensures |s - {k}| == |s| - 1
  {
  }

  lemma Plus(s: set<nat>, k: nat)
    requires k !in s
    ensures |s + {k}| == |s| + 1
  {
  }

  lemma BeginFlowWork(p: Plan, s: Replay, k: nat)
    requires Phases(p, s) && k in s.startup
    ensures Work(BeginFlow(s, k)) == Work(s) - 1
  {
    assert BeginFlow(s, k).startup.Keys == s.startup.Keys - {k};
    Minus(s.startup.Keys, k);
    Plus(s.active, k);
  }

  lemma LaunchWork(p: Plan, s: Replay, k: nat, present: set<nat>, alpha: real)
    requires Phases(p, s) && k in s.pending && k in p.ops
    ensures Work(Launch(p, s, k, present, alpha)) == Work(s) - 1
  {
    hide *;
    NotStartingYet(p, s, k);
    LaunchSets(p, s, k, present, alpha);
    Minus(s.pending, k);
    Plus(s.startup.Keys, k);
    WorkIs(s);
    WorkIs(Launch(p, s, k, present, alpha));
  }

  lemma WorkIs(s: Replay)
    ensures Work(s) == 3 * |s.pending| + 2 * |s.startup.Keys| + |s.active|
  {
  }

  lemma LaunchSets(p: Plan, s: Replay, k: nat, present: set<nat>, alpha: real)
    requires k in p.ops
    ensures var t := Launch(p, s, k, present, alpha);
            t.startup.Keys == s.startup.Keys + {k} && t.pending == s.pending - {k} && t.active == s.active
  {
    assert Launch(p, s, k, present, alpha).startup.Keys == s.startup.Keys + {k};
  }

  lemma NotStartingYet(p: Plan, s: Replay, k: nat)
    requires Phases(p, s) && k in s.pending
    ensures k !in s.startup.Keys && k !in s.active && k !in s.ends.Keys
  {
  }

  lemma LaunchNopWork(p: Plan, s: Replay, k: nat)
    requires k in s.pending
    ensures Work(LaunchNop(p, s, k)) == Work(s) - 3
  {
    Minus(s.pending, k);
  }

  lemma FinishWork(p: Plan, s: Replay, k: nat)
    requires k in s.active
    ensures Work(Finish(p, s, k)) == Work(s) - 1
  {
    Minus(s.active, k);
  }

  // ---------------------------------------------------------------- loop phases

  lemma FlowHasBytes(p: Plan, s: Replay, k: nat)
    requires ValidPlan(p) && Inv(p, s, {}) && Busy(s) && k in s.startup
    ensures Busy(BeginFlow(s, k))
  {
    hide *;
    InvPhases(p, s, {});
    PhaseKeys(p, s);
    StartupIsWhole(p, s, k);
    DataHasBytes(p, k);
    BusyAfterBegin(s, k);
  }

  lemma StartupIsWhole(p: Plan, s: Replay, k: nat)
    requires Books(p, s) && k in s.startup && k in p.available
    ensures k in p.ops ==> k in s.remaining && s.remaining[k] == p.ops[k].payload as real
  {
    hide Idle, Tiles, Drained, Charged;
    assert Accounted(p, s, k);
  }

  lemma DataHasBytes(p: Plan, k: nat)
    requires ValidPlan(p) && IsData(p, k)
    ensures k in p.ops && p.ops[k].payload > 0
  {
    assert p.ops[k].Valid();
  }

  lemma BusyAfterBegin(s: Replay, k: nat)
    requires Busy(s) && k in s.remaining && s.remaining[k] > 0.0
    ensures Busy(BeginFlow(s, k))
  {
  }

  /** Startups that end now become active flows. */
  method FinishStartups(p: Plan, s: Replay) returns (t: Replay)
    requires ValidPlan(p) && Inv(p, s, {}) && Busy(s) && Forced(p, s)
    ensures Inv(p, t, {}) && Busy(t) && Forced(p, t)
    ensures t.now == s.now && t.releases == s.releases && t.pending == s.pending
    ensures forall k :: k in t.startup ==> t.startup[k] > t.now
    ensures t == s || Work(t) < Work(s)
    ensures StartupDue(s) ==> Work(t) < Work(s)
    ensures !StartupDue(s) ==> t == s
  {
    hide Inv, Busy, Work, Forced, Phases, Waits, Books, Clock;
    t := s;
    var rest := set k | k in s.startup && s.startup[k] <= s.now;
    assert StartupDue(s) <==> rest != {} by {
      if StartupDue(s) {
        var k :| k in s.startup && s.startup[k] <= s.now;
        assert k in rest;
      }
    }
    ghost var due := rest;
    while rest != {}
      invariant Inv(p, t, {}) && Busy(t) && Forced(p, t)
      invariant t.now == s.now && t.releases == s.releases && t.pending == s.pending
      invariant t.startup.Keys <= s.startup.Keys && forall k :: k in t.startup ==> t.startup[k] == s.startup[k]
      invariant forall k :: k in rest <==> k in t.startup && t.startup[k] <= t.now
      invariant t == s || Work(t) < Work(s)
      invariant t == s <==> rest == due
      decreases |rest|
    {
      HasMember(rest);
      var k :| k in rest;
      BeginFlowKeeps(p, t, k);
      FlowHasBytes(p, t, k);
      InvPhases(p, t, {});
      ForcedBegin(p, t, k);
      BeginFlowWork(p, t, k);
      t := BeginFlow(t, k);
      rest := rest - {k};
    }
  }

  lemma InvPhases(p: Plan, s: Replay, popped: set<nat>)
    requires Inv(p, s, popped)
    ensures Phases(p, s) && Waits(p, s, popped) && Books(p, s) && Clock(s)
  {
    hide Phases, Waits, Punctual, Clock, Started, Books, Timeline, Waved, Modes, Clear;
  }

  /** complete(): record the end and take one wait off every pending follower. */
  method CompleteOperation(p: Plan, followers: Kahn.Followers, s: Replay, k: nat) returns (t: Replay)
    requires Kahn.AreFollowers(followers, Dependencies(p.ops)) && k in p.ops
    requires s.pending <= s.degrees.Keys && s.pending <= p.ops.Keys
    ensures t == Complete(p, s, k)
  {
    var degrees, releases := s.degrees, s.releases;
    FollowerSet(p, followers, k);
    ghost var all := followers[k];
    var rest := followers[k];
    while rest != {}
      invariant rest <= all
      invariant degrees.Keys == s.degrees.Keys
      invariant forall f :: f in degrees ==>
          degrees[f] == if f in s.pending && f in all && f !in rest then s.degrees[f] - 1 else s.degrees[f]
      invariant forall f ::
          f in releases <==> f in s.releases || (f in s.pending && f in all && f !in rest && s.degrees[f] == 1)
      decreases |rest|
    {
      var f :| f in rest;
      if f in s.pending {
        degrees := degrees[f := degrees[f] - 1];
        if degrees[f] == 0 {
          releases := releases + {f};
        }
      }
      rest := rest - {f};
    }
    t := s.(ends := s.ends[k := s.now], degrees := degrees, releases := releases);
    CompletedParts(p, s, k, all, degrees, releases);
  }

  lemma FollowerSet(p: Plan, followers: Kahn.Followers, k: nat)
    requires Kahn.AreFollowers(followers, Dependencies(p.ops)) && k in p.ops
    ensures k in followers && forall f :: f in followers[k] <==> f in p.ops && k in p.ops[f].dependencies
  {
    assert followers[k] == Kahn.WaitingFor(Dependencies(p.ops), Dependencies(p.ops).Keys, k);
  }

  lemma CompletedParts(p: Plan, s: Replay, k: nat, all: set<nat>, degrees: map<nat, int>, releases: set<nat>)
    requires s.pending <= s.degrees.Keys && s.pending <= p.ops.Keys
    requires forall f :: f in all <==> f in p.ops && k in p.ops[f].dependencies
    requires degrees.Keys == s.degrees.Keys
    requires forall f :: f in degrees ==>
        degrees[f] == if f in s.pending && f in all then s.degrees[f] - 1 else s.degrees[f]
    requires forall f :: f in releases <==> f in s.releases || (f in s.pending && f in all && s.degrees[f] == 1)
    ensures degrees == Complete(p, s, k).degrees && releases == Complete(p, s, k).releases
  {
  }

  // ---------------------------------------------------------------- startup coefficients

  /** The members of a finite set as a list without repetition. */
  method Listing(s: set<nat>) returns (list: seq<nat>)
    ensures Distinct(list) && Elements(list) == s
  {
    list := [];
    var rest := s;
    while rest != {}
      invariant rest <= s && Distinct(list) && Elements(list) == s - rest
      decreases |rest|
    {
      var k :| k in rest;
      SnocElements(list, k);
      assert k !in Elements(list);
      list := list + [k];
      rest := rest - {k};
    }
  }

  /** One profile lookup for a whole component. */
  method ChooseGroup(p: Plan, ghost present: set<nat>, group: seq<nat>, chosen: map<nat, Option<RateProfile>>)
    returns (r: Result<map<nat, Option<RateProfile>>, RateError>)
    requires C.Known(group, p.ops) && Distinct(group)
    requires C.IsComponent(p.ops, Communicating(p.ops, present), Elements(group))
    requires forall k :: k in chosen ==> DecidedFor(p.ops, p.model, present, k, chosen[k])
    ensures r.Ok? ==> r.value.Keys == chosen.Keys + Elements(group)
    ensures r.Ok? ==> forall k :: k in r.value ==> DecidedFor(p.ops, p.model, present, k, r.value[k])
    ensures r.Err? ==>
        SomeGroupRefused(p.ops, p.model, Communicating(p.ops, present), r.error) && !Decided(p.ops, p.model, present)
  {
    hide IsProfileOf, C.IsComponent, Decided;
    var found := ProfileOf(p.model, group, p.ops);
    if found.Err? {
      OnlyAmbiguous(p, group, found);
      AmbiguousIsUndecided(p.ops, p.model, present, group);
      return Err(found.error);
    }
    assert found == Result<Option<RateProfile>, RateError>.Ok(found.value);
    var next := chosen + map k | k in group :: found.value;
    assert next.Keys == chosen.Keys + Elements(group);
    return Ok(next);
  }

  lemma OnlyAmbiguous(p: Plan, group: seq<nat>, found: Result<Option<RateProfile>, RateError>)
    requires C.Known(group, p.ops) && IsProfileOf(p.model, group, p.ops, found) && found.Err?
    ensures Refused(p.ops, p.model, group, found.error) && found.error == AmbiguousProfile
    ensures IsProfileOf(p.model, group, p.ops, Err(AmbiguousProfile))
  {
  }

  /** The profile of every communicating operation present; refused exactly when some component is undecided. */
  method ChooseProfiles(p: Plan, present: set<nat>) returns (r: Result<map<nat, Option<RateProfile>>, RateError>)
    requires present <= p.ops.Keys
    ensures r.Ok? ==> r.value.Keys == Communicating(p.ops, present)
    ensures r.Ok? ==> forall k :: k in r.value ==> DecidedFor(p.ops, p.model, present, k, r.value[k])
    ensures r.Ok? <==> Decided(p.ops, p.model, present)
    ensures r.Err? ==> SomeGroupRefused(p.ops, p.model, Communicating(p.ops, present), r.error)
  {
    hide DecidedFor, Decided, C.IsComponent, SomeGroupRefused;
    var communication := set k | k in present && k in p.ops && p.ops[k].Communicates();
    var list := Listing(communication);
    assert C.Known(list, p.ops) by {
      forall k | k in list ensures k in p.ops {
        assert k in Elements(list);
      }
    }
    var groups := C.FindComponents(p.ops, list);
    var chosen: map<nat, Option<RateProfile>> := map[];
    for g := 0 to |groups|
      invariant chosen.Keys == C.Union(groups[..g])
      invariant forall k :: k in chosen ==> DecidedFor(p.ops, p.model, present, k, chosen[k])
    {
      assert groups[..g + 1] == groups[..g] + [groups[g]];
      C.UnionSnoc(groups[..g], groups[g]);
      var next := ChooseGroup(p, present, groups[g], chosen);
      if next.Err? {
        return Err(next.error);
      }
      chosen := next.value;
    }
    assert groups[..|groups|] == groups;
    AllDecided(p, present, chosen);
    return Ok(chosen);
  }

  lemma AllDecided(p: Plan, present: set<nat>, chosen: map<nat, Option<RateProfile>>)
    requires chosen.Keys == Communicating(p.ops, present)
    requires forall k :: k in chosen ==> DecidedFor(p.ops, p.model, present, k, chosen[k])
    ensures Decided(p.ops, p.model, present)
  {
    hide DecidedFor;
  }

  /** Startup coefficients for the operations being launched. */
  method LaunchAlphas(p: Plan, present: set<nat>, ready: set<nat>) returns (r: Result<map<nat, real>, RateError>)
    requires ValidPlan(p) && ready <= present <= p.available
    ensures r.Ok? ==> forall k :: k in ready && IsData(p, k) ==>
        k in r.value && k in p.costs && IsLaunchAlpha(p, present, k, r.value[k])
    ensures r.Ok? <==> Decided(p.ops, p.model, present)
    ensures r.Err? ==> SomeGroupRefused(p.ops, p.model, Communicating(p.ops, present), r.error)
  {
    hide DecidedFor, Decided, SomeGroupRefused;
    var chosen := ChooseProfiles(p, present);
    if chosen.Err? {
      return Err(chosen.error);
    }
    var alphas := map k | k in ready && k in p.ops && k in p.costs ::
      if k in chosen.value then OfferedAlpha(p, k, chosen.value[k]) else p.costs[k].alpha;
    forall k | k in ready && IsData(p, k)
      ensures k in alphas && k in p.costs && IsLaunchAlpha(p, present, k, alphas[k])
    {
      if p.ops[k].Communicates() {
        assert k in Communicating(p.ops, present);
        assert DecidedFor(p.ops, p.model, present, k, chosen.value[k]);
      }
    }
    return Ok(alphas);
  }

  // ---------------------------------------------------------------- launching

  lemma BusyAfterLaunch(p: Plan, s: Replay, k: nat, present: set<nat>, alpha: real)
    requires Busy(s) && Phases(p, s) && k in s.pending && k in p.ops
    ensures Busy(Launch(p, s, k, present, alpha))
  {
  }

  lemma BusyAfterComplete(p: Plan, s: Replay, k: nat)
    requires Busy(s)
    ensures Busy(LaunchNop(p, s, k)) && Busy(Finish(p, s, k))
  {
  }

  lemma DegreesKnown(p: Plan, s: Replay, popped: set<nat>)
    requires Inv(p, s, popped)
    ensures s.pending <= s.degrees.Keys && s.pending <= p.ops.Keys && popped <= s.pending
    ensures s.pending <= p.available
  {
  }

  /** Launching a member of the batch does not change what is present in its pass. */
  lemma PresentKept(p: Plan, s: Replay, t: Replay, present: set<nat>, k: nat, popped: set<nat>)
    requires PresentNow(p, s, present, popped) && Kept(p, s, popped, t, popped - {k}) && t.now == s.now
    requires t.wave == s.wave
    ensures PresentNow(p, t, present, popped - {k})
  {
    hide PresentIn, DataOf;
    assert Passed(s, s.now, s.wave - 1);
  }

  lemma PresentAfterLaunch(p: Plan, s: Replay, k: nat, present: set<nat>, alpha: real, popped: set<nat>)
    requires Phases(p, s) && Waits(p, s, popped) && Waved(p, s, popped) && PresentNow(p, s, present, popped)
    requires k in popped && k in p.ops && IsData(p, k)
    ensures PresentNow(p, Launch(p, s, k, present, alpha), present, popped - {k})
  {
    hide *;
    PoppedWaits(p, s, popped);
    AtLeastOnePass(p, s, popped, k);
    LaunchFields(p, s, k, present, alpha);
    LaunchPass(p, s, k, present, alpha);
    LaunchKept(p, s, Launch(p, s, k, present, alpha), k, popped);
    PresentKept(p, s, Launch(p, s, k, present, alpha), present, k, popped);
  }

  lemma LaunchPass(p: Plan, s: Replay, k: nat, present: set<nat>, alpha: real)
    requires k in p.ops
    ensures Launch(p, s, k, present, alpha).wave == s.wave && LaunchNop(p, s, k).wave == s.wave
  {
  }

  lemma PresentAfterInstant(p: Plan, s: Replay, k: nat, present: set<nat>, popped: set<nat>)
    requires Phases(p, s) && Waits(p, s, popped) && Waved(p, s, popped) && PresentNow(p, s, present, popped)
    requires k in popped && k in p.ops && !IsData(p, k)
    ensures PresentNow(p, LaunchNop(p, s, k), present, popped - {k})
  {
    hide *;
    PoppedWaits(p, s, popped);
    InstantFields(p, s, k);
    LaunchPass(p, s, k, present, 0.0);
    InstantKept(p, s, LaunchNop(p, s, k), k, popped);
    PresentKept(p, s, LaunchNop(p, s, k), present, k, popped);
  }

  lemma KindOf(p: Plan, k: nat)
    requires k in p.ops
    ensures IsData(p, k) <==> !p.ops[k].kind.Nop?
  {
  }

  lemma InvWaved(p: Plan, s: Replay, popped: set<nat>)
    requires Inv(p, s, popped)
    ensures Waved(p, s, popped)
  {
    hide Phases, Waits, Punctual, Clock, Started, Books, Timeline, Waved, Modes, Clear;
  }

  function LaunchedOne(p: Plan, s: Replay, present: set<nat>, k: nat, alphas: map<nat, real>): Replay
    requires k in p.ops && (!p.ops[k].kind.Nop? ==> k in alphas)
  {
    if p.ops[k].kind.Nop? then LaunchNop(p, s, k) else Launch(p, s, k, present, alphas[k])
  }

  lemma NopIs(p: Plan, s: Replay, present: set<nat>, k: nat, alphas: map<nat, real>)
    requires k in p.ops && (!p.ops[k].kind.Nop? ==> k in alphas)
    ensures LaunchedOne(p, s, present, k, alphas)
        == if p.ops[k].kind.Nop? then LaunchNop(p, s, k) else Launch(p, s, k, present, alphas[k])
  {
  }

  /** Launching one member of the batch. */
  lemma LaunchOneKeeps(p: Plan, s: Replay, present: set<nat>, k: nat, alphas: map<nat, real>, rest: set<nat>,
                       batch: set<nat>)
    requires ValidPlan(p) && Inv(p, s, rest) && Busy(s) && PresentNow(p, s, present, rest) && k in rest && rest <= batch
    requires IsData(p, k) ==> k in alphas && k in p.costs && IsLaunchAlpha(p, present, k, alphas[k])
    requires Forced(p, s) && BatchForced(p, s.now, LastPass(s), batch, alphas)
    ensures k in p.ops && k in s.pending && s.pending <= s.degrees.Keys && s.pending <= p.ops.Keys
        && (!p.ops[k].kind.Nop? ==> k in alphas)
    ensures var t := LaunchedOne(p, s, present, k, alphas);
            && Inv(p, t, rest - {k}) && Busy(t) && Forced(p, t) && PresentNow(p, t, present, rest - {k})
            && t.now == s.now && t.wave == s.wave && t.active == s.active
            && t.startup.Keys == s.startup.Keys + (if IsData(p, k) then {k} else {})
            && Work(t) < Work(s)
  {
    hide *;
    DegreesKnown(p, s, rest);
    InvPhases(p, s, rest);
    InvWaved(p, s, rest);
    KindOf(p, k);
    NopIs(p, s, present, k, alphas);
    if p.ops[k].kind.Nop? {
      LaunchNopKeeps(p, s, k, rest);
      LaunchNopWork(p, s, k);
      BusyAfterComplete(p, s, k);
      PresentAfterInstant(p, s, k, present, rest);
      ForcedInstant(p, s, k, alphas, batch);
      InstantFields(p, s, k);
      LaunchPass(p, s, k, present, 0.0);
    } else {
      LaunchKeeps(p, s, k, present, alphas[k], rest);
      LaunchWork(p, s, k, present, alphas[k]);
      BusyAfterLaunch(p, s, k, present, alphas[k]);
      PresentAfterLaunch(p, s, k, present, alphas[k], rest);
      LaunchFields(p, s, k, present, alphas[k]);
      LaunchPass(p, s, k, present, alphas[k]);
      ForcedLaunch(p, s, k, present, alphas, batch);
    }
  }

  /** Launch one member of the batch; an instant operation completes on the spot. */
  method LaunchOne(p: Plan, followers: Kahn.Followers, s: Replay, present: set<nat>, k: nat, alphas: map<nat, real>)
    returns (t: Replay)
    requires Kahn.AreFollowers(followers, Dependencies(p.ops)) && k in p.ops && (!p.ops[k].kind.Nop? ==> k in alphas)
    requires k in s.pending && s.pending <= s.degrees.Keys && s.pending <= p.ops.Keys
    ensures t == LaunchedOne(p, s, present, k, alphas)
  {
    hide *;
    NopIs(p, s, present, k, alphas);
    if p.ops[k].kind.Nop? {
      InstantIs(p, s, k);
      t := CompleteOperation(p, followers, Instant(s, k), k);
    } else {
      t := Launch(p, s, k, present, alphas[k]);
    }
  }

  /** Launch everything popped at this instant. */
  method LaunchReady(p: Plan, followers: Kahn.Followers, s: Replay, present: set<nat>, ready: set<nat>,
                     alphas: map<nat, real>) returns (t: Replay)
    requires ValidPlan(p) && Kahn.AreFollowers(followers, Dependencies(p.ops))
    requires Inv(p, s, ready) && Busy(s) && PresentNow(p, s, present, ready)
    requires forall k :: k in ready && IsData(p, k) ==>
        k in alphas && k in p.costs && IsLaunchAlpha(p, present, k, alphas[k])
    requires Forced(p, s) && BatchForced(p, s.now, LastPass(s), ready, alphas)
    ensures Inv(p, t, {}) && Busy(t) && Forced(p, t) && t.now == s.now
    ensures t.active == s.active && t.startup.Keys == s.startup.Keys + DataOf(p, ready)
    ensures ready != {} ==> Work(t) < Work(s)
  {
    hide *;
    t := s;
    var rest := ready;
    ghost var done: set<nat> := {};
    NoneLaunched(p);
    while rest != {}
      invariant done + rest == ready && done !! rest
      invariant Inv(p, t, rest) && Busy(t) && t.now == s.now && t.wave == s.wave && PresentNow(p, t, present, rest)
      invariant Forced(p, t)
      invariant t.active == s.active && t.startup.Keys == s.startup.Keys + DataOf(p, done)
      invariant Work(t) <= Work(s) && (done != {} ==> Work(t) < Work(s))
      decreases rest
    {
      var k: nat :| k in rest;
      SameLastPass(s, t);
      OneMore(p, done, k);
      Moved(done, rest, k);
      LaunchOneKeeps(p, t, present, k, alphas, rest, ready);
      t := LaunchOne(p, followers, t, present, k, alphas);
      rest := rest - {k};
      done := done + {k};
    }
    assert done == ready;
  }

  lemma Moved(done: set<nat>, rest: set<nat>, k: nat)
    requires k in rest && done !! rest
    ensures done + {k} + (rest - {k}) == done + rest && done + {k} !! rest - {k} && done + {k} != {}
        && rest - {k} < rest && rest <= done + rest
  {
  }

  lemma NoneLaunched(p: Plan)
    ensures DataOf(p, {}) == {}
  {
  }

  lemma OneMore(p: Plan, done: set<nat>, k: nat)
    ensures DataOf(p, done + {k}) == DataOf(p, done) + if IsData(p, k) then {k} else {}
  {
  }

  lemma SameLastPass(s: Replay, t: Replay)
    requires t.wave == s.wave
    ensures LastPass(t) == LastPass(s)
  {
  }

  lemma InstantIs(p: Plan, s: Replay, k: nat)
    ensures LaunchNop(p, s, k) == Complete(p, Instant(s, k), k)
    ensures var m := Instant(s, k); m.pending <= s.pending && m.degrees == s.degrees
  {
  }

  /** Taking the due operations from the heap begins a pass in which exactly these are present. */
  lemma PopKeeps(p: Plan, s: Replay, ready: set<nat>)
    requires Inv(p, s, {}) && p.available <= p.ops.Keys && IsBatch(p, s, ready)
    requires Decided(p.ops, p.model, s.active + s.startup.Keys + ready)
    ensures Inv(p, Pop(s, ready), ready) && PresentNow(p, Pop(s, ready), s.active + s.startup.Keys + ready, ready)
  {
    hide *;
    var t := Pop(s, ready);
    InvParts(p, s, {});
    PopFields(s, ready);
    BatchIsReleased(p, s, ready);
    PopPhases(p, s, t);
    PopWaits(p, s, t, ready);
    StartedKept(p, s, t);
    ClockKept(s, t);
    TimelineKept(p, s, t);
    PopWaved(p, s, t, ready);
    PopKept(p, s, t, ready);
    ModesKept(p, s, {}, t, ready);
    PopPresent(p, s, t, ready);
    PopClear(p, s, t, ready);
    PopBooks(p, s, t);
    InvWhole(p, t, ready);
  }

  lemma PopFields(s: Replay, ready: set<nat>)
    ensures var t := Pop(s, ready);
            t.starts == s.starts && t.ends == s.ends && t.waves == s.waves && t.modes == s.modes && t.now == s.now
              && t.wave == s.wave + 1
            && t.releases == s.releases - ready && t == s.(releases := t.releases, wave := t.wave) && EventsNow(s, t)
            && t.active == s.active && t.startup == s.startup
  {
  }

  lemma BatchIsReleased(p: Plan, s: Replay, ready: set<nat>)
    requires IsBatch(p, s, ready)
    ensures ready <= s.releases && forall k :: k in ready ==> k in p.ops && p.ops[k].notBefore <= s.now
    ensures forall k :: k in s.releases - ready && k in p.ops ==> p.ops[k].notBefore > s.now
  {
  }

  lemma PopPhases(p: Plan, s: Replay, t: Replay)
    requires Phases(p, s) && t == s.(releases := t.releases, wave := t.wave)
    ensures Phases(p, t)
  {
  }

  lemma PopWaits(p: Plan, s: Replay, t: Replay, ready: set<nat>)
    requires Waits(p, s, {}) && Punctual(p, s, {}) && ready <= s.releases
    requires t == s.(releases := s.releases - ready, wave := t.wave)
    requires forall k :: k in ready ==> k in p.ops && p.ops[k].notBefore <= s.now
    ensures Waits(p, t, ready) && Punctual(p, t, ready)
  {
    forall k | k in t.releases + ready ensures k in p.ops && Timely(p, t, k) {
      assert k in s.releases + {};
      assert Timely(p, s, k);
    }
  }

  lemma PopBooks(p: Plan, s: Replay, t: Replay)
    requires Books(p, s) && Phases(p, t) && t == s.(releases := t.releases, wave := t.wave)
    ensures Books(p, t)
  {
    hide IsLaunchAlpha, Idle, Tiles, Drained;
    forall x | x in p.available ensures Accounted(p, t, x) {
      assert Accounted(p, s, x);
    }
    forall k | k in t.starts && IsData(p, k) ensures Charged(p, t, k) {
      assert Charged(p, s, k);
    }
  }

  lemma PopWaved(p: Plan, s: Replay, t: Replay, ready: set<nat>)
    requires Waved(p, s, {}) && IsBatch(p, s, ready) && t == s.(releases := s.releases - ready, wave := s.wave + 1)
    requires forall k :: k in s.releases - ready && k in p.ops ==> p.ops[k].notBefore > s.now
    ensures Waved(p, t, ready)
  {
    hide IsWave;
    forall k, w: nat ensures Follows(p, t, k, w) == Follows(p, s, k, w) {
    }
    forall k, w: nat | Follows(p, s, k, w) ensures w < s.wave {
      FollowsEarlier(p, s, k, w);
    }
    hide Follows;
  }

  lemma FollowsEarlier(p: Plan, s: Replay, k: nat, w: nat)
    requires AllWaves(p, s) && Follows(p, s, k, w)
    ensures w < s.wave
  {
    hide IsWave;
  }

  lemma PopKept(p: Plan, s: Replay, t: Replay, ready: set<nat>)
    requires t == s.(releases := s.releases - ready, wave := s.wave + 1)
    ensures Kept(p, s, {}, t, ready)
  {
    forall time: real, w: nat | Passed(s, time, w)
      ensures PresentIn(p, t, ready, time, w) == PresentIn(p, s, {}, time, w)
    {
      assert DataOf(p, {}) == {};
      SamePresentAt(p, s, t, time, w);
    }
  }

  lemma SamePresentAt(p: Plan, s: Replay, t: Replay, time: real, w: nat)
    requires t.starts == s.starts && t.ends == s.ends && t.waves == s.waves
    ensures PresentAt(p, t, time, w) == PresentAt(p, s, time, w)
  {
  }

  lemma PopPresent(p: Plan, s: Replay, t: Replay, ready: set<nat>)
    requires Phases(p, s) && Waved(p, s, {}) && Clock(s) && p.available <= p.ops.Keys
    requires t == s.(releases := s.releases - ready, wave := s.wave + 1)
    ensures PresentNow(p, t, s.active + s.startup.Keys + ready, ready)
  {
    hide Phases, Waved, Clock, PresentAt;
    SamePresentAt(p, s, t, s.now, s.wave);
    PresentBetween(p, s, s.now, s.wave);
    assert DataOf(p, s.active + s.startup.Keys + ready) == DataOf(p, s.active + s.startup.Keys) + DataOf(p, ready);
  }

  lemma PopClear(p: Plan, s: Replay, t: Replay, ready: set<nat>)
    requires Clear(p, s, {}) && Kept(p, s, {}, t, ready) && t == s.(releases := s.releases - ready, wave := s.wave + 1)
    requires PresentNow(p, t, s.active + s.startup.Keys + ready, ready)
    requires Decided(p.ops, p.model, s.active + s.startup.Keys + ready)
    ensures Clear(p, t, ready)
  {
    hide PresentIn, Decided, DataOf;
    forall time: real, w: nat | 0.0 <= time && Passed(t, time, w)
      ensures Decided(p.ops, p.model, PresentIn(p, t, ready, time, w))
    {
      if Passed(s, time, w) {
        assert PresentIn(p, t, ready, time, w) == PresentIn(p, s, {}, time, w);
      } else {
        PresentIsData(p, t, ready, time, w);
        DataDecides(p, s.active + s.startup.Keys + ready, PresentIn(p, t, ready, time, w));
      }
    }
  }

  lemma PresentIsData(p: Plan, s: Replay, popped: set<nat>, time: real, w: nat)
    ensures DataOf(p, PresentIn(p, s, popped, time, w)) == PresentIn(p, s, popped, time, w)
  {
  }

  // ---------------------------------------------------------------- the next event

  ghost predicate IsFinishTime(s: Replay, rates: map<nat, real>, finish: map<nat, real>)
    requires s.active <= rates.Keys && s.active <= s.remaining.Keys
  {
    && finish.Keys == s.active
    && forall k :: k in s.active ==> rates[k] > 0.0 && finish[k] == s.now + s.remaining[k] / rates[k]
  }

  /** A future moment: a flow's last byte, a startup's end or a hard release. */
  ghost predicate IsFuture(p: Plan, s: Replay, finish: map<nat, real>, t: real) {
    || (exists k :: k in finish && finish[k] == t)
    || (exists k :: k in s.startup && s.startup[k] == t)
    || (exists k :: k in s.releases && k in p.ops && p.ops[k].notBefore == t)
  }

  ghost predicate NoneBefore(p: Plan, s: Replay, finish: map<nat, real>, t: real) {
    && (forall k :: k in finish ==> t <= finish[k])
    && (forall k :: k in s.startup ==> t <= s.startup[k])
    && (forall k :: k in s.releases && k in p.ops ==> t <= p.ops[k].notBefore)
  }

  method Earliest(keys: set<nat>, times: map<nat, real>, so_far: Option<real>) returns (least: Option<real>)
    requires keys <= times.Keys
    ensures least.None? <==> so_far.None? && keys == {}
    ensures least.Some? ==>
        (forall k :: k in keys ==> least.value <= times[k]) && (so_far.Some? ==> least.value <= so_far.value)
    ensures least.Some? ==> least == so_far || exists k :: k in keys && times[k] == least.value
  {
    least := so_far;
    var rest := keys;
    while rest != {}
      invariant rest <= keys
      invariant least.None? ==> so_far.None? && rest == keys
      invariant least.Some? ==> (forall k :: k in keys && k !in rest ==> least.value <= times[k])
      invariant least.Some? && so_far.Some? ==> least.value <= so_far.value
      invariant least.Some? ==> least == so_far || exists k :: k in keys && times[k] == least.value
      decreases |rest|
    {
      HasMember(rest);
      var k :| k in rest;
      if least.None? || times[k] < least.value {
        least := Some(times[k]);
      }
      rest := rest - {k};
    }
  }

  /** min(future), or None when nothing lies ahead. */
  method NextTime(p: Plan, s: Replay, finish: map<nat, real>) returns (next: Option<real>)
    requires s.releases <= p.ops.Keys
    ensures next.None? ==> finish.Keys == {} && s.startup.Keys == {} && s.releases == {}
    ensures next.Some? ==> NoneBefore(p, s, finish, next.value) && IsFuture(p, s, finish, next.value)
  {
    var a := Earliest(finish.Keys, finish, None);
    var b := Earliest(s.startup.Keys, s.startup, a);
    var releaseTimes := map k | k in s.releases :: p.ops[k].notBefore;
    next := Earliest(s.releases, releaseTimes, b);
    if next.Some? {
      assert forall k :: k in finish ==> k in finish.Keys && a.Some? && a.value <= finish[k];
      assert forall k :: k in s.startup ==> k in s.startup.Keys && b.Some? && b.value <= s.startup[k];
      if next == b {
        if b != a {
          var k :| k in s.startup.Keys && s.startup[k] == next.value;
        }
      } else {
        var k :| k in s.releases && releaseTimes[k] == next.value;
        assert p.ops[k].notBefore == next.value;
      }
    }
  }

  lemma DrainMeetsFinish(left: real, rate: real, now: real, next: real)
    requires rate > 0.0 && next <= now + left / rate
    ensures rate * (next - now) <= left
    ensures rate * (next - now) == left <==> next == now + left / rate
  {
    var due := left / rate;
    assert rate * due == left;
    var slack := due - (next - now);
    assert slack >= 0.0;
    assert rate * due == rate * (next - now) + rate * slack;
    if slack > 0.0 {
      assert rate * slack > 0.0;
    }
  }

  lemma FinishIsAhead(left: real, rate: real, now: real)
    requires rate > 0.0 && left > 0.0
    ensures now + left / rate > now
  {
    assert left / rate > 0.0;
  }

  lemma FlowEvent(s: Replay, rates: map<nat, real>, finish: map<nat, real>, next: real, k: nat)
    requires s.active <= rates.Keys && s.active <= s.remaining.Keys && k in s.active
    requires Busy(s) && IsFinishTime(s, rates, finish) && next <= finish[k]
    ensures finish[k] > s.now && rates[k] * (next - s.now) <= s.remaining[k]
    ensures Drain(s, rates, next)[k] == 0.0 <==> finish[k] == next
  {
    FinishIsAhead(s.remaining[k], rates[k], s.now);
    DrainMeetsFinish(s.remaining[k], rates[k], s.now, next);
  }

  /** The chosen time is ahead of now, so progress is always representable and nothing overruns. */
  lemma NextIsEvent(p: Plan, s: Replay, rates: map<nat, real>, finish: map<nat, real>, next: real)
    requires s.active <= rates.Keys && s.active <= s.remaining.Keys
    requires Busy(s) && IsFinishTime(s, rates, finish) && !Due(p, s)
    requires NoneBefore(p, s, finish, next) && IsFuture(p, s, finish, next)
    ensures s.now < next && NextEvent(p, s, rates, next)
    ensures forall k :: k in s.active ==> (Advance(s, rates, next).remaining[k] == 0.0 <==> finish[k] == next)
  {
    hide Busy;
    forall k | k in s.active
      ensures finish[k] > s.now && rates[k] * (next - s.now) <= s.remaining[k]
      ensures Drain(s, rates, next)[k] == 0.0 <==> finish[k] == next
    {
      FlowEvent(s, rates, finish, next, k);
    }
    NextIsAhead(p, s, finish, next);
  }

  lemma NextIsAhead(p: Plan, s: Replay, finish: map<nat, real>, next: real)
    requires !Due(p, s) && IsFuture(p, s, finish, next) && forall k :: k in finish ==> finish[k] > s.now
    ensures s.now < next
  {
  }

  /** Ending one drained operation. */
  lemma FinishOne(p: Plan, s: Replay, k: nat)
    requires ValidPlan(p) && Inv(p, s, {}) && Forced(p, s) && s.wave == 0 && k in s.active && k in s.remaining
    requires s.remaining[k] == 0.0
    ensures k in p.ops && s.pending <= s.degrees.Keys && s.pending <= p.ops.Keys
    ensures var t := Finish(p, s, k);
            && Inv(p, t, {}) && Forced(p, t) && Work(t) == Work(s) - 1 && t.wave == 0 && t.now == s.now
            && t.startup == s.startup
            && t.active == s.active - {k} && t.remaining == s.remaining && s.releases <= t.releases
            && t == Complete(p, s.(active := s.active - {k}), k)
  {
    DegreesKnown(p, s, {});
    ActiveKnown(p, s, k);
    FinishKeeps(p, s, k);
    FinishWork(p, s, k);
    InvPhases(p, s, {});
    ForcedFinish(p, s, k);
    hide Inv, Work, ValidPlan, Forced, Phases, Books, Waits, Clock;
  }

  /** Operations whose last byte drained at this time complete. */
  method FinishDone(p: Plan, followers: Kahn.Followers, s: Replay, finish: map<nat, real>) returns (t: Replay)
    requires ValidPlan(p) && Kahn.AreFollowers(followers, Dependencies(p.ops))
    requires Inv(p, s, {}) && Forced(p, s) && s.wave == 0 && finish.Keys == s.active && s.active <= s.remaining.Keys
    requires forall k :: k in s.active ==> s.remaining[k] >= 0.0 && (s.remaining[k] == 0.0 <==> finish[k] == s.now)
    ensures Inv(p, t, {}) && Busy(t) && Forced(p, t) && t.now == s.now
    ensures t.startup == s.startup && s.releases <= t.releases
    ensures Work(t) <= Work(s)
    ensures (exists k :: k in s.active && finish[k] == s.now) ==> Work(t) < Work(s)
  {
    hide Inv, Work, ValidPlan, Kahn.AreFollowers, Phases, Books, Clock, Forced, Finish, Complete;
    t := s;
    var rest := set k | k in s.active && finish[k] == s.now;
    ghost var all := rest;
    while rest != {}
      invariant rest <= t.active <= s.active
      invariant Inv(p, t, {}) && Forced(p, t) && t.wave == 0 && t.now == s.now && t.startup == s.startup
          && s.releases <= t.releases
      invariant t.remaining == s.remaining
      invariant forall k :: k in t.active && finish[k] == s.now ==> k in rest
      invariant forall k :: k in rest ==> finish[k] == s.now
      invariant rest == all ==> t == s
      invariant rest != all ==> Work(t) < Work(s)
      decreases |rest|
    {
      HasMember(rest);
      var k :| k in rest;
      FinishOne(p, t, k);
      var mid := t.(active := t.active - {k});
      t := CompleteOperation(p, followers, mid, k);
      rest := rest - {k};
    }
  }

  lemma ActiveKnown(p: Plan, s: Replay, k: nat)
    requires Inv(p, s, {}) && k in s.active
    ensures k in p.ops && k in s.remaining
  {
  }

  // ---------------------------------------------------------------- the main loop

  function DueNow(p: Plan, s: Replay): set<nat> {
    set k | k in s.releases && k in p.ops && p.ops[k].notBefore <= s.now
  }

  /** Some component of some mode has no usable rates or profile. */
  ghost predicate RefusedMode(p: Plan, e: RateError) {
    exists mode: set<nat> :: mode <= p.available && SomeGroupRefused(p.ops, p.model, Communicating(p.ops, mode), e)
  }

  /** No replay of the plan follows the rules of the model. */
  ghost predicate NoneFaithful(p: Plan) {
    forall f: Replay :: !Faithful(p, f)
  }

  lemma ModeRefused(p: Plan, mode: set<nat>, e: RateError)
    requires mode <= p.available && SomeGroupRefused(p.ops, p.model, Communicating(p.ops, mode), e)
    ensures RefusedMode(p, e)
  {
    hide SomeGroupRefused;
  }

  lemma BatchIsPresent(p: Plan, s: Replay, ready: set<nat>)
    requires Inv(p, s, {}) && ready <= s.releases
    ensures s.active + s.startup.Keys + ready <= p.available && s.releases <= p.ops.Keys
  {
  }

  lemma BusyAfterPop(s: Replay, ready: set<nat>)
    requires Busy(s)
    ensures Busy(Pop(s, ready)) && Work(Pop(s, ready)) == Work(s) && LastPass(Pop(s, ready)) == s.wave
  {
  }

  ghost predicate ReleaseDue(p: Plan, s: Replay) {
    exists k :: k in s.releases && k in p.ops && p.ops[k].notBefore <= s.now
  }

  lemma DueIsBatch(p: Plan, s: Replay)
    ensures IsBatch(p, s, DueNow(p, s))
    ensures ReleaseDue(p, s) <==> DueNow(p, s) != {}
  {
    if ReleaseDue(p, s) {
      var k :| k in s.releases && k in p.ops && p.ops[k].notBefore <= s.now;
      assert k in DueNow(p, s);
    }
  }

  /** What is launched was present, so every component still has its profile decided. */
  lemma DecidedAfter(p: Plan, s: Replay, t: Replay, ready: set<nat>)
    requires Decided(p.ops, p.model, s.active + s.startup.Keys + ready) && p.available <= p.ops.Keys
    requires t.active == s.active && t.startup.Keys == s.startup.Keys + DataOf(p, ready)
    ensures Decided(p.ops, p.model, t.active + t.startup.Keys)
  {
    hide Decided;
    assert DataOf(p, t.active + t.startup.Keys) == DataOf(p, s.active + s.startup.Keys + ready);
    DataDecides(p, s.active + s.startup.Keys + ready, t.active + t.startup.Keys);
  }

  lemma Refuted(p: Plan)
    requires forall f: Replay :: !Faithful(p, f)
    ensures NoneFaithful(p)
  {
    hide Faithful;
  }

  /** Launch every operation whose hard release has come; refused only when no faithful replay exists. */
  method LaunchDue(p: Plan, followers: Kahn.Followers, s: Replay) returns (r: Result<Replay, RateError>)
    requires ValidPlan(p) && Kahn.AreFollowers(followers, Dependencies(p.ops))
    requires Inv(p, s, {}) && Busy(s) && Forced(p, s)
    ensures r.Ok? ==>
        Inv(p, r.value, {}) && Busy(r.value) && Forced(p, r.value) && r.value.now == s.now && Work(r.value) <= Work(s)
    ensures r.Ok? ==> Decided(p.ops, p.model, r.value.active + r.value.startup.Keys)
    ensures r.Ok? && ReleaseDue(p, s) ==> Work(r.value) < Work(s)
    ensures r.Ok? && !ReleaseDue(p, s) ==> r.value == s
    ensures r.Err? ==> RefusedMode(p, r.error) && NoneFaithful(p)
  {
    hide *;
    var ready := DueNow(p, s);
    DueIsBatch(p, s);
    BatchIsReleased(p, s, ready);
    BatchIsPresent(p, s, ready);
    AvailableIsKnown(p);
    var present := s.active + s.startup.Keys + ready;
    var alphas := LaunchAlphas(p, present, ready);
    if alphas.Err? {
      ModeRefused(p, present, alphas.error);
      UndecidedRefutes(p, s, ready);
      Refuted(p);
      return Err(alphas.error);
    }
    if ready == {} {
      assert present == s.active + s.startup.Keys;
      return Ok(s);
    }
    DataKnown(p);
    BatchIsForced(p, s, ready, alphas.value);
    PopKeeps(p, s, ready);
    PopFields(s, ready);
    BusyAfterPop(s, ready);
    ForcedPop(p, s, ready);
    var t := LaunchReady(p, followers, Pop(s, ready), present, ready, alphas.value);
    DecidedAfter(p, s, t, ready);
    return Ok(t);
  }

  lemma DataKnown(p: Plan)
    ensures forall k :: IsData(p, k) ==> k in p.ops
  {
  }

  /** Only an empty schedule has nothing ahead: an acyclic executable never stalls. */
  lemma NeverStalls(p: Plan, s: Replay)
    requires ValidPlan(p) && Inv(p, s, {})
    requires s.releases == {} && s.startup.Keys == {} && s.active == {}
    ensures s.pending == {}
  {
    hide Inv, ValidPlan;
    DegreesKnown(p, s, {});
    if s.pending != {} {
      DependenciesClosed(p);
      forall k | k in s.pending ensures Dependencies(p.ops)[k] * s.pending != {} {
        WaitsForPending(p, s, k);
      }
      G.StuckProvesCyclic(Dependencies(p.ops), s.pending);
    }
  }

  lemma DependenciesClosed(p: Plan)
    requires ValidPlan(p)
    ensures G.Closed(Dependencies(p.ops)) && G.Acyclic(Dependencies(p.ops))
  {
  }

  lemma WaitsForPending(p: Plan, s: Replay, k: nat)
    requires ValidPlan(p) && Inv(p, s, {}) && k in s.pending
    requires s.releases == {} && s.startup.Keys == {} && s.active == {}
    ensures k in p.ops && p.ops[k].dependencies * s.pending != {}
  {
    assert k !in s.releases && k !in {};
    var d :| d in p.ops[k].dependencies && d !in s.ends.Keys;
    assert d in p.available;
    assert d in p.ops[k].dependencies * s.pending;
  }

  lemma ActiveIsCosted(p: Plan, s: Replay)
    requires ValidPlan(p) && Inv(p, s, {})
    ensures Costed(p.ops, p.costs, p.model, s.active)
    ensures ValidOperations(p.ops) && s.active <= p.available && s.releases <= p.ops.Keys
        && s.active <= s.remaining.Keys
  {
    hide *;
    InvPhases(p, s, {});
    PhaseKeys(p, s);
    forall k | k in s.releases ensures k in p.ops {
      ReleasedIsPending(p, s, k);
    }
    DataIsCosted(p, s.active);
  }

  lemma DataIsCosted(p: Plan, keys: set<nat>)
    requires ValidPlan(p) && keys <= p.available && forall k :: k in keys ==> IsData(p, k)
    ensures Costed(p.ops, p.costs, p.model, keys) && ValidOperations(p.ops)
  {
  }

  method FinishTimes(p: Plan, s: Replay, rates: map<nat, real>) returns (finish: map<nat, real>)
    requires rates.Keys == s.active && s.active <= s.remaining.Keys && forall k :: k in rates ==> rates[k] > 0.0
    ensures IsFinishTime(s, rates, finish)
  {
    finish := map k | k in s.active && k in rates && k in s.remaining :: s.now + s.remaining[k] / rates[k];
    assert finish.Keys == s.active;
  }

  lemma RatedRates(p: Plan, active: set<nat>, rates: map<nat, real>)
    requires Costed(p.ops, p.costs, p.model, active) && Rated(p.ops, p.costs, p.model, active, rates)
    ensures rates.Keys == active && forall k :: k in rates ==> rates[k] > 0.0
  {
  }

  lemma AdvancedState(s: Replay, rates: map<nat, real>, next: real)
    requires s.active <= rates.Keys && s.active <= s.remaining.Keys
    ensures var t := Advance(s, rates, next);
            t.now == next && t.wave == 0 && t.active == s.active && t.startup == s.startup && t.releases == s.releases
            && t.remaining.Keys == s.remaining.Keys && Work(t) == Work(s)
  {
  }

  /** What was ahead at the chosen time is now a finished flow or is due. */
  lemma EventHappens(p: Plan, s: Replay, t: Replay, finish: map<nat, real>, next: real)
    requires IsFuture(p, s, finish, next) && t.now == next && t.startup == s.startup && s.releases <= t.releases
    ensures (exists k :: k in finish && finish[k] == next) || Due(p, t)
  {
    if k :| k in s.startup && s.startup[k] == next {
      assert k in t.startup && t.startup[k] <= t.now;
    } else if k :| k in s.releases && k in p.ops && p.ops[k].notBefore == next {
      assert k in t.releases;
    }
  }

  /** Advance to the next event; None when nothing lies ahead. */
  method TimeStep(p: Plan, followers: Kahn.Followers, s: Replay) returns (r: Result<Option<Replay>, RateError>)
    requires ValidPlan(p) && Kahn.AreFollowers(followers, Dependencies(p.ops))
    requires Inv(p, s, {}) && Busy(s) && !Due(p, s) && Forced(p, s)
    requires Decided(p.ops, p.model, s.active + s.startup.Keys)
    ensures r.Err? ==> RefusedMode(p, r.error) && NoneFaithful(p)
    ensures r.Ok? && r.value.None? ==> s.pending == {} && s.startup.Keys == {} && s.active == {}
    ensures r.Ok? && r.value.Some? ==>
      var t := r.value.value;
      Inv(p, t, {}) && Busy(t) && Forced(p, t) && (Work(t) < Work(s) || (Work(t) == Work(s) && Due(p, t)))
  {
    hide *;
    ActiveIsCosted(p, s);
    AvailableIsKnown(p);
    InvPhases(p, s, {});
    var list := Listing(s.active);
    var rated := ActiveRates(p.ops, p.costs, p.model, list);
    if rated.Err? {
      ModeRefused(p, s.active, rated.error);
      NothingDue(p, s);
      ForcedRefusal(p, s, rated.error);
      Refuted(p);
      return Err(rated.error);
    }
    var rates := rated.value;
    RatedRates(p, s.active, rates);
    var finish := FinishTimes(p, s, rates);
    FinishKeys(s, rates, finish);
    var future := NextTime(p, s, finish);
    if future.None? {
      NeverStalls(p, s);
      return Ok(None);
    }
    var next := future.value;
    NextIsEvent(p, s, rates, finish, next);
    AdvanceKeeps(p, s, rates, next);
    ForcedAdvance(p, s, rates, next);
    AdvancedState(s, rates, next);
    var moved := Advance(s, rates, next);
    var t := FinishDone(p, followers, moved, finish);
    EventHappens(p, s, t, finish, next);
    return Ok(Some(t));
  }

  lemma NothingDue(p: Plan, s: Replay)
    requires !Due(p, s)
    ensures (forall x :: !DueAt(p, s, x)) && forall x :: x in s.startup ==> s.startup[x] > s.now
  {
  }

  lemma FinishKeys(s: Replay, rates: map<nat, real>, finish: map<nat, real>)
    requires s.active <= rates.Keys && s.active <= s.remaining.Keys && IsFinishTime(s, rates, finish)
    ensures finish.Keys == s.active
  {
  }

  ghost function Turn(p: Plan, s: Replay): nat {
    if Due(p, s) then 0 else 1
  }

  ghost predicate StartupDue(s: Replay) {
    exists k :: k in s.startup && s.startup[k] <= s.now
  }

  /** The replay from an initial state until nothing is pending, starting or active. */
  method Run(p: Plan, followers: Kahn.Followers, s: Replay) returns (r: Result<Replay, RateError>)
    requires ValidPlan(p) && Kahn.AreFollowers(followers, Dependencies(p.ops))
    requires Inv(p, s, {}) && Busy(s) && Forced(p, s)
    ensures r.Ok? ==>
        Inv(p, r.value, {}) && r.value.pending == {} && r.value.startup.Keys == {} && r.value.active == {}
          && Forced(p, r.value)
    ensures r.Err? ==> RefusedMode(p, r.error) && NoneFaithful(p)
  {
    hide *;
    var t := s;
    while t.pending != {} || t.startup.Keys != {} || t.active != {}
      invariant Inv(p, t, {}) && Busy(t) && Forced(p, t)
      decreases Work(t), Turn(p, t)
    {
      ghost var before := t;
      t := FinishStartups(p, t);
      var launched := LaunchDue(p, followers, t);
      if launched.Err? {
        return Err(launched.error);
      }
      TurnTaken(p, before, t, launched.value);
      t := launched.value;
      if Due(p, t) {
        continue;
      }
      var step := TimeStep(p, followers, t);
      if step.Err? {
        return Err(step.error);
      }
      if step.value.None? {
        break;
      }
      TurnEnds(p, before, t, step.value.value);
      t := step.value.value;
    }
    return Ok(t);
  }

  /** An iteration with something due does work; one with nothing due changes nothing before time moves. */
  lemma TurnTaken(p: Plan, s: Replay, t: Replay, u: Replay)
    requires t.now == s.now && t.releases == s.releases
    requires t == s || Work(t) < Work(s)
    requires StartupDue(s) ==> Work(t) < Work(s)
    requires !StartupDue(s) ==> t == s
    requires Work(u) <= Work(t)
    requires ReleaseDue(p, t) ==> Work(u) < Work(t)
    requires !ReleaseDue(p, t) ==> u == t
    ensures Due(p, s) ==> Work(u) < Work(s)
    ensures !Due(p, s) ==> u == s
    ensures Work(u) <= Work(s)
  {
  }

  lemma TurnEnds(p: Plan, s: Replay, u: Replay, v: Replay)
    requires Due(p, s) ==> Work(u) < Work(s)
    requires !Due(p, s) ==> u == s
    requires Work(u) <= Work(s)
    requires Work(v) < Work(u) || (Work(v) == Work(u) && Due(p, v))
    ensures Work(v) < Work(s) || (Work(v) == Work(s) && Turn(p, v) < Turn(p, s))
  {
  }
}
