/** The permission broker over whole runs. */
module PermissionHistory {
  import opened Bytes
  import opened Wrappers
  import opened Extensions
  import opened PermissionBroker

  datatype Call =
    | Receive(request: Request)
    | Evaluate(id: Text, context: Context, now: int)
    | Decide(id: Text, resource: Resource, choice: UserChoice, context: Context, now: int)
    | Cancel(id: Text)
    | CloseContext(contextId: Text)

  /** A grant handed to the engine, with the call that led to it. */
  datatype EngineGrant = EngineGrant(id: Text, resource: Resource, choice: UserChoice, context: Context, now: int)

  datatype Site = Site(requests: map<Text, Stored>, grants: seq<EngineGrant>)

  ghost function Step(s: Site, call: Call): Site {
    match call
    case Receive(r) =>
      if ValidRequest(r) && r.id !in s.requests then s.(requests := s.requests[r.id := Stored(r, Received, map[])]) else s
    case Evaluate(id, c, now) =>
      if id in s.requests then s.(requests := s.requests[id := Evaluated(s.requests[id], c, now).0]) else s
    case Decide(id, resource, u, c, now) =>
      if id in s.requests then
        var (after, told) := Decided(s.requests[id], resource, u, c, now);
        Site(s.requests[id := after], if told.grant then s.grants + [EngineGrant(id, resource, u, c, now)] else s.grants)
      else s
    case Cancel(id) =>
      if id in s.requests && s.requests[id].state != Completed
      then s.(requests := s.requests[id := Ended(s.requests[id], Cancelled)]) else s
    case CloseContext(contextId) => s.(requests := Closed(s.requests, contextId))
  }

  ghost function Run(calls: seq<Call>): Site {
    if calls == [] then Site(map[], []) else Step(Run(calls[..|calls| - 1]), calls[|calls| - 1])
  }

  // A stored request at rest.

  predicate EveryResolved(s: Stored) {
    forall x | x in s.request.resources :: x in s.resolved
  }

  ghost predicate AtRest(s: Stored) {
    && ValidRequest(s.request)
    && (forall x | x in s.resolved :: x in s.request.resources)
    && (s.state == Received || s.state == UserDecision || s.state == Completed)
    && (s.state == Completed <==> EveryResolved(s))
    && (forall x | x in s.resolved :: s.resolved[x] != Pending)
  }

  /** Resolutions are only added, never changed. */
  ghost predicate Later(before: Stored, after: Stored) {
    && after.request == before.request
    && (forall x | x in before.resolved :: x in after.resolved && after.resolved[x] == before.resolved[x])
    && (before.state == Completed ==> after == before)
  }

  function ResourceSet(rs: seq<Resource>): set<Resource> {
    set x | x in rs
  }

  lemma {:induction false} DistinctCount(rs: seq<Resource>)
    requires Distinct(rs)
    ensures |ResourceSet(rs)| == |rs|
  {
    if rs != [] {
      DistinctCount(rs[..|rs| - 1]);
      assert forall i | 0 <= i < |rs| - 1 :: rs[i] == rs[..|rs| - 1][i];
      assert rs == rs[..|rs| - 1] + [rs[|rs| - 1]];
      assert ResourceSet(rs) == ResourceSet(rs[..|rs| - 1]) + {rs[|rs| - 1]};
    }
  }

  lemma SubsetWithAll(a: set<Resource>, b: set<Resource>)
    requires a <= b
    ensures |a| == |b| <==> a == b
  {
    assert b == a + (b - a);
    assert |b| == |a| + |b - a|;
  }

  /** Counting the resolutions tells whether every requested resource is resolved. */
  lemma CountTells(s: Stored)
    requires ValidRequest(s.request) && forall x | x in s.resolved :: x in s.request.resources
    ensures CountsMatch(s) <==> EveryResolved(s)
  {
    hide TextSafe, CanonicalOrigin, Distinct;
    DistinctCount(s.request.resources);
    SubsetWithAll(s.resolved.Keys, ResourceSet(s.request.resources));
    assert |s.resolved| == |s.resolved.Keys|;
    if s.resolved.Keys == ResourceSet(s.request.resources) {
      forall x | x in s.request.resources
        ensures x in s.resolved
      {
        assert x in ResourceSet(s.request.resources);
      }
    }
    if EveryResolved(s) {
      assert s.resolved.Keys == ResourceSet(s.request.resources);
    }
  }

  /** Between the states at rest: all but the lifecycle state. */
  ghost predicate Growing(before: Stored, after: Stored) {
    && after.request == before.request
    && (forall x | x in after.resolved :: x in after.request.resources && after.resolved[x] != Pending)
    && (forall x | x in before.resolved :: x in after.resolved && after.resolved[x] == before.resolved[x])
  }

  lemma RestedIsAtRest(before: Stored, after: Stored)
    requires AtRest(before) && before.state != Completed && Growing(before, after)
    ensures AtRest(Rested(after)) && Later(before, Rested(after))
  {
    hide ValidRequest;
    CountTells(after);
  }

  lemma {:induction false} AllResolvedGrows(s: Stored, rs: seq<Resource>, d: Decision)
    requires AtRest(s) && d != Pending && forall x | x in rs :: x in s.request.resources
    ensures Growing(s, AllResolved(s, rs, d)) && forall x | x in rs :: x in AllResolved(s, rs, d).resolved
  {
    hide ValidRequest;
    if rs != [] {
      AllResolvedGrows(s, rs[..|rs| - 1], d);
      assert rs == rs[..|rs| - 1] + [rs[|rs| - 1]];
    }
  }

  lemma EndedIsAtRest(s: Stored, d: Decision)
    requires AtRest(s) && s.state != Completed && d != Pending
    ensures AtRest(Ended(s, d)) && Later(s, Ended(s, d))
  {
    hide ValidRequest, AllResolved;
    AllResolvedGrows(s, s.request.resources, d);
  }

  lemma {:induction false} PreflightedGrows(s: Stored, rs: seq<Resource>, c: Context)
    requires AtRest(s) && forall x | x in rs :: x in s.request.resources
    ensures Growing(s, Preflighted(s, rs, c).0) && |Preflighted(s, rs, c).1| == |rs|
    ensures forall i | 0 <= i < |rs| :: Preflighted(s, rs, c).1[i].resource == rs[i] && !Preflighted(s, rs, c).1[i].grant
  {
    hide ValidRequest, Preflight;
    if rs != [] {
      PreflightedGrows(s, rs[..|rs| - 1], c);
      assert forall i | 0 <= i < |rs| - 1 :: rs[..|rs| - 1][i] == rs[i];
      assert rs[|rs| - 1] in rs;
    }
  }

  lemma EvaluatedIsAtRest(s: Stored, c: Context, now: int)
    requires AtRest(s)
    ensures AtRest(Evaluated(s, c, now).0) && Later(s, Evaluated(s, c, now).0)
  {
    hide ValidRequest, Preflighted, AllResolved, Rested, Ended, SameContext;
    if s.state != Completed {
      var dead := LiveFailure(s.request, c.current, now);
      if dead.Some? {
        EndedIsAtRest(s, dead.value);
      } else {
        PreflightedGrows(s, s.request.resources, c);
        RestedIsAtRest(s, Preflighted(s, s.request.resources, c).0);
      }
    }
  }

  /** The decision that each choice stands for. */
  predicate StandsFor(u: UserChoice, d: Decision) {
    || (u == ChooseAllowOnce && d == AllowOnce) || (u == ChooseAllowSession && d == AllowSession)
    || (u == ChooseAllowPersistent && d == AllowPersistent) || (u == ChooseDenyOnce && d == DenyOnce)
    || (u == ChooseDenySession && d == DenySession) || (u == ChooseDenyPersistent && d == DenyPersistent)
  }

  lemma ChoicesStand(u: UserChoice)
    ensures StandsFor(u, DecisionOf(u))
  {
  }

  /** When the engine may be granted a resource, stated on its own. */
  ghost predicate MayGrant(s: Stored, resource: Resource, u: UserChoice, c: Context, now: int) {
    && resource in s.request.resources && resource !in s.resolved
    && s.request.createdAt <= now < s.request.expiresAt && SameContext(s.request, c.current)
    && (u == ChooseAllowOnce || u == ChooseAllowSession || (u == ChooseAllowPersistent && s.request.privacy == Normal))
    && Cleared(resource, c)
  }

  lemma ResolvedRests(s: Stored, resource: Resource, d: Decision)
    requires AtRest(s) && s.state != Completed && resource in s.request.resources && resource !in s.resolved && d != Pending
    ensures AtRest(Rested(Resolved(s, resource, d))) && Later(s, Rested(Resolved(s, resource, d)))
    ensures resource in Rested(Resolved(s, resource, d)).resolved
  {
    hide ValidRequest, Rested;
    RestedIsAtRest(s, Resolved(s, resource, d));
    KeepsResolved(Resolved(s, resource, d));
  }

  lemma DecidedIsAtRest(s: Stored, resource: Resource, u: UserChoice, c: Context, now: int)
    requires AtRest(s)
    ensures AtRest(Decided(s, resource, u, c, now).0) && Later(s, Decided(s, resource, u, c, now).0)
    ensures Decided(s, resource, u, c, now).1.grant ==> resource in Decided(s, resource, u, c, now).0.resolved
  {
    hide AtRest, Later, Rested, Resolved, Ended, SameContext, Preflight;
    LaterSelf(s);
    if s.state != Completed && resource !in s.resolved && resource in s.request.resources {
      var dead := LiveFailure(s.request, c.current, now);
      if dead.Some? {
        EndedIsAtRest(s, dead.value);
      } else {
        ResolvedRests(s, resource, FailClosed);
        ResolvedRests(s, resource, DecisionOf(u));
        if Preflight(resource, c) != Pending {
          ResolvedRests(s, resource, Preflight(resource, c));
        }
      }
    }
  }

  lemma KeepsResolved(s: Stored)
    ensures Rested(s).resolved == s.resolved
  {
  }

  /** A denial is taken in an open live request in its context; a persistent one in the normal context alone. */
  ghost predicate MayDeny(s: Stored, resource: Resource, u: UserChoice, c: Context, now: int) {
    && resource in s.request.resources && resource !in s.resolved
    && s.request.createdAt <= now < s.request.expiresAt && SameContext(s.request, c.current)
    && (u == ChooseDenyOnce || u == ChooseDenySession || (u == ChooseDenyPersistent && s.request.privacy == Normal))
  }

  /** A user's choice grants the resource to the engine exactly when the request is open and nothing stands against it; when
      it is granted or denied the decision told and stored is the one chosen; and it may be kept for good exactly when the
      choice was to keep it, stood, and was made in the normal context. */
  lemma GrantExactly(s: Stored, resource: Resource, u: UserChoice, c: Context, now: int)
    requires AtRest(s)
    ensures var told := Decided(s, resource, u, c, now).1;
      && (told.grant <==> MayGrant(s, resource, u, c, now))
      && (MayGrant(s, resource, u, c, now) || MayDeny(s, resource, u, c, now) ==>
            StandsFor(u, told.decision) && resource in Decided(s, resource, u, c, now).0.resolved
            && StandsFor(u, Decided(s, resource, u, c, now).0.resolved[resource]))
      && (told.persist <==> (MayGrant(s, resource, u, c, now) && u == ChooseAllowPersistent)
                            || (MayDeny(s, resource, u, c, now) && u == ChooseDenyPersistent))
  {
    hide ValidRequest, AllResolved, Rested, Ended, Cleared, SameContext, Preflight, DecisionOf, StandsFor, Resolved;
    PreflightExactly(resource, c);
    ChoicesStand(u);
    NewlyResolved(s, resource, DecisionOf(u));
  }

  lemma NewlyResolved(s: Stored, resource: Resource, d: Decision)
    ensures resource !in s.resolved ==> resource in Rested(Resolved(s, resource, d)).resolved && Rested(Resolved(s, resource, d)).resolved[resource] == d
  {
  }

  /** So no decision to keep comes from a choice that is not to be kept. */
  lemma OnlyChosenIsKept(s: Stored, resource: Resource, u: UserChoice, c: Context, now: int)
    requires AtRest(s) && u in {ChooseAllowOnce, ChooseAllowSession, ChooseDenyOnce, ChooseDenySession}
    ensures var (after, told) := Decided(s, resource, u, c, now);
      && !told.persist && told.decision !in {AllowPersistent, DenyPersistent}
      && forall x | x in after.resolved && after.resolved[x] in {AllowPersistent, DenyPersistent} :: x in s.resolved && s.resolved[x] == after.resolved[x]
  {
    hide ValidRequest, Decided, StandsFor, AtRest, Resolved, Rested, Ended;
    DecidedIs(s, resource, u, c, now);
    GrantExactly(s, resource, u, c, now);
    NeverKept(resource, c);
    NotToKeep(u);
    var (after, told) := Decided(s, resource, u, c, now);
    EndedTells(s, told.decision);
    if resource !in s.resolved {
      ResolvedTells(s, resource, told.decision);
    }
  }

  lemma NotToKeep(u: UserChoice)
    requires u in {ChooseAllowOnce, ChooseAllowSession, ChooseDenyOnce, ChooseDenySession}
    ensures DecisionOf(u) !in {AllowPersistent, DenyPersistent}
  {
  }

  /** A choice leaves the request alone, ends it, or resolves the one resource. */
  lemma DecidedIs(s: Stored, resource: Resource, u: UserChoice, c: Context, now: int)
    ensures var (after, told) := Decided(s, resource, u, c, now);
      && told.resource == resource
      && told.decision in {FailClosed, Expired, Cancelled, Preflight(resource, c), DecisionOf(u)}
      && (after == s || after == Ended(s, told.decision) || (resource !in s.resolved && after == Rested(Resolved(s, resource, told.decision))))
  {
    hide Rested, Resolved, Ended, SameContext, Preflight, DecisionOf;
  }

  lemma ResolvedTells(s: Stored, resource: Resource, d: Decision)
    requires resource !in s.resolved
    ensures Rested(Resolved(s, resource, d)).resolved == s.resolved[resource := d]
  {
  }

  lemma NeverKept(resource: Resource, c: Context)
    ensures Preflight(resource, c) !in {AllowPersistent, DenyPersistent}
  {
    hide SnapshotFor;
  }

  /** What ending a request leaves: what was resolved, and the rest by the one decision. */
  lemma EndedTells(s: Stored, d: Decision)
    ensures var after := Ended(s, d);
      && after.state == Completed && after.request == s.request
      && forall x :: (x in after.resolved <==> x in s.resolved || x in s.request.resources)
                     && (x in after.resolved ==> after.resolved[x] == if x in s.resolved then s.resolved[x] else d)
  {
    hide AllResolved;
    AllResolvedTells(s, s.request.resources, d);
  }

  lemma {:induction false} AllResolvedTells(s: Stored, rs: seq<Resource>, d: Decision)
    ensures var after := AllResolved(s, rs, d);
      && after.request == s.request && after.state == s.state
      && forall x :: (x in after.resolved <==> x in s.resolved || x in rs)
                     && (x in after.resolved ==> after.resolved[x] == if x in s.resolved then s.resolved[x] else d)
  {
    if rs != [] {
      AllResolvedTells(s, rs[..|rs| - 1], d);
      assert rs == rs[..|rs| - 1] + [rs[|rs| - 1]];
    }
  }

  // Runs.

  ghost predicate Invariant(s: Site) {
    && (forall id | id in s.requests :: AtRest(s.requests[id]) && s.requests[id].request.id == id)
    && (forall k | 0 <= k < |s.grants| :: GrantHolds(s, s.grants[k]))
    && (forall j, k | 0 <= j < k < |s.grants| :: s.grants[j].id != s.grants[k].id || s.grants[j].resource != s.grants[k].resource)
  }

  /** What is still known of a grant: its request, that it was live and cleared then, and how it was resolved. */
  ghost predicate GrantHolds(s: Site, g: EngineGrant) {
    && g.id in s.requests
    && var r := s.requests[g.id].request;
       && g.resource in r.resources && r.createdAt <= g.now < r.expiresAt && SameContext(r, g.context.current)
       && Cleared(g.resource, g.context)
       && (g.choice == ChooseAllowPersistent ==> r.privacy == Normal)
       && g.choice in {ChooseAllowOnce, ChooseAllowSession, ChooseAllowPersistent}
       && g.resource in s.requests[g.id].resolved && StandsFor(g.choice, s.requests[g.id].resolved[g.resource])
  }

  ghost predicate Grows(s: Site, t: Site) {
    && (forall id | id in s.requests :: id in t.requests && Later(s.requests[id], t.requests[id]))
    && s.grants <= t.grants
  }

  lemma GrantStays(s: Site, t: Site, g: EngineGrant)
    requires Grows(s, t) && GrantHolds(s, g)
    ensures GrantHolds(t, g)
  {
    hide SameContext, Cleared;
  }

  lemma OneChanged(s: Site, id: Text, after: Stored)
    requires Invariant(s) && id in s.requests && AtRest(after) && Later(s.requests[id], after)
    ensures Grows(s, s.(requests := s.requests[id := after])) && Invariant(s.(requests := s.requests[id := after]))
  {
    hide AtRest, GrantHolds;
    var t := s.(requests := s.requests[id := after]);
    assert Grows(s, t) by {
      forall x | x in s.requests
        ensures Later(s.requests[x], t.requests[x])
      {
        LaterSelf(s.requests[x]);
      }
    }
    forall k | 0 <= k < |t.grants|
      ensures GrantHolds(t, t.grants[k])
    {
      GrantStays(s, t, s.grants[k]);
    }
  }

  lemma LaterSelf(s: Stored)
    ensures Later(s, s)
  {
  }

  lemma DecideStep(s: Site, id: Text, resource: Resource, u: UserChoice, c: Context, now: int)
    requires Invariant(s) && id in s.requests
    ensures Grows(s, Step(s, Decide(id, resource, u, c, now))) && Invariant(Step(s, Decide(id, resource, u, c, now)))
  {
    hide AtRest, GrantHolds, Decided, Later;
    var before := s.requests[id];
    var (after, told) := Decided(before, resource, u, c, now);
    DecidedIsAtRest(before, resource, u, c, now);
    OneChanged(s, id, after);
    var t := s.(requests := s.requests[id := after]);
    if told.grant {
      GrantExactly(before, resource, u, c, now);
      var g := EngineGrant(id, resource, u, c, now);
      LaterRequest(before, after);
      NewGrant(s, t, g, after);
    }
  }

  lemma LaterRequest(before: Stored, after: Stored)
    requires Later(before, after)
    ensures after.request == before.request
  {
  }

  lemma NewGrant(s: Site, t: Site, g: EngineGrant, after: Stored)
    requires Invariant(s) && Invariant(t) && g.id in s.requests && t == s.(requests := s.requests[g.id := after])
    requires Grows(s, t) && MayGrant(s.requests[g.id], g.resource, g.choice, g.context, g.now)
    requires after.request == s.requests[g.id].request && g.resource in after.resolved && StandsFor(g.choice, after.resolved[g.resource])
    ensures Grows(s, t.(grants := t.grants + [g])) && Invariant(t.(grants := t.grants + [g]))
  {
    hide AtRest, Later, SameContext, Cleared;
    var v := t.(grants := t.grants + [g]);
    forall k | 0 <= k < |v.grants|
      ensures GrantHolds(v, v.grants[k])
    {
      if k < |t.grants| {
        assert GrantHolds(t, t.grants[k]);
      }
    }
    forall j, k | 0 <= j < k < |v.grants|
      ensures v.grants[j].id != v.grants[k].id || v.grants[j].resource != v.grants[k].resource
    {
      if k == |t.grants| {
        assert GrantHolds(s, s.grants[j]);
      }
    }
  }

  lemma ClosedStep(s: Site, contextId: Text)
    requires Invariant(s)
    ensures Grows(s, Step(s, CloseContext(contextId))) && Invariant(Step(s, CloseContext(contextId)))
  {
    hide AtRest, GrantHolds, Later, Ended, Closing;
    var t := Step(s, CloseContext(contextId));
    forall id | id in s.requests
      ensures id in t.requests && Later(s.requests[id], t.requests[id]) && AtRest(t.requests[id]) && t.requests[id].request.id == id
    {
      ClosedOneIsAtRest(s.requests[id], contextId);
    }
    forall k | 0 <= k < |t.grants|
      ensures GrantHolds(t, t.grants[k])
    {
      GrantStays(s, t, s.grants[k]);
    }
  }

  lemma ClosedOneIsAtRest(s: Stored, contextId: Text)
    requires AtRest(s)
    ensures AtRest(ClosedOne(s, contextId)) && Later(s, ClosedOne(s, contextId)) && ClosedOne(s, contextId).request == s.request
  {
    hide ValidRequest, Ended, EveryResolved;
    LaterSelf(s);
    if Closing(s, contextId) {
      EndedIsAtRest(s, Cancelled);
    }
  }

  lemma ReceiveStep(s: Site, r: Request)
    requires Invariant(s) && ValidRequest(r) && r.id !in s.requests
    ensures Grows(s, Step(s, Receive(r))) && Invariant(Step(s, Receive(r)))
  {
    hide ValidRequest, GrantHolds, Later;
    var t := Step(s, Receive(r));
    NotYetResolved(r);
    hide AtRest;
    forall id | id in s.requests
      ensures id in t.requests && Later(s.requests[id], t.requests[id])
    {
      LaterSelf(s.requests[id]);
    }
    forall k | 0 <= k < |t.grants|
      ensures GrantHolds(t, t.grants[k])
    {
      GrantStays(s, t, s.grants[k]);
    }
  }

  lemma NotYetResolved(r: Request)
    requires ValidRequest(r)
    ensures AtRest(Stored(r, Received, map[]))
  {
    hide TextSafe, CanonicalOrigin;
    assert r.resources[0] in r.resources;
  }

  lemma StepHolds(s: Site, call: Call)
    requires Invariant(s)
    ensures Grows(s, Step(s, call)) && Invariant(Step(s, call))
  {
    hide Invariant, AtRest, Evaluated, Decided, Ended, Closed, ValidRequest;
    SiteSelf(s);
    match call
    case Receive(r) =>
      if ValidRequest(r) && r.id !in s.requests {
        ReceiveStep(s, r);
      }
    case Evaluate(id, c, now) =>
      if id in s.requests {
        RestsAt(s, id);
        EvaluatedIsAtRest(s.requests[id], c, now);
        OneChanged(s, id, Evaluated(s.requests[id], c, now).0);
      }
    case Decide(id, resource, u, c, now) =>
      if id in s.requests {
        DecideStep(s, id, resource, u, c, now);
      }
    case Cancel(id) =>
      if id in s.requests && s.requests[id].state != Completed {
        RestsAt(s, id);
        EndedIsAtRest(s.requests[id], Cancelled);
        OneChanged(s, id, Ended(s.requests[id], Cancelled));
      }
    case CloseContext(contextId) => ClosedStep(s, contextId);
  }

  lemma SiteSelf(s: Site)
    ensures Grows(s, s)
  {
  }

  lemma RestsAt(s: Site, id: Text)
    requires Invariant(s) && id in s.requests
    ensures AtRest(s.requests[id])
  {
    hide AtRest, GrantHolds;
  }

  lemma {:induction false} RunHolds(calls: seq<Call>)
    ensures Invariant(Run(calls))
  {
    hide Step, Invariant;
    if calls == [] {
      NothingHeld();
    } else {
      RunHolds(calls[..|calls| - 1]);
      StepHolds(Run(calls[..|calls| - 1]), calls[|calls| - 1]);
    }
  }

  lemma NothingHeld()
    ensures Invariant(Site(map[], []))
  {
  }

  lemma GrowsChain(a: Site, b: Site, c: Site)
    requires Grows(a, b) && Grows(b, c)
    ensures Grows(a, c)
  {
    forall id | id in a.requests
      ensures id in c.requests && Later(a.requests[id], c.requests[id])
    {
      LaterChain(a.requests[id], b.requests[id], c.requests[id]);
    }
  }

  lemma LaterChain(a: Stored, b: Stored, c: Stored)
    requires Later(a, b) && Later(b, c)
    ensures Later(a, c)
  {
  }

  // Main results.

  /** At rest a request is completed exactly when every requested resource is resolved. */
  lemma CompletedExactly(calls: seq<Call>, id: Text)
    requires id in Run(calls).requests
    ensures var s := Run(calls).requests[id];
      s.state == Completed <==> forall x | x in s.request.resources :: x in s.resolved
  {
    hide Step, Run;
    RunHolds(calls);
    RestsAt(Run(calls), id);
    hide ValidRequest;
  }

  /** Resolutions are write-once: nothing that follows changes one, and a completed request never changes at all. */
  lemma {:induction false} ResolutionsAreFinal(calls: seq<Call>, more: seq<Call>)
    ensures Grows(Run(calls), Run(calls + more))
  {
    hide Step, Grows, Invariant;
    if more == [] {
      assert calls + more == calls;
      SiteSelf(Run(calls));
    } else {
      var shorter := more[..|more| - 1];
      assert (calls + more)[..|calls + more| - 1] == calls + shorter;
      ResolutionsAreFinal(calls, shorter);
      RunHolds(calls + shorter);
      StepHolds(Run(calls + shorter), more[|more| - 1]);
      GrowsChain(Run(calls), Run(calls + shorter), Run(calls + more));
    }
  }

  /** An engine grant is returned at most once per resource of a request, only inside its time window, in the context
      it was bound to, and with all three gates and the operating system passing. */
  lemma GrantsAreSound(calls: seq<Call>, k: nat)
    requires k < |Run(calls).grants|
    ensures GrantHolds(Run(calls), Run(calls).grants[k])
    ensures forall j | 0 <= j < |Run(calls).grants| && j != k ::
              Run(calls).grants[j].id != Run(calls).grants[k].id || Run(calls).grants[j].resource != Run(calls).grants[k].resource
  {
    hide Step, Run, GrantHolds;
    RunHolds(calls);
    var g := Run(calls).grants;
    forall j | 0 <= j < |g| && j != k
      ensures g[j].id != g[k].id || g[j].resource != g[k].resource
    {
      if j < k {
        assert g[j].id != g[k].id || g[j].resource != g[k].resource;
      }
    }
  }
}
