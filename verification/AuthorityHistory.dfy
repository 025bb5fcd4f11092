/** The ledger and the runtime authority as one system, with a log of what was issued, dispatched and stopped. */
module AuthorityHistory {
  import opened Bytes
  import opened Extensions
  import opened PermissionLedger
  import opened LeaseTerms
  import opened RuntimeAuthority

  /** What the log keeps: a token is named by its position, and an issue keeps the lease as it was then. */
  datatype Event =
    | Issued(token: nat, lease: nat, used: Lease, request: CapabilityRequest)
    | Dispatched(token: nat, context: DispatchContext)
    | Stopped(runtimeId: Text)

  datatype System = System(leases: seq<Lease>, authority: Authority, log: seq<Event>)

  datatype Call =
    | OnLedger(call: LedgerCall)
    | Register(manifest: Manifest, trust: TrustState, identity: Identity, decision: LaunchDecision)
    | Suspend(runtimeId: Text)
    | Resume(runtimeId: Text, authorized: bool)
    | Terminate(runtimeId: Text)
    | Issue(request: CapabilityRequest)
    | Dispatch(id: u64, context: DispatchContext)

  ghost function Step(s: System, call: Call): System {
    match call
    case OnLedger(c) => s.(leases := LedgerStep(s.leases, c))
    case Register(m, trust, identity, d) => s.(authority := AfterRegister(s.authority, m, trust, identity, d))
    case Suspend(id) =>
      System(s.leases, AfterSuspend(s.authority, id),
             if InState(s.authority, id, {Running}) then s.log + [Stopped(id)] else s.log)
    case Resume(id, authorized) => s.(authority := AfterResume(s.authority, id, authorized))
    case Terminate(id) =>
      System(s.leases, AfterTerminate(s.authority, id),
             if InState(s.authority, id, {Running, Suspended}) then s.log + [Stopped(id)] else s.log)
    case Issue(r) =>
      var i := IssuingLease(s.authority, s.leases, r);
      var after := AfterIssue(s.authority, s.leases, r);
      System(after.1, after.0,
             if i < |s.leases| then s.log + [Issued(|s.authority.tokens|, i, s.leases[i], r)] else s.log)
    case Dispatch(id, c) =>
      System(s.leases, AfterDispatch(s.authority, id, c),
             if CanDispatch(s.authority, id, c)
             then s.log + [Dispatched(FindToken(s.authority.tokens, id), c)]
             else s.log)
  }

  ghost function Run(calls: seq<Call>): System {
    if calls == [] then System([], NoAuthority(), [])
    else Step(Run(calls[..|calls| - 1]), calls[|calls| - 1])
  }

  // What a step keeps of sessions and tokens.

  ghost predicate DistinctRuntimes(sessions: seq<Session>) {
    forall i, j | 0 <= i < j < |sessions| :: sessions[i].identity.runtimeId != sessions[j].identity.runtimeId
  }

  /** A session keeps who it is; once terminated it stays terminated. */
  ghost predicate SessionKept(before: Session, after: Session) {
    && after == before.(state := after.state)
    && (before.state == Terminated ==> after.state == Terminated)
  }

  ghost predicate SessionsGrow(before: seq<Session>, after: seq<Session>) {
    && |before| <= |after|
    && forall i | 0 <= i < |before| :: SessionKept(before[i], after[i])
  }

  /** A token is only ever marked: revoked or consumed, never both undone. */
  ghost predicate TokenKept(before: Token, after: Token) {
    && after == before.(revoked := after.revoked, consumed := after.consumed)
    && (before.revoked ==> after.revoked)
    && (before.consumed ==> after.consumed)
  }

  ghost predicate TokensGrow(before: seq<Token>, after: seq<Token>) {
    && |before| <= |after|
    && forall i | 0 <= i < |before| :: TokenKept(before[i], after[i])
  }

  ghost predicate Grows(s: System, t: System) {
    && LedgerGrows(s.leases, t.leases)
    && SessionsGrow(s.authority.sessions, t.authority.sessions)
    && TokensGrow(s.authority.tokens, t.authority.tokens)
    && s.log <= t.log
  }

  /** Token ids count up from one and never wrap: the counter stops at zero. */
  ghost predicate CountedTokens(a: Authority) {
    && |a.tokens| < U64_LIMIT
    && a.nextTokenId == (|a.tokens| + 1) % U64_LIMIT
    && forall i | 0 <= i < |a.tokens| :: a.tokens[i].id == i + 1
  }

  // What the log says about the state.

  /** The lease let this session ask for this capability. */
  ghost predicate AuthorizedBy(session: Session, used: Lease, r: CapabilityRequest) {
    && session.identity == Identity(r.extensionId, r.profileId, r.runtimeId, r.privateBrowsing)
    && LeaseAuthorizes(session.manifest, used, r.permission, LeaseContextOf(r)) && ValidLease(used)
  }

  ghost predicate EventHolds(s: System, e: Event) {
    match e
    case Issued(t, l, used, r) =>
      && r.now <= U64_LIMIT - 1 - TOKEN_MILLIS
      && 1 <= t + 1 < U64_LIMIT
      && t < |s.authority.tokens| && TokenKept(NewToken(t + 1, r), s.authority.tokens[t])
      && l < |s.leases| && OnlyLost(used, s.leases[l])
      && (used.grant.lifetime == Once ==> s.leases[l].consumed)
      && exists i | 0 <= i < |s.authority.sessions| :: AuthorizedBy(s.authority.sessions[i], used, r)
    case Dispatched(t, c) =>
      && t < |s.authority.tokens| && s.authority.tokens[t].consumed
      && TokenMatches(s.authority.tokens[t], c)
    case Stopped(id) => true
  }

  /** What an earlier event rules out in a later one. */
  ghost predicate PairHolds(e: Event, f: Event) {
    && (e.Issued? && f.Issued? ==> e.token < f.token && (e.lease == f.lease ==> f.used.grant.lifetime != Once))
    && (e.Dispatched? && f.Dispatched? ==> e.token != f.token)
    && (e.Dispatched? && f.Issued? ==> e.token != f.token)
  }

  ghost predicate StoppedTokens(s: System) {
    forall i, j | 0 <= i < j < |s.log| && s.log[i].Issued? && s.log[j] == Stopped(s.log[i].request.runtimeId) ::
      var t := s.log[i].token;
      t < |s.authority.tokens| && (s.authority.tokens[t].revoked || s.authority.tokens[t].consumed)
  }

  ghost predicate NoDispatchAfterStop(log: seq<Event>) {
    forall i, j, k | 0 <= i < j < k < |log| && log[i].Issued? && log[j] == Stopped(log[i].request.runtimeId) && log[k].Dispatched? ::
      log[k].token != log[i].token
  }

  ghost predicate IssuedBefore(log: seq<Event>, n: int, t: int) {
    exists i | 0 <= i < n && i < |log| :: log[i].Issued? && log[i].token == t
  }

  /** Every token has an issue in the log, and every dispatch comes after the issue of its token. */
  ghost predicate Traced(s: System) {
    && (forall t | 0 <= t < |s.authority.tokens| :: IssuedBefore(s.log, |s.log|, t))
    && (forall k | 0 <= k < |s.log| && s.log[k].Dispatched? :: IssuedBefore(s.log, k, s.log[k].token))
  }

  ghost predicate LogInvariant(s: System) {
    && (forall k | 0 <= k < |s.log| :: EventHolds(s, s.log[k]))
    && (forall j, k | 0 <= j < k < |s.log| :: PairHolds(s.log[j], s.log[k]))
    && StoppedTokens(s) && NoDispatchAfterStop(s.log) && Traced(s)
  }

  ghost predicate Invariant(s: System) {
    && LedgerInvariant(s.leases)
    && DistinctRuntimes(s.authority.sessions)
    && CountedTokens(s.authority)
    && LogInvariant(s)
  }

  // Frame: growing the state without a new event keeps the log sound.

  lemma OnlyLostChains(a: Lease, b: Lease, c: Lease)
    requires OnlyLost(a, b) && OnlyLost(b, c)
    ensures OnlyLost(a, c)
  {
  }

  lemma EventStays(s: System, t: System, e: Event)
    requires Grows(s, t) && EventHolds(s, e)
    ensures EventHolds(t, e)
  {
    hide LeaseAuthorizes;
    if e.Issued? {
      var i :| 0 <= i < |s.authority.sessions| && AuthorizedBy(s.authority.sessions[i], e.used, e.request);
      assert AuthorizedBy(t.authority.sessions[i], e.used, e.request);
      OnlyLostChains(e.used, s.leases[e.lease], t.leases[e.lease]);
    }
  }

  /** Growth with the same log and no new token. */
  lemma QuietStep(s: System, t: System)
    requires Invariant(s) && Grows(s, t) && t.log == s.log && |t.authority.tokens| == |s.authority.tokens|
    ensures LogInvariant(t)
  {
    hide EventHolds, PairHolds, LedgerGrows, SessionsGrow, CountedTokens, LedgerInvariant, DistinctRuntimes;
    forall k | 0 <= k < |t.log|
      ensures EventHolds(t, t.log[k])
    {
      EventStays(s, t, s.log[k]);
    }
  }

  lemma StopStep(s: System, t: System, id: Text)
    requires Invariant(s) && Grows(s, t) && t.log == s.log + [Stopped(id)]
    requires |t.authority.tokens| == |s.authority.tokens|
    requires forall i | 0 <= i < |t.authority.tokens| && t.authority.tokens[i].runtimeId == id ::
               t.authority.tokens[i].revoked || t.authority.tokens[i].consumed
    ensures LogInvariant(t)
  {
    hide LedgerGrows, SessionsGrow, CountedTokens, LedgerInvariant, DistinctRuntimes, LeaseAuthorizes;
    forall k | 0 <= k < |t.log|
      ensures EventHolds(t, t.log[k])
    {
      if k < |s.log| {
        EventStays(s, t, s.log[k]);
      }
    }
    TracedStays(s, t);
    forall i, j | 0 <= i < j < |t.log| && t.log[i].Issued? && t.log[j] == Stopped(t.log[i].request.runtimeId)
      ensures t.log[i].token < |t.authority.tokens|
      ensures t.authority.tokens[t.log[i].token].revoked || t.authority.tokens[t.log[i].token].consumed
    {
      assert EventHolds(t, t.log[i]);
      if j < |s.log| {
        assert s.log[j] == Stopped(s.log[i].request.runtimeId);
      }
    }
  }

  lemma TracedStays(s: System, t: System)
    requires Traced(s) && s.log <= t.log
    requires |t.authority.tokens| == |s.authority.tokens|
    requires |t.log| <= |s.log| + 1
    requires |t.log| > |s.log| && t.log[|s.log|].Dispatched? ==> IssuedBefore(t.log, |s.log|, t.log[|s.log|].token)
    ensures Traced(t)
  {
    forall x | 0 <= x < |t.authority.tokens|
      ensures IssuedBefore(t.log, |t.log|, x)
    {
      assert IssuedBefore(s.log, |s.log|, x);
      var i :| 0 <= i < |s.log| && s.log[i].Issued? && s.log[i].token == x;
      assert t.log[i] == s.log[i];
    }
    forall k | 0 <= k < |t.log| && t.log[k].Dispatched?
      ensures IssuedBefore(t.log, k, t.log[k].token)
    {
      if k < |s.log| {
        assert IssuedBefore(s.log, k, s.log[k].token);
        var i :| 0 <= i < k && s.log[i].Issued? && s.log[i].token == s.log[k].token;
        assert t.log[i] == s.log[i];
      }
    }
  }

  lemma IssueStep(s: System, r: CapabilityRequest)
    requires Invariant(s) && IssuingLease(s.authority, s.leases, r) < |s.leases|
    ensures Grows(s, Step(s, Issue(r))) && Invariant(Step(s, Issue(r)))
  {
    hide *;
    IssueGrows(s, r);
    IssueLog(s, r);
    IssueState(s, r);
    InvariantParts(Step(s, Issue(r)));
  }

  lemma InvariantParts(s: System)
    requires LedgerInvariant(s.leases) && DistinctRuntimes(s.authority.sessions) && CountedTokens(s.authority)
    requires LogInvariant(s)
    ensures Invariant(s)
  {
  }

  lemma IssueState(s: System, r: CapabilityRequest)
    requires Invariant(s) && IssuingLease(s.authority, s.leases, r) < |s.leases|
    ensures CountedTokens(Step(s, Issue(r)).authority)
    ensures DistinctRuntimes(Step(s, Issue(r)).authority.sessions)
    ensures LedgerInvariant(Step(s, Issue(r)).leases)
  {
    hide LogInvariant, LedgerInvariant, Authorizing, Consumed, LedgerGrows;
    var a, i := s.authority, IssuingLease(s.authority, s.leases, r);
    var m := a.sessions[FindSession(a.sessions, r.runtimeId)].manifest;
    StepKeepsInvariant(s.leases, CallAuthorize(m, r.permission, LeaseContextOf(r)));
  }

  lemma IssueGrows(s: System, r: CapabilityRequest)
    requires IssuingLease(s.authority, s.leases, r) < |s.leases|
    ensures Grows(s, Step(s, Issue(r)))
    ensures Step(s, Issue(r)).authority.tokens == s.authority.tokens + [NewToken(s.authority.nextTokenId, r)]
  {
    hide Authorizing;
  }

  /** The event an issue logs, as it stands in the state after. */
  lemma IssuedHolds(s: System, r: CapabilityRequest)
    requires Invariant(s) && IssuingLease(s.authority, s.leases, r) < |s.leases|
    ensures EventHolds(Step(s, Issue(r)), Step(s, Issue(r)).log[|s.log|])
  {
    hide LogInvariant, LedgerInvariant, LeaseAuthorizes, DistinctRuntimes;
    var i := IssuingLease(s.authority, s.leases, r);
    var t := Step(s, Issue(r));
    assert t.log[|s.log|] == Issued(|s.authority.tokens|, i, s.leases[i], r);
    var x := FindSession(s.authority.sessions, r.runtimeId);
    AuthorizingIsValid(s.authority.sessions[x].manifest, s.leases, r.permission, LeaseContextOf(r));
    assert AuthorizedBy(t.authority.sessions[x], s.leases[i], r);
  }

  lemma AuthorizingIsValid(m: Manifest, ls: seq<Lease>, p: Permission, c: LeaseContext)
    requires LedgerInvariant(ls)
    ensures Authorizing(m, ls, p, c) < |ls| ==> ValidLease(ls[Authorizing(m, ls, p, c)])
  {
    hide ValidLease, Refined, GrantAuthorizes;
  }

  lemma IssuedAfter(s: System, r: CapabilityRequest, e: Event)
    requires EventHolds(s, e) && IssuingLease(s.authority, s.leases, r) < |s.leases|
    ensures PairHolds(e, Step(s, Issue(r)).log[|s.log|])
  {
    hide AuthorizedBy;
    var i := IssuingLease(s.authority, s.leases, r);
    assert LeaseUnused(s.leases[i]) by { IssuingUnused(s, r); }
    assert Step(s, Issue(r)).log[|s.log|] == Issued(|s.authority.tokens|, i, s.leases[i], r);
  }

  ghost predicate LeaseUnused(l: Lease) {
    !l.consumed
  }

  lemma IssuingUnused(s: System, r: CapabilityRequest)
    requires IssuingLease(s.authority, s.leases, r) < |s.leases|
    ensures LeaseUnused(s.leases[IssuingLease(s.authority, s.leases, r)])
  {
  }

  lemma IssueLog(s: System, r: CapabilityRequest)
    requires Invariant(s) && IssuingLease(s.authority, s.leases, r) < |s.leases|
    ensures LogInvariant(Step(s, Issue(r)))
  {
    hide LedgerGrows, SessionsGrow, CountedTokens, LedgerInvariant, DistinctRuntimes, EventHolds, PairHolds,
         IssuingLease, AfterIssue, StoppedTokens, NoDispatchAfterStop, Traced;
    var t := Step(s, Issue(r));
    IssueGrows(s, r);
    IssuedHolds(s, r);
    forall k | 0 <= k < |t.log|
      ensures EventHolds(t, t.log[k])
    {
      if k < |s.log| {
        EventStays(s, t, s.log[k]);
      }
    }
    forall j, k | 0 <= j < k < |t.log|
      ensures PairHolds(t.log[j], t.log[k])
    {
      if k == |s.log| {
        IssuedAfter(s, r, s.log[j]);
      }
    }
    IssueTraced(s, t);
  }

  lemma IssueTraced(s: System, t: System)
    requires StoppedTokens(s) && NoDispatchAfterStop(s.log) && Traced(s) && TokensGrow(s.authority.tokens, t.authority.tokens)
    requires |t.authority.tokens| == |s.authority.tokens| + 1
    requires |t.log| == |s.log| + 1 && s.log <= t.log && t.log[|s.log|].Issued? && t.log[|s.log|].token == |s.authority.tokens|
    ensures StoppedTokens(t) && NoDispatchAfterStop(t.log) && Traced(t)
  {
    forall x | 0 <= x < |t.authority.tokens|
      ensures IssuedBefore(t.log, |t.log|, x)
    {
      if x < |s.authority.tokens| {
        assert IssuedBefore(s.log, |s.log|, x);
        var i :| 0 <= i < |s.log| && s.log[i].Issued? && s.log[i].token == x;
        assert t.log[i] == s.log[i];
      }
    }
    forall k | 0 <= k < |t.log| && t.log[k].Dispatched?
      ensures IssuedBefore(t.log, k, t.log[k].token)
    {
      assert IssuedBefore(s.log, k, s.log[k].token);
      var i :| 0 <= i < k && s.log[i].Issued? && s.log[i].token == s.log[k].token;
      assert t.log[i] == s.log[i];
    }
    forall i, j | 0 <= i < j < |t.log| && t.log[i].Issued? && t.log[j] == Stopped(t.log[i].request.runtimeId)
      ensures t.log[i].token < |t.authority.tokens|
      ensures t.authority.tokens[t.log[i].token].revoked || t.authority.tokens[t.log[i].token].consumed
    {
      assert s.log[j] == Stopped(s.log[i].request.runtimeId);
    }
  }

  lemma DispatchStep(s: System, id: u64, c: DispatchContext)
    requires Invariant(s) && CanDispatch(s.authority, id, c)
    ensures Grows(s, Step(s, Dispatch(id, c))) && Invariant(Step(s, Dispatch(id, c)))
  {
    hide *;
    DispatchGrows(s, id, c);
    DispatchLog(s, id, c);
    InvariantParts(Step(s, Dispatch(id, c)));
  }

  lemma DispatchGrows(s: System, id: u64, c: DispatchContext)
    requires Invariant(s) && CanDispatch(s.authority, id, c)
    ensures Grows(s, Step(s, Dispatch(id, c)))
    ensures LedgerInvariant(Step(s, Dispatch(id, c)).leases)
    ensures DistinctRuntimes(Step(s, Dispatch(id, c)).authority.sessions)
    ensures CountedTokens(Step(s, Dispatch(id, c)).authority)
  {
    hide LogInvariant, LedgerInvariant, TokenMatches, SessionMatches;
  }

  /** The token a dispatch uses was live until now, so no earlier event used it up or stopped it. */
  lemma DispatchedAfter(s: System, id: u64, c: DispatchContext, e: Event)
    requires EventHolds(s, e) && CanDispatch(s.authority, id, c)
    ensures PairHolds(e, Step(s, Dispatch(id, c)).log[|s.log|])
  {
    hide TokenMatches, SessionMatches, AuthorizedBy;
  }

  lemma DispatchedHolds(s: System, id: u64, c: DispatchContext)
    requires CanDispatch(s.authority, id, c)
    ensures EventHolds(Step(s, Dispatch(id, c)), Step(s, Dispatch(id, c)).log[|s.log|])
  {
    hide SessionMatches, AuthorizedBy;
  }

  lemma DispatchLog(s: System, id: u64, c: DispatchContext)
    requires Invariant(s) && CanDispatch(s.authority, id, c)
    ensures LogInvariant(Step(s, Dispatch(id, c)))
  {
    hide LedgerGrows, SessionsGrow, CountedTokens, LedgerInvariant, DistinctRuntimes, PairHolds, TokenMatches, SessionMatches,
         LeaseAuthorizes, AuthorizedBy, Traced;
    var t := Step(s, Dispatch(id, c));
    DispatchGrows(s, id, c);
    DispatchedHolds(s, id, c);
    forall k | 0 <= k < |t.log|
      ensures EventHolds(t, t.log[k])
    {
      if k < |s.log| {
        EventStays(s, t, s.log[k]);
      }
    }
    forall j, k | 0 <= j < k < |t.log|
      ensures PairHolds(t.log[j], t.log[k])
    {
      if k == |s.log| {
        DispatchedAfter(s, id, c, s.log[j]);
      }
    }
    DispatchTraced(s, t);
  }

  lemma DispatchTraced(s: System, t: System)
    requires StoppedTokens(s) && NoDispatchAfterStop(s.log) && Traced(s) && TokensGrow(s.authority.tokens, t.authority.tokens)
    requires |t.authority.tokens| == |s.authority.tokens|
    requires |t.log| == |s.log| + 1 && s.log <= t.log && t.log[|s.log|].Dispatched?
    requires var x := t.log[|s.log|].token;
             x < |s.authority.tokens| && !s.authority.tokens[x].revoked && !s.authority.tokens[x].consumed
    ensures StoppedTokens(t) && NoDispatchAfterStop(t.log) && Traced(t)
  {
    assert IssuedBefore(s.log, |s.log|, t.log[|s.log|].token);
    assert IssuedBefore(t.log, |s.log|, t.log[|s.log|].token);
    TracedStays(s, t);
    forall i, j | 0 <= i < j < |t.log| && t.log[i].Issued? && t.log[j] == Stopped(t.log[i].request.runtimeId)
      ensures t.log[i].token < |t.authority.tokens|
      ensures t.authority.tokens[t.log[i].token].revoked || t.authority.tokens[t.log[i].token].consumed
      ensures t.log[i].token != t.log[|s.log|].token
    {
      assert s.log[j] == Stopped(s.log[i].request.runtimeId);
    }
    forall i, j, k | 0 <= i < j < k < |t.log| && t.log[i].Issued? && t.log[j] == Stopped(t.log[i].request.runtimeId) && t.log[k].Dispatched?
      ensures t.log[k].token != t.log[i].token
    {
      if k < |s.log| {
        assert s.log[j] == Stopped(s.log[i].request.runtimeId);
      }
    }
  }

  lemma SameGrows(s: System)
    ensures Grows(s, s)
  {
  }

  /** Stopping a runtime marks every live token of it. */
  lemma StopSession(s: System, id: Text, state: RuntimeState)
    requires Invariant(s) && state != Running
    requires InState(s.authority, id, {Running, Suspended})
    ensures var t := System(s.leases, AfterStop(s.authority, id, state), s.log + [Stopped(id)]);
      && Grows(s, t) && Invariant(t)
  {
    var t := System(s.leases, AfterStop(s.authority, id, state), s.log + [Stopped(id)]);
    StopGrows(s, id, state);
    StopStep(s, t, id);
  }

  lemma StopGrows(s: System, id: Text, state: RuntimeState)
    requires Invariant(s) && state != Running
    requires InState(s.authority, id, {Running, Suspended})
    ensures var t := System(s.leases, AfterStop(s.authority, id, state), s.log + [Stopped(id)]);
      && Grows(s, t) && DistinctRuntimes(t.authority.sessions) && CountedTokens(t.authority)
  {
    hide LogInvariant, LedgerInvariant;
  }

  lemma RegisterGrows(s: System, m: Manifest, trust: TrustState, identity: Identity, d: LaunchDecision)
    requires Invariant(s)
    ensures var t := Step(s, Register(m, trust, identity, d));
      && Grows(s, t) && DistinctRuntimes(t.authority.sessions) && CountedTokens(t.authority)
  {
    hide LogInvariant, LedgerInvariant, ManifestAccepted;
  }

  lemma ResumeGrows(s: System, id: Text, authorized: bool)
    requires Invariant(s)
    ensures var t := Step(s, Resume(id, authorized));
      && Grows(s, t) && DistinctRuntimes(t.authority.sessions) && CountedTokens(t.authority)
  {
    hide LogInvariant, LedgerInvariant;
  }

  lemma LedgerGrowsSystem(s: System, c: LedgerCall)
    requires Invariant(s)
    ensures Grows(s, Step(s, OnLedger(c))) && LedgerInvariant(Step(s, OnLedger(c)).leases)
  {
    hide LogInvariant, LedgerInvariant, LedgerGrows, LedgerStep;
    StepKeepsInvariant(s.leases, c);
  }

  /** One call keeps everything the log says, and takes back nothing the state had given up. */
  lemma StepHolds(s: System, call: Call)
    requires Invariant(s)
    ensures Grows(s, Step(s, call)) && Invariant(Step(s, call))
  {
    hide LogInvariant, LedgerInvariant, DistinctRuntimes, CountedTokens, Grows, CanDispatch, IssuingLease, LedgerStep,
         AfterRegister, AfterResume, AfterStop;
    SameGrows(s);
    var t := Step(s, call);
    match call
    case OnLedger(c) =>
      LedgerGrowsSystem(s, c);
      QuietStep(s, t);
    case Register(m, trust, identity, d) =>
      RegisterGrows(s, m, trust, identity, d);
      SameTokens(s.authority, m, trust, identity, d);
      QuietStep(s, t);
    case Suspend(id) =>
      if InState(s.authority, id, {Running}) {
        StopSession(s, id, Suspended);
      }
    case Resume(id, authorized) =>
      ResumeGrows(s, id, authorized);
      ResumedTokens(s.authority, id, authorized);
      QuietStep(s, t);
    case Terminate(id) =>
      if InState(s.authority, id, {Running, Suspended}) {
        StopSession(s, id, Terminated);
      }
    case Issue(r) =>
      if IssuingLease(s.authority, s.leases, r) < |s.leases| {
        IssueStep(s, r);
      }
    case Dispatch(id, c) =>
      if CanDispatch(s.authority, id, c) {
        DispatchStep(s, id, c);
      }
  }

  lemma SameTokens(a: Authority, m: Manifest, trust: TrustState, identity: Identity, d: LaunchDecision)
    ensures AfterRegister(a, m, trust, identity, d).tokens == a.tokens
  {
    hide CanRegister;
  }

  lemma ResumedTokens(a: Authority, id: Text, authorized: bool)
    ensures AfterResume(a, id, authorized).tokens == a.tokens
  {
  }

  lemma {:induction false} RunHolds(calls: seq<Call>)
    ensures Invariant(Run(calls))
  {
    hide Step;
    if calls != [] {
      RunHolds(calls[..|calls| - 1]);
      StepHolds(Run(calls[..|calls| - 1]), calls[|calls| - 1]);
    }
  }

  // Main results, over every run.

  /** A once lease leads to at most one token. */
  lemma OnceLeaseIssuesOnce(calls: seq<Call>, j: nat, k: nat)
    requires j < k < |Run(calls).log| && Run(calls).log[j].Issued? && Run(calls).log[k].Issued?
    requires Run(calls).log[j].lease == Run(calls).log[k].lease
    ensures Run(calls).log[j].used.grant.lifetime != Once && Run(calls).log[k].used.grant.lifetime != Once
  {
    hide *;
    RunHolds(calls);
    SameLease(Run(calls), j, k);
  }

  /** Two dispatches never go back to one once lease. */
  lemma OnceLeaseDispatchesOnce(calls: seq<Call>, a: nat, b: nat, j: nat, k: nat)
    requires j < |Run(calls).log| && k < |Run(calls).log| && j != k
    requires Run(calls).log[j].Dispatched? && Run(calls).log[k].Dispatched?
    requires a < |Run(calls).log| && Run(calls).log[a].Issued? && Run(calls).log[a].token == Run(calls).log[j].token
    requires b < |Run(calls).log| && Run(calls).log[b].Issued? && Run(calls).log[b].token == Run(calls).log[k].token
    requires Run(calls).log[a].lease == Run(calls).log[b].lease
    ensures Run(calls).log[a].used.grant.lifetime != Once
  {
    hide *;
    RunHolds(calls);
    DistinctDispatches(Run(calls), j, k);
    if a < b {
      SameLease(Run(calls), a, b);
    } else {
      SameLease(Run(calls), b, a);
    }
  }

  lemma DistinctDispatches(s: System, j: nat, k: nat)
    requires Invariant(s) && j < |s.log| && k < |s.log| && j != k && s.log[j].Dispatched? && s.log[k].Dispatched?
    ensures s.log[j].token != s.log[k].token
  {
    hide LedgerInvariant, EventHolds;
    assert PairHolds(s.log[j], s.log[k]) || PairHolds(s.log[k], s.log[j]);
  }

  lemma SameLease(s: System, j: nat, k: nat)
    requires Invariant(s) && j < k < |s.log| && s.log[j].Issued? && s.log[k].Issued?
    ensures s.log[j].lease == s.log[k].lease ==> s.log[j].used.grant.lifetime != Once && s.log[k].used.grant.lifetime != Once
  {
    hide LedgerInvariant, AuthorizedBy;
    assert PairHolds(s.log[j], s.log[k]);
    assert EventHolds(s, s.log[j]) && EventHolds(s, s.log[k]);
  }

  /** Whatever was asked for is what is dispatched, to the field, within five seconds. */
  ghost predicate SameCapability(r: CapabilityRequest, c: DispatchContext) {
    && r.extensionId == c.extensionId && r.profileId == c.profileId && r.runtimeId == c.runtimeId
    && r.permission == c.permission && r.website == c.website && r.tabId == c.tabId && r.sessionId == c.sessionId
    && r.privateBrowsing == c.privateBrowsing
    && r.now <= c.now < r.now + 5000
  }

  /** What the lease has to be for the request, in the request's own fields. */
  ghost predicate WarrantsRequest(m: Manifest, l: Lease, r: CapabilityRequest) {
    && ManifestAccepted(m) && PermissionName(r.permission) in m.requestedPermissions
    && l.grant.active && !l.revoked && !l.consumed
    && l.grant.permission == r.permission && l.grant.profileId == r.profileId != []
    && (r.privateBrowsing ==> l.grant.privateAllowed)
    && PagesAllowed(m, r.permission, l.grant.scope, r.website)
    && Lasts(l, r.now, r.tabActive, r.tabId, r.websiteActive, r.website, r.browserActive, r.sessionId)
    && Covers(l.grant, r.website, r.userActivation)
  }

  lemma RequestsAgree(m: Manifest, l: Lease, r: CapabilityRequest)
    ensures LeaseAuthorizes(m, l, r.permission, LeaseContextOf(r)) <==> WarrantsRequest(m, l, r)
  {
    hide LeaseAuthorizes, ManifestAccepted, PermissionName, PagesAllowed, Lasts, Covers;
    AuthorizesExactly(m, l, r.permission, LeaseContextOf(r));
  }

  lemma HourIsWhole(l: Lease)
    requires ValidLease(l) && l.grant.lifetime == OneHour
    ensures l.expiresAt as int == l.issuedAt as int + 3_600_000
  {
  }

  /** The lease was inside its own window, tab, website or session, and of the request's profile, permission and mode. */
  ghost predicate IssuedUnder(session: Session, used: Lease, r: CapabilityRequest) {
    && session.identity.extensionId == r.extensionId && session.identity.profileId == r.profileId
    && session.identity.runtimeId == r.runtimeId && session.identity.privateBrowsing == r.privateBrowsing
    && WarrantsRequest(session.manifest, used, r)
    && (used.grant.lifetime == OneHour ==> r.now as int - used.issuedAt as int < 3_600_000)
  }

  lemma AuthorizedIsUnder(session: Session, used: Lease, r: CapabilityRequest)
    requires AuthorizedBy(session, used, r)
    ensures IssuedUnder(session, used, r)
  {
    hide LeaseAuthorizes, ValidLease, ManifestAccepted, PermissionName, PagesAllowed, Covers;
    RequestsAgree(session.manifest, used, r);
    if used.grant.lifetime == OneHour {
      HourIsWhole(used);
    }
  }

  /** Each dispatch uses up a token of its own, issued less than five seconds before for exactly this call, under a lease
      that was then in force for it. */
  lemma DispatchIsIssued(calls: seq<Call>, k: nat)
    requires k < |Run(calls).log| && Run(calls).log[k].Dispatched?
    ensures var s := Run(calls);
      && (exists j | 0 <= j < k ::
            && s.log[j].Issued? && s.log[j].token == s.log[k].token && SameCapability(s.log[j].request, s.log[k].context)
            && exists i | 0 <= i < |s.authority.sessions| :: IssuedUnder(s.authority.sessions[i], s.log[j].used, s.log[j].request))
      && (forall m | 0 <= m < |s.log| && m != k && s.log[m].Dispatched? :: s.log[m].token != s.log[k].token)
  {
    hide Run, Step, AuthorizedBy, IssuedUnder;
    RunHolds(calls);
    var s := Run(calls);
    assert IssuedBefore(s.log, k, s.log[k].token);
    var j :| 0 <= j < k && s.log[j].Issued? && s.log[j].token == s.log[k].token;
    assert EventHolds(s, s.log[j]) && EventHolds(s, s.log[k]);
    assert SameCapability(s.log[j].request, s.log[k].context);
    var i :| 0 <= i < |s.authority.sessions| && AuthorizedBy(s.authority.sessions[i], s.log[j].used, s.log[j].request);
    AuthorizedIsUnder(s.authority.sessions[i], s.log[j].used, s.log[j].request);
    forall m | 0 <= m < |s.log| && m != k && s.log[m].Dispatched?
      ensures s.log[m].token != s.log[k].token
    {
      assert PairHolds(s.log[m], s.log[k]) || PairHolds(s.log[k], s.log[m]);
    }
  }

  /** A token issued before its runtime is stopped is never dispatched afterwards, resumed or not. */
  lemma StopRevokes(calls: seq<Call>, i: nat, j: nat, k: nat)
    requires i < j < k < |Run(calls).log|
    requires Run(calls).log[i].Issued? && Run(calls).log[j] == Stopped(Run(calls).log[i].request.runtimeId)
    requires Run(calls).log[k].Dispatched?
    ensures Run(calls).log[k].token != Run(calls).log[i].token
  {
    hide Step;
    RunHolds(calls);
  }

  /** Whatever calls follow, a terminated session stays terminated and no other session takes its runtime id. */
  lemma {:induction false} TerminatedForever(calls: seq<Call>, more: seq<Call>, i: nat)
    requires i < |Run(calls).authority.sessions|
    ensures var before, after := Run(calls).authority.sessions, Run(calls + more).authority.sessions;
      && i < |after| && SessionKept(before[i], after[i])
      && (forall j | 0 <= j < |after| && j != i :: after[j].identity.runtimeId != before[i].identity.runtimeId)
  {
    RunsGrow(calls, more);
    RunHolds(calls + more);
    hide Step, LogInvariant, LedgerInvariant, LedgerGrows;
  }

  lemma {:induction false} RunsGrow(calls: seq<Call>, more: seq<Call>)
    ensures Grows(Run(calls), Run(calls + more))
  {
    hide Step, LogInvariant, LedgerInvariant, Grows;
    if more == [] {
      assert calls + more == calls;
      SameGrows(Run(calls));
    } else {
      var shorter := more[..|more| - 1];
      assert (calls + more)[..|calls + more| - 1] == calls + shorter;
      RunsGrow(calls, shorter);
      RunHolds(calls + shorter);
      StepHolds(Run(calls + shorter), more[|more| - 1]);
      GrowsChain(Run(calls), Run(calls + shorter), Run(calls + more));
    }
  }

  lemma GrowsChain(a: System, b: System, c: System)
    requires Grows(a, b) && Grows(b, c)
    ensures Grows(a, c)
  {
  }

  predicate Uses(e: Event, runtimeId: Text) {
    match e
    case Issued(_, _, _, r) => r.runtimeId == runtimeId
    case Dispatched(_, c) => c.runtimeId == runtimeId
    case Stopped(_) => false
  }

  lemma TerminatedStep(s: System, call: Call, i: nat)
    requires i < |s.authority.sessions| && s.authority.sessions[i].state == Terminated
    requires DistinctRuntimes(s.authority.sessions)
    ensures forall k | |s.log| <= k < |Step(s, call).log| ::
              !Uses(Step(s, call).log[k], s.authority.sessions[i].identity.runtimeId)
  {
    hide LedgerStep, Authorizing, TokenMatches;
  }

  /** From termination on, the runtime is issued nothing and dispatches nothing. */
  lemma {:induction false} TerminatedIsPowerless(calls: seq<Call>, more: seq<Call>, i: nat)
    requires i < |Run(calls).authority.sessions| && Run(calls).authority.sessions[i].state == Terminated
    ensures Run(calls).log <= Run(calls + more).log
    ensures forall k | |Run(calls).log| <= k < |Run(calls + more).log| ::
              !Uses(Run(calls + more).log[k], Run(calls).authority.sessions[i].identity.runtimeId)
  {
    hide Step, LogInvariant, LedgerInvariant, LedgerGrows, Uses;
    if more == [] {
      assert calls + more == calls;
    } else {
      var shorter := more[..|more| - 1];
      assert (calls + more)[..|calls + more| - 1] == calls + shorter;
      TerminatedIsPowerless(calls, shorter, i);
      RunsGrow(calls, shorter);
      RunHolds(calls + shorter);
      TerminatedStep(Run(calls + shorter), more[|more| - 1], i);
      StepHolds(Run(calls + shorter), more[|more| - 1]);
    }
  }

  ghost predicate NoLiveTokens(tokens: seq<Token>, runtimeId: Text) {
    forall t | 0 <= t < |tokens| && tokens[t].runtimeId == runtimeId :: tokens[t].revoked || tokens[t].consumed
  }

  /** A session that is not running holds no live token. */
  ghost predicate StoppedHoldNothing(a: Authority) {
    forall i | 0 <= i < |a.sessions| && a.sessions[i].state != Running ::
      NoLiveTokens(a.tokens, a.sessions[i].identity.runtimeId)
  }

  lemma MarkedTokens(before: seq<Token>, after: seq<Token>, runtimeId: Text)
    requires NoLiveTokens(before, runtimeId) && TokensGrow(before, after) && |before| == |after|
    ensures NoLiveTokens(after, runtimeId)
  {
  }

  lemma IssuedHoldsNothing(s: System, r: CapabilityRequest)
    requires DistinctRuntimes(s.authority.sessions) && StoppedHoldNothing(s.authority)
    ensures StoppedHoldNothing(Step(s, Issue(r)).authority)
  {
    hide Authorizing, Consumed, DeclaresPermission;
    if MayRequest(s.authority, r) {
      forall i | 0 <= i < |s.authority.sessions| && s.authority.sessions[i].state != Running
        ensures s.authority.sessions[i].identity.runtimeId != r.runtimeId
      {
      }
    }
  }

  lemma StoppedNow(a: Authority, id: Text, state: RuntimeState)
    ensures NoLiveTokens(AfterStop(a, id, state).tokens, id)
    ensures TokensGrow(a.tokens, AfterStop(a, id, state).tokens) && |AfterStop(a, id, state).tokens| == |a.tokens|
  {
  }

  lemma StopHoldsNothing(a: Authority, id: Text, state: RuntimeState)
    requires StoppedHoldNothing(a) && state != Running
    ensures StoppedHoldNothing(AfterStop(a, id, state))
  {
    hide NoLiveTokens, AllRevoked, TokensGrow;
    StoppedNow(a, id, state);
    var b := AfterStop(a, id, state);
    forall i | 0 <= i < |b.sessions| && b.sessions[i].state != Running
      ensures NoLiveTokens(b.tokens, b.sessions[i].identity.runtimeId)
    {
      if i != FindSession(a.sessions, id) {
        MarkedTokens(a.tokens, b.tokens, a.sessions[i].identity.runtimeId);
      }
    }
  }

  lemma DispatchHoldsNothing(a: Authority, id: u64, c: DispatchContext)
    requires StoppedHoldNothing(a)
    ensures StoppedHoldNothing(AfterDispatch(a, id, c))
  {
    hide CanDispatch;
    if CanDispatch(a, id, c) {
      DispatchedTokens(a, id, c);
      forall i | 0 <= i < |a.sessions| && a.sessions[i].state != Running
        ensures NoLiveTokens(AfterDispatch(a, id, c).tokens, a.sessions[i].identity.runtimeId)
      {
        MarkedTokens(a.tokens, AfterDispatch(a, id, c).tokens, a.sessions[i].identity.runtimeId);
      }
    }
  }

  lemma DispatchedTokens(a: Authority, id: u64, c: DispatchContext)
    requires CanDispatch(a, id, c)
    ensures TokensGrow(a.tokens, AfterDispatch(a, id, c).tokens) && |AfterDispatch(a, id, c).tokens| == |a.tokens|
  {
    hide TokenMatches, SessionMatches;
  }

  lemma StepHoldsNothing(s: System, call: Call)
    requires DistinctRuntimes(s.authority.sessions) && StoppedHoldNothing(s.authority)
    ensures StoppedHoldNothing(Step(s, call).authority)
  {
    hide NoLiveTokens, CanRegister, AfterIssue, AfterDispatch, AfterStop, CanDispatch, IssuingLease, LedgerStep;
    match call
    case Issue(r) => IssuedHoldsNothing(s, r);
    case Dispatch(id, c) => DispatchHoldsNothing(s.authority, id, c);
    case Suspend(id) => StopHoldsNothing(s.authority, id, RuntimeState.Suspended);
    case Terminate(id) => StopHoldsNothing(s.authority, id, Terminated);
    case _ =>
  }

  /** In every reachable state a suspended or terminated runtime has only revoked or used tokens. */
  lemma {:induction false} StoppedRuntimesHoldNothing(calls: seq<Call>)
    ensures StoppedHoldNothing(Run(calls).authority)
  {
    hide Step;
    if calls != [] {
      StoppedRuntimesHoldNothing(calls[..|calls| - 1]);
      RunHolds(calls[..|calls| - 1]);
      StepHoldsNothing(Run(calls[..|calls| - 1]), calls[|calls| - 1]);
    }
  }
}
