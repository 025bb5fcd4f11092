/** What each call of the runtime authority comes to, over every run and in terms of recorded fields alone. */
module AuthorityTerms {
  import opened Bytes
  import opened Extensions
  import opened PermissionLedger
  import opened LeaseTerms
  import opened RuntimeAuthority
  import opened AuthorityHistory

  // Texts.

  /** A printable byte that is not a space. */
  predicate Visible(b: byte) {
    b > 0x20 && b != 0x7f
  }

  lemma VisibleExactly(s: Text)
    ensures !HasControlOrSpace(s) <==> forall i | 0 <= i < |s| :: Visible(s[i])
  {
    if !HasControlOrSpace(s) {
      forall i | 0 <= i < |s|
        ensures Visible(s[i])
      {
        assert !IsControl(s[i]) && !IsSpace(s[i]);
      }
    }
  }

  lemma IdentifierExactly(s: Text)
    ensures ValidRuntimeIdentifier(s) <==> 1 <= |s| <= 256 && forall i | 0 <= i < |s| :: Visible(s[i])
  {
    hide HasControlOrSpace, Visible;
    VisibleExactly(s);
  }

  lemma SiteExactly(s: Text)
    ensures ValidSite(s) <==> |s| <= 2048 && (forall i | 0 <= i < |s| :: Visible(s[i])) && (Ascii("http://") <= s || Ascii("https://") <= s)
  {
    hide HasControlOrSpace, Visible, Ascii;
    VisibleExactly(s);
  }

  lemma PathShapeExactly(s: Text)
    ensures PathShape(s) <==>
              && 1 <= |s| <= 1024 && s[0] != 0x2f
              && forall i | 0 <= i < |s| :: Visible(s[i]) && s[i] != 0x5c && s[i] != 0x3a
  {
    hide HasControlOrSpace, Visible;
    VisibleExactly(s);
  }

  predicate Digit(b: byte) {
    0x30 <= b <= 0x39
  }

  predicate Small(b: byte) {
    0x61 <= b <= 0x7a
  }

  predicate Capital(b: byte) {
    0x41 <= b <= 0x5a
  }

  /** Extension ids are 3 to 128 small letters, digits, dots, dashes and underscores, with a letter or digit at both ends
      and no two dots together. */
  lemma ExtensionIdExactly(s: Text)
    ensures ValidExtensionId(s) <==>
              && 3 <= |s| <= 128
              && (forall i | 0 <= i < |s| :: Small(s[i]) || Digit(s[i]) || s[i] in {0x2e, 0x2d, 0x5f})
              && (Small(s[0]) || Digit(s[0])) && (Small(s[|s| - 1]) || Digit(s[|s| - 1]))
              && (forall i | 0 <= i < |s| - 1 :: s[i] == 0x2e ==> s[i + 1] != 0x2e)
  {
  }

  /** Versions are at most 64 letters, digits, dots, dashes and plus signs after a digit. */
  lemma VersionExactly(s: Text)
    ensures ValidVersion(s) <==>
              && 1 <= |s| <= 64 && Digit(s[0])
              && forall i | 0 <= i < |s| :: Small(s[i]) || Capital(s[i]) || Digit(s[i]) || s[i] in {0x2e, 0x2d, 0x2b}
  {
  }

  // Manifests.

  /** What an accepted manifest is. */
  lemma AcceptedExactly(m: Manifest)
    ensures ManifestAccepted(m) <==>
              && m.manifestVersion == 1 && m.apiVersion == 1
              && ValidExtensionId(m.id) && m.name != [] && ValidVersion(m.version)
              && m.entryPoints != [] && Distinct(m.entryPoints) && (forall e | e in m.entryPoints :: ValidPackagePath(e))
              && Distinct(m.requestedPermissions) && (forall p | p in m.requestedPermissions :: KnownPermission(p))
              && Distinct(m.allowedWebsites) && (forall s | s in m.allowedWebsites :: ValidSite(s))
  {
    hide ValidVersion, ValidPackagePath, ValidSite, KnownPermission, Distinct;
    EmptyIsNoId(m.id);
    hide ValidExtensionId;
    if ManifestAccepted(m) {
      assert !HasIssue(m, MissingId) && !HasIssue(m, InvalidId) && !HasIssue(m, MissingName) && !HasIssue(m, InvalidVersion);
      assert !HasIssue(m, UnsupportedManifestVersion) && !HasIssue(m, UnsupportedApiVersion) && !HasIssue(m, MissingEntryPoint);
      assert !HasIssue(m, InvalidEntryPoint) && !HasIssue(m, DuplicateEntryPoint) && !HasIssue(m, UnknownPermission);
      assert !HasIssue(m, DuplicatePermission) && !HasIssue(m, InvalidSiteDeclaration) && !HasIssue(m, DuplicateSiteDeclaration);
    }
  }

  lemma EmptyIsNoId(s: Text)
    ensures ValidExtensionId(s) ==> s != []
  {
  }

  // Calls.

  lemma OneMore(calls: seq<Call>, call: Call)
    ensures Run(calls + [call]) == Step(Run(calls), call)
  {
    hide Step;
    assert (calls + [call])[..|calls + [call]| - 1] == calls;
  }

  predicate Registered(a: Authority, runtimeId: Text) {
    exists i | 0 <= i < |a.sessions| :: a.sessions[i].identity.runtimeId == runtimeId
  }

  /** A runtime is registered, and runs, exactly when the browser launches it, its manifest is accepted and is of its
      extension, its identifiers are well formed, its mode was allowed and its id is new. */
  lemma RegisterExactly(calls: seq<Call>, m: Manifest, trust: TrustState, identity: Identity, d: LaunchDecision)
    ensures var s, t := Run(calls), Run(calls + [Register(m, trust, identity, d)]);
      t == if && d.launchAuthorized && (identity.privateBrowsing ==> d.privateAuthorized)
              && ManifestAccepted(m) && m.id == identity.extensionId
              && (forall x | x in [identity.extensionId, identity.profileId, identity.runtimeId] :: ValidRuntimeIdentifier(x))
              && !Registered(s.authority, identity.runtimeId)
           then s.(authority := s.authority.(sessions := s.authority.sessions + [Session(identity, m, trust, Running)]))
           else s
  {
    hide ManifestAccepted, ValidRuntimeIdentifier;
    OneMore(calls, Register(m, trust, identity, d));
    ThreeIn(identity.extensionId, identity.profileId, identity.runtimeId);
  }

  lemma ThreeIn(a: Text, b: Text, c: Text)
    ensures forall x :: x in [a, b, c] <==> x == a || x == b || x == c
  {
  }

  /** The session is that of the runtime, runs, and is of the same extension, profile and mode. */
  predicate Serves(session: Session, extensionId: Text, profileId: Text, runtimeId: Text, privateBrowsing: bool) {
    && session.state == Running
    && session.identity.extensionId == extensionId && session.identity.profileId == profileId
    && session.identity.runtimeId == runtimeId && session.identity.privateBrowsing == privateBrowsing
  }

  ghost predicate Issuable(s: System, r: CapabilityRequest) {
    && r.now as int + 5000 < 0x1_0000_0000_0000_0000 && |s.authority.tokens| + 1 < 0x1_0000_0000_0000_0000
    && exists i, l | 0 <= i < |s.authority.sessions| && 0 <= l < |s.leases| ::
         && Serves(s.authority.sessions[i], r.extensionId, r.profileId, r.runtimeId, r.privateBrowsing)
         && WarrantsRequest(s.authority.sessions[i].manifest, s.leases[l], r)
  }

  /** A token is issued exactly when a running session of the request has a lease in force for it, the time and the counter
      permitting; it is numbered by the counter, says what was asked for, and lasts five seconds. */
  lemma IssueExactly(calls: seq<Call>, r: CapabilityRequest)
    ensures var s, t := Run(calls), Run(calls + [Issue(r)]);
      if Issuable(s, r) then
        t.authority.tokens == s.authority.tokens
          + [Token(|s.authority.tokens| + 1, r.extensionId, r.profileId, r.runtimeId, r.permission, r.website, r.tabId, r.sessionId,
                   r.privateBrowsing, r.now, r.now + 5000, false, false)]
      else t == s
  {
    hide Step, Invariant, WarrantsRequest, LeaseAuthorizes;
    OneMore(calls, Issue(r));
    RunHolds(calls);
    Counted(Run(calls));
    var s := Run(calls);
    IssuableExactly(s, r);
    IssueIs(s, r);
  }

  lemma Counted(s: System)
    requires Invariant(s)
    ensures CountedTokens(s.authority) && DistinctRuntimes(s.authority.sessions)
  {
    hide LogInvariant, LedgerInvariant, CountedTokens, DistinctRuntimes;
  }

  lemma IssueIs(s: System, r: CapabilityRequest)
    requires CountedTokens(s.authority)
    ensures var t := Step(s, Issue(r));
      if IssuingLease(s.authority, s.leases, r) < |s.leases| then
        |s.authority.tokens| + 1 < U64_LIMIT && r.now as int + 5000 < U64_LIMIT
        && t.authority.tokens == s.authority.tokens
             + [Token(|s.authority.tokens| + 1, r.extensionId, r.profileId, r.runtimeId, r.permission, r.website, r.tabId, r.sessionId,
                      r.privateBrowsing, r.now, r.now + 5000, false, false)]
      else t == s
  {
    hide IssuingLease, Consumed, MayRequest;
    if IssuingLease(s.authority, s.leases, r) < |s.leases| {
      IssueInTime(s.authority, s.leases, r);
    }
  }

  lemma IssueInTime(a: Authority, ls: seq<Lease>, r: CapabilityRequest)
    requires CountedTokens(a) && IssuingLease(a, ls, r) < |ls|
    ensures |a.tokens| + 1 < U64_LIMIT && r.now as int + 5000 < U64_LIMIT && a.nextTokenId == |a.tokens| + 1
  {
    hide Authorizing, FindSession, DeclaresPermission;
  }

  lemma SessionFound(sessions: seq<Session>, i: nat)
    requires DistinctRuntimes(sessions) && i < |sessions|
    ensures FindSession(sessions, sessions[i].identity.runtimeId) == i
  {
  }

  lemma IssuableExactly(s: System, r: CapabilityRequest)
    requires CountedTokens(s.authority) && DistinctRuntimes(s.authority.sessions)
    ensures Issuable(s, r) <==> IssuingLease(s.authority, s.leases, r) < |s.leases|
  {
    hide WarrantsRequest, LeaseAuthorizes, CountedTokens, DistinctRuntimes, FindSession, DeclaresPermission;
    CounterLeft(s.authority);
    var x := FindSession(s.authority.sessions, r.runtimeId);
    if Issuable(s, r) {
      var i, l :| 0 <= i < |s.authority.sessions| && 0 <= l < |s.leases|
        && Serves(s.authority.sessions[i], r.extensionId, r.profileId, r.runtimeId, r.privateBrowsing)
        && WarrantsRequest(s.authority.sessions[i].manifest, s.leases[l], r);
      SessionFound(s.authority.sessions, i);
      RequestsAgree(s.authority.sessions[i].manifest, s.leases[l], r);
      WarrantDeclares(s.authority.sessions[i].manifest, s.leases[l], r);
    }
    if IssuingLease(s.authority, s.leases, r) < |s.leases| {
      var l := IssuingLease(s.authority, s.leases, r);
      RequestsAgree(s.authority.sessions[x].manifest, s.leases[l], r);
      assert Serves(s.authority.sessions[x], r.extensionId, r.profileId, r.runtimeId, r.privateBrowsing);
    }
  }

  lemma CounterLeft(a: Authority)
    requires CountedTokens(a)
    ensures a.nextTokenId != 0 <==> |a.tokens| + 1 < 0x1_0000_0000_0000_0000
  {
  }

  lemma WarrantDeclares(m: Manifest, l: Lease, r: CapabilityRequest)
    requires WarrantsRequest(m, l, r)
    ensures DeclaresPermission(m, r.permission)
  {
    hide ManifestAccepted, PagesAllowed, Lasts, Covers;
  }

  /** The call is the one that the token was issued for, within its time. */
  predicate Agrees(t: Token, c: DispatchContext) {
    && t.extensionId == c.extensionId && t.profileId == c.profileId && t.runtimeId == c.runtimeId
    && t.permission == c.permission && t.website == c.website && t.tabId == c.tabId && t.sessionId == c.sessionId
    && t.privateBrowsing == c.privateBrowsing && t.issuedAt <= c.now < t.expiresAt
  }

  ghost predicate Dispatchable(a: Authority, id: u64, c: DispatchContext) {
    && 0 < id <= |a.tokens| && !a.tokens[id - 1].revoked && !a.tokens[id - 1].consumed && Agrees(a.tokens[id - 1], c)
    && (exists i | 0 <= i < |a.sessions| :: Serves(a.sessions[i], c.extensionId, c.profileId, c.runtimeId, c.privateBrowsing))
    && c.browserActive && (c.tabId == [] || c.tabActive) && (c.website == [] || c.websiteActive)
  }

  /** A call is dispatched exactly with a live token issued for it, from a running session, while its browser, tab and website
      are active; and it uses the token up. */
  lemma DispatchExactly(calls: seq<Call>, id: u64, c: DispatchContext)
    ensures var s, t := Run(calls), Run(calls + [Dispatch(id, c)]);
      t == if Dispatchable(s.authority, id, c)
           then System(s.leases,
                       s.authority.(tokens := s.authority.tokens[id - 1 := s.authority.tokens[id - 1].(consumed := true)]),
                       s.log + [Dispatched(id - 1, c)])
           else s
  {
    hide Invariant;
    OneMore(calls, Dispatch(id, c));
    RunHolds(calls);
    Counted(Run(calls));
    DispatchableExactly(Run(calls).authority, id, c);
    hide CanDispatch, Dispatchable, DistinctRuntimes;
    TokenFound(Run(calls).authority, id);
  }

  lemma TokenFound(a: Authority, id: u64)
    requires CountedTokens(a)
    ensures FindToken(a.tokens, id) == if 0 < id <= |a.tokens| then id - 1 else |a.tokens|
  {
    if 0 < id <= |a.tokens| {
      assert a.tokens[id - 1].id == id;
      var i := FindToken(a.tokens, id);
      assert i < |a.tokens| ==> a.tokens[i].id == i + 1;
    }
  }

  lemma DispatchableExactly(a: Authority, id: u64, c: DispatchContext)
    requires CountedTokens(a) && DistinctRuntimes(a.sessions)
    ensures Dispatchable(a, id, c) <==> CanDispatch(a, id, c)
  {
    hide TokenMatches, Agrees, FindSession, FindToken, DistinctRuntimes;
    TokenFound(a, id);
    if 0 < id <= |a.tokens| {
      AgreesExactly(a.tokens[id - 1], c);
    }
    ServedExactly(a, c);
    hide SessionMatches;
  }

  lemma AgreesExactly(t: Token, c: DispatchContext)
    ensures Agrees(t, c) <==> TokenMatches(t, c)
  {
  }

  lemma ServedExactly(a: Authority, c: DispatchContext)
    requires DistinctRuntimes(a.sessions)
    ensures (exists i | 0 <= i < |a.sessions| :: Serves(a.sessions[i], c.extensionId, c.profileId, c.runtimeId, c.privateBrowsing))
            <==> SessionMatches(a, c)
  {
    hide DistinctRuntimes, FindSession;
    var x := FindSession(a.sessions, c.runtimeId);
    if i :| 0 <= i < |a.sessions| && Serves(a.sessions[i], c.extensionId, c.profileId, c.runtimeId, c.privateBrowsing) {
      SessionFound(a.sessions, i);
    }
    if SessionMatches(a, c) {
      assert Serves(a.sessions[x], c.extensionId, c.profileId, c.runtimeId, c.privateBrowsing);
    }
  }

  // The lives of sessions.

  /** What becomes of a session's state. */
  function StateAfter(call: Call, runtimeId: Text, state: RuntimeState): RuntimeState {
    match call
    case Suspend(id) => if id == runtimeId && state == Running then Suspended else state
    case Resume(id, authorized) => if id == runtimeId && authorized && state == Suspended then Running else state
    case Terminate(id) => if id == runtimeId then Terminated else state
    case _ => state
  }

  /** The tokens that are live and of this runtime are revoked, the others are as they were. */
  ghost predicate RevokedOf(before: seq<Token>, after: seq<Token>, runtimeId: Text) {
    && |after| == |before|
    && forall i | 0 <= i < |before| ::
         after[i] == if before[i].runtimeId == runtimeId && !before[i].revoked && !before[i].consumed then before[i].(revoked := true) else before[i]
  }

  /** Suspending, resuming and terminating move the one session as they say and no other; suspending a running session and
      ending one that had not ended revoke its live tokens, and nothing else touches a token. */
  lemma LivesExactly(calls: seq<Call>, call: Call, i: nat)
    requires (call.Suspend? || call.Resume? || call.Terminate?) && i < |Run(calls).authority.sessions|
    ensures var a, b := Run(calls).authority, Run(calls + [call]).authority;
      && |b.sessions| == |a.sessions|
      && b.sessions[i] == a.sessions[i].(state := StateAfter(call, a.sessions[i].identity.runtimeId, a.sessions[i].state))
      && (a.sessions[i].identity.runtimeId == call.runtimeId ==>
            if (call.Suspend? && a.sessions[i].state == Running) || (call.Terminate? && a.sessions[i].state != Terminated)
            then RevokedOf(a.tokens, b.tokens, call.runtimeId) else b.tokens == a.tokens)
  {
    hide Invariant, StateAfter, RevokedOf, AfterSuspend, AfterResume, AfterTerminate;
    OneMore(calls, call);
    RunHolds(calls);
    Counted(Run(calls));
    var a := Run(calls).authority;
    match call
    case Suspend(id) => SuspendLives(a, id, i);
    case Resume(id, authorized) => ResumeLives(a, id, authorized, i);
    case Terminate(id) => TerminateLives(a, id, i);
  }

  lemma SuspendLives(a: Authority, id: Text, i: nat)
    requires DistinctRuntimes(a.sessions) && i < |a.sessions|
    ensures var b, own := AfterSuspend(a, id), a.sessions[i].identity.runtimeId == id;
      && |b.sessions| == |a.sessions|
      && b.sessions[i] == a.sessions[i].(state := StateAfter(Suspend(id), a.sessions[i].identity.runtimeId, a.sessions[i].state))
      && (own ==> if a.sessions[i].state == Running then RevokedOf(a.tokens, b.tokens, id) else b.tokens == a.tokens)
  {
    hide DistinctRuntimes, FindSession;
    SessionFound(a.sessions, i);
  }

  lemma ResumeLives(a: Authority, id: Text, authorized: bool, i: nat)
    requires DistinctRuntimes(a.sessions) && i < |a.sessions|
    ensures var b := AfterResume(a, id, authorized);
      && |b.sessions| == |a.sessions| && b.tokens == a.tokens
      && b.sessions[i] == a.sessions[i].(state := StateAfter(Resume(id, authorized), a.sessions[i].identity.runtimeId, a.sessions[i].state))
  {
    hide DistinctRuntimes, FindSession;
    SessionFound(a.sessions, i);
  }

  lemma TerminateLives(a: Authority, id: Text, i: nat)
    requires DistinctRuntimes(a.sessions) && i < |a.sessions|
    ensures var b, own := AfterTerminate(a, id), a.sessions[i].identity.runtimeId == id;
      && |b.sessions| == |a.sessions|
      && b.sessions[i] == a.sessions[i].(state := StateAfter(Terminate(id), a.sessions[i].identity.runtimeId, a.sessions[i].state))
      && (own ==> if a.sessions[i].state != Terminated then RevokedOf(a.tokens, b.tokens, id) else b.tokens == a.tokens)
  {
    hide DistinctRuntimes, FindSession;
    SessionFound(a.sessions, i);
  }
}
