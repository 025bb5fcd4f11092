/** Runtime sessions and the single-use capability tokens that dispatch privileged calls. */
module RuntimeAuthority {
  import opened Bytes
  import opened Extensions
  import opened PermissionLedger
  import opened Wrappers

  const TOKEN_MILLIS := 5000

  datatype RuntimeState = Running | Suspended | Terminated

  datatype Identity = Identity(extensionId: Text, profileId: Text, runtimeId: Text, privateBrowsing: bool)

  datatype LaunchDecision = LaunchDecision(launchAuthorized: bool, privateAuthorized: bool)

  datatype Session = Session(identity: Identity, manifest: Manifest, trust: TrustState, state: RuntimeState)

  datatype CapabilityRequest = CapabilityRequest(
    extensionId: Text, profileId: Text, runtimeId: Text, permission: Permission,
    website: Text, tabId: Text, sessionId: Text,
    privateBrowsing: bool, userActivation: bool, tabActive: bool, websiteActive: bool, browserActive: bool,
    now: u64)

  datatype Token = Token(
    id: u64, extensionId: Text, profileId: Text, runtimeId: Text, permission: Permission,
    website: Text, tabId: Text, sessionId: Text, privateBrowsing: bool,
    issuedAt: u64, expiresAt: u64, revoked: bool, consumed: bool)

  datatype DispatchContext = DispatchContext(
    extensionId: Text, profileId: Text, runtimeId: Text, permission: Permission,
    website: Text, tabId: Text, sessionId: Text,
    privateBrowsing: bool, tabActive: bool, websiteActive: bool, browserActive: bool,
    now: u64)

  /** The authority's whole state. */
  datatype Authority = Authority(sessions: seq<Session>, tokens: seq<Token>, nextTokenId: u64)

  function NoAuthority(): Authority {
    Authority([], [], 1)
  }

  predicate ValidRuntimeIdentifier(s: Text) {
    1 <= |s| <= 256 && !HasControlOrSpace(s)
  }

  function FindSession(sessions: seq<Session>, runtimeId: Text): (i: nat)
    ensures i <= |sessions|
    ensures i < |sessions| ==> sessions[i].identity.runtimeId == runtimeId
    ensures forall j | 0 <= j < i :: sessions[j].identity.runtimeId != runtimeId
  {
    if sessions == [] || sessions[0].identity.runtimeId == runtimeId then 0 else 1 + FindSession(sessions[1..], runtimeId)
  }

  function FindToken(tokens: seq<Token>, id: u64): (i: nat)
    ensures i <= |tokens|
    ensures i < |tokens| ==> tokens[i].id == id
    ensures forall j | 0 <= j < i :: tokens[j].id != id
  {
    if tokens == [] || tokens[0].id == id then 0 else 1 + FindToken(tokens[1..], id)
  }

  // What each call does.

  ghost predicate CanRegister(a: Authority, m: Manifest, identity: Identity, d: LaunchDecision) {
    && d.launchAuthorized && ManifestAccepted(m) && m.id == identity.extensionId
    && ValidRuntimeIdentifier(identity.extensionId) && ValidRuntimeIdentifier(identity.profileId)
    && ValidRuntimeIdentifier(identity.runtimeId)
    && (identity.privateBrowsing ==> d.privateAuthorized)
    && FindSession(a.sessions, identity.runtimeId) == |a.sessions|
  }

  ghost function AfterRegister(a: Authority, m: Manifest, trust: TrustState, identity: Identity, d: LaunchDecision): Authority {
    if CanRegister(a, m, identity, d)
    then a.(sessions := a.sessions + [Session(identity, m, trust, Running)])
    else a
  }

  predicate InState(a: Authority, runtimeId: Text, states: set<RuntimeState>) {
    var i := FindSession(a.sessions, runtimeId);
    i < |a.sessions| && a.sessions[i].state in states
  }

  function SetState(a: Authority, runtimeId: Text, state: RuntimeState): Authority {
    var i := FindSession(a.sessions, runtimeId);
    if i < |a.sessions| then a.(sessions := a.sessions[i := a.sessions[i].(state := state)]) else a
  }

  function RevokedFor(runtimeId: Text, t: Token): Token {
    if !t.revoked && !t.consumed && t.runtimeId == runtimeId then t.(revoked := true) else t
  }

  function AllRevoked(runtimeId: Text, tokens: seq<Token>): (r: seq<Token>)
    ensures |r| == |tokens|
  {
    seq(|tokens|, i requires 0 <= i < |tokens| => RevokedFor(runtimeId, tokens[i]))
  }

  /** Stopping a runtime: its state changes and its live tokens are revoked. */
  function AfterStop(a: Authority, runtimeId: Text, state: RuntimeState): Authority {
    SetState(a, runtimeId, state).(tokens := AllRevoked(runtimeId, a.tokens))
  }

  function AfterSuspend(a: Authority, runtimeId: Text): Authority {
    if InState(a, runtimeId, {Running}) then AfterStop(a, runtimeId, Suspended) else a
  }

  function AfterTerminate(a: Authority, runtimeId: Text): Authority {
    if InState(a, runtimeId, {Running, Suspended}) then AfterStop(a, runtimeId, Terminated) else a
  }

  function AfterResume(a: Authority, runtimeId: Text, authorized: bool): Authority {
    if authorized && InState(a, runtimeId, {Suspended}) then SetState(a, runtimeId, Running) else a
  }

  predicate MayRequest(a: Authority, r: CapabilityRequest) {
    var i := FindSession(a.sessions, r.runtimeId);
    && i < |a.sessions|
    && a.sessions[i].state == Running
    && a.sessions[i].identity.extensionId == r.extensionId
    && a.sessions[i].identity.profileId == r.profileId
    && a.sessions[i].identity.privateBrowsing == r.privateBrowsing
    && DeclaresPermission(a.sessions[i].manifest, r.permission)
    && a.nextTokenId != 0
    && r.now <= U64_LIMIT - 1 - TOKEN_MILLIS
  }

  function LeaseContextOf(r: CapabilityRequest): LeaseContext {
    LeaseContext(
      AuthorizationContext(r.profileId, r.website, r.privateBrowsing, r.userActivation, false,
                           r.tabActive, r.websiteActive, r.browserActive, false),
      r.now, r.tabId, r.sessionId)
  }

  function NewToken(id: u64, r: CapabilityRequest): Token
    requires r.now <= U64_LIMIT - 1 - TOKEN_MILLIS
  {
    Token(id, r.extensionId, r.profileId, r.runtimeId, r.permission, r.website, r.tabId, r.sessionId,
          r.privateBrowsing, r.now, r.now + TOKEN_MILLIS, false, false)
  }

  /** The lease an issue would use: its index, or the number of leases when nothing authorizes. */
  ghost function IssuingLease(a: Authority, ls: seq<Lease>, r: CapabilityRequest): (i: nat)
    ensures i <= |ls|
  {
    if MayRequest(a, r)
    then Authorizing(a.sessions[FindSession(a.sessions, r.runtimeId)].manifest, ls, r.permission, LeaseContextOf(r))
    else |ls|
  }

  ghost function AfterIssue(a: Authority, ls: seq<Lease>, r: CapabilityRequest): (Authority, seq<Lease>, Option<Token>) {
    var i := IssuingLease(a, ls, r);
    if i < |ls| then
      var t := NewToken(a.nextTokenId, r);
      (a.(tokens := a.tokens + [t], nextTokenId := (a.nextTokenId + 1) % U64_LIMIT), Consumed(ls, i), Some(t))
    else (a, ls, None)
  }

  /** The dispatch is for exactly what the token was issued for, inside its life. */
  predicate TokenMatches(t: Token, c: DispatchContext) {
    && t.issuedAt <= c.now < t.expiresAt
    && t.extensionId == c.extensionId && t.profileId == c.profileId && t.runtimeId == c.runtimeId
    && t.permission == c.permission && t.website == c.website && t.tabId == c.tabId
    && t.sessionId == c.sessionId && t.privateBrowsing == c.privateBrowsing
  }

  predicate SessionMatches(a: Authority, c: DispatchContext) {
    var i := FindSession(a.sessions, c.runtimeId);
    && i < |a.sessions| && a.sessions[i].state == Running
    && a.sessions[i].identity.extensionId == c.extensionId
    && a.sessions[i].identity.profileId == c.profileId
    && a.sessions[i].identity.privateBrowsing == c.privateBrowsing
  }

  predicate CanDispatch(a: Authority, id: u64, c: DispatchContext) {
    var i := FindToken(a.tokens, id);
    && i < |a.tokens| && !a.tokens[i].revoked && !a.tokens[i].consumed && a.tokens[i].id != 0
    && TokenMatches(a.tokens[i], c)
    && SessionMatches(a, c)
    && c.browserActive && (c.tabId != [] ==> c.tabActive) && (c.website != [] ==> c.websiteActive)
  }

  function AfterDispatch(a: Authority, id: u64, c: DispatchContext): Authority {
    var i := FindToken(a.tokens, id);
    if CanDispatch(a, id, c) then a.(tokens := a.tokens[i := a.tokens[i].(consumed := true)]) else a
  }

  class ExtensionRuntimeAuthority {
    var sessions: seq<Session>
    var tokens: seq<Token>
    var nextTokenId: u64

    constructor ()
      ensures State() == NoAuthority()
    {
      sessions, tokens, nextTokenId := [], [], 1;
    }

    ghost function State(): Authority
      reads this
    {
      Authority(sessions, tokens, nextTokenId)
    }

    method SessionIndex(runtimeId: Text) returns (i: nat)
      ensures i == FindSession(sessions, runtimeId)
    {
      i := 0;
      while i < |sessions| && sessions[i].identity.runtimeId != runtimeId
        invariant 0 <= i <= |sessions|
        invariant forall j | 0 <= j < i :: sessions[j].identity.runtimeId != runtimeId
      {
        i := i + 1;
      }
    }

    method TokenIndex(id: u64) returns (i: nat)
      ensures i == FindToken(tokens, id)
    {
      i := 0;
      while i < |tokens| && tokens[i].id != id
        invariant 0 <= i <= |tokens|
        invariant forall j | 0 <= j < i :: tokens[j].id != id
      {
        i := i + 1;
      }
    }

    method RevokeRuntimeTokens(runtimeId: Text)
      modifies this`tokens
      ensures tokens == AllRevoked(runtimeId, old(tokens))
    {
      var i := 0;
      while i < |tokens|
        invariant 0 <= i <= |tokens| == |old(tokens)|
        invariant forall j | 0 <= j < i :: tokens[j] == RevokedFor(runtimeId, old(tokens)[j])
        invariant forall j | i <= j < |tokens| :: tokens[j] == old(tokens)[j]
      {
        if !tokens[i].revoked && !tokens[i].consumed && tokens[i].runtimeId == runtimeId {
          tokens := tokens[i := tokens[i].(revoked := true)];
        }
        i := i + 1;
      }
    }

    method RegisterRuntime(m: Manifest, trust: TrustState, identity: Identity, d: LaunchDecision) returns (ok: bool)
      modifies this
      ensures ok == CanRegister(old(State()), m, identity, d)
      ensures State() == AfterRegister(old(State()), m, trust, identity, d)
    {
      var issues := ValidateManifest(m);
      var found := SessionIndex(identity.runtimeId);
      if !d.launchAuthorized || issues != {} || m.id != identity.extensionId
         || !ValidRuntimeIdentifier(identity.extensionId) || !ValidRuntimeIdentifier(identity.profileId)
         || !ValidRuntimeIdentifier(identity.runtimeId)
         || (identity.privateBrowsing && !d.privateAuthorized) || found != |sessions|
      {
        return false;
      }
      sessions := sessions + [Session(identity, m, trust, Running)];
      return true;
    }

    method Suspend(runtimeId: Text) returns (ok: bool)
      modifies this
      ensures ok == InState(old(State()), runtimeId, {Running})
      ensures State() == AfterSuspend(old(State()), runtimeId)
    {
      var i := SessionIndex(runtimeId);
      if i == |sessions| || sessions[i].state != Running {
        return false;
      }
      sessions := sessions[i := sessions[i].(state := Suspended)];
      RevokeRuntimeTokens(runtimeId);
      return true;
    }

    method Resume(runtimeId: Text, authorized: bool) returns (ok: bool)
      modifies this
      ensures ok == (authorized && InState(old(State()), runtimeId, {Suspended}))
      ensures State() == AfterResume(old(State()), runtimeId, authorized)
    {
      var i := SessionIndex(runtimeId);
      if !authorized || i == |sessions| || sessions[i].state != Suspended {
        return false;
      }
      sessions := sessions[i := sessions[i].(state := Running)];
      return true;
    }

    method Terminate(runtimeId: Text) returns (ok: bool)
      modifies this
      ensures ok == InState(old(State()), runtimeId, {Running, Suspended})
      ensures State() == AfterTerminate(old(State()), runtimeId)
    {
      var i := SessionIndex(runtimeId);
      if i == |sessions| || sessions[i].state == Terminated {
        return false;
      }
      sessions := sessions[i := sessions[i].(state := Terminated)];
      RevokeRuntimeTokens(runtimeId);
      return true;
    }

    method IssueCapability(ledger: ExtensionPermissionLedger, r: CapabilityRequest) returns (token: Option<Token>)
      modifies this, ledger
      ensures (State(), ledger.leases, token) == AfterIssue(old(State()), old(ledger.leases), r)
    {
      hide DeclaresPermission, Authorizing, Consumed, LeaseAuthorizes;
      var i := SessionIndex(r.runtimeId);
      if i == |sessions| || sessions[i].state != Running
         || sessions[i].identity.extensionId != r.extensionId || sessions[i].identity.profileId != r.profileId
         || sessions[i].identity.privateBrowsing != r.privateBrowsing
         || !DeclaresPermission(sessions[i].manifest, r.permission)
         || nextTokenId == 0 || r.now > U64_LIMIT - 1 - TOKEN_MILLIS
      {
        return None;
      }
      var authorized := ledger.AuthorizeAndConsume(sessions[i].manifest, r.permission, LeaseContextOf(r));
      if !authorized {
        return None;
      }
      var t := NewToken(nextTokenId, r);
      nextTokenId := (nextTokenId + 1) % U64_LIMIT;
      tokens := tokens + [t];
      return Some(t);
    }

    method AuthorizeAndConsume(id: u64, c: DispatchContext) returns (ok: bool)
      modifies this
      ensures ok == CanDispatch(old(State()), id, c)
      ensures State() == AfterDispatch(old(State()), id, c)
    {
      var i := TokenIndex(id);
      if i == |tokens| || tokens[i].revoked || tokens[i].consumed || tokens[i].id == 0
         || !TokenMatches(tokens[i], c)
      {
        return false;
      }
      var s := SessionIndex(c.runtimeId);
      if s == |sessions| || sessions[s].state != Running
         || sessions[s].identity.extensionId != c.extensionId || sessions[s].identity.profileId != c.profileId
         || sessions[s].identity.privateBrowsing != c.privateBrowsing
      {
        return false;
      }
      if !c.browserActive || (c.tabId != [] && !c.tabActive) || (c.website != [] && !c.websiteActive) {
        return false;
      }
      tokens := tokens[i := tokens[i].(consumed := true)];
      return true;
    }
  }
}
