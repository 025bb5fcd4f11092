/** The site permission broker: requests for device resources, resolved one resource at a time. */
module PermissionBroker {
  import opened Bytes
  import opened Wrappers
  import opened Extensions

  datatype Privacy = Normal | PrivateBrowsing | IsolatedPrivate

  datatype Resource = Camera | Microphone | Geolocation | ProtectedMedia | MidiSysex

  datatype HostOs = Granted | DeniedRequestable | DeniedNoReprompt | Restricted | OsUnavailable | OsError

  datatype AuthorityDecision = NotRequired | AuthorityAllow | AuthorityDeny | AuthorityUnavailable | Invalid

  datatype Gate = Gate(required: bool, decision: AuthorityDecision)

  datatype Request = Request(
    id: Text, profileId: Text, contextId: Text, privacy: Privacy, tabOwner: Text, topOrigin: Text, requestingOrigin: Text,
    resources: seq<Resource>, createdAt: int, expiresAt: int, contractVersion: int)

  datatype Current = Current(
    profileId: Text, contextId: Text, privacy: Privacy, tabOwner: Text, topOrigin: Text, requestingOrigin: Text)

  datatype Snapshot = Snapshot(resource: Resource, os: HostOs, policy: Gate, shield: Gate, wardveil: Gate)

  datatype Context = Context(current: Current, snapshots: seq<Snapshot>)

  datatype Lifecycle = Received | Validating | ContextBound | PolicyEvaluation | OsCheck | UserDecision | ResolvingEngine | Completed

  datatype UserChoice = ChooseAllowOnce | ChooseAllowSession | ChooseAllowPersistent | ChooseDenyOnce | ChooseDenySession | ChooseDenyPersistent

  datatype Decision =
    | Pending | AllowOnce | AllowSession | AllowPersistent | DenyOnce | DenySession | DenyPersistent
    | Cancelled | Expired | BlockedPolicy | BlockedSecurity | BlockedOs | Unavailable | FailClosed

  /** What the caller is told about one resource; the textual reason is not modelled. */
  datatype Resolution = Resolution(resource: Resource, decision: Decision, grant: bool, persist: bool)

  datatype Stored = Stored(request: Request, state: Lifecycle, resolved: map<Resource, Decision>)

  // Request validity.

  predicate TextSafe(s: Text, limit: nat) {
    1 <= |s| <= limit && forall i | 0 <= i < |s| :: !IsControl(s[i])
  }

  const COLON: byte := 0x3a

  function SchemeLength(s: Text): nat {
    if Ascii("https://") <= s then 8 else if Ascii("http://") <= s then 7 else 0
  }

  /** A web origin: a scheme, an authority that neither begins nor ends with a colon, and at most a final slash. */
  predicate CanonicalOrigin(s: Text) {
    && TextSafe(s, 2048)
    && 0x20 !in s && 0x3f !in s && 0x23 !in s && 0x40 !in s
    && var scheme := SchemeLength(s);
       && 0 < scheme < |s|
       && (forall i | scheme <= i < |s| - 1 :: s[i] != SLASH)
       && var authority := if s[|s| - 1] == SLASH then s[scheme..|s| - 1] else s[scheme..];
          authority != [] && authority[0] != COLON && authority[|authority| - 1] != COLON
  }

  ghost predicate ValidRequest(r: Request) {
    && r.contractVersion == 1
    && TextSafe(r.id, 128) && TextSafe(r.profileId, 128) && TextSafe(r.contextId, 128) && TextSafe(r.tabOwner, 128)
    && CanonicalOrigin(r.topOrigin) && CanonicalOrigin(r.requestingOrigin)
    && 1 <= |r.resources| <= 8 && 0 <= r.createdAt < r.expiresAt
    && Distinct(r.resources)
  }

  method ValidateRequest(r: Request) returns (ok: bool)
    ensures ok == ValidRequest(r)
  {
    hide TextSafe, CanonicalOrigin;
    if r.contractVersion != 1 || !TextSafe(r.id, 128) || !TextSafe(r.profileId, 128) || !TextSafe(r.contextId, 128)
       || !TextSafe(r.tabOwner, 128) || !CanonicalOrigin(r.topOrigin) || !CanonicalOrigin(r.requestingOrigin)
       || r.resources == [] || |r.resources| > 8 || r.createdAt < 0 || r.expiresAt <= r.createdAt
    {
      return false;
    }
    var seen: set<Resource> := {};
    var i := 0;
    while i < |r.resources|
      invariant 0 <= i <= |r.resources|
      invariant forall x :: x in seen <==> x in r.resources[..i]
      invariant Distinct(r.resources[..i])
    {
      if r.resources[i] in seen {
        var j :| 0 <= j < i && r.resources[..i][j] == r.resources[i];
        assert r.resources[j] == r.resources[i];
        return false;
      }
      assert r.resources[..i + 1] == r.resources[..i] + [r.resources[i]];
      seen := seen + {r.resources[i]};
      i := i + 1;
    }
    assert r.resources[..i] == r.resources;
    return true;
  }

  // One decision.

  predicate SameContext(r: Request, c: Current) {
    && r.profileId == c.profileId && r.contextId == c.contextId && r.privacy == c.privacy
    && r.tabOwner == c.tabOwner && r.topOrigin == c.topOrigin && r.requestingOrigin == c.requestingOrigin
  }

  /** Why a request is dead at this time in this context, if it is. */
  function LiveFailure(r: Request, c: Current, now: int): Option<Decision> {
    if now < r.createdAt then Some(FailClosed)
    else if now >= r.expiresAt then Some(Expired)
    else if !SameContext(r, c) then Some(Cancelled)
    else None
  }

  function CheckAuthority(g: Gate, denied: Decision): Option<Decision> {
    match g.decision
    case AuthorityAllow => None
    case NotRequired => if g.required then Some(Unavailable) else None
    case AuthorityDeny => Some(denied)
    case AuthorityUnavailable => if g.required then Some(Unavailable) else None
    case Invalid => Some(FailClosed)
  }

  function SnapshotFor(snapshots: seq<Snapshot>, resource: Resource): Option<Snapshot> {
    if snapshots == [] then None
    else if snapshots[0].resource == resource then Some(snapshots[0])
    else SnapshotFor(snapshots[1..], resource)
  }

  function OsDecision(os: HostOs): Decision {
    match os
    case Granted => Pending
    case DeniedRequestable => BlockedOs
    case DeniedNoReprompt => BlockedOs
    case Restricted => BlockedOs
    case OsUnavailable => Unavailable
    case OsError => FailClosed
  }

  function Preflight(resource: Resource, c: Context): Decision {
    var s := SnapshotFor(c.snapshots, resource);
    if s.None? then Unavailable
    else if CheckAuthority(s.value.policy, BlockedPolicy).Some? then CheckAuthority(s.value.policy, BlockedPolicy).value
    else if CheckAuthority(s.value.shield, BlockedPolicy).Some? then CheckAuthority(s.value.shield, BlockedPolicy).value
    else if CheckAuthority(s.value.wardveil, BlockedSecurity).Some? then CheckAuthority(s.value.wardveil, BlockedSecurity).value
    else OsDecision(s.value.os)
  }

  /** A gate that does not object. */
  predicate Open(g: Gate) {
    g.decision == AuthorityAllow || (!g.required && (g.decision == NotRequired || g.decision == AuthorityUnavailable))
  }

  predicate Cleared(resource: Resource, c: Context) {
    var s := SnapshotFor(c.snapshots, resource);
    s.Some? && Open(s.value.policy) && Open(s.value.shield) && Open(s.value.wardveil) && s.value.os == Granted
  }

  /** The preflight leaves the decision to the user exactly when all three gates and the operating system pass. */
  lemma PreflightExactly(resource: Resource, c: Context)
    ensures Preflight(resource, c) == Pending <==> Cleared(resource, c)
  {
    hide SnapshotFor;
  }

  predicate IsPersistent(u: UserChoice) {
    u == ChooseAllowPersistent || u == ChooseDenyPersistent
  }

  predicate IsDeny(u: UserChoice) {
    u == ChooseDenyOnce || u == ChooseDenySession || u == ChooseDenyPersistent
  }

  function DecisionOf(u: UserChoice): Decision {
    match u
    case ChooseAllowOnce => AllowOnce
    case ChooseAllowSession => AllowSession
    case ChooseAllowPersistent => AllowPersistent
    case ChooseDenyOnce => DenyOnce
    case ChooseDenySession => DenySession
    case ChooseDenyPersistent => DenyPersistent
  }

  // What each call does to a stored request.

  /** The source's test: as many resolutions as resources. */
  predicate CountsMatch(s: Stored) {
    |s.resolved| == |s.request.resources|
  }

  function Rested(s: Stored): Stored {
    s.(state := if CountsMatch(s) then Completed else UserDecision)
  }

  function Resolved(s: Stored, resource: Resource, d: Decision): Stored {
    if resource in s.resolved then s else s.(resolved := s.resolved[resource := d])
  }

  function AllResolved(s: Stored, rs: seq<Resource>, d: Decision): Stored {
    if rs == [] then s else Resolved(AllResolved(s, rs[..|rs| - 1], d), rs[|rs| - 1], d)
  }

  function Ended(s: Stored, d: Decision): Stored {
    AllResolved(s, s.request.resources, d).(state := Completed)
  }

  function Failing(resource: Resource, d: Decision): Resolution {
    Resolution(resource, d, false, false)
  }

  /** Evaluating some of the resources: the resolutions told, and the request afterwards. */
  function Preflighted(s: Stored, rs: seq<Resource>, c: Context): (Stored, seq<Resolution>) {
    if rs == [] then (s, [])
    else
      var (before, told) := Preflighted(s, rs[..|rs| - 1], c);
      var resource := rs[|rs| - 1];
      if resource in before.resolved then (before, told + [Failing(resource, before.resolved[resource])])
      else
        var d := Preflight(resource, c);
        (if d == Pending then before else Resolved(before, resource, d), told + [Failing(resource, d)])
  }

  function FailingAll(rs: seq<Resource>, d: Decision): (r: seq<Resolution>)
    ensures |r| == |rs|
  {
    seq(|rs|, i requires 0 <= i < |rs| => Failing(rs[i], d))
  }

  function Evaluated(s: Stored, c: Context, now: int): (Stored, seq<Resolution>) {
    if s.state == Completed then (s, [])
    else
      var dead := LiveFailure(s.request, c.current, now);
      if dead.Some? then (Ended(s, dead.value), FailingAll(s.request.resources, dead.value))
      else
        var (after, told) := Preflighted(s, s.request.resources, c);
        (Rested(after), told)
  }

  function Decided(s: Stored, resource: Resource, u: UserChoice, c: Context, now: int): (Stored, Resolution) {
    if s.state == Completed || resource in s.resolved || resource !in s.request.resources then (s, Failing(resource, FailClosed))
    else
      var dead := LiveFailure(s.request, c.current, now);
      if dead.Some? then (Ended(s, dead.value), Failing(resource, dead.value))
      else if IsPersistent(u) && s.request.privacy != Normal then
        (Rested(Resolved(s, resource, FailClosed)), Failing(resource, FailClosed))
      else if IsDeny(u) then
        (Rested(Resolved(s, resource, DecisionOf(u))), Resolution(resource, DecisionOf(u), false, u == ChooseDenyPersistent))
      else
        var d := Preflight(resource, c);
        if d != Pending then (Rested(Resolved(s, resource, d)), Failing(resource, d))
        else (Rested(Resolved(s, resource, DecisionOf(u))), Resolution(resource, DecisionOf(u), true, u == ChooseAllowPersistent))
  }

  class Broker {
    var requests: map<Text, Stored>

    constructor ()
      ensures requests == map[]
    {
      requests := map[];
    }

    method Receive(r: Request) returns (ok: bool)
      modifies this
      ensures ok == (ValidRequest(r) && r.id !in old(requests))
      ensures requests == if ok then old(requests)[r.id := Stored(r, Received, map[])] else old(requests)
    {
      var valid := ValidateRequest(r);
      if !valid || r.id in requests {
        return false;
      }
      requests := requests[r.id := Stored(r, Received, map[])];
      return true;
    }

    method ResolveAllUnresolved(s: Stored, d: Decision) returns (after: Stored)
      ensures after == AllResolved(s, s.request.resources, d)
    {
      after := s;
      var i := 0;
      while i < |s.request.resources|
        invariant 0 <= i <= |s.request.resources|
        invariant after == AllResolved(s, s.request.resources[..i], d)
      {
        assert s.request.resources[..i + 1][..i] == s.request.resources[..i];
        if s.request.resources[i] !in after.resolved {
          after := after.(resolved := after.resolved[s.request.resources[i] := d]);
        }
        i := i + 1;
      }
      assert s.request.resources[..i] == s.request.resources;
    }

    method Evaluate(id: Text, c: Context, now: int) returns (told: seq<Resolution>)
      modifies this
      ensures id !in old(requests) ==> told == [] && requests == old(requests)
      ensures id in old(requests) ==> (requests, told) == var (s, t) := Evaluated(old(requests)[id], c, now); (old(requests)[id := s], t)
    {
      hide Preflight, SameContext, AllResolved;
      told := [];
      if id !in requests || requests[id].state == Completed {
        assert id in requests ==> requests[id := requests[id]] == requests;
        return;
      }
      var s := requests[id];
      var resources := s.request.resources;
      var dead := LiveFailure(s.request, c.current, now);
      if dead.Some? {
        s := ResolveAllUnresolved(s, dead.value);
        requests := requests[id := s.(state := Completed)];
        told := FailingAll(resources, dead.value);
        return;
      }
      var i := 0;
      while i < |resources|
        invariant 0 <= i <= |resources|
        invariant (s, told) == Preflighted(old(requests)[id], resources[..i], c)
      {
        assert resources[..i + 1][..i] == resources[..i];
        if resources[i] in s.resolved {
          told := told + [Failing(resources[i], s.resolved[resources[i]])];
        } else {
          var d := Preflight(resources[i], c);
          if d != Pending {
            s := s.(resolved := s.resolved[resources[i] := d]);
          }
          told := told + [Failing(resources[i], d)];
        }
        i := i + 1;
      }
      assert resources[..i] == resources;
      s := s.(state := if |s.resolved| == |s.request.resources| then Completed else UserDecision);
      requests := requests[id := s];
    }

    method ApplyUserDecision(id: Text, resource: Resource, u: UserChoice, c: Context, now: int) returns (r: Resolution)
      modifies this
      ensures id !in old(requests) ==> r == Failing(resource, FailClosed) && requests == old(requests)
      ensures id in old(requests) ==>
                (requests, r) == var (s, t) := Decided(old(requests)[id], resource, u, c, now); (old(requests)[id := s], t)
    {
      hide Preflight, SameContext, AllResolved;
      if id !in requests || requests[id].state == Completed || resource in requests[id].resolved
         || resource !in requests[id].request.resources
      {
        assert id in requests ==> requests[id := requests[id]] == requests;
        return Failing(resource, FailClosed);
      }
      var s := requests[id];
      var dead := LiveFailure(s.request, c.current, now);
      if dead.Some? {
        s := ResolveAllUnresolved(s, dead.value);
        requests := requests[id := s.(state := Completed)];
        return Failing(resource, dead.value);
      }
      var d := Preflight(resource, c);
      if IsPersistent(u) && s.request.privacy != Normal {
        Resolve(id, resource, FailClosed);
        return Failing(resource, FailClosed);
      }
      if IsDeny(u) {
        Resolve(id, resource, DecisionOf(u));
        return Resolution(resource, DecisionOf(u), false, DecisionOf(u) == DenyPersistent && s.request.privacy == Normal);
      }
      if d != Pending {
        Resolve(id, resource, d);
        return Failing(resource, d);
      }
      Resolve(id, resource, DecisionOf(u));
      return Resolution(resource, DecisionOf(u), true, DecisionOf(u) == AllowPersistent && s.request.privacy == Normal);
    }

    /** Record one resolution and let the request rest. */
    method Resolve(id: Text, resource: Resource, d: Decision)
      requires id in requests && resource !in requests[id].resolved
      modifies this
      ensures requests == old(requests)[id := Rested(Resolved(old(requests)[id], resource, d))]
    {
      var s := requests[id];
      s := s.(resolved := s.resolved[resource := d]);
      s := s.(state := if |s.resolved| == |s.request.resources| then Completed else UserDecision);
      requests := requests[id := s];
    }

    method Cancel(id: Text) returns (ok: bool)
      modifies this
      ensures ok == (id in old(requests) && old(requests)[id].state != Completed)
      ensures requests == if ok then old(requests)[id := Ended(old(requests)[id], Cancelled)] else old(requests)
    {
      if id !in requests || requests[id].state == Completed {
        return false;
      }
      var s := ResolveAllUnresolved(requests[id], Cancelled);
      requests := requests[id := s.(state := Completed)];
      return true;
    }

    method CloseContext(contextId: Text) returns (count: nat)
      modifies this
      ensures requests == Closed(old(requests), contextId)
      ensures count == |Counted(old(requests), old(requests).Keys, contextId)|
    {
      hide AllResolved, Counted, Closing, Ended;
      count := 0;
      ghost var before := requests;
      var left := requests.Keys;
      NoneCounted(requests, contextId);
      assert before.Keys - left == {};
      while left != {}
        invariant left <= before.Keys == requests.Keys
        invariant forall id | id in before :: requests[id] == if id in left then before[id] else ClosedOne(before[id], contextId)
        invariant count == |Counted(before, before.Keys - left, contextId)|
        decreases left
      {
        var id :| id in left;
        CountStep(before, before.Keys - left, id, contextId);
        assert before.Keys - (left - {id}) == before.Keys - left + {id};
        left := left - {id};
        if Closing(requests[id], contextId) {
          CloseOne(id);
          count := count + 1;
        }
      }
      assert before.Keys - left == before.Keys;
    }

    method CloseOne(id: Text)
      requires id in requests
      modifies this
      ensures requests == old(requests)[id := Ended(old(requests)[id], Cancelled)]
    {
      var s := ResolveAllUnresolved(requests[id], Cancelled);
      requests := requests[id := s.(state := Completed)];
    }
  }

  ghost function Counted(requests: map<Text, Stored>, ids: set<Text>, contextId: Text): set<Text> {
    set id | id in ids && id in requests && Closing(requests[id], contextId)
  }

  lemma NoneCounted(requests: map<Text, Stored>, contextId: Text)
    ensures |Counted(requests, {}, contextId)| == 0
  {
  }

  lemma CountStep(requests: map<Text, Stored>, ids: set<Text>, id: Text, contextId: Text)
    requires id !in ids && id in requests
    ensures |Counted(requests, ids + {id}, contextId)| == |Counted(requests, ids, contextId)| + if Closing(requests[id], contextId) then 1 else 0
  {
    if Closing(requests[id], contextId) {
      assert Counted(requests, ids + {id}, contextId) == Counted(requests, ids, contextId) + {id};
    } else {
      assert Counted(requests, ids + {id}, contextId) == Counted(requests, ids, contextId);
    }
  }

  predicate Closing(s: Stored, contextId: Text) {
    s.state != Completed && s.request.contextId == contextId
  }

  function ClosedOne(s: Stored, contextId: Text): Stored {
    if Closing(s, contextId) then Ended(s, Cancelled) else s
  }

  function Closed(requests: map<Text, Stored>, contextId: Text): map<Text, Stored> {
    map id | id in requests :: ClosedOne(requests[id], contextId)
  }

  lemma {:induction false} AllResolvedRequest(s: Stored, rs: seq<Resource>, d: Decision)
    ensures AllResolved(s, rs, d).request == s.request
  {
    if rs != [] {
      AllResolvedRequest(s, rs[..|rs| - 1], d);
    }
  }
}
