/** What the site permission broker answers and keeps, in terms of requests, contexts and choices alone. */
module PermissionTerms {
  import opened Bytes
  import opened Wrappers
  import opened Extensions
  import opened PermissionBroker
  import opened PermissionHistory

  // Requests.

  lemma SafeExactly(s: Text, limit: nat)
    ensures TextSafe(s, limit) <==> 1 <= |s| <= limit && forall i | 0 <= i < |s| :: s[i] >= 0x20 && s[i] != 0x7f
  {
  }

  /** The host of a web origin, with a port if one is given. */
  predicate Host(s: Text) {
    && s != [] && s[0] != 0x3a && s[|s| - 1] != 0x3a
    && forall i | 0 <= i < |s| :: s[i] > 0x20 && s[i] != 0x7f && s[i] !in {0x2f, 0x3f, 0x23, 0x40}
  }

  /** Origins of up to 2048 bytes: http or https, a host, and perhaps a final slash. */
  ghost predicate Origin(s: Text) {
    |s| <= 2048 && exists host: Text, scheme: Text, slash: Text ::
      Host(host) && scheme in [Ascii("https://"), Ascii("http://")] && slash in [[], [0x2f]] && s == scheme + host + slash
  }

  lemma SchemeTexts()
    ensures Ascii("https://") == [0x68, 0x74, 0x74, 0x70, 0x73, 0x3a, 0x2f, 0x2f] && Ascii("http://") == [0x68, 0x74, 0x74, 0x70, 0x3a, 0x2f, 0x2f]
  {
  }

  lemma OriginExactly(s: Text)
    ensures CanonicalOrigin(s) <==> Origin(s)
  {
    hide CanonicalOrigin, Origin;
    if CanonicalOrigin(s) {
      OriginFromCanonical(s);
    }
    if Origin(s) {
      CanonicalFromOrigin(s);
    }
  }

  /** What makes an origin of a scheme of n bytes. */
  predicate Parted(s: Text, n: nat) {
    && 0 < n < |s| <= 2048
    && (forall i | 0 <= i < |s| :: s[i] > 0x20 && s[i] != 0x7f && s[i] !in {0x3f, 0x23, 0x40})
    && (forall i | n <= i < |s| - 1 :: s[i] != 0x2f)
    && var host := if s[|s| - 1] == 0x2f then s[n..|s| - 1] else s[n..];
       host != [] && host[0] != 0x3a && host[|host| - 1] != 0x3a
  }

  lemma CanonicalIsParted(s: Text)
    ensures CanonicalOrigin(s) <==> SchemeLength(s) > 0 && Parted(s, SchemeLength(s))
  {
    hide SchemeLength;
    SafeExactly(s, 2048);
    if CanonicalOrigin(s) {
      forall i | 0 <= i < |s|
        ensures s[i] > 0x20 && s[i] != 0x7f && s[i] !in {0x3f, 0x23, 0x40}
      {
        assert s[i] in s;
      }
    }
  }

  lemma SchemeExactly(s: Text)
    ensures SchemeLength(s) == 8 <==> Ascii("https://") <= s
    ensures SchemeLength(s) == 7 <==> Ascii("http://") <= s
    ensures SchemeLength(s) in {0, 7, 8}
  {
    SchemeTexts();
    hide Ascii;
    assert Ascii("https://")[4] != Ascii("http://")[4];
  }

  lemma OriginFromCanonical(s: Text)
    requires CanonicalOrigin(s)
    ensures Origin(s)
  {
    CanonicalIsParted(s);
    SchemeExactly(s);
    hide Ascii, CanonicalOrigin, SchemeLength, Host, Origin;
    var n := SchemeLength(s);
    var slash: Text := if s[|s| - 1] == 0x2f then [0x2f] else [];
    var host := s[n..|s| - |slash|];
    PartedHost(s, n, host);
    SchemeOf(s, n);
    assert s == s[..n] + host + slash;
    MakesOrigin(s, s[..n], host, slash);
  }

  lemma MakesOrigin(s: Text, scheme: Text, host: Text, slash: Text)
    requires Host(host) && scheme in [Ascii("https://"), Ascii("http://")] && slash in [[], [0x2f]] && s == scheme + host + slash && |s| <= 2048
    ensures Origin(s)
  {
    hide Ascii, Host;
  }

  lemma SchemeOf(s: Text, n: nat)
    requires (n == 8 && Ascii("https://") <= s) || (n == 7 && Ascii("http://") <= s)
    ensures s[..n] in [Ascii("https://"), Ascii("http://")]
  {
    hide Ascii;
    if n == 8 && Ascii("https://") <= s {
      assert s[..n] == Ascii("https://");
    } else {
      assert s[..n] == Ascii("http://");
    }
  }

  lemma PartedHost(s: Text, n: nat, host: Text)
    requires Parted(s, n) && host == if s[|s| - 1] == 0x2f then s[n..|s| - 1] else s[n..]
    ensures Host(host)
  {
    forall i | 0 <= i < |host|
      ensures host[i] > 0x20 && host[i] != 0x7f && host[i] !in {0x2f, 0x3f, 0x23, 0x40}
    {
      assert host[i] == s[n + i];
    }
  }

  lemma HostParted(scheme: Text, host: Text, slash: Text)
    requires Host(host) && scheme in [Ascii("https://"), Ascii("http://")] && slash in [[], [0x2f]] && |scheme + host + slash| <= 2048
    ensures Parted(scheme + host + slash, |scheme|)
  {
    SchemeTexts();
    hide Ascii;
    var s := scheme + host + slash;
    var n := |scheme|;
    assert s[n..n + |host|] == host;
    forall i | 0 <= i < |s|
      ensures s[i] > 0x20 && s[i] != 0x7f && s[i] !in {0x3f, 0x23, 0x40} && (n <= i < |s| - 1 ==> s[i] != 0x2f)
    {
      if i < n {
        assert s[i] == scheme[i];
      } else if i < n + |host| {
        assert s[i] == host[i - n];
      }
    }
    if slash == [] {
      assert s[|s| - 1] == host[|host| - 1] && s[n..] == host;
    } else {
      assert s[n..|s| - 1] == host;
    }
  }

  lemma CanonicalFromOrigin(s: Text)
    requires Origin(s)
    ensures CanonicalOrigin(s)
  {
    hide Ascii, CanonicalOrigin, SchemeLength, Host, Parted;
    var host: Text, scheme: Text, slash: Text :|
      Host(host) && scheme in [Ascii("https://"), Ascii("http://")] && slash in [[], [0x2f]] && s == scheme + host + slash;
    HostParted(scheme, host, slash);
    SchemeExactly(s);
    SchemeTexts();
    assert scheme <= s;
    CanonicalIsParted(s);
  }

  /** Valid requests: the first contract, four names of up to 128 bytes, two origins, one to eight different resources, and
      a window that begins at zero or later and is not empty. */
  lemma ValidExactly(r: Request)
    ensures ValidRequest(r) <==>
              && r.contractVersion == 1
              && (forall x | x in [r.id, r.profileId, r.contextId, r.tabOwner] :: TextSafe(x, 128))
              && Origin(r.topOrigin) && Origin(r.requestingOrigin)
              && 0 < |r.resources| < 9 && Distinct(r.resources) && r.createdAt >= 0 && r.expiresAt > r.createdAt
  {
    hide TextSafe, CanonicalOrigin, Origin;
    OriginExactly(r.topOrigin);
    OriginExactly(r.requestingOrigin);
    assert forall x :: x in [r.id, r.profileId, r.contextId, r.tabOwner] <==> x == r.id || x == r.profileId || x == r.contextId || x == r.tabOwner;
  }

  // The preflight.

  /** The first snapshot of a resource is the one that counts. */
  ghost predicate FirstOf(snapshots: seq<Snapshot>, resource: Resource, i: nat) {
    i < |snapshots| && snapshots[i].resource == resource && forall j | 0 <= j < i :: snapshots[j].resource != resource
  }

  lemma {:induction false} FirstFound(snapshots: seq<Snapshot>, resource: Resource, i: nat)
    requires FirstOf(snapshots, resource, i)
    ensures SnapshotFor(snapshots, resource) == Some(snapshots[i])
  {
    if i > 0 {
      assert snapshots[0].resource != resource;
      assert forall j | 0 <= j < i - 1 :: snapshots[1..][j] == snapshots[j + 1];
      FirstFound(snapshots[1..], resource, i - 1);
    }
  }

  lemma {:induction false} NoneFound(snapshots: seq<Snapshot>, resource: Resource)
    requires forall i | 0 <= i < |snapshots| :: snapshots[i].resource != resource
    ensures SnapshotFor(snapshots, resource) == None
  {
    if snapshots != [] {
      assert forall i | 0 <= i < |snapshots| - 1 :: snapshots[1..][i] == snapshots[i + 1];
      NoneFound(snapshots[1..], resource);
    }
  }

  /** Whether a gate lets pass: it allows, or it is not required and has no say. */
  predicate Passes(g: Gate) {
    g.decision == AuthorityAllow || (!g.required && g.decision in {NotRequired, AuthorityUnavailable})
  }

  /** Why a gate that does not let pass refuses. */
  predicate Refuses(g: Gate, denied: Decision, d: Decision) {
    || (g.decision == AuthorityDeny && d == denied)
    || (g.decision == Invalid && d == FailClosed)
    || (g.required && g.decision in {NotRequired, AuthorityUnavailable} && d == Unavailable)
  }

  lemma GateExactly(g: Gate, denied: Decision)
    ensures CheckAuthority(g, denied).None? <==> Passes(g)
    ensures !Passes(g) ==> Refuses(g, denied, CheckAuthority(g, denied).value)
  {
  }

  /** Policy, shield and security are asked in this order, and the first that refuses gives its reason; then the operating
      system; only what passes all of them is left to the user. */
  lemma PreflightTells(resource: Resource, c: Context, i: nat)
    requires FirstOf(c.snapshots, resource, i)
    ensures var s, d := c.snapshots[i], Preflight(resource, c);
      if !Passes(s.policy) then Refuses(s.policy, BlockedPolicy, d)
      else if !Passes(s.shield) then Refuses(s.shield, BlockedPolicy, d)
      else if !Passes(s.wardveil) then Refuses(s.wardveil, BlockedSecurity, d)
      else
        && (s.os == Granted <==> d == Pending)
        && (s.os in {DeniedRequestable, DeniedNoReprompt, Restricted} <==> d == BlockedOs)
        && (s.os == OsUnavailable <==> d == Unavailable) && (s.os == OsError <==> d == FailClosed)
  {
    hide CheckAuthority, Passes, Refuses, SnapshotFor;
    FirstFound(c.snapshots, resource, i);
    var s := c.snapshots[i];
    GateExactly(s.policy, BlockedPolicy);
    GateExactly(s.shield, BlockedPolicy);
    GateExactly(s.wardveil, BlockedSecurity);
  }

  lemma UnknownIsUnavailable(resource: Resource, c: Context)
    requires forall i | 0 <= i < |c.snapshots| :: c.snapshots[i].resource != resource
    ensures Preflight(resource, c) == Unavailable
  {
    hide SnapshotFor;
    NoneFound(c.snapshots, resource);
  }

  // One choice.

  /** The context is the one that the request was made in. */
  predicate Here(r: Request, c: Current) {
    Current(r.profileId, r.contextId, r.privacy, r.tabOwner, r.topOrigin, r.requestingOrigin) == c
  }

  /** A request that is not open for the resource is refused and left alone; a dead one is ended, for the reason it is dead
      of: a clock set back, its time over, or its context gone. */
  lemma DeadExactly(s: Stored, resource: Resource, u: UserChoice, c: Context, now: int)
    requires s.state != Completed && resource in s.request.resources && resource !in s.resolved
    ensures now < s.request.createdAt ==> Decided(s, resource, u, c, now) == (Ended(s, FailClosed), Resolution(resource, FailClosed, false, false))
    ensures s.request.createdAt <= now && now >= s.request.expiresAt ==>
              Decided(s, resource, u, c, now) == (Ended(s, Expired), Resolution(resource, Expired, false, false))
    ensures s.request.createdAt <= now < s.request.expiresAt && !Here(s.request, c.current) ==>
              Decided(s, resource, u, c, now) == (Ended(s, Cancelled), Resolution(resource, Cancelled, false, false))
  {
    hide AllResolved, Preflight, DecisionOf, Ended, Rested, Resolved;
  }

  lemma ClosedExactly(s: Stored, resource: Resource, u: UserChoice, c: Context, now: int)
    requires s.state == Completed || resource !in s.request.resources || resource in s.resolved
    ensures Decided(s, resource, u, c, now) == (s, Resolution(resource, FailClosed, false, false))
  {
    hide Preflight, DecisionOf, Ended, Rested, Resolved, SameContext;
  }

  /** The decision that a choice comes to in an open, live request in its context: a choice to keep outside the normal context
      fails, a denial is taken as it is, and an allowance as it is if the preflight leaves it to the user. */
  function Comes(u: UserChoice, privacy: Privacy, preflight: Decision): Decision {
    match u
    case ChooseDenyOnce => DenyOnce
    case ChooseDenySession => DenySession
    case ChooseDenyPersistent => if privacy == Normal then DenyPersistent else FailClosed
    case ChooseAllowPersistent => if privacy != Normal then FailClosed else if preflight == Pending then AllowPersistent else preflight
    case ChooseAllowOnce => if preflight == Pending then AllowOnce else preflight
    case ChooseAllowSession => if preflight == Pending then AllowSession else preflight
  }

  lemma OpenExactly(s: Stored, resource: Resource, u: UserChoice, c: Context, now: int)
    requires s.state != Completed && resource in s.request.resources && resource !in s.resolved
    requires s.request.createdAt <= now < s.request.expiresAt && Here(s.request, c.current)
    ensures var (after, told) := Decided(s, resource, u, c, now);
      var d := Comes(u, s.request.privacy, Preflight(resource, c));
      && told == Resolution(resource, d, d in {AllowOnce, AllowSession, AllowPersistent}, d in {AllowPersistent, DenyPersistent})
      && after.resolved == s.resolved[resource := d] && after.request == s.request
  {
    hide Preflight, Ended;
    NeverAllows(resource, c);
  }

  lemma NeverAllows(resource: Resource, c: Context)
    ensures Preflight(resource, c) in {Pending, BlockedPolicy, BlockedSecurity, BlockedOs, Unavailable, FailClosed}
  {
    hide SnapshotFor;
  }

  // Over runs.

  lemma OneCallMore(calls: seq<Call>, call: Call)
    ensures Run(calls + [call]) == Step(Run(calls), call)
  {
    hide Step;
    assert (calls + [call])[..|calls + [call]| - 1] == calls;
  }

  /** Over every run: what a choice comes to for an open, live request in its context is told, kept whatever follows, and
      grants the engine the resource exactly when it is an allowance. */
  lemma ChoiceIsTaken(calls: seq<Call>, id: Text, resource: Resource, u: UserChoice, c: Context, now: int, more: seq<Call>)
    requires id in Run(calls).requests
    requires var s := Run(calls).requests[id];
      && s.state != Completed && resource in s.request.resources && resource !in s.resolved
      && s.request.createdAt <= now < s.request.expiresAt && Here(s.request, c.current)
    ensures var d := Comes(u, Run(calls).requests[id].request.privacy, Preflight(resource, c));
      && id in Run(calls + [Decide(id, resource, u, c, now)] + more).requests
      && resource in Run(calls + [Decide(id, resource, u, c, now)] + more).requests[id].resolved
      && Run(calls + [Decide(id, resource, u, c, now)] + more).requests[id].resolved[resource] == d
      && Run(calls + [Decide(id, resource, u, c, now)]).grants
         == Run(calls).grants + if d in {AllowOnce, AllowSession, AllowPersistent} then [EngineGrant(id, resource, u, c, now)] else []
  {
    hide Run, Decided, Here, Comes, Preflight;
    OneCallMore(calls, Decide(id, resource, u, c, now));
    OpenExactly(Run(calls).requests[id], resource, u, c, now);
    ResolutionsAreFinal(calls + [Decide(id, resource, u, c, now)], more);
  }

  // The other calls.

  /** An evaluation of a live request tells of each resource, in order, what was decided of it or what its preflight gives;
      it keeps what the preflight decides, grants nothing, and completes the request when all is decided. */
  lemma EvaluatedExactly(s: Stored, c: Context, now: int, i: nat)
    requires AtRest(s) && s.state != Completed && i < |s.request.resources|
    requires s.request.createdAt <= now < s.request.expiresAt && Here(s.request, c.current)
    ensures var (after, told) := Evaluated(s, c, now);
      var x := s.request.resources[i];
      && |told| == |s.request.resources|
      && told[i] == Resolution(x, if x in s.resolved then s.resolved[x] else Preflight(x, c), false, false)
      && (x in after.resolved <==> x in s.resolved || Preflight(x, c) != Pending)
      && (x in after.resolved ==> after.resolved[x] == told[i].decision)
      && (after.state == Completed <==> forall y | y in s.request.resources :: y in after.resolved)
      && (after.state != Completed ==> after.state == UserDecision)
  {
    hide ValidRequest, Preflight, Preflighted, CountsMatch;
    Different(s.request);
    PreflightedTells(s, s.request.resources, c, i);
    EvaluatedIsAtRest(s, c, now);
  }

  lemma Different(r: Request)
    requires ValidRequest(r)
    ensures Distinct(r.resources)
  {
  }

  lemma {:induction false} PreflightedTells(s: Stored, rs: seq<Resource>, c: Context, i: nat)
    requires Distinct(rs) && i < |rs|
    ensures var (after, told) := Preflighted(s, rs, c);
      && |told| == |rs| && after.state == s.state && after.request == s.request
      && told[i] == Resolution(rs[i], if rs[i] in s.resolved then s.resolved[rs[i]] else Preflight(rs[i], c), false, false)
      && (rs[i] in after.resolved <==> rs[i] in s.resolved || Preflight(rs[i], c) != Pending)
      && (rs[i] in after.resolved ==> after.resolved[rs[i]] == told[i].decision)
    decreases |rs|
  {
    hide Preflight;
    var last := |rs| - 1;
    PreflightedElsewhere(s, rs[..last], c, rs[last]);
    if i < last {
      PreflightedTells(s, rs[..last], c, i);
      assert rs[..last][i] == rs[i];
    }
  }

  /** Resources not asked for are left as they were. */
  lemma {:induction false} PreflightedElsewhere(s: Stored, rs: seq<Resource>, c: Context, x: Resource)
    requires forall i | 0 <= i < |rs| :: rs[i] != x
    ensures var (after, told) := Preflighted(s, rs, c);
      && |told| == |rs| && after.state == s.state && after.request == s.request
      && (x in after.resolved <==> x in s.resolved) && (x in after.resolved ==> after.resolved[x] == s.resolved[x])
  {
    hide Preflight;
    if rs != [] {
      PreflightedElsewhere(s, rs[..|rs| - 1], c, x);
    }
  }

  /** A dead request is ended by an evaluation, and each resource is told why. */
  lemma DeadEvaluation(s: Stored, c: Context, now: int)
    requires s.state != Completed
    ensures now < s.request.createdAt ==>
              Evaluated(s, c, now).0 == Ended(s, FailClosed) && forall t | t in Evaluated(s, c, now).1 :: t.decision == FailClosed && !t.grant && !t.persist
    ensures s.request.createdAt <= now && now >= s.request.expiresAt ==>
              Evaluated(s, c, now).0 == Ended(s, Expired) && forall t | t in Evaluated(s, c, now).1 :: t.decision == Expired && !t.grant && !t.persist
    ensures s.request.createdAt <= now < s.request.expiresAt && !Here(s.request, c.current) ==>
              Evaluated(s, c, now).0 == Ended(s, Cancelled) && forall t | t in Evaluated(s, c, now).1 :: t.decision == Cancelled && !t.grant && !t.persist
  {
    hide Ended, Preflighted, Rested;
  }

  /** Cancelling a request and closing a context end open requests as cancelled, and no others. */
  lemma EndsExactly(calls: seq<Call>, call: Call, id: Text)
    requires id in Run(calls).requests && (call.Cancel? || call.CloseContext?)
    ensures var s := Run(calls).requests[id];
      && id in Run(calls + [call]).requests
      && Run(calls + [call]).requests[id] ==
           if s.state != Completed && (if call.Cancel? then call.id == id else call.contextId == s.request.contextId)
           then Ended(s, Cancelled) else s
  {
    hide Run, Ended;
    OneCallMore(calls, call);
  }
}
