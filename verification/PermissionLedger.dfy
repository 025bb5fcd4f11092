/** The permission ledger: leases that wrap grants with the data that ends them. */
module PermissionLedger {
  import opened Bytes
  import opened Extensions

  const HOUR: u64 := 3_600_000

  datatype Lease = Lease(
    id: u64,
    grant: Grant,
    issuedAt: u64,
    expiresAt: u64,
    tabId: Text,
    sessionId: Text,
    revoked: bool,
    consumed: bool)

  datatype LeaseContext = LeaseContext(
    authorization: AuthorizationContext,
    now: u64,
    tabId: Text,
    sessionId: Text)

  predicate AllSitesDeclared(websites: seq<Text>) {
    forall i | 0 <= i < |websites| :: ValidSite(websites[i])
  }

  predicate ValidLease(l: Lease) {
    && l.id != 0 && !l.revoked && l.grant.active && l.grant.profileId != []
    && !(RequiresWebsite(l.grant.permission) && l.grant.scope == Extension)
    && (match l.grant.scope
        case CurrentWebsite => |l.grant.websites| == 1 && ValidSite(l.grant.websites[0])
        case SelectedSites => l.grant.websites != [] && AllSitesDeclared(l.grant.websites)
        case _ => true)
    && (match l.grant.lifetime
        case Once => !l.consumed && l.issuedAt == 0 && l.expiresAt == 0
        case UntilTabCloses => l.tabId != [] && l.issuedAt == 0 && l.expiresAt == 0
        case UntilWebsiteCloses =>
          l.grant.websites != [] && AllSitesDeclared(l.grant.websites) && l.issuedAt == 0 && l.expiresAt == 0
        case UntilBrowserCloses => l.sessionId != [] && l.issuedAt == 0 && l.expiresAt == 0
        case OneHour => 0 < l.issuedAt <= U64_LIMIT - 1 - HOUR && l.expiresAt == l.issuedAt + HOUR
        case Always => l.issuedAt == 0 && l.expiresAt == 0)
  }

  predicate HasId(ls: seq<Lease>, id: u64) {
    exists i | 0 <= i < |ls| :: ls[i].id == id
  }

  // What each call does to the sequence of leases.

  function Inactive(l: Lease): Lease {
    l.(grant := l.grant.(active := false))
  }

  predicate CanAdd(ls: seq<Lease>, l: Lease) {
    ValidLease(l) && !HasId(ls, l.id)
  }

  function IndexOf(ls: seq<Lease>, id: u64): (i: nat)
    ensures i <= |ls|
    ensures i < |ls| ==> ls[i].id == id
    ensures forall j | 0 <= j < i :: ls[j].id != id
  {
    if ls == [] || ls[0].id == id then 0 else 1 + IndexOf(ls[1..], id)
  }

  function Revoked(ls: seq<Lease>, id: u64): seq<Lease> {
    var i := IndexOf(ls, id);
    if i == |ls| || ls[i].revoked then ls else ls[i := Inactive(ls[i]).(revoked := true)]
  }

  /** Why leases are switched off together. */
  datatype Ending =
    | ProfileRevoked(profileId: Text)
    | TabClosed(tabId: Text)
    | WebsiteClosed(profileId: Text, website: Text)
    | SessionClosed(sessionId: Text)
    | TimePassed(now: u64)

  predicate Ends(e: Ending, l: Lease) {
    match e
    case ProfileRevoked(profileId) => l.grant.profileId == profileId
    case TabClosed(tabId) => l.grant.lifetime == UntilTabCloses && l.tabId == tabId
    case WebsiteClosed(profileId, website) =>
      l.grant.lifetime == UntilWebsiteCloses && l.grant.profileId == profileId && website in l.grant.websites
    case SessionClosed(sessionId) => l.grant.lifetime == UntilBrowserCloses && l.sessionId == sessionId
    case TimePassed(now) => l.grant.lifetime == OneHour && l.expiresAt > 0 && now >= l.expiresAt
  }

  function Ended(e: Ending, l: Lease): Lease {
    if l.grant.active && !l.revoked && Ends(e, l)
    then Inactive(l).(revoked := e.ProfileRevoked?)
    else l
  }

  function AllEnded(e: Ending, ls: seq<Lease>): (r: seq<Lease>)
    ensures |r| == |ls|
  {
    seq(|ls|, i requires 0 <= i < |ls| => Ended(e, ls[i]))
  }

  function CountEnding(e: Ending, ls: seq<Lease>): nat {
    if ls == [] then 0
    else CountEnding(e, ls[..|ls| - 1])
         + if ls[|ls| - 1].grant.active && !ls[|ls| - 1].revoked && Ends(e, ls[|ls| - 1]) then 1 else 0
  }

  /** The caller's context as one lease sees it: the lease itself decides whether its own lifetime is live. */
  function Refined(l: Lease, c: LeaseContext): AuthorizationContext {
    var a := c.authorization;
    match l.grant.lifetime
    case Once => a.(onceAvailable := true)
    case UntilTabCloses => a.(tabActive := a.tabActive && c.tabId != [] && l.tabId == c.tabId)
    case UntilWebsiteCloses => a.(websiteActive := a.websiteActive && a.website != [])
    case UntilBrowserCloses => a.(browserActive := a.browserActive && c.sessionId != [] && l.sessionId == c.sessionId)
    case OneHour => a.(hourWindowActive := l.issuedAt <= c.now < l.expiresAt)
    case Always => a
  }

  ghost predicate LeaseAuthorizes(m: Manifest, l: Lease, p: Permission, c: LeaseContext) {
    && l.grant.active && !l.revoked && !l.consumed
    && l.grant.permission == p && l.grant.profileId == c.authorization.profileId
    && GrantAuthorizes(m, l.grant, p, Refined(l, c))
  }

  /** The first lease that authorizes, or the number of leases when none does. */
  ghost function Authorizing(m: Manifest, ls: seq<Lease>, p: Permission, c: LeaseContext): (i: nat)
    ensures i <= |ls|
    ensures i < |ls| ==> LeaseAuthorizes(m, ls[i], p, c)
    ensures forall j | 0 <= j < i :: !LeaseAuthorizes(m, ls[j], p, c)
  {
    if ls == [] || LeaseAuthorizes(m, ls[0], p, c) then 0 else 1 + Authorizing(m, ls[1..], p, c)
  }

  function Consumed(ls: seq<Lease>, i: nat): seq<Lease>
    requires i < |ls|
  {
    if ls[i].grant.lifetime == Once then ls[i := Inactive(ls[i]).(consumed := true)] else ls
  }

  ghost function AfterAuthorize(m: Manifest, ls: seq<Lease>, p: Permission, c: LeaseContext): seq<Lease> {
    var i := Authorizing(m, ls, p, c);
    if i < |ls| then Consumed(ls, i) else ls
  }

  class ExtensionPermissionLedger {
    var leases: seq<Lease>

    constructor ()
      ensures leases == []
    {
      leases := [];
    }

    method Add(lease: Lease) returns (ok: bool)
      modifies this
      ensures ok == CanAdd(old(leases), lease)
      ensures leases == if ok then old(leases) + [lease] else old(leases)
    {
      if !ValidLease(lease) || HasId(leases, lease.id) {
        return false;
      }
      leases := leases + [lease];
      return true;
    }

    method Revoke(id: u64) returns (ok: bool)
      modifies this
      ensures ok == exists i | 0 <= i < |old(leases)| :: IndexOf(old(leases), id) == i && !old(leases)[i].revoked
      ensures leases == Revoked(old(leases), id)
    {
      var i := 0;
      while i < |leases| && leases[i].id != id
        invariant 0 <= i <= |leases|
        invariant forall j | 0 <= j < i :: leases[j].id != id
      {
        i := i + 1;
      }
      assert IndexOf(leases, id) == i;
      if i == |leases| || leases[i].revoked {
        return false;
      }
      leases := leases[i := leases[i].(revoked := true)];
      leases := leases[i := Inactive(leases[i])];
      return true;
    }

    /** The loop behind the profile revocation and the four deactivations. */
    method EndMatching(e: Ending) returns (count: nat)
      modifies this
      ensures leases == AllEnded(e, old(leases))
      ensures count == CountEnding(e, old(leases))
    {
      hide Ends;
      count := 0;
      var i := 0;
      while i < |leases|
        invariant 0 <= i <= |leases| == |old(leases)|
        invariant forall j | 0 <= j < i :: leases[j] == Ended(e, old(leases)[j])
        invariant forall j | i <= j < |leases| :: leases[j] == old(leases)[j]
        invariant count == CountEnding(e, old(leases)[..i])
      {
        assert old(leases)[..i + 1][..i] == old(leases)[..i];
        if leases[i].grant.active && !leases[i].revoked && Ends(e, leases[i]) {
          leases := leases[i := Inactive(leases[i]).(revoked := e.ProfileRevoked?)];
          count := count + 1;
        }
        i := i + 1;
      }
      assert old(leases)[..i] == old(leases);
    }

    method AuthorizeAndConsume(m: Manifest, p: Permission, c: LeaseContext) returns (ok: bool)
      modifies this
      ensures ok == (Authorizing(m, old(leases), p, c) < |old(leases)|)
      ensures leases == AfterAuthorize(m, old(leases), p, c)
    {
      var issues := ValidateManifest(m);
      if issues != {} {
        return false;
      }
      var i := 0;
      while i < |leases|
        invariant 0 <= i <= |leases|
        invariant leases == old(leases)
        invariant forall j | 0 <= j < i :: !LeaseAuthorizes(m, leases[j], p, c)
      {
        var l := leases[i];
        if l.grant.active && !l.revoked && !l.consumed && l.grant.permission == p
           && l.grant.profileId == c.authorization.profileId
        {
          var a := Refined(l, c);
          if DeclaresPermission(m, p) && a.profileId != []
             && (RequiresWebsite(p) ==> AllowsWebsite(m, a.website) && l.grant.scope != Extension)
             && (a.privateBrowsing ==> l.grant.privateAllowed)
             && LifetimeActive(l.grant.lifetime, a) && ScopeAuthorizes(l.grant, a)
          {
            assert LeaseAuthorizes(m, l, p, c);
            if l.grant.lifetime == Once {
              leases := leases[i := Inactive(l).(consumed := true)];
            }
            return true;
          }
        }
        i := i + 1;
      }
      return false;
    }
  }

  // Runs of the ledger.

  datatype LedgerCall =
    | CallAdd(lease: Lease)
    | CallRevoke(id: u64)
    | CallEnd(ending: Ending)
    | CallAuthorize(manifest: Manifest, permission: Permission, context: LeaseContext)

  ghost function LedgerStep(ls: seq<Lease>, call: LedgerCall): seq<Lease> {
    match call
    case CallAdd(l) => if CanAdd(ls, l) then ls + [l] else ls
    case CallRevoke(id) => Revoked(ls, id)
    case CallEnd(e) => AllEnded(e, ls)
    case CallAuthorize(m, p, c) => AfterAuthorize(m, ls, p, c)
  }

  ghost function LedgerRun(calls: seq<LedgerCall>): seq<Lease> {
    if calls == [] then [] else LedgerStep(LedgerRun(calls[..|calls| - 1]), calls[|calls| - 1])
  }

  ghost predicate DistinctIds(ls: seq<Lease>) {
    forall i, j | 0 <= i < j < |ls| :: ls[i].id != ls[j].id
  }

  /** What every reachable ledger satisfies: ids are distinct, and a lease that can still authorize
      is exactly as valid as when it was added. */
  ghost predicate LedgerInvariant(ls: seq<Lease>) {
    && DistinctIds(ls)
    && forall i | 0 <= i < |ls| ::
         && (ls[i].grant.active ==> ValidLease(ls[i]) && !ls[i].revoked)
         && (ls[i].consumed && ls[i].grant.lifetime == Once ==> !ls[i].grant.active)
  }

  /** A lease only loses authority: everything else about it is fixed when it is added. */
  ghost predicate OnlyLost(before: Lease, after: Lease) {
    && after == before.(grant := before.grant.(active := after.grant.active), revoked := after.revoked, consumed := after.consumed)
    && (after.grant.active ==> before.grant.active)
    && (before.revoked ==> after.revoked)
    && (before.consumed ==> after.consumed)
    && (after.grant.active ==> after == before)
  }

  ghost predicate LedgerGrows(before: seq<Lease>, after: seq<Lease>) {
    && |before| <= |after|
    && forall i | 0 <= i < |before| :: OnlyLost(before[i], after[i])
  }

  /** One lease becomes another only by losing authority and becoming inactive. */
  ghost predicate SameOrSwitchedOff(before: Lease, after: Lease) {
    after == before || (OnlyLost(before, after) && !after.grant.active)
  }

  lemma PointwiseKeepsInvariant(ls: seq<Lease>, after: seq<Lease>)
    requires LedgerInvariant(ls) && |after| == |ls|
    requires forall i | 0 <= i < |ls| :: SameOrSwitchedOff(ls[i], after[i])
    ensures LedgerInvariant(after) && LedgerGrows(ls, after)
  {
    hide ValidLease;
  }

  lemma StepKeepsInvariant(ls: seq<Lease>, call: LedgerCall)
    requires LedgerInvariant(ls)
    ensures LedgerInvariant(LedgerStep(ls, call))
    ensures LedgerGrows(ls, LedgerStep(ls, call))
  {
    hide ValidLease, GrantAuthorizes, Ends, LeaseAuthorizes, LedgerInvariant, LedgerGrows;
    match call
    case CallAdd(l) =>
      if CanAdd(ls, l) {
        AddKeepsInvariant(ls, l);
      } else {
        PointwiseKeepsInvariant(ls, ls);
      }
    case CallRevoke(id) =>
      PointwiseKeepsInvariant(ls, Revoked(ls, id));
    case CallEnd(e) =>
      PointwiseKeepsInvariant(ls, AllEnded(e, ls));
    case CallAuthorize(m, p, c) =>
      PointwiseKeepsInvariant(ls, AfterAuthorize(m, ls, p, c));
  }

  lemma AddKeepsInvariant(ls: seq<Lease>, l: Lease)
    requires LedgerInvariant(ls) && CanAdd(ls, l)
    ensures LedgerInvariant(ls + [l]) && LedgerGrows(ls, ls + [l])
  {
    AddedLease(l);
    hide ValidLease;
  }

  lemma AddedLease(l: Lease)
    requires ValidLease(l)
    ensures l.grant.active && !l.revoked && (l.grant.lifetime == Once ==> !l.consumed)
  {
  }

  lemma {:induction false} ReachableInvariant(calls: seq<LedgerCall>)
    ensures LedgerInvariant(LedgerRun(calls))
  {
    if calls != [] {
      ReachableInvariant(calls[..|calls| - 1]);
      StepKeepsInvariant(LedgerRun(calls[..|calls| - 1]), calls[|calls| - 1]);
    }
  }

  /** Over a whole run no lease is ever removed, renewed or given back what it lost. */
  lemma {:induction false} RunsOnlyLose(first: seq<LedgerCall>, later: seq<LedgerCall>)
    ensures LedgerGrows(LedgerRun(first), LedgerRun(first + later))
  {
    if later == [] {
      assert first + later == first;
    } else {
      var shorter := later[..|later| - 1];
      var calls := first + later;
      assert calls[..|calls| - 1] == first + shorter;
      RunsOnlyLose(first, shorter);
      ReachableInvariant(first + shorter);
      StepKeepsInvariant(LedgerRun(first + shorter), later[|later| - 1]);
    }
  }
}
