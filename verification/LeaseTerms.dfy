/** What a lease allows and what ends it, in terms of the fields of leases, requests and manifests alone. */
module LeaseTerms {
  import opened Bytes
  import opened Extensions
  import opened PermissionLedger

  /** A lease lasts for one use, while its tab, a website or its session is active, for its hour, or always. */
  predicate Lasts(l: Lease, now: int, tabActive: bool, tabId: Text, websiteActive: bool, website: Text, browserActive: bool, sessionId: Text) {
    match l.grant.lifetime
    case Once => true
    case UntilTabCloses => tabActive && tabId == l.tabId != []
    case UntilWebsiteCloses => websiteActive && website != []
    case UntilBrowserCloses => browserActive && sessionId == l.sessionId != []
    case OneHour => l.issuedAt <= now < l.expiresAt
    case Always => true
  }

  /** Where it applies: everywhere, after a click, on its one website, on its websites, or on any. */
  predicate Covers(g: Grant, website: Text, userActivation: bool) {
    match g.scope
    case Extension => true
    case OnlyWhenClicked => userActivation
    case CurrentWebsite => g.websites == [website] && website != []
    case SelectedSites => website in g.websites && website != []
    case AllSites => website != []
  }

  /** A permission over pages needs a website that the manifest names, or names all, and a lease that is not for the
      extension at large. */
  predicate PagesAllowed(m: Manifest, p: Permission, scope: Scope, website: Text) {
    p in {ReadCurrentPage, ModifyCurrentPage, SelectedWebsites, AllWebsites} ==>
      website != [] && scope != Extension && (Ascii("sites.all") in m.requestedPermissions || website in m.allowedWebsites)
  }

  /** What a lease has to be for a request of a permission. */
  ghost predicate Warrants(m: Manifest, l: Lease, p: Permission, c: LeaseContext) {
    var a := c.authorization;
    && ManifestAccepted(m) && PermissionName(p) in m.requestedPermissions
    && l.grant.active && !l.revoked && !l.consumed
    && l.grant.permission == p && l.grant.profileId == a.profileId != []
    && (a.privateBrowsing ==> l.grant.privateAllowed)
    && PagesAllowed(m, p, l.grant.scope, a.website)
    && Lasts(l, c.now, a.tabActive, c.tabId, a.websiteActive, a.website, a.browserActive, c.sessionId)
    && Covers(l.grant, a.website, a.userActivation)
  }

  /** That is exactly when it authorizes: in particular a one-hour lease only inside its window, a tab's only in that tab
      and a session's only in that session. */
  lemma AuthorizesExactly(m: Manifest, l: Lease, p: Permission, c: LeaseContext)
    ensures LeaseAuthorizes(m, l, p, c) <==> Warrants(m, l, p, c)
  {
    LifetimesAgree(l, c);
    ScopesAgree(l, c);
    PagesAgree(m, l, p, c);
    RefinedElsewhere(l, c);
    hide ManifestAccepted, PermissionName, Refined, LifetimeActive, ScopeAuthorizes, Lasts, Covers, PagesAllowed, RequiresWebsite, AllowsWebsite;
  }

  lemma RefinedElsewhere(l: Lease, c: LeaseContext)
    ensures var a, b := c.authorization, Refined(l, c);
      b.profileId == a.profileId && b.website == a.website && b.privateBrowsing == a.privateBrowsing && b.userActivation == a.userActivation
  {
    match l.grant.lifetime
    case Once =>
    case UntilTabCloses =>
    case UntilWebsiteCloses =>
    case UntilBrowserCloses =>
    case OneHour =>
    case Always =>
  }

  lemma LifetimesAgree(l: Lease, c: LeaseContext)
    ensures var a := c.authorization;
      LifetimeActive(l.grant.lifetime, Refined(l, c)) == Lasts(l, c.now, a.tabActive, c.tabId, a.websiteActive, a.website, a.browserActive, c.sessionId)
  {
  }

  lemma ScopesAgree(l: Lease, c: LeaseContext)
    ensures ScopeAuthorizes(l.grant, Refined(l, c)) == Covers(l.grant, c.authorization.website, c.authorization.userActivation)
  {
    OneWebsite(l.grant.websites, c.authorization.website);
  }

  lemma PagesAgree(m: Manifest, l: Lease, p: Permission, c: LeaseContext)
    ensures (RequiresWebsite(p) ==> AllowsWebsite(m, Refined(l, c).website) && l.grant.scope != Extension)
            <==> PagesAllowed(m, p, l.grant.scope, c.authorization.website)
  {
    AllSitesName();
    hide PermissionName;
  }

  lemma AllSitesName()
    ensures PermissionName(AllWebsites) == Ascii("sites.all")
  {
  }

  lemma OneWebsite(websites: seq<Text>, website: Text)
    ensures websites == [website] <==> |websites| == 1 && websites[0] == website
  {
  }

  /** The names under which manifests ask for permissions. */
  lemma PageNames()
    ensures PermissionName(ReadCurrentPage) == Ascii("page.read") && PermissionName(ModifyCurrentPage) == Ascii("page.modify")
    ensures PermissionName(SelectedWebsites) == Ascii("sites.selected") && PermissionName(AllWebsites) == Ascii("sites.all")
    ensures PermissionName(ReadTabs) == Ascii("tabs.read") && PermissionName(CreateTabs) == Ascii("tabs.create")
    ensures PermissionName(ReadHistory) == Ascii("history.read")
  {
  }

  lemma ToolNames()
    ensures PermissionName(ModifyBookmarks) == Ascii("bookmarks.modify") && PermissionName(ManageDownloads) == Ascii("downloads.manage")
    ensures PermissionName(Clipboard) == Ascii("clipboard.access") && PermissionName(DisplayNotifications) == Ascii("notifications.display")
  {
  }

  lemma OtherNames()
    ensures PermissionName(ExtensionStorage) == Ascii("storage.extension") && PermissionName(NetworkRequests) == Ascii("network.request")
    ensures PermissionName(ContextMenuActions) == Ascii("context_menu.add") && PermissionName(BrowserUiComponents) == Ascii("browser_ui.add")
  {
  }

  // What can be added.

  predicate SiteNames(websites: seq<Text>) {
    websites != [] && forall site | site in websites :: ValidSite(site)
  }

  /** A lease is valid when it is live, of a profile, not over pages at large, and its scope and lifetime come with the data
      that they need: an hour begins at a time that is not zero and ends 3,600,000 milliseconds later without overflow. */
  lemma ValidExactly(l: Lease)
    ensures ValidLease(l) <==>
              && l.id > 0 && l.grant.active && !l.revoked && l.grant.profileId != []
              && (l.grant.scope == Extension ==> l.grant.permission !in {ReadCurrentPage, ModifyCurrentPage, SelectedWebsites, AllWebsites})
              && (l.grant.scope == CurrentWebsite ==> |l.grant.websites| == 1 && SiteNames(l.grant.websites))
              && (l.grant.scope == SelectedSites ==> SiteNames(l.grant.websites))
              && (l.grant.lifetime == Once ==> !l.consumed)
              && (l.grant.lifetime == UntilTabCloses ==> l.tabId != [])
              && (l.grant.lifetime == UntilWebsiteCloses ==> SiteNames(l.grant.websites))
              && (l.grant.lifetime == UntilBrowserCloses ==> l.sessionId != [])
              && (if l.grant.lifetime == OneHour
                  then l.issuedAt > 0 && l.expiresAt as int == l.issuedAt as int + 3_600_000
                  else l.issuedAt == 0 && l.expiresAt == 0)
  {
    hide ValidSite;
  }

  // What ends leases.

  predicate Live(l: Lease) {
    l.grant.active && !l.revoked
  }

  function Off(l: Lease): Lease {
    l.(grant := l.grant.(active := false))
  }

  /** What each ending does to each lease. */
  lemma EndingsExactly(ls: seq<Lease>, i: nat, tabId: Text, profileId: Text, website: Text, sessionId: Text, now: u64)
    requires i < |ls|
    ensures var l := ls[i];
      && AllEnded(TabClosed(tabId), ls)[i] == (if Live(l) && l.grant.lifetime == UntilTabCloses && l.tabId == tabId then Off(l) else l)
      && AllEnded(WebsiteClosed(profileId, website), ls)[i] ==
           (if Live(l) && l.grant.lifetime == UntilWebsiteCloses && l.grant.profileId == profileId && website in l.grant.websites then Off(l) else l)
      && AllEnded(SessionClosed(sessionId), ls)[i] == (if Live(l) && l.grant.lifetime == UntilBrowserCloses && l.sessionId == sessionId then Off(l) else l)
      && AllEnded(TimePassed(now), ls)[i] == (if Live(l) && l.grant.lifetime == OneHour && 0 < l.expiresAt <= now then Off(l) else l)
      && AllEnded(ProfileRevoked(profileId), ls)[i] == (if Live(l) && l.grant.profileId == profileId then Off(l).(revoked := true) else l)
  {
  }

  /** The leases that an ending is about. */
  predicate Concerns(e: Ending, l: Lease) {
    match e
    case ProfileRevoked(profileId) => l.grant.profileId == profileId
    case TabClosed(tabId) => l.grant.lifetime == UntilTabCloses && l.tabId == tabId
    case WebsiteClosed(profileId, website) =>
      l.grant.lifetime == UntilWebsiteCloses && l.grant.profileId == profileId && website in l.grant.websites
    case SessionClosed(sessionId) => l.grant.lifetime == UntilBrowserCloses && l.sessionId == sessionId
    case TimePassed(now) => l.grant.lifetime == OneHour && l.expiresAt <= now
  }

  ghost predicate IsSwitchedOff(e: Ending, ls: seq<Lease>, i: nat) {
    i < |ls| && ls[i].grant.active && !AllEnded(e, ls)[i].grant.active
  }

  ghost function SwitchedOff(e: Ending, ls: seq<Lease>): set<nat> {
    set i: nat | i < |ls| && IsSwitchedOff(e, ls, i)
  }

  lemma OffInFront(e: Ending, ls: seq<Lease>, i: nat)
    requires i < |ls| - 1
    ensures IsSwitchedOff(e, ls, i) <==> IsSwitchedOff(e, ls[..|ls| - 1], i)
  {
    hide Ended;
  }

  lemma CountsLast(e: Ending, ls: seq<Lease>)
    requires ls != []
    ensures CountEnding(e, ls) == CountEnding(e, ls[..|ls| - 1]) + if IsSwitchedOff(e, ls, |ls| - 1) then 1 else 0
  {
    hide Ends;
  }

  /** The number that an ending reports is that of the leases it switched off. */
  lemma {:induction false} CountExactly(e: Ending, ls: seq<Lease>)
    ensures CountEnding(e, ls) == |SwitchedOff(e, ls)|
  {
    hide CountEnding, IsSwitchedOff;
    if ls == [] {
      NothingCounted(e);
    } else {
      var front, last := ls[..|ls| - 1], |ls| - 1;
      CountExactly(e, front);
      CountsLast(e, ls);
      forall i: nat | i < last
        ensures IsSwitchedOff(e, ls, i) <==> IsSwitchedOff(e, front, i)
      {
        OffInFront(e, ls, i);
      }
      assert SwitchedOff(e, ls) == SwitchedOff(e, front) + if IsSwitchedOff(e, ls, last) then {last} else {};
    }
  }

  lemma NothingCounted(e: Ending)
    ensures CountEnding(e, []) == 0
  {
  }

  /** Over every run: a lease whose tab, website or session was closed, whose hour had passed or whose profile was revoked
      never authorizes anything again. */
  lemma EndedIsPowerless(before: seq<LedgerCall>, e: Ending, after: seq<LedgerCall>, i: nat, m: Manifest, p: Permission, c: LeaseContext)
    requires i < |LedgerRun(before)| && Concerns(e, LedgerRun(before)[i])
    ensures i < |LedgerRun(before + [CallEnd(e)] + after)|
    ensures !LeaseAuthorizes(m, LedgerRun(before + [CallEnd(e)] + after)[i], p, c)
  {
    hide LeaseAuthorizes, ValidLease, LedgerRun;
    var ended := before + [CallEnd(e)];
    OneEnding(before, e);
    ReachableInvariant(before);
    RunsOnlyLose(ended, after);
    StaysInactive(LedgerRun(before), e, i);
    InactiveIsPowerless(m, LedgerRun(ended + after)[i], p, c);
  }

  lemma OneEnding(before: seq<LedgerCall>, e: Ending)
    ensures LedgerRun(before + [CallEnd(e)]) == AllEnded(e, LedgerRun(before))
  {
    hide AllEnded;
    assert (before + [CallEnd(e)])[..|before + [CallEnd(e)]| - 1] == before;
  }

  lemma StaysInactive(ls: seq<Lease>, e: Ending, i: nat)
    requires LedgerInvariant(ls) && i < |ls| && Concerns(e, ls[i])
    ensures !AllEnded(e, ls)[i].grant.active
  {
  }

  lemma InactiveIsPowerless(m: Manifest, l: Lease, p: Permission, c: LeaseContext)
    requires !l.grant.active
    ensures !LeaseAuthorizes(m, l, p, c)
  {
  }
}
