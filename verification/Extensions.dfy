/** Extension permissions, manifests, grants, and the authorization rule over one grant. */
module Extensions {
  import opened Bytes

  datatype Permission =
    | ReadCurrentPage | ModifyCurrentPage | SelectedWebsites | AllWebsites
    | ReadTabs | CreateTabs | ReadHistory | ModifyBookmarks | ManageDownloads
    | Clipboard | DisplayNotifications | ExtensionStorage | NetworkRequests
    | ContextMenuActions | BrowserUiComponents

  function PermissionName(p: Permission): Text {
    match p
    case ReadCurrentPage => Ascii("page.read")
    case ModifyCurrentPage => Ascii("page.modify")
    case SelectedWebsites => Ascii("sites.selected")
    case AllWebsites => Ascii("sites.all")
    case ReadTabs => Ascii("tabs.read")
    case CreateTabs => Ascii("tabs.create")
    case ReadHistory => Ascii("history.read")
    case ModifyBookmarks => Ascii("bookmarks.modify")
    case ManageDownloads => Ascii("downloads.manage")
    case Clipboard => Ascii("clipboard.access")
    case DisplayNotifications => Ascii("notifications.display")
    case ExtensionStorage => Ascii("storage.extension")
    case NetworkRequests => Ascii("network.request")
    case ContextMenuActions => Ascii("context_menu.add")
    case BrowserUiComponents => Ascii("browser_ui.add")
  }

  datatype Manifest = Manifest(
    manifestVersion: int,
    apiVersion: int,
    id: Text,
    name: Text,
    version: Text,
    entryPoints: seq<Text>,
    requestedPermissions: seq<Text>,
    allowedWebsites: seq<Text>)

  datatype TrustState = VerifiedSignature | SignedPackage | LocalDevelopment | UnsignedPackage

  // Character classes of the C locale.

  predicate IsControl(b: byte) {
    b < 0x20 || b == 0x7f
  }

  predicate IsSpace(b: byte) {
    b == 0x20 || 0x09 <= b <= 0x0d
  }

  predicate IsDigit(b: byte) {
    0x30 <= b <= 0x39
  }

  predicate IsUpper(b: byte) {
    0x41 <= b <= 0x5a
  }

  predicate IsAlnum(b: byte) {
    IsDigit(b) || IsUpper(b) || 0x61 <= b <= 0x7a
  }

  predicate HasControlOrSpace(s: Text) {
    exists i | 0 <= i < |s| :: IsControl(s[i]) || IsSpace(s[i])
  }

  const DOT: byte := 0x2e
  const SLASH: byte := 0x2f

  predicate ValidExtensionId(s: Text) {
    && 3 <= |s| <= 128
    && IsAlnum(s[0]) && IsAlnum(s[|s| - 1])
    && (forall i | 0 <= i < |s| :: !IsUpper(s[i]) && (IsAlnum(s[i]) || s[i] == DOT || s[i] == 0x2d || s[i] == 0x5f))
    && (forall i | 0 <= i < |s| - 1 :: !(s[i] == DOT && s[i + 1] == DOT))
  }

  predicate ValidVersion(s: Text) {
    && 1 <= |s| <= 64
    && IsDigit(s[0])
    && (forall i | 0 <= i < |s| :: IsAlnum(s[i]) || s[i] == DOT || s[i] == 0x2d || s[i] == 0x2b)
  }

  predicate ValidSite(s: Text) {
    && 1 <= |s| <= 2048
    && !HasControlOrSpace(s)
    && (Ascii("https://") <= s || Ascii("http://") <= s)
  }

  // Package paths: no component is empty, "." or "..".

  /** s[i..j] is a component: it starts after a slash or at the front and runs to the next slash or the end. */
  predicate Component(s: Text, i: int, j: int) {
    && 0 <= i < |s| && i <= j <= |s|
    && (i == 0 || s[i - 1] == SLASH)
    && (j == |s| || s[j] == SLASH)
    && SLASH !in s[i..j]
  }

  predicate PathShape(s: Text) {
    && 1 <= |s| <= 1024
    && s[0] != SLASH
    && 0x5c !in s && 0x3a !in s
    && !HasControlOrSpace(s)
  }

  ghost predicate ValidPackagePath(s: Text) {
    && PathShape(s)
    && forall i, j | Component(s, i, j) :: s[i..j] != [] && s[i..j] != [DOT] && s[i..j] != [DOT, DOT]
  }

  lemma ComponentUnique(s: Text, start: int, end: int, i: int, j: int)
    requires Component(s, start, end) && Component(s, i, j) && start <= i <= end
    ensures i == start && j == end
  {
    assert forall k | start <= k < end :: s[k] == s[start..end][k - start];
    assert forall k | i <= k < j :: s[k] == s[i..j][k - i];
  }

  method CheckPackagePath(path: Text) returns (ok: bool)
    ensures ok == ValidPackagePath(path)
  {
    if !PathShape(path) {
      return false;
    }
    var start := 0;
    while start < |path|
      invariant start <= |path|
      invariant start == 0 || path[start - 1] == SLASH
      invariant forall i, j | Component(path, i, j) && i < start ::
        path[i..j] != [] && path[i..j] != [DOT] && path[i..j] != [DOT, DOT]
    {
      var end := start;
      while end < |path| && path[end] != SLASH
        invariant start <= end <= |path|
        invariant SLASH !in path[start..end]
      {
        end := end + 1;
      }
      assert Component(path, start, end);
      var segment := path[start..end];
      if segment == [] || segment == [DOT] || segment == [DOT, DOT] {
        return false;
      }
      forall i, j | Component(path, i, j) && i < end + 1
        ensures path[i..j] != [] && path[i..j] != [DOT] && path[i..j] != [DOT, DOT]
      {
        if i >= start {
          ComponentUnique(path, start, end, i, j);
        }
      }
      if end == |path| {
        return true;
      }
      start := end + 1;
    }
    return true;
  }

  // Manifest acceptance: no validation issue is raised.

  ghost predicate Distinct<T>(s: seq<T>) {
    forall i, j | 0 <= i < j < |s| :: s[i] != s[j]
  }

  datatype ValidationIssue =
    | MissingId | InvalidId | MissingName | InvalidVersion
    | UnsupportedManifestVersion | UnsupportedApiVersion
    | MissingEntryPoint | InvalidEntryPoint | DuplicateEntryPoint
    | UnknownPermission | DuplicatePermission
    | InvalidSiteDeclaration | DuplicateSiteDeclaration

  ghost predicate KnownPermission(name: Text) {
    exists p: Permission :: PermissionName(p) == name
  }

  /** When each issue applies to a manifest. */
  ghost predicate HasIssue(m: Manifest, issue: ValidationIssue) {
    match issue
    case MissingId => m.id == []
    case InvalidId => m.id != [] && !ValidExtensionId(m.id)
    case MissingName => m.name == []
    case InvalidVersion => !ValidVersion(m.version)
    case UnsupportedManifestVersion => m.manifestVersion != 1
    case UnsupportedApiVersion => m.apiVersion != 1
    case MissingEntryPoint => m.entryPoints == []
    case InvalidEntryPoint => exists e | e in m.entryPoints :: !ValidPackagePath(e)
    case DuplicateEntryPoint => !Distinct(m.entryPoints)
    case UnknownPermission => exists p | p in m.requestedPermissions :: !KnownPermission(p)
    case DuplicatePermission => !Distinct(m.requestedPermissions)
    case InvalidSiteDeclaration => exists s | s in m.allowedWebsites :: !ValidSite(s)
    case DuplicateSiteDeclaration => !Distinct(m.allowedWebsites)
  }

  ghost predicate ManifestAccepted(m: Manifest) {
    forall issue: ValidationIssue :: !HasIssue(m, issue)
  }

  function AllPermissions(): seq<Permission> {
    [ReadCurrentPage, ModifyCurrentPage, SelectedWebsites, AllWebsites, ReadTabs, CreateTabs, ReadHistory,
     ModifyBookmarks, ManageDownloads, Clipboard, DisplayNotifications, ExtensionStorage, NetworkRequests,
     ContextMenuActions, BrowserUiComponents]
  }

  /** The storage order of the permissions, counted from zero. */
  function PermissionIndex(p: Permission): (i: nat)
    ensures i < 15 && AllPermissions()[i] == p
  {
    match p
    case ReadCurrentPage => 0
    case ModifyCurrentPage => 1
    case SelectedWebsites => 2
    case AllWebsites => 3
    case ReadTabs => 4
    case CreateTabs => 5
    case ReadHistory => 6
    case ModifyBookmarks => 7
    case ManageDownloads => 8
    case Clipboard => 9
    case DisplayNotifications => 10
    case ExtensionStorage => 11
    case NetworkRequests => 12
    case ContextMenuActions => 13
    case BrowserUiComponents => 14
  }

  method ParsePermission(name: Text) returns (known: bool)
    ensures known == KnownPermission(name)
  {
    hide PermissionName;
    var permissions := AllPermissions();
    var i := 0;
    while i < |permissions|
      invariant 0 <= i <= |permissions|
      invariant forall j | 0 <= j < i :: PermissionName(permissions[j]) != name
    {
      if PermissionName(permissions[i]) == name {
        return true;
      }
      i := i + 1;
    }
    forall p: Permission
      ensures PermissionName(p) != name
    {
      assert permissions[PermissionIndex(p)] == p;
    }
    return false;
  }

  /** Whether a list repeats an element, found by keeping the elements seen so far. */
  method HasDuplicate(s: seq<Text>) returns (r: bool)
    ensures r == !Distinct(s)
  {
    var seen: seq<Text> := [];
    var i := 0;
    while i < |s|
      invariant 0 <= i <= |s|
      invariant seen == s[..i] && Distinct(seen)
    {
      if s[i] in seen {
        return true;
      }
      seen := seen + [s[i]];
      i := i + 1;
    }
    return false;
  }

  method AllPathsValid(paths: seq<Text>) returns (ok: bool)
    ensures ok == forall e | e in paths :: ValidPackagePath(e)
  {
    ok := true;
    var i := 0;
    while i < |paths|
      invariant 0 <= i <= |paths|
      invariant ok == forall j | 0 <= j < i :: ValidPackagePath(paths[j])
    {
      var valid := CheckPackagePath(paths[i]);
      ok := ok && valid;
      i := i + 1;
    }
  }

  method AllSitesValid(sites: seq<Text>) returns (ok: bool)
    ensures ok == forall s | s in sites :: ValidSite(s)
  {
    ok := true;
    var i := 0;
    while i < |sites|
      invariant 0 <= i <= |sites|
      invariant ok == forall j | 0 <= j < i :: ValidSite(sites[j])
    {
      ok := ok && ValidSite(sites[i]);
      i := i + 1;
    }
  }

  method AllPermissionsKnown(names: seq<Text>) returns (ok: bool)
    ensures ok == forall p | p in names :: KnownPermission(p)
  {
    ok := true;
    var i := 0;
    while i < |names|
      invariant 0 <= i <= |names|
      invariant ok == forall j | 0 <= j < i :: KnownPermission(names[j])
    {
      var known := ParsePermission(names[i]);
      ok := ok && known;
      i := i + 1;
    }
  }

  predicate ScalarIssue(x: ValidationIssue) {
    x in {MissingId, InvalidId, MissingName, InvalidVersion, UnsupportedManifestVersion, UnsupportedApiVersion}
  }

  /** The issues raised by the scalar fields. */
  function ScalarIssues(m: Manifest): (issues: set<ValidationIssue>)
    ensures forall x :: x in issues <==> HasIssue(m, x) && ScalarIssue(x)
  {
    (if m.id == [] then {MissingId} else if !ValidExtensionId(m.id) then {InvalidId} else {})
    + (if m.name == [] then {MissingName} else {})
    + (if !ValidVersion(m.version) then {InvalidVersion} else {})
    + (if m.manifestVersion != 1 then {UnsupportedManifestVersion} else {})
    + (if m.apiVersion != 1 then {UnsupportedApiVersion} else {})
  }

  /** The issues of one list: something in it is wrong, or something in it is repeated. */
  method ListIssues(entriesOk: bool, entries: seq<Text>, wrong: ValidationIssue, repeated: ValidationIssue)
    returns (issues: set<ValidationIssue>)
    ensures issues == (if entriesOk then {} else {wrong}) + (if Distinct(entries) then {} else {repeated})
  {
    var again := HasDuplicate(entries);
    issues := (if entriesOk then {} else {wrong}) + (if again then {repeated} else {});
  }

  /** The issues of a manifest, each reported at most once. Each list is checked by its own loops;
      the source folds validity and repetition into one pass a list. */
  method ValidateManifest(m: Manifest) returns (issues: set<ValidationIssue>)
    ensures forall x: ValidationIssue :: x in issues <==> HasIssue(m, x)
    ensures issues == {} <==> ManifestAccepted(m)
  {
    hide ValidExtensionId, ValidVersion, ValidSite, ValidPackagePath, KnownPermission, Distinct, ScalarIssues;
    issues := ScalarIssues(m) + if m.entryPoints == [] then {MissingEntryPoint} else {};
    var pathsOk := AllPathsValid(m.entryPoints);
    var pathIssues := ListIssues(pathsOk, m.entryPoints, InvalidEntryPoint, DuplicateEntryPoint);
    var namesOk := AllPermissionsKnown(m.requestedPermissions);
    var nameIssues := ListIssues(namesOk, m.requestedPermissions, UnknownPermission, DuplicatePermission);
    var sitesOk := AllSitesValid(m.allowedWebsites);
    var siteIssues := ListIssues(sitesOk, m.allowedWebsites, InvalidSiteDeclaration, DuplicateSiteDeclaration);
    issues := issues + pathIssues + nameIssues + siteIssues;
  }

  predicate DeclaresPermission(m: Manifest, p: Permission) {
    PermissionName(p) in m.requestedPermissions
  }

  predicate RequiresWebsite(p: Permission) {
    p == ReadCurrentPage || p == ModifyCurrentPage || p == SelectedWebsites || p == AllWebsites
  }

  predicate AllowsWebsite(m: Manifest, website: Text) {
    website != [] && (DeclaresPermission(m, AllWebsites) || website in m.allowedWebsites)
  }

  // Grants.

  datatype Lifetime = Once | UntilTabCloses | UntilWebsiteCloses | UntilBrowserCloses | OneHour | Always

  datatype Scope = Extension | OnlyWhenClicked | CurrentWebsite | SelectedSites | AllSites

  datatype Grant = Grant(
    permission: Permission,
    profileId: Text,
    scope: Scope,
    lifetime: Lifetime,
    websites: seq<Text>,
    privateAllowed: bool,
    active: bool)

  datatype AuthorizationContext = AuthorizationContext(
    profileId: Text,
    website: Text,
    privateBrowsing: bool,
    userActivation: bool,
    onceAvailable: bool,
    tabActive: bool,
    websiteActive: bool,
    browserActive: bool,
    hourWindowActive: bool)

  predicate LifetimeActive(lifetime: Lifetime, c: AuthorizationContext) {
    match lifetime
    case Once => c.onceAvailable
    case UntilTabCloses => c.tabActive
    case UntilWebsiteCloses => c.websiteActive
    case UntilBrowserCloses => c.browserActive
    case OneHour => c.hourWindowActive
    case Always => true
  }

  predicate ScopeAuthorizes(g: Grant, c: AuthorizationContext) {
    match g.scope
    case Extension => true
    case OnlyWhenClicked => c.userActivation
    case CurrentWebsite => |g.websites| == 1 && c.website != [] && g.websites[0] == c.website
    case SelectedSites => c.website != [] && c.website in g.websites
    case AllSites => c.website != []
  }

  /** The authorization rule with one candidate grant, as the ledger applies it. */
  ghost predicate GrantAuthorizes(m: Manifest, g: Grant, p: Permission, c: AuthorizationContext) {
    && ManifestAccepted(m) && DeclaresPermission(m, p) && c.profileId != []
    && (RequiresWebsite(p) ==> AllowsWebsite(m, c.website) && g.scope != Extension)
    && g.active && g.permission == p && g.profileId == c.profileId
    && (c.privateBrowsing ==> g.privateAllowed)
    && LifetimeActive(g.lifetime, c)
    && ScopeAuthorizes(g, c)
  }
}
