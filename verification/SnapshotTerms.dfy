/** The snapshot of a permission ledger in its own numbers: codes, limits, layout, and which objection is told. */
module SnapshotTerms {
  import opened Bytes
  import opened Wrappers
  import opened Extensions
  import opened PermissionLedger
  import opened LedgerSnapshot
  import opened LedgerRestore
  import Crc32

  // Codes.

  /** The stored number of every permission; a number is read back as the permission that has it, or refused. */
  lemma PermissionCodesAre(p: Permission, code: byte)
    ensures ParsePermissionCode(code) == Ok(p) <==> PermissionCode(p) == code
    ensures code < 1 || code > 15 ==> ParsePermissionCode(code) == Err(InvalidEnumValue)
    ensures PermissionCode(p) ==
              match p
              case ReadCurrentPage => 1
              case ModifyCurrentPage => 2
              case SelectedWebsites => 3
              case AllWebsites => 4
              case ReadTabs => 5
              case CreateTabs => 6
              case ReadHistory => 7
              case ModifyBookmarks => 8
              case ManageDownloads => 9
              case Clipboard => 10
              case DisplayNotifications => 11
              case ExtensionStorage => 12
              case NetworkRequests => 13
              case ContextMenuActions => 14
              case BrowserUiComponents => 15
  {
  }

  /** And of every scope and durable lifetime. */
  lemma ScopeCodesAre(s: Scope, l: Lifetime, code: byte)
    ensures ParseScopeCode(code) == Ok(s) <==> ScopeCode(s) == code
    ensures code < 1 || code > 5 ==> ParseScopeCode(code) == Err(InvalidEnumValue)
    ensures ScopeCode(s) ==
              match s
              case Extension => 1
              case OnlyWhenClicked => 2
              case CurrentWebsite => 3
              case SelectedSites => 4
              case AllSites => 5
    ensures ParseLifetimeCode(code) == Ok(l) <==> (l == OneHour && code == 1) || (l == Always && code == 2)
    ensures code != 1 && code != 2 ==> ParseLifetimeCode(code) == Err(InvalidEnumValue)
    ensures LifetimeCode(OneHour) == 1 && LifetimeCode(Always) == 2
  {
  }

  // What is stored.

  ghost predicate IsProfile(p: Text) {
    1 <= |p| <= 256 && forall i | 0 <= i < |p| :: p[i] >= 0x20 && p[i] != 0x7f
  }

  /** A live lease of the profile that never expires, or has not yet. */
  ghost predicate Durably(l: Lease, profile: Text, now: u64) {
    && l.grant.active && !l.revoked && !l.consumed && l.grant.profileId == profile
    && (l.grant.lifetime == Always || (l.grant.lifetime == OneHour && now < l.expiresAt))
  }

  /** The durable leases are those, in their order. */
  lemma DurableExactly(ls: seq<Lease>, l: Lease, profile: Text, now: u64)
    ensures Durable([], profile, now) == []
    ensures Durable(ls + [l], profile, now) == Durable(ls, profile, now) + if Durably(l, profile, now) then [l] else []
  {
    assert (ls + [l])[..|ls + [l]| - 1] == ls;
  }

  /** A durable lease can be stored: it is valid, of no tab or session, not from the future, and its sites are few, valid and
      distinct. */
  ghost predicate CanStore(l: Lease, now: u64) {
    && ValidLease(l) && l.tabId == [] && l.sessionId == [] && (l.grant.lifetime == OneHour ==> l.issuedAt <= now)
    && |l.grant.websites| <= 256 && (forall w | w in l.grant.websites :: ValidSite(w))
    && forall i, j | 0 <= i < j < |l.grant.websites| :: l.grant.websites[i] != l.grant.websites[j]
  }

  lemma {:induction false} DurableAre(ls: seq<Lease>, profile: Text, now: u64)
    ensures forall l | l in Durable(ls, profile, now) :: Durably(l, profile, now)
    ensures Collect(ls, profile, now).Err? ==>
              Collect(ls, profile, now).issue in {StorageIssue.InvalidLease, ClockRegression, TooManyWebsites}
  {
    hide ValidLease, HasDuplicateWebsites;
    if ls != [] {
      DurableAre(ls[..|ls| - 1], profile, now);
    }
  }

  lemma StorableIs(l: Lease, profile: Text, now: u64)
    requires Durably(l, profile, now)
    ensures CanStore(l, now) <==> Storable(l, profile) && (l.grant.lifetime == OneHour ==> l.issuedAt <= now)
  {
    hide ValidLease, ValidSite;
  }

  /** What the encoder accepts, and what it objects to when nothing is wrong with a lease. */
  lemma ObjectionsExactly(ls: seq<Lease>, profile: Text, now: u64)
    ensures var r, d := Encoded(ls, profile, now), Durable(ls, profile, now);
      var storable := forall i | 0 <= i < |d| :: CanStore(d[i], now);
      && (r.Ok? <==> IsProfile(profile) && storable && |d| <= 4096 && |PayloadBytes(d, profile, now)| + 4 <= 0x40_0000)
      && (r == Err(InvalidProfile) <==> !IsProfile(profile))
      && (IsProfile(profile) && storable && |d| > 4096 ==> r == Err(InvalidLeaseCount))
      && (IsProfile(profile) && storable && |d| <= 4096 && !r.Ok? ==> r == Err(SnapshotTooLarge))
  {
    hide ValidLease, ValidSite, CanStore, Storable, PayloadBytes, Durably, Seal, Durable, Collect;
    var d := Durable(ls, profile, now);
    EncodingAccepted(ls, profile, now);
    DurableAre(ls, profile, now);
    forall i | 0 <= i < |d|
      ensures CanStore(d[i], now) <==> Storable(d[i], profile) && (d[i].grant.lifetime == OneHour ==> d[i].issuedAt <= now)
    {
      StorableIs(d[i], profile, now);
    }
    if forall i | 0 <= i < |d| :: CanStore(d[i], now) {
      StorableCollected(ls, profile, now);
      SitesStorable(d, now);
    }
  }

  lemma SitesStorable(d: seq<Lease>, now: u64)
    requires forall i | 0 <= i < |d| :: CanStore(d[i], now)
    ensures WebsitesStorable(d)
  {
    hide ValidLease, ValidSite;
    forall i | 0 <= i < |d|
      ensures AllSitesDeclared(d[i].grant.websites)
    {
      assert CanStore(d[i], now);
    }
  }

  lemma ObjectionIs(l: Lease, now: u64)
    ensures var r := CheckCandidate(l, now);
      && (r == Err(InvalidLease) <==>
            !ValidLease(l) || l.tabId != [] || l.sessionId != []
            || exists i, j | 0 <= i < j < |l.grant.websites| :: l.grant.websites[i] == l.grant.websites[j])
      && (r == Err(ClockRegression) <==> r != Err(InvalidLease) && l.grant.lifetime == OneHour && now < l.issuedAt)
      && (r == Err(TooManyWebsites) <==> r != Err(InvalidLease) && r != Err(ClockRegression) && |l.grant.websites| > 256)
      && (r.Ok? || r == Err(InvalidLease) || r == Err(ClockRegression) || r == Err(TooManyWebsites))
  {
  }

  // A snapshot byte by byte.

  function HourLease(): Lease {
    Lease(0x0102_0304_0506_0708, Grant(ReadCurrentPage, Ascii("work"), SelectedSites, OneHour, [Ascii("https://a.b")], true, true),
          1_000_000, 4_600_000, [], [], false, false)
  }

  function StorageLease(): Lease {
    Lease(7, Grant(ExtensionStorage, Ascii("work"), Scope.Extension, Always, [], false, true), 0, 0, [], [], false, false)
  }

  function TabLease(): Lease {
    Lease(8, Grant(ReadTabs, Ascii("work"), Scope.Extension, UntilTabCloses, [], false, true), 0, 0, Ascii("1"), [], false, false)
  }

  function Header(): seq<byte> {
    [0x47, 0x43, 0x50, 0x4c, 0x01, 0x00, 0x00, 0x00, 0x80, 0x84, 0x1e, 0x00, 0x00, 0x00, 0x00, 0x00,
     0x04, 0x00, 0x77, 0x6f, 0x72, 0x6b, 0x02, 0x00, 0x00, 0x00]
  }

  function HourFields(): seq<byte> {
    [0x08, 0x07, 0x06, 0x05, 0x04, 0x03, 0x02, 0x01, 0x01, 0x04, 0x01, 0x01,
     0x40, 0x42, 0x0f, 0x00, 0x00, 0x00, 0x00, 0x00, 0xc0, 0x30, 0x46, 0x00, 0x00, 0x00, 0x00, 0x00, 0x01, 0x00]
  }

  function HourSite(): seq<byte> {
    [0x0b, 0x00, 0x68, 0x74, 0x74, 0x70, 0x73, 0x3a, 0x2f, 0x2f, 0x61, 0x2e, 0x62]
  }

  function HourBytes(): seq<byte> {
    HourFields() + HourSite()
  }

  function StorageBytes(): seq<byte> {
    [0x07, 0x00, 0x00, 0x00, 0x00, 0x00, 0x00, 0x00, 0x0c, 0x01, 0x02, 0x00,
     0x00, 0x00, 0x00, 0x00, 0x00, 0x00, 0x00, 0x00, 0x00, 0x00, 0x00, 0x00, 0x00, 0x00, 0x00, 0x00, 0x00, 0x00]
  }

  lemma HeaderIs()
    ensures HeaderBytes(Ascii("work"), 2_000_000, 2) == Header()
  {
    hide LE;
    EightBytes(0x80, 0x84, 0x1e, 0, 0, 0, 0, 0);
    SmallBytes(4);
    SmallBytes(2);
  }

  lemma HourHead()
    ensures LeaseHead(HourLease()) == HourFields()
  {
    hide LE, Ascii;
    EightBytes(8, 7, 6, 5, 4, 3, 2, 1);
    EightBytes(0x40, 0x42, 0x0f, 0, 0, 0, 0, 0);
    EightBytes(0xc0, 0x30, 0x46, 0, 0, 0, 0, 0);
    SmallBytes(1);
    assert |HourLease().grant.websites| == 1;
  }

  lemma HourIs()
    ensures LeaseBytes(HourLease()) == HourBytes()
  {
    hide LE, LeaseHead, HourFields, SitesBytes;
    HourHead();
    SmallBytes(11);
    OneSite(Ascii("https://a.b"));
    assert [11, 0] + Ascii("https://a.b") == HourSite();
  }

  lemma OneSite(site: Text)
    ensures SitesBytes([site]) == LE(|site|, 2) + site
  {
    hide LE;
    var sites: seq<Text> := [site];
    assert sites[..0] == [];
  }

  lemma StorageIs()
    ensures LeaseBytes(StorageLease()) == StorageBytes()
  {
    hide LE;
    EightBytes(7, 0, 0, 0, 0, 0, 0, 0);
    EightBytes(0, 0, 0, 0, 0, 0, 0, 0);
    SmallBytes(0);
  }

  lemma HourStored()
    ensures CanStore(HourLease(), 2_000_000) && Durably(HourLease(), Ascii("work"), 2_000_000)
  {
    assert Ascii("https://") <= Ascii("https://a.b");
  }

  lemma StorageStored()
    ensures CanStore(StorageLease(), 2_000_000) && Durably(StorageLease(), Ascii("work"), 2_000_000)
    ensures !Durably(TabLease(), Ascii("work"), 2_000_000) && IsProfile(Ascii("work"))
  {
  }

  /** The snapshot of a ledger with two durable leases and one of a tab: every field in its place and width, least byte
      first, and the checksum of all that at the end. */
  lemma WrittenExactly()
    ensures Encoded([HourLease(), TabLease(), StorageLease()], Ascii("work"), 2_000_000)
            == Ok(Header() + HourBytes() + StorageBytes() + LE(Crc32.Value(Crc32.Checksum(Header() + HourBytes() + StorageBytes())), 4))
  {
    hide HourLease, TabLease, StorageLease, Header, HourBytes, StorageBytes, CanStore, LE, PayloadBytes, IsProfile, Ascii, Encoded, Durable;
    var ls, profile := [HourLease(), TabLease(), StorageLease()], Ascii("work");
    HourStored();
    StorageStored();
    TwoDurable();
    TwoPayload();
    Lengths();
    ObjectionsExactly(ls, profile, 2_000_000);
    SealedIs(ls, profile, 2_000_000);
  }

  lemma TwoDurable()
    ensures Durable([HourLease(), TabLease(), StorageLease()], Ascii("work"), 2_000_000) == [HourLease(), StorageLease()]
  {
    hide HourLease, TabLease, StorageLease, CanStore, Durably, Durable, IsProfile, Ascii;
    var a, b, c := HourLease(), TabLease(), StorageLease();
    HourStored();
    StorageStored();
    DurableExactly([], a, Ascii("work"), 2_000_000);
    DurableExactly([a], b, Ascii("work"), 2_000_000);
    DurableExactly([a, b], c, Ascii("work"), 2_000_000);
    var none: seq<Lease> := [];
    assert none + [a] == [a] && [a] + [b] == [a, b] && [a, b] + [c] == [a, b, c];
  }

  lemma TwoPayload()
    ensures PayloadBytes([HourLease(), StorageLease()], Ascii("work"), 2_000_000) == Header() + HourBytes() + StorageBytes()
  {
    hide HourLease, StorageLease, Header, HourBytes, StorageBytes, HeaderBytes, LeaseBytes, LeasesBytes, Ascii;
    HeaderIs();
    HourIs();
    StorageIs();
    TwoLeases(HourLease(), StorageLease());
    assert Header() + (HourBytes() + StorageBytes()) == Header() + HourBytes() + StorageBytes();
  }

  lemma TwoLeases(a: Lease, c: Lease)
    ensures LeasesBytes([a, c]) == LeaseBytes(a) + LeaseBytes(c)
  {
    hide LeaseBytes;
    var kept: seq<Lease> := [a, c];
    var first: seq<Lease> := [a];
    assert kept[..1] == first && first[..0] == [];
    assert LeasesBytes(first) == LeaseBytes(a);
  }

  lemma Lengths()
    ensures |Header() + HourBytes() + StorageBytes()| == 99
  {
  }

  lemma SealedIs(ls: seq<Lease>, profile: Text, now: u64)
    requires Encoded(ls, profile, now).Ok?
    ensures Encoded(ls, profile, now).value == Seal(PayloadBytes(Durable(ls, profile, now), profile, now))
  {
    hide Seal, PayloadBytes;
    CollectedFacts(ls, profile, now);
  }

  // What a reader refuses.

  /** The first defect of the bytes before the leases; without one the leases are read from where the profile and their number
      end. */
  lemma DefectsExactly(bytes: seq<byte>, profile: Text, now: u64)
    ensures var r, n := RestoredFrom(bytes, profile, now), |bytes|;
      if !IsProfile(profile) then r == Err(InvalidProfile)
      else if n > 0x40_0000 then r == Err(SnapshotTooLarge)
      else if n < 26 then r == Err(TruncatedSnapshot)
      else if FromLE(bytes[n - 4..]) != Crc32.Value(Crc32.Checksum(bytes[..n - 4])) then r == Err(ChecksumMismatch)
      else if bytes[..4] != [0x47, 0x43, 0x50, 0x4c] then r == Err(InvalidMagic)
      else if bytes[4] != 1 then r == Err(UnsupportedVersion)
      else if bytes[5] != 0 || bytes[6] != 0 || bytes[7] != 0 then r == Err(InvalidReservedHeader)
      else r == RestoreBody(bytes[16..n - 4], profile, now)
  {
    hide RestoreBody, FromLE, Crc32.Value, Crc32.Checksum;
    var n := |bytes|;
    if n >= 26 {
      var payload := bytes[..n - 4];
      assert payload[..4] == bytes[..4] && payload[16..] == bytes[16..n - 4];
      ReservedIs(payload[5..]);
      MagicIs();
    }
  }

  lemma MagicIs()
    ensures Magic() == [0x47, 0x43, 0x50, 0x4c]
  {
  }

  lemma ReservedIs(s: seq<byte>)
    requires |s| >= 3
    ensures ReservedIssue(s, 3) == if s[0] != 0 || s[1] != 0 || s[2] != 0 then Err(InvalidReservedHeader) else Ok(())
  {
    assert ReservedIssue(s[1..], 2) == if s[1] != 0 then Err(InvalidReservedHeader) else ReservedIssue(s[1..][1..], 1);
    assert s[1..][1..][0] == s[2];
  }

  lemma BodyDefects(s: seq<byte>, profile: Text, now: u64)
    requires |s| >= 6
    ensures var r, length := RestoreBody(s, profile, now), FromLE(s[..2]);
      if length > 256 || length > |s| - 2 || !IsProfile(s[2..2 + length]) then r == Err(InvalidProfile)
      else if s[2..2 + length] != profile then r == Err(ProfileMismatch)
      else if |s| - 2 - length < 4 then r == Err(TruncatedSnapshot)
      else if FromLE(s[2 + length..6 + length]) > 4096 then r == Err(InvalidLeaseCount)
      else r == RestoreLeases(s[6 + length..], FromLE(s[2 + length..6 + length]), profile, now, {}, [], 0)
  {
    hide FromLE, RestoreLeases;
    var length := FromLE(s[..2]);
    if length <= 256 && length <= |s| - 2 {
      assert s[2..][..length] == s[2..2 + length] && s[2..][length..] == s[2 + length..];
      if |s| - 2 - length >= 4 {
        assert s[2 + length..][..4] == s[2 + length..6 + length] && s[2 + length..][4..] == s[6 + length..];
      }
    }
  }

  /** The first defect of a lease. */
  lemma LeaseDefects(s: seq<byte>, profile: Text, seen: set<u64>)
    ensures var r := ParseLease(s, profile, seen);
      if |s| < 30 then r == Err(TruncatedSnapshot)
      else if FromLE(s[..8]) in seen then r == Err(DuplicateLease)
      else if !(1 <= s[8] <= 15) || !(1 <= s[9] <= 5) || !(1 <= s[10] <= 2) then r == Err(InvalidEnumValue)
      else if s[11] > 1 then r == Err(InvalidFlags)
      else if FromLE(s[28..30]) > 256 then r == Err(TooManyWebsites)
      else
        var sites := ParseSites(s[30..], FromLE(s[28..30]), []);
        if sites.Err? then r == Err(sites.issue)
        else r == Err(StorageIssue.InvalidLease) || (r.Ok? && ValidLease(r.value.value) && r.value.rest == sites.value.rest)
  {
    hide FromLE, ParseSites, ValidLease;
  }

  /** The first defect of a site. */
  lemma SiteDefects(s: seq<byte>, n: nat, seen: seq<Text>)
    requires n > 0
    ensures var r := ParseSites(s, n, seen);
      if |s| < 2 then r == Err(InvalidWebsite)
      else
        var length := FromLE(s[..2]);
        if length > 2048 || length > |s| - 2 || !ValidSite(s[2..2 + length]) then r == Err(InvalidWebsite)
        else if s[2..2 + length] in seen then r == Err(DuplicateWebsite)
        else r == ParseSites(s[2 + length..], n - 1, seen + [s[2..2 + length]])
  {
    hide FromLE, ValidSite;
    if |s| >= 2 && FromLE(s[..2]) <= |s| - 2 {
      var length := FromLE(s[..2]);
      assert s[2..][..length] == s[2..2 + length] && s[2..][length..] == s[2 + length..];
    }
  }

  /** And what is made of the leases one by one: from the future refused, expired dropped and counted, the others kept; nothing
      may follow the last. */
  lemma LeasesExactly(s: seq<byte>, n: nat, profile: Text, now: u64, seen: set<u64>, kept: seq<Lease>, dropped: nat)
    ensures RestoreLeases(s, 0, profile, now, seen, kept, dropped) == if s == [] then Ok(Restored(kept, dropped)) else Err(TrailingSnapshotBytes)
    ensures var r, first := RestoreLeases(s, n + 1, profile, now, seen, kept, dropped), ParseLease(s, profile, seen);
      if first.Err? then r == Err(first.issue)
      else
        var l, rest := first.value.value, first.value.rest;
        if l.grant.lifetime == OneHour && now < l.issuedAt then r == Err(ClockRegression)
        else if l.grant.lifetime == OneHour && l.expiresAt <= now then r == RestoreLeases(rest, n, profile, now, seen + {l.id}, kept, dropped + 1)
        else if !CanAdd(kept, l) then r == Err(StorageIssue.InvalidLease)
        else r == RestoreLeases(rest, n, profile, now, seen + {l.id}, kept + [l], dropped)
  {
    hide ParseLease, CanAdd;
  }
}
