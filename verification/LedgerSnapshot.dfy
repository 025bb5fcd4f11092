/** The sealed binary snapshot of a permission ledger: what is written, what is read back, and why
    the two are inverse to each other. */
module LedgerSnapshot {
  import opened Bytes
  import opened Extensions
  import opened PermissionLedger
  import Crc32

  const MAX_SNAPSHOT_BYTES := 0x40_0000
  const MAX_LEASES := 4096
  const MAX_PROFILE_BYTES := 256
  const MAX_WEBSITES := 256
  const MAX_WEBSITE_BYTES := 2048

  datatype StorageIssue =
    | InvalidProfile | SnapshotTooLarge | InvalidMagic | UnsupportedVersion | InvalidReservedHeader
    | TruncatedSnapshot | ChecksumMismatch | ProfileMismatch | InvalidLeaseCount | DuplicateLease
    | InvalidEnumValue | InvalidFlags | InvalidLease | TooManyWebsites | InvalidWebsite
    | DuplicateWebsite | ClockRegression | TrailingSnapshotBytes | IoError

  datatype Outcome<+T> = Ok(value: T) | Err(issue: StorageIssue)

  type SnapshotResult = Outcome<seq<byte>>

  /** The ledger a snapshot restores, and how many of its leases had expired. */
  datatype Restored = Restored(leases: seq<Lease>, dropped: nat)

  type RestoreResult = Outcome<Restored>

  // Storage codes.

  function PermissionCode(p: Permission): byte {
    PermissionIndex(p) + 1
  }

  function ParsePermissionCode(code: byte): Outcome<Permission> {
    if 1 <= code <= 15 then Ok(AllPermissions()[code - 1]) else Err(InvalidEnumValue)
  }

  function ScopeCode(s: Scope): byte {
    match s
    case Extension => 1
    case OnlyWhenClicked => 2
    case CurrentWebsite => 3
    case SelectedSites => 4
    case AllSites => 5
  }

  function ParseScopeCode(code: byte): Outcome<Scope> {
    match code
    case 1 => Ok(Extension)
    case 2 => Ok(OnlyWhenClicked)
    case 3 => Ok(CurrentWebsite)
    case 4 => Ok(SelectedSites)
    case 5 => Ok(AllSites)
    case _ => Err(InvalidEnumValue)
  }

  function LifetimeCode(l: Lifetime): byte {
    if l == OneHour then 1 else if l == Always then 2 else 0
  }

  function ParseLifetimeCode(code: byte): Outcome<Lifetime> {
    if code == 1 then Ok(OneHour) else if code == 2 then Ok(Always) else Err(InvalidEnumValue)
  }

  lemma CodesRoundTrip(p: Permission, s: Scope, code: byte)
    ensures ParsePermissionCode(PermissionCode(p)) == Ok(p) && ParseScopeCode(ScopeCode(s)) == Ok(s)
    ensures ParsePermissionCode(code).Ok? ==> PermissionCode(ParsePermissionCode(code).value) == code
    ensures ParseScopeCode(code).Ok? ==> ScopeCode(ParseScopeCode(code).value) == code
  {
    hide *;
    PermissionCodes(p);
    PermissionCodesBack(code);
    ScopeCodes(s, code);
  }

  lemma PermissionCodes(p: Permission)
    ensures ParsePermissionCode(PermissionCode(p)) == Ok(p)
  {
  }

  lemma PermissionCodesBack(code: byte)
    ensures ParsePermissionCode(code).Ok? ==> PermissionCode(ParsePermissionCode(code).value) == code
  {
  }

  lemma ScopeCodes(s: Scope, code: byte)
    ensures ParseScopeCode(ScopeCode(s)) == Ok(s)
    ensures ParseScopeCode(code).Ok? ==> ScopeCode(ParseScopeCode(code).value) == code
  {
  }

  predicate ValidProfile(p: Text) {
    1 <= |p| <= MAX_PROFILE_BYTES && forall i | 0 <= i < |p| :: !IsControl(p[i])
  }

  // Which leases are stored.

  predicate DurableCandidate(l: Lease, profile: Text, now: u64) {
    && l.grant.active && !l.revoked && !l.consumed && l.grant.profileId == profile
    && (l.grant.lifetime == OneHour || l.grant.lifetime == Always)
    && (l.grant.lifetime == OneHour ==> now < l.expiresAt)
  }

  predicate HasDuplicateWebsites(l: Lease) {
    exists i, j | 0 <= i < j < |l.grant.websites| :: l.grant.websites[i] == l.grant.websites[j]
  }

  /** Whether a candidate can be stored; the first objection otherwise. */
  function CheckCandidate(l: Lease, now: u64): Outcome<Lease> {
    if !ValidLease(l) || l.tabId != [] || l.sessionId != [] || HasDuplicateWebsites(l) then Err(InvalidLease)
    else if l.grant.lifetime == OneHour && now < l.issuedAt then Err(ClockRegression)
    else if |l.grant.websites| > MAX_WEBSITES then Err(TooManyWebsites)
    else Ok(l)
  }

  /** The durable leases of a profile, in ledger order, or the first objection. */
  function Collect(ls: seq<Lease>, profile: Text, now: u64): Outcome<seq<Lease>> {
    if ls == [] then Ok([])
    else
      var before := Collect(ls[..|ls| - 1], profile, now);
      var l := ls[|ls| - 1];
      if before.Err? || !DurableCandidate(l, profile, now) then before
      else
        var checked := CheckCandidate(l, now);
        if checked.Err? then Err(checked.issue) else Ok(before.value + [l])
  }

  /** The leases that a snapshot taken at `now` is meant to keep. */
  function Durable(ls: seq<Lease>, profile: Text, now: u64): seq<Lease> {
    if ls == [] then []
    else
      var before := Durable(ls[..|ls| - 1], profile, now);
      var l := ls[|ls| - 1];
      if DurableCandidate(l, profile, now) then before + [l] else before
  }

  // The byte format.

  function Magic(): seq<byte> {
    Ascii("GCPL")
  }

  function SitesBytes(websites: seq<Text>): seq<byte> {
    if websites == [] then []
    else SitesBytes(websites[..|websites| - 1]) + StringU16(websites[|websites| - 1])
  }

  /** The fixed thirty bytes of a lease record. */
  function LeaseHead(l: Lease): (s: seq<byte>)
    ensures |s| == 30
  {
    LE(l.id, 8)
    + [PermissionCode(l.grant.permission), ScopeCode(l.grant.scope), LifetimeCode(l.grant.lifetime),
       if l.grant.privateAllowed then 1 else 0]
    + LE(l.issuedAt, 8) + LE(l.expiresAt, 8) + LE(|l.grant.websites|, 2)
  }

  function LeaseBytes(l: Lease): seq<byte> {
    LeaseHead(l) + SitesBytes(l.grant.websites)
  }

  function LeasesBytes(ls: seq<Lease>): seq<byte> {
    if ls == [] then [] else LeasesBytes(ls[..|ls| - 1]) + LeaseBytes(ls[|ls| - 1])
  }

  function HeaderBytes(profile: Text, now: u64, count: nat): seq<byte> {
    Magic() + [1, 0, 0, 0] + LE(now, 8) + StringU16(profile) + LE(count, 4)
  }

  function PayloadBytes(ls: seq<Lease>, profile: Text, now: u64): seq<byte> {
    HeaderBytes(profile, now, |ls|) + LeasesBytes(ls)
  }

  function Seal(payload: seq<byte>): seq<byte> {
    payload + LE(Crc32.Value(Crc32.Checksum(payload)), 4)
  }

  predicate WebsitesStorable(ls: seq<Lease>) {
    forall i | 0 <= i < |ls| :: AllSitesDeclared(ls[i].grant.websites)
  }

  function Encoded(ls: seq<Lease>, profile: Text, now: u64): SnapshotResult {
    if !ValidProfile(profile) then Err(InvalidProfile)
    else
      var durable := Collect(ls, profile, now);
      if durable.Err? then Err(durable.issue)
      else if |durable.value| > MAX_LEASES then Err(InvalidLeaseCount)
      else if !WebsitesStorable(durable.value) then Err(InvalidWebsite)
      else
        Finished(PayloadBytes(durable.value, profile, now))
  }

  function Finished(payload: seq<byte>): SnapshotResult {
    if |payload| + 4 > MAX_SNAPSHOT_BYTES then Err(SnapshotTooLarge) else Ok(Seal(payload))
  }

  method WriteLeaseHead(writer: ByteWriter, l: Lease)
    requires |l.grant.websites| < 0x1_0000
    modifies writer
    ensures writer.bytes == old(writer.bytes) + LeaseHead(l)
  {
    hide LE, PermissionCode, ScopeCode, LifetimeCode;
    writer.WriteU64(l.id);
    writer.WriteU8(PermissionCode(l.grant.permission));
    writer.WriteU8(ScopeCode(l.grant.scope));
    writer.WriteU8(LifetimeCode(l.grant.lifetime));
    writer.WriteU8(if l.grant.privateAllowed then 1 else 0);
    ghost var codes := LE(l.id, 8) + [PermissionCode(l.grant.permission), ScopeCode(l.grant.scope),
                                      LifetimeCode(l.grant.lifetime), if l.grant.privateAllowed then 1 else 0];
    assert writer.bytes == old(writer.bytes) + codes;
    writer.WriteU64(l.issuedAt);
    writer.WriteU64(l.expiresAt);
    writer.WriteU16(|l.grant.websites|);
    assert LeaseHead(l) == codes + LE(l.issuedAt, 8) + LE(l.expiresAt, 8) + LE(|l.grant.websites|, 2);
  }

  method WriteLease(writer: ByteWriter, l: Lease) returns (ok: bool)
    requires |l.grant.websites| < 0x1_0000
    modifies writer
    ensures ok == AllSitesDeclared(l.grant.websites)
    ensures ok ==> writer.bytes == old(writer.bytes) + LeaseBytes(l)
  {
    hide ValidSite, LeaseHead, StringU16;
    WriteLeaseHead(writer, l);
    ghost var head := writer.bytes;
    var websites := l.grant.websites;
    var i := 0;
    while i < |websites|
      invariant 0 <= i <= |websites|
      invariant forall j | 0 <= j < i :: ValidSite(websites[j])
      invariant writer.bytes == head + SitesBytes(websites[..i])
    {
      if !ValidSite(websites[i]) {
        return false;
      }
      ValidSiteBound(websites[i]);
      var written := writer.WriteStringU16(websites[i], MAX_WEBSITE_BYTES);
      if !written {
        return false;
      }
      assert websites[..i + 1][..i] == websites[..i];
      i := i + 1;
    }
    assert websites[..i] == websites;
    return true;
  }

  lemma ValidSiteBound(site: Text)
    requires ValidSite(site)
    ensures |site| <= MAX_WEBSITE_BYTES
  {
  }

  method WriteHeader(writer: ByteWriter, profile: Text, now: u64, count: u32)
    requires ValidProfile(profile)
    modifies writer
    ensures writer.bytes == old(writer.bytes) + HeaderBytes(profile, now, count)
  {
    hide LE, StringU16;
    writer.WriteBytes(Magic());
    writer.WriteU8(1);
    writer.WriteU8(0);
    writer.WriteU8(0);
    writer.WriteU8(0);
    ghost var start := Magic() + [1, 0, 0, 0];
    assert writer.bytes == old(writer.bytes) + start;
    writer.WriteU64(now);
    var ok := writer.WriteStringU16(profile, MAX_PROFILE_BYTES);
    writer.WriteU32(count);
    assert HeaderBytes(profile, now, count) == start + LE(now, 8) + StringU16(profile) + LE(count, 4);
  }

  lemma {:induction false} CollectedWebsites(ls: seq<Lease>, profile: Text, now: u64)
    requires Collect(ls, profile, now).Ok?
    ensures forall i | 0 <= i < |Collect(ls, profile, now).value| ::
              |Collect(ls, profile, now).value[i].grant.websites| <= MAX_WEBSITES
  {
    hide ValidLease, HasDuplicateWebsites, DurableCandidate;
    if ls != [] {
      CollectedWebsites(ls[..|ls| - 1], profile, now);
    }
  }

  method WriteLeases(writer: ByteWriter, durable: seq<Lease>) returns (ok: bool)
    requires forall i | 0 <= i < |durable| :: |durable[i].grant.websites| <= MAX_WEBSITES
    modifies writer
    ensures ok == WebsitesStorable(durable)
    ensures ok ==> writer.bytes == old(writer.bytes) + LeasesBytes(durable)
  {
    hide LeaseBytes, AllSitesDeclared;
    var i := 0;
    while i < |durable|
      invariant 0 <= i <= |durable|
      invariant forall j | 0 <= j < i :: AllSitesDeclared(durable[j].grant.websites)
      invariant writer.bytes == old(writer.bytes) + LeasesBytes(durable[..i])
    {
      var written := WriteLease(writer, durable[i]);
      if !written {
        return false;
      }
      assert durable[..i + 1][..i] == durable[..i];
      i := i + 1;
    }
    assert durable[..i] == durable;
    return true;
  }

  method CollectDurable(ls: seq<Lease>, profile: Text, now: u64) returns (r: Outcome<seq<Lease>>)
    ensures r == Collect(ls, profile, now)
  {
    hide ValidLease, HasDuplicateWebsites;
    var durable: seq<Lease> := [];
    var i := 0;
    while i < |ls|
      invariant 0 <= i <= |ls|
      invariant Collect(ls[..i], profile, now) == Ok(durable)
    {
      var l := ls[i];
      assert ls[..i + 1][..i] == ls[..i];
      if DurableCandidate(l, profile, now) {
        if !ValidLease(l) || l.tabId != [] || l.sessionId != [] || HasDuplicateWebsites(l) {
          CollectFails(ls, profile, now, i + 1);
          return Err(InvalidLease);
        }
        if l.grant.lifetime == OneHour && now < l.issuedAt {
          CollectFails(ls, profile, now, i + 1);
          return Err(ClockRegression);
        }
        if |l.grant.websites| > MAX_WEBSITES {
          CollectFails(ls, profile, now, i + 1);
          return Err(TooManyWebsites);
        }
        durable := durable + [l];
      }
      i := i + 1;
    }
    assert ls[..i] == ls;
    return Ok(durable);
  }

  /** The first objection stands. */
  lemma {:induction false} CollectFails(ls: seq<Lease>, profile: Text, now: u64, k: nat)
    requires k <= |ls| && Collect(ls[..k], profile, now).Err?
    ensures Collect(ls, profile, now) == Collect(ls[..k], profile, now)
  {
    if k == |ls| {
      assert ls[..k] == ls;
    } else {
      assert ls[..|ls| - 1][..k] == ls[..k];
      CollectFails(ls[..|ls| - 1], profile, now, k);
    }
  }

  method Finish(writer: ByteWriter) returns (r: SnapshotResult)
    modifies writer
    ensures r == Finished(old(writer.bytes))
  {
    if |writer.bytes| + 4 > MAX_SNAPSHOT_BYTES {
      return Err(SnapshotTooLarge);
    }
    var checksum := Crc32.ComputeCrc32(writer.bytes);
    writer.WriteU32(checksum);
    return Ok(writer.bytes);
  }

  method EncodeSnapshot(ledger: ExtensionPermissionLedger, profile: Text, now: u64) returns (r: SnapshotResult)
    ensures r == Encoded(ledger.leases, profile, now)
  {
    hide ValidLease, Finished, ValidProfile, StringU16, HeaderBytes, LeasesBytes, WebsitesStorable, LE, Collect, DurableCandidate;
    if !ValidProfile(profile) {
      return Err(InvalidProfile);
    }
    var collected := CollectDurable(ledger.leases, profile, now);
    if collected.Err? {
      return Err(collected.issue);
    }
    var durable := collected.value;
    CollectedWebsites(ledger.leases, profile, now);
    if |durable| > MAX_LEASES {
      return Err(InvalidLeaseCount);
    }
    var writer := new ByteWriter();
    WriteHeader(writer, profile, now, |durable|);
    var ok := WriteLeases(writer, durable);
    if !ok {
      return Err(InvalidWebsite);
    }
    assert writer.bytes == PayloadBytes(durable, profile, now);
    r := Finish(writer);
  }

  // What collection guarantees.

  /** A lease that a snapshot of this profile can hold. */
  ghost predicate Storable(l: Lease, profile: Text) {
    && ValidLease(l) && l.grant.profileId == profile && !l.consumed
    && (l.grant.lifetime == OneHour || l.grant.lifetime == Always)
    && l.tabId == [] && l.sessionId == []
    && |l.grant.websites| <= MAX_WEBSITES && !HasDuplicateWebsites(l) && AllSitesDeclared(l.grant.websites)
  }

  lemma {:induction false} CollectedFacts(ls: seq<Lease>, profile: Text, now: u64)
    requires Collect(ls, profile, now).Ok?
    ensures Collect(ls, profile, now).value == Durable(ls, profile, now)
    ensures forall i | 0 <= i < |Durable(ls, profile, now)| ::
              var l := Durable(ls, profile, now)[i];
              CheckCandidate(l, now).Ok? && DurableCandidate(l, profile, now) && l in ls
  {
    hide ValidLease, HasDuplicateWebsites;
    if ls != [] {
      CollectedFacts(ls[..|ls| - 1], profile, now);
    }
  }

  /** Encoding is accepted exactly when every durable lease can be stored at this time and the result fits. */
  lemma EncodingAccepted(ls: seq<Lease>, profile: Text, now: u64)
    ensures var d := Durable(ls, profile, now);
            Encoded(ls, profile, now).Ok? <==>
              && ValidProfile(profile)
              && (forall i | 0 <= i < |d| :: Storable(d[i], profile) && (d[i].grant.lifetime == OneHour ==> d[i].issuedAt <= now))
              && |d| <= MAX_LEASES
              && |PayloadBytes(d, profile, now)| + 4 <= MAX_SNAPSHOT_BYTES
  {
    var d := Durable(ls, profile, now);
    if Encoded(ls, profile, now).Ok? {
      CollectedFacts(ls, profile, now);
    }
    if forall i | 0 <= i < |d| :: Storable(d[i], profile) && (d[i].grant.lifetime == OneHour ==> d[i].issuedAt <= now) {
      StorableCollected(ls, profile, now);
    }
  }

  lemma {:induction false} StorableCollected(ls: seq<Lease>, profile: Text, now: u64)
    requires forall i | 0 <= i < |Durable(ls, profile, now)| ::
               var l := Durable(ls, profile, now)[i];
               Storable(l, profile) && (l.grant.lifetime == OneHour ==> l.issuedAt <= now)
    ensures Collect(ls, profile, now) == Ok(Durable(ls, profile, now))
  {
    hide ValidLease, HasDuplicateWebsites;
    if ls != [] {
      var d, shorter := Durable(ls, profile, now), Durable(ls[..|ls| - 1], profile, now);
      forall i | 0 <= i < |shorter|
        ensures shorter[i] == d[i]
      {
      }
      StorableCollected(ls[..|ls| - 1], profile, now);
      if DurableCandidate(ls[|ls| - 1], profile, now) {
        assert d[|shorter|] == ls[|ls| - 1];
      }
    }
  }
}
