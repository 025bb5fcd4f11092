/** Reading a ledger snapshot back: the restore procedure, and the theorems that make it the inverse of
    encoding, canonical, monotone in time, and certain to notice small damage. */
module LedgerRestore {
  import opened Bytes
  import opened Extensions
  import opened PermissionLedger
  import opened LedgerSnapshot
  import Crc32

  const MINIMUM_SNAPSHOT_BYTES := 26

  // What restore reads, on the bytes not read yet.

  datatype Parsed<+T> = Parsed(value: T, rest: seq<byte>)

  function ParseSites(s: seq<byte>, n: nat, seen: seq<Text>): Outcome<Parsed<seq<Text>>>
    decreases n
  {
    if n == 0 then Ok(Parsed(seen, s))
    else
      var t := TakeString(s, MAX_WEBSITE_BYTES);
      if t.Short? || !ValidSite(t.value) then Err(InvalidWebsite)
      else if t.value in seen then Err(DuplicateWebsite)
      else ParseSites(t.rest, n - 1, seen + [t.value])
  }

  /** One lease record of a profile, given the ids already seen. */
  function ParseLease(s: seq<byte>, profile: Text, seen: set<u64>): Outcome<Parsed<Lease>> {
    if |s| < 30 then Err(TruncatedSnapshot)
    else
      var id := Word(s[..8]);
      if id in seen then Err(DuplicateLease)
      else
        var permission := ParsePermissionCode(s[8]);
        var scope := ParseScopeCode(s[9]);
        var lifetime := ParseLifetimeCode(s[10]);
        var count := FromLE(s[28..30]);
        if permission.Err? || scope.Err? || lifetime.Err? then Err(InvalidEnumValue)
        else if s[11] > 1 then Err(InvalidFlags)
        else if count > MAX_WEBSITES then Err(TooManyWebsites)
        else
          var sites := ParseSites(s[30..], count, []);
          if sites.Err? then Err(sites.issue)
          else
            var grant := Grant(permission.value, profile, scope.value, lifetime.value, sites.value.value, s[11] == 1, true);
            var lease := Lease(id, grant, Word(s[12..20]), Word(s[20..28]), [], [], false, false);
            if !ValidLease(lease) then Err(InvalidLease) else Ok(Parsed(lease, sites.value.rest))
  }

  /** Eight bytes as a 64-bit word. */
  function Word(s: seq<byte>): u64
    requires |s| == 8
  {
    LEOfFromLE(s);
    Pow256Values();
    FromLE(s)
  }

  predicate Expired(l: Lease, now: u64) {
    l.grant.lifetime == OneHour && now >= l.expiresAt
  }

  /** The lease loop: n records still to read, `kept` restored and `dropped` found expired so far. */
  function RestoreLeases(s: seq<byte>, n: nat, profile: Text, now: u64, seen: set<u64>, kept: seq<Lease>, dropped: nat): RestoreResult
    decreases n
  {
    if n == 0 then
      if s == [] then Ok(Restored(kept, dropped)) else Err(TrailingSnapshotBytes)
    else
      var parsed := ParseLease(s, profile, seen);
      if parsed.Err? then Err(parsed.issue)
      else
        var l := parsed.value.value;
        if l.grant.lifetime == OneHour && now < l.issuedAt then Err(ClockRegression)
        else if Expired(l, now) then
          RestoreLeases(parsed.value.rest, n - 1, profile, now, seen + {l.id}, kept, dropped + 1)
        else if !CanAdd(kept, l) then Err(InvalidLease)
        else RestoreLeases(parsed.value.rest, n - 1, profile, now, seen + {l.id}, kept + [l], dropped)
  }

  /** The header after the checksum has been verified. */
  function RestorePayload(payload: seq<byte>, profile: Text, now: u64): RestoreResult {
    if |payload| < 4 then Err(TruncatedSnapshot)
    else if payload[..4] != Magic() then Err(InvalidMagic)
    else if |payload| < 5 then Err(TruncatedSnapshot)
    else if payload[4] != 1 then Err(UnsupportedVersion)
    else
      var reserved := ReservedIssue(payload[5..], 3);
      if reserved.Err? then Err(reserved.issue)
      else if |payload| < 16 then Err(TruncatedSnapshot)
      else RestoreBody(payload[16..], profile, now)
  }

  function RestoreBody(s: seq<byte>, profile: Text, now: u64): RestoreResult {
    var stored := TakeString(s, MAX_PROFILE_BYTES);
    if stored.Short? || !ValidProfile(stored.value) then Err(InvalidProfile)
    else if stored.value != profile then Err(ProfileMismatch)
    else if |stored.rest| < 4 then Err(TruncatedSnapshot)
    else
      var count := FromLE(stored.rest[..4]);
      if count > MAX_LEASES then Err(InvalidLeaseCount)
      else RestoreLeases(stored.rest[4..], count, profile, now, {}, [], 0)
  }

  /** The next n bytes must exist and be zero. */
  function ReservedIssue(s: seq<byte>, n: nat): Outcome<()> {
    if n == 0 then Ok(())
    else if s == [] then Err(TruncatedSnapshot)
    else if s[0] != 0 then Err(InvalidReservedHeader)
    else ReservedIssue(s[1..], n - 1)
  }

  ghost function RestoredFrom(bytes: seq<byte>, profile: Text, now: u64): RestoreResult {
    if !ValidProfile(profile) then Err(InvalidProfile)
    else if |bytes| > MAX_SNAPSHOT_BYTES then Err(SnapshotTooLarge)
    else if |bytes| < MINIMUM_SNAPSHOT_BYTES then Err(TruncatedSnapshot)
    else if !Crc32.Sealed(bytes) then Err(ChecksumMismatch)
    else RestorePayload(bytes[..|bytes| - 4], profile, now)
  }

  // The restore procedure.

  method ReadSites(reader: ByteReader, n: nat) returns (r: Outcome<seq<Text>>)
    requires reader.Valid()
    modifies reader`offset
    ensures reader.Valid()
    ensures r == (match ParseSites(old(reader.Rest()), n, [])
                  case Ok(p) => Ok(p.value)
                  case Err(e) => Err(e))
    ensures r.Ok? ==> reader.Rest() == ParseSites(old(reader.Rest()), n, []).value.rest
  {
    hide TakeString, ValidSite;
    var websites: seq<Text> := [];
    var i := 0;
    while i < n
      invariant 0 <= i <= n && reader.Valid()
      invariant ParseSites(old(reader.Rest()), n, []) == ParseSites(reader.Rest(), n - i, websites)
    {
      var got, website := reader.ReadStringU16(MAX_WEBSITE_BYTES);
      if !got || !ValidSite(website) {
        return Err(InvalidWebsite);
      }
      if website in websites {
        return Err(DuplicateWebsite);
      }
      websites := websites + [website];
      i := i + 1;
    }
    return Ok(websites);
  }

  /** The lease id and the four one-byte fields after it. */
  method ReadCodes(reader: ByteReader) returns (ok: bool, id: u64, codes: seq<byte>)
    requires reader.Valid()
    modifies reader`offset
    ensures reader.Valid() && ok == (|old(reader.Rest())| >= 12)
    ensures ok ==> reader.Rest() == old(reader.Rest())[12..]
    ensures ok ==> id == Word(old(reader.Rest())[..8]) && codes == old(reader.Rest())[8..12]
  {
    hide FromLE;
    ghost var s := reader.Rest();
    var got;
    id, codes := 0, [];
    got, id := reader.ReadU64();
    if !got { return false, 0, []; }
    var i := 0;
    while i < 4
      invariant 0 <= i <= 4 && reader.Valid() && |s| >= 8 + i
      invariant reader.Rest() == s[8 + i..] && codes == s[8..8 + i]
    {
      var code;
      got, code := reader.ReadU8();
      if !got { return false, 0, []; }
      assert s[8..8 + i + 1] == s[8..8 + i] + [s[8 + i..][0]];
      assert s[8 + i..][1..] == s[8 + i + 1..];
      codes := codes + [code];
      i := i + 1;
    }
    ok := true;
  }

  /** The two times and the website count. */
  method ReadTimes(reader: ByteReader) returns (ok: bool, issuedAt: u64, expiresAt: u64, websites: nat)
    requires reader.Valid()
    modifies reader`offset
    ensures reader.Valid() && ok == (|old(reader.Rest())| >= 18)
    ensures ok ==> reader.Rest() == old(reader.Rest())[18..]
    ensures ok ==> var s := old(reader.Rest());
                   issuedAt == Word(s[..8]) && expiresAt == Word(s[8..16]) && websites == FromLE(s[16..18])
  {
    hide FromLE;
    ghost var s := reader.Rest();
    var got;
    issuedAt, expiresAt, websites := 0, 0, 0;
    got, issuedAt := reader.ReadU64();
    if !got { return false, 0, 0, 0; }
    assert reader.Rest() == s[8..];
    got, expiresAt := reader.ReadU64();
    if !got { return false, 0, 0, 0; }
    assert reader.Rest() == s[16..] && s[8..][..8] == s[8..16];
    got, websites := reader.ReadU16();
    if !got { return false, 0, 0, 0; }
    assert reader.Rest() == s[18..] && s[16..][..2] == s[16..18];
    ok := true;
  }

  method ReadLease(reader: ByteReader, profile: Text, seen: set<u64>) returns (r: Outcome<Lease>)
    requires reader.Valid()
    modifies reader`offset
    ensures reader.Valid()
    ensures r == (match ParseLease(old(reader.Rest()), profile, seen)
                  case Ok(p) => Ok(p.value)
                  case Err(e) => Err(e))
    ensures r.Ok? ==> reader.Rest() == ParseLease(old(reader.Rest()), profile, seen).value.rest
  {
    hide ValidLease, ParsePermissionCode, ParseScopeCode, ParseLifetimeCode, Word, ParseSites, FromLE;
    ghost var s := reader.Rest();
    var got, id, codes := ReadCodes(reader);
    if !got {
      return Err(TruncatedSnapshot);
    }
    var issuedAt, expiresAt, count;
    got, issuedAt, expiresAt, count := ReadTimes(reader);
    if !got {
      return Err(TruncatedSnapshot);
    }
    assert reader.Rest() == s[30..] && s[12..][..8] == s[12..20] && s[12..][8..16] == s[20..28] && s[12..][16..18] == s[28..30];
    assert codes[0] == s[8] && codes[1] == s[9] && codes[2] == s[10] && codes[3] == s[11];
    if id in seen {
      return Err(DuplicateLease);
    }
    var permission := ParsePermissionCode(codes[0]);
    var scope := ParseScopeCode(codes[1]);
    var lifetime := ParseLifetimeCode(codes[2]);
    if permission.Err? || scope.Err? || lifetime.Err? {
      return Err(InvalidEnumValue);
    }
    if codes[3] > 1 {
      return Err(InvalidFlags);
    }
    if count > MAX_WEBSITES {
      return Err(TooManyWebsites);
    }
    var sites := ReadSites(reader, count);
    if sites.Err? {
      return Err(sites.issue);
    }
    var lease := Lease(id, Grant(permission.value, profile, scope.value, lifetime.value, sites.value, codes[3] == 1, true),
                       issuedAt, expiresAt, [], [], false, false);
    if !ValidLease(lease) {
      return Err(InvalidLease);
    }
    return Ok(lease);
  }

  method ReadLeases(reader: ByteReader, count: nat, profile: Text, now: u64) returns (r: RestoreResult)
    requires reader.Valid()
    modifies reader`offset
    ensures r == RestoreLeases(old(reader.Rest()), count, profile, now, {}, [], 0)
  {
    hide ParseLease, ValidLease, HasId;
    var ledger := new ExtensionPermissionLedger();
    var dropped := 0;
    var seen: set<u64> := {};
    var i := 0;
    while i < count
      invariant 0 <= i <= count && reader.Valid()
      invariant RestoreLeases(old(reader.Rest()), count, profile, now, {}, [], 0)
             == RestoreLeases(reader.Rest(), count - i, profile, now, seen, ledger.leases, dropped)
    {
      var parsed := ReadLease(reader, profile, seen);
      if parsed.Err? {
        return Err(parsed.issue);
      }
      var lease := parsed.value;
      seen := seen + {lease.id};
      if lease.grant.lifetime == OneHour && now < lease.issuedAt {
        return Err(ClockRegression);
      }
      if lease.grant.lifetime == OneHour && now >= lease.expiresAt {
        dropped := dropped + 1;
      } else {
        var added := ledger.Add(lease);
        if !added {
          return Err(InvalidLease);
        }
      }
      i := i + 1;
    }
    if reader.Remaining() != 0 {
      return Err(TrailingSnapshotBytes);
    }
    return Ok(Restored(ledger.leases, dropped));
  }

  method RestoreSnapshot(bytes: seq<byte>, profile: Text, now: u64) returns (r: RestoreResult)
    ensures r == RestoredFrom(bytes, profile, now)
  {
    hide ValidProfile, RestoreLeases, TakeString, Crc32.Checksum, Crc32.Value;
    if !ValidProfile(profile) {
      return Err(InvalidProfile);
    }
    if |bytes| > MAX_SNAPSHOT_BYTES {
      return Err(SnapshotTooLarge);
    }
    if |bytes| < MINIMUM_SNAPSHOT_BYTES {
      return Err(TruncatedSnapshot);
    }
    var payload := bytes[..|bytes| - 4];
    var checksumReader := new ByteReader(bytes[|bytes| - 4..]);
    assert checksumReader.Rest()[..4] == checksumReader.Rest();
    var got, stored := checksumReader.ReadU32();
    var computed := Crc32.ComputeCrc32(payload);
    if !got || stored != computed {
      return Err(ChecksumMismatch);
    }
    r := ReadPayload(payload, profile, now);
  }

  /** The three reserved bytes. */
  method ReadReserved(reader: ByteReader) returns (r: Outcome<()>)
    requires reader.Valid()
    modifies reader`offset
    ensures reader.Valid() && r == ReservedIssue(old(reader.Rest()), 3)
    ensures r.Ok? ==> |old(reader.Rest())| >= 3 && reader.Rest() == old(reader.Rest())[3..]
  {
    ghost var s := reader.Rest();
    var index := 0;
    while index < 3
      invariant 0 <= index <= 3 && reader.Valid()
      invariant index <= |s| && reader.Rest() == s[index..]
      invariant ReservedIssue(s, 3) == ReservedIssue(reader.Rest(), 3 - index)
    {
      var got, reserved := reader.ReadU8();
      if !got {
        return Err(TruncatedSnapshot);
      }
      if reserved != 0 {
        return Err(InvalidReservedHeader);
      }
      index := index + 1;
    }
    return Ok(());
  }

  method ReadPayload(payload: seq<byte>, profile: Text, now: u64) returns (r: RestoreResult)
    ensures r == RestorePayload(payload, profile, now)
  {
    hide ValidProfile, RestoreLeases, TakeString, FromLE, ReservedIssue, Ascii;
    var reader := new ByteReader(payload);
    var got, magic := reader.ReadBytes(4);
    if !got {
      return Err(TruncatedSnapshot);
    }
    if magic != Magic() {
      return Err(InvalidMagic);
    }
    var version;
    got, version := reader.ReadU8();
    if !got {
      return Err(TruncatedSnapshot);
    }
    if version != 1 {
      return Err(UnsupportedVersion);
    }
    assert reader.Rest() == payload[5..];
    var reserved := ReadReserved(reader);
    if reserved.Err? {
      return Err(reserved.issue);
    }
    assert reader.Rest() == payload[8..];
    var snapshotTime;
    got, snapshotTime := reader.ReadU64();
    if !got {
      return Err(TruncatedSnapshot);
    }
    assert reader.Rest() == payload[16..];
    r := ReadBody(reader, profile, now);
  }

  /** The owning profile, the lease count and the leases. */
  method ReadBody(reader: ByteReader, profile: Text, now: u64) returns (r: RestoreResult)
    requires reader.Valid()
    modifies reader`offset
    ensures r == RestoreBody(old(reader.Rest()), profile, now)
  {
    hide ValidProfile, RestoreLeases, TakeString, FromLE;
    var got, stored := reader.ReadStringU16(MAX_PROFILE_BYTES);
    if !got || !ValidProfile(stored) {
      return Err(InvalidProfile);
    }
    if stored != profile {
      return Err(ProfileMismatch);
    }
    var count;
    got, count := reader.ReadU32();
    if !got {
      return Err(TruncatedSnapshot);
    }
    if count > MAX_LEASES {
      return Err(InvalidLeaseCount);
    }
    r := ReadLeases(reader, count, profile, now);
  }
}
