/** What encoding and restoring a ledger snapshot mean to each other. */
module SnapshotTheorems {
  import opened Bytes
  import opened Extensions
  import opened PermissionLedger
  import opened LedgerSnapshot
  import opened LedgerRestore
  import Crc32

  // Website lists.

  lemma {:induction false} SitesBytesCons(websites: seq<Text>)
    requires websites != []
    ensures SitesBytes(websites) == StringU16(websites[0]) + SitesBytes(websites[1..])
  {
    hide StringU16, SitesBytes;
    var front, last := websites[..|websites| - 1], websites[|websites| - 1];
    LastSite(front, last);
    assert websites == front + [last];
    if front != [] {
      SitesBytesCons(front);
      LastSite(front[1..], last);
      assert websites[1..] == front[1..] + [last];
      assert StringU16(front[0]) + SitesBytes(front[1..]) + StringU16(last) == StringU16(front[0]) + (SitesBytes(front[1..]) + StringU16(last));
    } else {
      NoSites();
      assert websites[1..] == [];
    }
  }

  lemma NoSites()
    ensures SitesBytes([]) == []
  {
  }

  lemma LastSite(front: seq<Text>, last: Text)
    ensures SitesBytes(front + [last]) == SitesBytes(front) + StringU16(last)
  {
    hide StringU16;
    assert (front + [last])[..|front|] == front;
  }

  lemma {:induction false} ParseSitesOfBytes(websites: seq<Text>, rest: seq<byte>, seen: seq<Text>)
    requires AllSitesDeclared(websites) && Distinct(seen + websites)
    ensures ParseSites(SitesBytes(websites) + rest, |websites|, seen) == Ok(Parsed(seen + websites, rest))
    decreases |websites|
  {
    hide TakeString, ValidSite, StringU16;
    if websites == [] {
      assert SitesBytes(websites) + rest == rest && seen + websites == seen;
    } else {
      var w, others := websites[0], websites[1..];
      SitesBytesCons(websites);
      var tail := SitesBytes(others) + rest;
      assert SitesBytes(websites) + rest == StringU16(w) + tail;
      ValidSiteBound(w);
      TakeStringOfStringU16(w, tail, MAX_WEBSITE_BYTES);
      assert seen + websites == seen + [w] + others;
      assert w !in seen by {
        forall i | 0 <= i < |seen|
          ensures seen[i] != w
        {
          assert (seen + websites)[i] == seen[i] && (seen + websites)[|seen|] == w;
        }
      }
      assert AllSitesDeclared(others) by {
        assert forall i | 0 <= i < |others| :: others[i] == websites[i + 1];
      }
      ParseSitesOfBytes(others, rest, seen + [w]);
    }
  }

  lemma {:induction false} BytesOfParseSites(s: seq<byte>, n: nat, seen: seq<Text>)
    requires ParseSites(s, n, seen).Ok? && Distinct(seen)
    ensures var p := ParseSites(s, n, seen).value;
            && |p.value| == |seen| + n && p.value[..|seen|] == seen
            && AllSitesDeclared(p.value[|seen|..]) && Distinct(p.value)
            && s == SitesBytes(p.value[|seen|..]) + p.rest
    decreases n
  {
    hide TakeString, ValidSite, StringU16;
    var p := ParseSites(s, n, seen).value;
    if n == 0 {
      assert p.value[|seen|..] == [];
      assert s == SitesBytes([]) + p.rest;
    } else {
      var t := TakeString(s, MAX_WEBSITE_BYTES);
      StringU16OfTakeString(s, MAX_WEBSITE_BYTES);
      BytesOfParseSites(t.rest, n - 1, seen + [t.value]);
      var sites := p.value[|seen|..];
      assert sites[0] == p.value[..|seen| + 1][|seen|] == t.value;
      assert sites[1..] == p.value[|seen| + 1..];
      SitesBytesCons(sites);
      assert p.value[..|seen|] == p.value[..|seen| + 1][..|seen|];
      forall i | 0 <= i < |sites|
        ensures ValidSite(sites[i])
      {
        if i > 0 {
          assert sites[i] == sites[1..][i - 1];
        }
      }
    }
  }

  // One lease record.

  lemma HeadFields(l: Lease, tail: seq<byte>)
    ensures var s := LeaseHead(l) + tail;
            && s[..8] == LE(l.id, 8) && s[8] == PermissionCode(l.grant.permission) && s[9] == ScopeCode(l.grant.scope)
            && s[10] == LifetimeCode(l.grant.lifetime) && s[11] == (if l.grant.privateAllowed then 1 else 0)
            && s[12..20] == LE(l.issuedAt, 8) && s[20..28] == LE(l.expiresAt, 8)
            && s[28..30] == LE(|l.grant.websites|, 2) && s[30..] == tail
  {
    hide LE;
  }

  lemma WordOfLE(n: u64)
    ensures Word(LE(n, 8)) == n
  {
    Pow256Values();
    FromLEOfLE(n, 8);
  }

  /** A record whose fields are those of a storable lease parses to that lease. */
  lemma ParseLeaseFields(s: seq<byte>, l: Lease, profile: Text, rest: seq<byte>, seen: set<u64>)
    requires Storable(l, profile) && l.id !in seen && l.grant.active && !l.revoked && |s| >= 30
    requires Word(s[..8]) == l.id && Word(s[12..20]) == l.issuedAt && Word(s[20..28]) == l.expiresAt
    requires ParsePermissionCode(s[8]) == Ok(l.grant.permission) && ParseScopeCode(s[9]) == Ok(l.grant.scope)
    requires s[10] == LifetimeCode(l.grant.lifetime) && s[11] == (if l.grant.privateAllowed then 1 else 0)
    requires FromLE(s[28..30]) == |l.grant.websites|
    requires ParseSites(s[30..], |l.grant.websites|, []) == Ok(Parsed(l.grant.websites, rest))
    ensures ParseLease(s, profile, seen) == Ok(Parsed(l, rest))
  {
    hide ValidLease, Word, FromLE, ParsePermissionCode, ParseScopeCode, ParseSites, AllSitesDeclared, HasDuplicateWebsites;
  }

  lemma ParseLeaseOfBytes(l: Lease, profile: Text, rest: seq<byte>, seen: set<u64>)
    requires Storable(l, profile) && l.id !in seen
    ensures ParseLease(LeaseBytes(l) + rest, profile, seen) == Ok(Parsed(l, rest))
  {
    ValidLeaseFields(l);
    StorableWebsites(l, profile);
    hide ParseLease, Storable, LeaseHead, Word, LE, SitesBytes, FromLE, ParseSites, ParsePermissionCode, ParseScopeCode,
      PermissionCode, ScopeCode, AllSitesDeclared;
    var websites := l.grant.websites;
    var tail := SitesBytes(websites) + rest;
    var s := LeaseHead(l) + tail;
    assert LeaseBytes(l) + rest == s;
    HeadFields(l, tail);
    WordOfLE(l.id);
    WordOfLE(l.issuedAt);
    WordOfLE(l.expiresAt);
    Pow256Values();
    FromLEOfLE(|websites|, 2);
    CodesRoundTrip(l.grant.permission, l.grant.scope, 0);
    assert [] + websites == websites;
    ParseSitesOfBytes(websites, rest, []);
    ParseLeaseFields(s, l, profile, rest, seen);
  }

  lemma StorableWebsites(l: Lease, profile: Text)
    requires Storable(l, profile)
    ensures |l.grant.websites| <= MAX_WEBSITES && AllSitesDeclared(l.grant.websites) && Distinct(l.grant.websites)
  {
  }

  lemma ValidLeaseFields(l: Lease)
    requires ValidLease(l)
    ensures l.grant.active && !l.revoked && l.id != 0
  {
  }

  lemma BytesOfParseLease(s: seq<byte>, profile: Text, seen: set<u64>)
    requires ParseLease(s, profile, seen).Ok?
    ensures var p := ParseLease(s, profile, seen).value;
            Storable(p.value, profile) && p.value.id !in seen && s == LeaseBytes(p.value) + p.rest
  {
    hide ParseLease, ValidLease, LE, FromLE, Word, SitesBytes, AllSitesDeclared, ParsePermissionCode, ParseScopeCode,
      ParseSites, PermissionCode, ScopeCode, LifetimeCode, LeaseHead;
    ParsedFields(s, profile, seen);
    var p := ParseLease(s, profile, seen).value;
    var websites := p.value.grant.websites;
    CodesRoundTrip(ReadCurrentPage, Extension, s[8]);
    CodesRoundTrip(ReadCurrentPage, Extension, s[9]);
    BytesOfParseSites(s[30..], FromLE(s[28..30]), []);
    assert websites[0..] == websites;
    HeadOfFields(s, p.value);
    assert s == s[..30] + s[30..];
  }

  lemma HeadOfFields(s: seq<byte>, l: Lease)
    requires |s| >= 30
    requires l.id == Word(s[..8]) && l.issuedAt == Word(s[12..20]) && l.expiresAt == Word(s[20..28])
    requires PermissionCode(l.grant.permission) == s[8] && ScopeCode(l.grant.scope) == s[9]
    requires LifetimeCode(l.grant.lifetime) == s[10] && (if l.grant.privateAllowed then 1 else 0) == s[11]
    requires |l.grant.websites| == FromLE(s[28..30])
    ensures s[..30] == LeaseHead(l)
  {
    hide LE, FromLE, Word, PermissionCode, ScopeCode, LifetimeCode;
    WordBytes(s[..8]);
    WordBytes(s[12..20]);
    WordBytes(s[20..28]);
    LEOfFromLE(s[28..30]);
    assert s[..30] == s[..8] + [s[8], s[9], s[10], s[11]] + s[12..20] + s[20..28] + s[28..30];
  }

  lemma WordBytes(s: seq<byte>)
    requires |s| == 8
    ensures LE(Word(s), 8) == s
  {
    LEOfFromLE(s);
  }

  lemma ParsedFields(s: seq<byte>, profile: Text, seen: set<u64>)
    requires ParseLease(s, profile, seen).Ok?
    ensures var p := ParseLease(s, profile, seen).value;
            var l := p.value;
            && |s| >= 30 && l.id !in seen && ValidLease(l) && l.grant.profileId == profile && !l.consumed
            && l.tabId == [] && l.sessionId == []
            && l.id == Word(s[..8]) && l.issuedAt == Word(s[12..20]) && l.expiresAt == Word(s[20..28])
            && ParsePermissionCode(s[8]) == Ok(l.grant.permission) && ParseScopeCode(s[9]) == Ok(l.grant.scope)
            && LifetimeCode(l.grant.lifetime) == s[10] && (l.grant.lifetime == OneHour || l.grant.lifetime == Always)
            && s[11] == (if l.grant.privateAllowed then 1 else 0)
            && FromLE(s[28..30]) <= MAX_WEBSITES
            && ParseSites(s[30..], FromLE(s[28..30]), []) == Ok(Parsed(l.grant.websites, p.rest))
  {
    hide ValidLease, Word, FromLE, ParsePermissionCode, ParseScopeCode, ParseSites;
  }

  // Filtering by time.

  function Unexpired(ls: seq<Lease>, now: u64): (r: seq<Lease>)
    ensures |r| <= |ls|
  {
    if ls == [] then []
    else
      var before := Unexpired(ls[..|ls| - 1], now);
      if Expired(ls[|ls| - 1], now) then before else before + [ls[|ls| - 1]]
  }

  /** The outcome of restoring these leases at a time: those expired by then are dropped and counted. */
  function Survivors(ls: seq<Lease>, now: u64, dropped: nat): Restored {
    Restored(Unexpired(ls, now), dropped + (|ls| - |Unexpired(ls, now)|))
  }

  lemma {:induction false} UnexpiredConcat(a: seq<Lease>, b: seq<Lease>, now: u64)
    ensures Unexpired(a + b, now) == Unexpired(a, now) + Unexpired(b, now)
  {
    if b == [] {
      assert a + b == a;
    } else {
      assert (a + b)[..|a + b| - 1] == a + b[..|b| - 1];
      UnexpiredConcat(a, b[..|b| - 1], now);
    }
  }

  lemma {:induction false} UnexpiredFacts(ls: seq<Lease>, now: u64)
    ensures |Unexpired(ls, now)| <= |ls|
    ensures forall i | 0 <= i < |Unexpired(ls, now)| :: Unexpired(ls, now)[i] in ls && !Expired(Unexpired(ls, now)[i], now)
  {
    if ls != [] {
      UnexpiredFacts(ls[..|ls| - 1], now);
    }
  }

  lemma {:induction false} UnexpiredTwice(ls: seq<Lease>, now: u64, later: u64)
    requires now <= later
    ensures Unexpired(Unexpired(ls, now), later) == Unexpired(ls, later)
  {
    if ls != [] {
      UnexpiredTwice(ls[..|ls| - 1], now, later);
      var before, l := Unexpired(ls[..|ls| - 1], now), ls[|ls| - 1];
      if !Expired(l, now) {
        assert (before + [l])[..|before + [l]| - 1] == before;
      }
    }
  }

  // The lease loop.

  lemma {:induction false} LeasesBytesCons(ls: seq<Lease>)
    requires ls != []
    ensures LeasesBytes(ls) == LeaseBytes(ls[0]) + LeasesBytes(ls[1..])
  {
    hide LeaseBytes;
    var front := ls[..|ls| - 1];
    if front != [] {
      LeasesBytesCons(front);
      assert ls[1..][..|ls| - 2] == front[1..];
    } else {
      assert ls[1..] == [];
    }
  }

  /** Leases that one snapshot can hold together, none issued after `now`. */
  ghost predicate StorableAll(ls: seq<Lease>, profile: Text, now: u64) {
    && DistinctIds(ls)
    && forall i | 0 <= i < |ls| :: Storable(ls[i], profile) && (ls[i].grant.lifetime == OneHour ==> ls[i].issuedAt <= now)
  }

  lemma {:induction false} RestoreLeasesOfBytes(ls: seq<Lease>, profile: Text, now: u64, seen: set<u64>, kept: seq<Lease>, dropped: nat)
    requires StorableAll(ls, profile, now)
    requires forall i | 0 <= i < |ls| :: ls[i].id !in seen
    requires forall i | 0 <= i < |kept| :: kept[i].id in seen
    ensures RestoreLeases(LeasesBytes(ls), |ls|, profile, now, seen, kept, dropped)
         == Ok(Restored(kept + Unexpired(ls, now), dropped + (|ls| - |Unexpired(ls, now)|)))
    decreases |ls|
  {
    hide ParseLease, LeaseBytes, ValidLease, LeasesBytes, StorableAll, Storable, Expired, Unexpired, RestoreLeases;
    if ls == [] {
      RestoredNothing(profile, now, seen, kept, dropped);
    } else {
      var l, others := ls[0], ls[1..];
      StorableAllTail(ls, profile, now);
      SurvivorsCons(l, others, now);
      assert ls == [l] + others;
      LeasesBytesCons(ls);
      ParseLeaseOfBytes(l, profile, LeasesBytes(others), seen);
      StorableIsValid(l, profile);
      RestoreOne(LeasesBytes(ls), |ls|, profile, now, seen, kept, dropped, l, LeasesBytes(others));
      if Expired(l, now) {
        RestoreLeasesOfBytes(others, profile, now, seen + {l.id}, kept, dropped + 1);
      } else {
        RestoreLeasesOfBytes(others, profile, now, seen + {l.id}, kept + [l], dropped);
        assert kept + [l] + Unexpired(others, now) == kept + ([l] + Unexpired(others, now));
      }
    }
  }

  lemma SurvivorsCons(l: Lease, others: seq<Lease>, now: u64)
    ensures Unexpired([l] + others, now) == if Expired(l, now) then Unexpired(others, now) else [l] + Unexpired(others, now)
  {
    UnexpiredConcat([l], others, now);
    UnexpiredOfOne(l, now);
    assert [] + Unexpired(others, now) == Unexpired(others, now);
  }

  lemma StorableAllTail(ls: seq<Lease>, profile: Text, now: u64)
    requires ls != [] && StorableAll(ls, profile, now)
    ensures StorableAll(ls[1..], profile, now) && forall i | 0 <= i < |ls[1..]| :: ls[1..][i].id != ls[0].id
    ensures Storable(ls[0], profile) && (ls[0].grant.lifetime == OneHour ==> ls[0].issuedAt <= now)
  {
    hide Storable;
    assert forall i | 0 <= i < |ls[1..]| :: ls[1..][i] == ls[i + 1];
  }

  lemma RestoredNothing(profile: Text, now: u64, seen: set<u64>, kept: seq<Lease>, dropped: nat)
    ensures RestoreLeases(LeasesBytes([]), 0, profile, now, seen, kept, dropped)
         == Ok(Restored(kept + Unexpired([], now), dropped + (0 - |Unexpired([], now)|)))
  {
    assert kept + Unexpired([], now) == kept;
  }

  /** One turn of the lease loop on a storable lease. */
  lemma RestoreOne(s: seq<byte>, n: nat, profile: Text, now: u64, seen: set<u64>, kept: seq<Lease>, dropped: nat, l: Lease, rest: seq<byte>)
    requires n > 0 && ParseLease(s, profile, seen) == Ok(Parsed(l, rest))
    requires ValidLease(l) && (l.grant.lifetime == OneHour ==> l.issuedAt <= now)
    requires forall i | 0 <= i < |kept| :: kept[i].id != l.id
    ensures RestoreLeases(s, n, profile, now, seen, kept, dropped)
         == if Expired(l, now) then RestoreLeases(rest, n - 1, profile, now, seen + {l.id}, kept, dropped + 1)
            else RestoreLeases(rest, n - 1, profile, now, seen + {l.id}, kept + [l], dropped)
  {
    hide ParseLease, ValidLease;
  }

  lemma StorableIsValid(l: Lease, profile: Text)
    requires Storable(l, profile)
    ensures ValidLease(l)
  {
  }

  /** What the loop accepts it has read from exactly the bytes the writer would produce: some list of
      storable leases, of which the unexpired ones are kept. */
  lemma {:induction false} BytesOfRestoreLeases(
    s: seq<byte>, n: nat, profile: Text, now: u64, seen: set<u64>, kept: seq<Lease>, dropped: nat) returns (ls: seq<Lease>)
    requires RestoreLeases(s, n, profile, now, seen, kept, dropped).Ok?
    ensures |ls| == n && s == LeasesBytes(ls) && StorableAll(ls, profile, now)
    ensures forall i | 0 <= i < |ls| :: ls[i].id !in seen
    ensures RestoreLeases(s, n, profile, now, seen, kept, dropped)
         == Ok(Restored(kept + Unexpired(ls, now), dropped + (|ls| - |Unexpired(ls, now)|)))
    decreases n
  {
    hide ParseLease, LeaseBytes, ValidLease, Storable, LeasesBytes, RestoreLeases, Unexpired, StorableAll;
    if n == 0 {
      ls := [];
      RestoreNothing(s, profile, now, seen, kept, dropped);
    } else {
      RestoreFirst(s, n, profile, now, seen, kept, dropped);
      var p := ParseLease(s, profile, seen).value;
      var l := p.value;
      BytesOfParseLease(s, profile, seen);
      var others;
      if Expired(l, now) {
        others := BytesOfRestoreLeases(p.rest, n - 1, profile, now, seen + {l.id}, kept, dropped + 1);
      } else {
        others := BytesOfRestoreLeases(p.rest, n - 1, profile, now, seen + {l.id}, kept + [l], dropped);
        assert kept + [l] + Unexpired(others, now) == kept + ([l] + Unexpired(others, now));
      }
      ls := [l] + others;
      SurvivorsCons(l, others, now);
      assert ls[1..] == others;
      LeasesBytesCons(ls);
      StorableAllCons(l, others, profile, now);
    }
  }

  lemma RestoreNothing(s: seq<byte>, profile: Text, now: u64, seen: set<u64>, kept: seq<Lease>, dropped: nat)
    requires RestoreLeases(s, 0, profile, now, seen, kept, dropped).Ok?
    ensures s == LeasesBytes([]) && StorableAll([], profile, now)
    ensures RestoreLeases(s, 0, profile, now, seen, kept, dropped)
         == Ok(Restored(kept + Unexpired([], now), dropped + (0 - |Unexpired([], now)|)))
  {
    assert kept + Unexpired([], now) == kept;
  }

  /** What an accepted restore says of the first lease it read. */
  lemma RestoreFirst(s: seq<byte>, n: nat, profile: Text, now: u64, seen: set<u64>, kept: seq<Lease>, dropped: nat)
    requires n > 0 && RestoreLeases(s, n, profile, now, seen, kept, dropped).Ok?
    ensures ParseLease(s, profile, seen).Ok?
    ensures var p := ParseLease(s, profile, seen).value;
      && (p.value.grant.lifetime == OneHour ==> p.value.issuedAt <= now)
      && RestoreLeases(s, n, profile, now, seen, kept, dropped)
         == if Expired(p.value, now) then RestoreLeases(p.rest, n - 1, profile, now, seen + {p.value.id}, kept, dropped + 1)
            else RestoreLeases(p.rest, n - 1, profile, now, seen + {p.value.id}, kept + [p.value], dropped)
  {
    hide ParseLease, CanAdd, Expired;
  }

  lemma StorableAllCons(l: Lease, others: seq<Lease>, profile: Text, now: u64)
    requires Storable(l, profile) && (l.grant.lifetime == OneHour ==> l.issuedAt <= now)
    requires StorableAll(others, profile, now) && forall i | 0 <= i < |others| :: others[i].id != l.id
    ensures StorableAll([l] + others, profile, now)
  {
    hide Storable;
  }

  lemma UnexpiredOfOne(l: Lease, now: u64)
    ensures Unexpired([l], now) == if Expired(l, now) then [] else [l]
  {
    assert [l][..0] == [];
  }

  // The whole payload.

  lemma MagicBytes()
    ensures |Magic()| == 4
  {
  }

  lemma RestoreBodyOfBytes(ls: seq<Lease>, profile: Text, now: u64)
    requires ValidProfile(profile) && |ls| <= MAX_LEASES && StorableAll(ls, profile, now)
    ensures RestoreBody(StringU16(profile) + (LE(|ls|, 4) + LeasesBytes(ls)), profile, now) == Ok(Survivors(ls, now, 0))
  {
    hide *;
    var rest := LE(|ls|, 4) + LeasesBytes(ls);
    ValidProfileBound(profile);
    TakeStringOfStringU16(profile, rest, MAX_PROFILE_BYTES);
    assert rest[..4] == LE(|ls|, 4) && rest[4..] == LeasesBytes(ls);
    FourByteWord(|ls|);
    BodyStep(StringU16(profile) + rest, profile, now, rest, |ls|);
    RestoreLeasesOfBytes(ls, profile, now, {}, [], 0);
    assert [] + Unexpired(ls, now) == Unexpired(ls, now);
    SurvivorsOf(ls, now);
  }

  lemma SurvivorsOf(ls: seq<Lease>, now: u64)
    ensures Survivors(ls, now, 0) == Restored(Unexpired(ls, now), 0 + (|ls| - |Unexpired(ls, now)|))
  {
  }

  lemma FourByteWord(n: nat)
    requires n <= MAX_LEASES
    ensures FromLE(LE(n, 4)) == n
  {
    Pow256Values();
    FromLEOfLE(n, 4);
  }

  lemma BodyStep(s: seq<byte>, profile: Text, now: u64, rest: seq<byte>, n: nat)
    requires TakeString(s, MAX_PROFILE_BYTES) == Taken(profile, rest) && ValidProfile(profile)
    requires |rest| >= 4 && FromLE(rest[..4]) == n <= MAX_LEASES
    ensures RestoreBody(s, profile, now) == RestoreLeases(rest[4..], n, profile, now, {}, [], 0)
  {
    hide ValidProfile, TakeString, FromLE, RestoreLeases;
  }

  lemma ValidProfileBound(profile: Text)
    requires ValidProfile(profile)
    ensures |profile| <= MAX_PROFILE_BYTES < 0x1_0000
  {
  }

  lemma RestorePayloadOfBytes(ls: seq<Lease>, profile: Text, stored: u64, now: u64)
    requires ValidProfile(profile) && |ls| <= MAX_LEASES && StorableAll(ls, profile, now)
    ensures RestorePayload(PayloadBytes(ls, profile, stored), profile, now) == Ok(Survivors(ls, now, 0))
  {
    hide *;
    var body := StringU16(profile) + (LE(|ls|, 4) + LeasesBytes(ls));
    RestoreBodyOfBytes(ls, profile, now);
    PayloadParts(ls, profile, stored);
    HeaderRestores(PayloadBytes(ls, profile, stored), profile, now, stored, body);
  }

  lemma PayloadParts(ls: seq<Lease>, profile: Text, stored: u64)
    ensures PayloadBytes(ls, profile, stored)
         == Magic() + [1, 0, 0, 0] + LE(stored, 8) + (StringU16(profile) + (LE(|ls|, 4) + LeasesBytes(ls)))
  {
    hide LE, StringU16, LeasesBytes, Magic;
  }

  /** The fixed header is accepted and leaves the body. */
  lemma HeaderRestores(b: seq<byte>, profile: Text, now: u64, stored: u64, body: seq<byte>)
    requires b == Magic() + [1, 0, 0, 0] + LE(stored, 8) + body
    ensures RestorePayload(b, profile, now) == RestoreBody(body, profile, now)
  {
    hide LE, RestoreBody;
    MagicBytes();
    hide Magic;
    assert b[..4] == Magic() && b[4] == 1 && b[16..] == body;
    var r := b[5..];
    assert r[0] == 0 && r[1..][0] == 0 && r[1..][1..][0] == 0;
    assert ReservedIssue(r, 3) == ReservedIssue(r[1..], 2);
    assert ReservedIssue(r[1..], 2) == ReservedIssue(r[1..][1..], 1);
  }

  /** The time a snapshot carries. */
  function StoredTime(bytes: seq<byte>): u64
    requires |bytes| >= 16
  {
    Word(bytes[8..16])
  }

  lemma BytesOfRestorePayload(b: seq<byte>, profile: Text, now: u64) returns (ls: seq<Lease>)
    requires RestorePayload(b, profile, now).Ok?
    ensures |b| >= 16 && ValidProfile(profile)
    ensures |ls| <= MAX_LEASES && StorableAll(ls, profile, now) && b == PayloadBytes(ls, profile, StoredTime(b))
    ensures RestorePayload(b, profile, now) == Ok(Survivors(ls, now, 0))
  {
    HeaderOfRestored(b, profile, now);
    hide RestorePayload;
    ls := BytesOfRestoreBody(b[16..], profile, now);
    hide LE, StringU16, LeasesBytes, StorableAll, ValidProfile, Unexpired, RestoreBody, Magic, Word;
    WordBytes(b[8..16]);
    assert b == b[..16] + b[16..];
    JoinHeader(b, profile, LE(|ls|, 4), LeasesBytes(ls));
  }

  lemma JoinHeader(b: seq<byte>, profile: Text, count: seq<byte>, leases: seq<byte>)
    requires |b| >= 16 && b[..16] == Magic() + [1, 0, 0, 0] + b[8..16]
    requires b[16..] == StringU16(profile) + count + leases
    ensures b == Magic() + [1, 0, 0, 0] + b[8..16] + StringU16(profile) + count + leases
  {
    hide Magic, StringU16;
    assert b == b[..16] + b[16..];
  }

  lemma HeaderOfRestored(b: seq<byte>, profile: Text, now: u64)
    requires RestorePayload(b, profile, now).Ok?
    ensures |b| >= 16 && b[..16] == Magic() + [1, 0, 0, 0] + b[8..16]
    ensures RestorePayload(b, profile, now) == RestoreBody(b[16..], profile, now)
  {
    hide RestoreBody, Magic;
    ReservedZero(b[5..], 3);
    assert b[5] == b[5..][0] && b[6] == b[5..][1] && b[7] == b[5..][2];
    assert b[..16] == b[..4] + [b[4], b[5], b[6], b[7]] + b[8..16];
  }

  lemma BytesOfRestoreBody(s: seq<byte>, profile: Text, now: u64) returns (ls: seq<Lease>)
    requires RestoreBody(s, profile, now).Ok?
    ensures ValidProfile(profile) && |ls| <= MAX_LEASES && StorableAll(ls, profile, now)
    ensures s == StringU16(profile) + LE(|ls|, 4) + LeasesBytes(ls)
    ensures RestoreBody(s, profile, now) == Ok(Survivors(ls, now, 0))
  {
    hide StringU16, RestoreLeases, StorableAll, ValidProfile, TakeString, LE, FromLE, LeasesBytes, Unexpired;
    var t := TakeString(s, MAX_PROFILE_BYTES);
    StringU16OfTakeString(s, MAX_PROFILE_BYTES);
    var count := FromLE(t.rest[..4]);
    ls := BytesOfRestoreLeases(t.rest[4..], count, profile, now, {}, [], 0);
    LEOfFromLE(t.rest[..4]);
    assert [] + Unexpired(ls, now) == Unexpired(ls, now);
    assert t.rest == t.rest[..4] + t.rest[4..];
  }

  lemma {:induction false} ReservedZero(s: seq<byte>, n: nat)
    requires ReservedIssue(s, n).Ok?
    ensures |s| >= n && forall i | 0 <= i < n :: s[i] == 0
  {
    if n > 0 {
      ReservedZero(s[1..], n - 1);
      assert forall i | 1 <= i < n :: s[i] == s[1..][i - 1];
    }
  }

  // Sealing.

  lemma SealIsSealed(payload: seq<byte>)
    ensures |Seal(payload)| == |payload| + 4 && Crc32.Sealed(Seal(payload)) && Seal(payload)[..|payload|] == payload
  {
    hide Crc32.Checksum, Crc32.Value;
    var sum := Crc32.Value(Crc32.Checksum(payload));
    Pow256Values();
    FromLEOfLE(sum, 4);
    assert Seal(payload)[..|payload|] == payload && Seal(payload)[|payload|..] == LE(sum, 4);
  }

  lemma SealedIsSeal(bytes: seq<byte>)
    requires Crc32.Sealed(bytes)
    ensures bytes == Seal(bytes[..|bytes| - 4])
  {
    hide Crc32.Checksum, Crc32.Value;
    LEOfFromLE(bytes[|bytes| - 4..]);
    assert bytes == bytes[..|bytes| - 4] + bytes[|bytes| - 4..];
  }

  lemma PayloadSize(ls: seq<Lease>, profile: Text, now: u64)
    requires ValidProfile(profile)
    ensures |PayloadBytes(ls, profile, now)| >= MINIMUM_SNAPSHOT_BYTES - 3
  {
    MagicBytes();
  }

  // The main results.

  /** Round trip: whatever encoding accepts, restoring at the same or a later time gives back exactly the
      durable leases, in order and field for field, less those expired by then, and counts those. */
  lemma SnapshotRoundTrip(ls: seq<Lease>, profile: Text, now: u64, later: u64)
    requires DistinctIds(ls) && now <= later && Encoded(ls, profile, now).Ok?
    ensures RestoredFrom(Encoded(ls, profile, now).value, profile, later)
         == Ok(Survivors(Durable(ls, profile, now), later, 0))
  {
    var d := Durable(ls, profile, now);
    EncodingAccepted(ls, profile, now);
    CollectedFacts(ls, profile, now);
    DurableDistinct(ls, profile, now);
    var payload := PayloadBytes(d, profile, now);
    var bytes := Encoded(ls, profile, now).value;
    assert bytes == Seal(payload);
    SealIsSealed(payload);
    PayloadSize(d, profile, now);
    hide Storable, PayloadBytes, ValidLease, Crc32.Sealed, RestorePayload;
    assert StorableAll(d, profile, later);
    RestorePayloadOfBytes(d, profile, now, later);
  }

  lemma {:induction false} DurableDistinct(ls: seq<Lease>, profile: Text, now: u64)
    requires DistinctIds(ls)
    ensures DistinctIds(Durable(ls, profile, now))
    ensures forall i | 0 <= i < |Durable(ls, profile, now)| :: exists j | 0 <= j < |ls| :: Durable(ls, profile, now)[i] == ls[j]
  {
    hide DurableCandidate;
    if ls != [] {
      var front := ls[..|ls| - 1];
      DurableDistinct(front, profile, now);
      forall i | 0 <= i < |Durable(front, profile, now)|
        ensures Durable(front, profile, now)[i].id != ls[|ls| - 1].id
        ensures exists j | 0 <= j < |ls| :: Durable(front, profile, now)[i] == ls[j]
      {
        var j :| 0 <= j < |front| && Durable(front, profile, now)[i] == front[j];
        assert ls[j] == front[j];
      }
    }
  }

  /** The round trip holds for every ledger that a run of the browser can produce. */
  lemma ReachableRoundTrip(calls: seq<LedgerCall>, profile: Text, now: u64, later: u64)
    requires now <= later && Encoded(LedgerRun(calls), profile, now).Ok?
    ensures RestoredFrom(Encoded(LedgerRun(calls), profile, now).value, profile, later)
         == Ok(Survivors(Durable(LedgerRun(calls), profile, now), later, 0))
  {
    ReachableInvariant(calls);
    SnapshotRoundTrip(LedgerRun(calls), profile, now, later);
  }

  /** Canonicity: an accepted snapshot from which nothing was dropped, and whose own time lies in the window
      of each of its one-hour leases, is byte for byte what encoding the restored ledger at that time gives. */
  lemma SnapshotCanonical(bytes: seq<byte>, profile: Text, now: u64)
    requires RestoredFrom(bytes, profile, now).Ok?
    requires RestoredFrom(bytes, profile, now).value.dropped == 0
    requires var kept := RestoredFrom(bytes, profile, now).value.leases;
             forall i | 0 <= i < |kept| && kept[i].grant.lifetime == OneHour ::
               kept[i].issuedAt <= StoredTime(bytes) < kept[i].expiresAt
    ensures Encoded(RestoredFrom(bytes, profile, now).value.leases, profile, StoredTime(bytes)) == Ok(bytes)
  {
    hide RestoredFrom, Encoded, StoredTime, PayloadBytes, Seal, Storable, DistinctIds, Durable, Unexpired, ValidProfile;
    var ls := AcceptedBytes(bytes, profile, now);
    var t := StoredTime(bytes);
    UnexpiredAll(ls, now);
    StorableAreDurable(ls, profile, t);
    EncodedStorable(ls, profile, t);
  }

  /** An accepted snapshot is the sealed payload of leases that can be stored, at the time it gives. */
  lemma AcceptedBytes(bytes: seq<byte>, profile: Text, now: u64) returns (ls: seq<Lease>)
    requires RestoredFrom(bytes, profile, now).Ok?
    ensures |bytes| >= 16 && ValidProfile(profile) && |ls| <= MAX_LEASES && StorableAll(ls, profile, now)
    ensures |PayloadBytes(ls, profile, StoredTime(bytes))| + 4 <= MAX_SNAPSHOT_BYTES && bytes == Seal(PayloadBytes(ls, profile, StoredTime(bytes)))
    ensures RestoredFrom(bytes, profile, now) == Ok(Survivors(ls, now, 0))
  {
    hide RestorePayload, PayloadBytes, Crc32.Checksum, StorableAll, Unexpired, ValidProfile;
    var payload := bytes[..|bytes| - 4];
    ls := BytesOfRestorePayload(payload, profile, now);
    SealedIsSeal(bytes);
    assert payload[8..16] == bytes[8..16];
  }

  /** What encoding gives for leases that are all stored. */
  lemma EncodedStorable(ls: seq<Lease>, profile: Text, t: u64)
    requires ValidProfile(profile) && |ls| <= MAX_LEASES && |PayloadBytes(ls, profile, t)| + 4 <= MAX_SNAPSHOT_BYTES
    requires Durable(ls, profile, t) == ls
    requires forall i | 0 <= i < |ls| :: Storable(ls[i], profile) && (ls[i].grant.lifetime == OneHour ==> ls[i].issuedAt <= t)
    ensures Encoded(ls, profile, t) == Ok(Seal(PayloadBytes(ls, profile, t)))
  {
    hide Collect, Durable, Storable, PayloadBytes, Seal, ValidProfile;
    EncodingAccepted(ls, profile, t);
    CollectedFacts(ls, profile, t);
    WebsitesOfStorable(ls, profile);
  }

  lemma WebsitesOfStorable(ls: seq<Lease>, profile: Text)
    requires forall i | 0 <= i < |ls| :: Storable(ls[i], profile)
    ensures WebsitesStorable(ls)
  {
  }

  lemma {:induction false} UnexpiredAll(ls: seq<Lease>, now: u64)
    requires |Unexpired(ls, now)| == |ls|
    ensures Unexpired(ls, now) == ls
  {
    if ls != [] {
      UnexpiredFacts(ls[..|ls| - 1], now);
      UnexpiredAll(ls[..|ls| - 1], now);
    }
  }

  lemma {:induction false} StorableAreDurable(ls: seq<Lease>, profile: Text, now: u64)
    requires forall i | 0 <= i < |ls| :: Storable(ls[i], profile) && (ls[i].grant.lifetime == OneHour ==> now < ls[i].expiresAt)
    ensures Durable(ls, profile, now) == ls
  {
    if ls != [] {
      StorableAreDurable(ls[..|ls| - 1], profile, now);
      ValidLeaseFields(ls[|ls| - 1]);
    }
  }

  /** Restoring later only drops leases that have expired since. */
  lemma RestoreLater(bytes: seq<byte>, profile: Text, now: u64, later: u64)
    requires now <= later && RestoredFrom(bytes, profile, now).Ok?
    ensures RestoredFrom(bytes, profile, later)
         == Ok(Survivors(RestoredFrom(bytes, profile, now).value.leases, later, RestoredFrom(bytes, profile, now).value.dropped))
  {
    hide RestorePayload, PayloadBytes, Storable, Unexpired, Crc32.Sealed, StoredTime, DistinctIds;
    var payload := bytes[..|bytes| - 4];
    var ls := BytesOfRestorePayload(payload, profile, now);
    assert StorableAll(ls, profile, later);
    RestorePayloadOfBytes(ls, profile, StoredTime(payload), later);
    UnexpiredTwice(ls, now, later);
  }

  /** The calls that add these leases one by one. */
  ghost function Adds(ls: seq<Lease>): seq<LedgerCall> {
    seq(|ls|, i requires 0 <= i < |ls| => CallAdd(ls[i]))
  }

  lemma {:induction false} AddedOneByOne(ls: seq<Lease>)
    requires DistinctIds(ls) && forall i | 0 <= i < |ls| :: ValidLease(ls[i])
    ensures LedgerRun(Adds(ls)) == ls
  {
    hide ValidLease;
    if ls != [] {
      var front := ls[..|ls| - 1];
      AddedOneByOne(front);
      assert Adds(ls)[..|ls| - 1] == Adds(front);
      assert CanAdd(front, ls[|ls| - 1]);
    }
  }

  /** A restored ledger is one that a run of calls from the empty ledger gives, which adds its leases in their order;
      so what holds over all runs holds of it. It holds only live, durable leases of the profile. */
  lemma RestoredLedgerIsSound(bytes: seq<byte>, profile: Text, now: u64)
    requires RestoredFrom(bytes, profile, now).Ok?
    ensures var kept := RestoredFrom(bytes, profile, now).value.leases;
            && LedgerInvariant(kept)
            && LedgerRun(Adds(kept)) == kept
            && forall i | 0 <= i < |kept| :: DurableCandidate(kept[i], profile, now)
  {
    var ls := BytesOfRestorePayload(bytes[..|bytes| - 4], profile, now);
    var kept := Unexpired(ls, now);
    UnexpiredFacts(ls, now);
    UnexpiredDistinct(ls, now);
    forall i | 0 <= i < |kept|
      ensures Storable(kept[i], profile) && ValidLease(kept[i]) && kept[i].grant.active && !kept[i].revoked
    {
      var j :| 0 <= j < |ls| && ls[j] == kept[i];
      ValidLeaseFields(ls[j]);
    }
    AddedOneByOne(kept);
  }

  lemma {:induction false} UnexpiredDistinct(ls: seq<Lease>, now: u64)
    requires DistinctIds(ls)
    ensures DistinctIds(Unexpired(ls, now))
  {
    hide Expired;
    if ls != [] {
      var front := ls[..|ls| - 1];
      UnexpiredDistinct(front, now);
      UnexpiredFacts(front, now);
      forall i | 0 <= i < |Unexpired(front, now)|
        ensures Unexpired(front, now)[i].id != ls[|ls| - 1].id
      {
        var j :| 0 <= j < |front| && front[j] == Unexpired(front, now)[i];
        assert ls[j] == front[j];
      }
    }
  }

  /** Damage confined to at most four consecutive bytes of an accepted snapshot, the checksum included, is
      always reported as a checksum mismatch. One changed byte is the special case of a window of one. */
  lemma DamageIsDetected(
    front: seq<byte>, u: seq<byte>, v: seq<byte>, back: seq<byte>, profile: Text, now: u64, profile': Text, now': u64)
    requires |u| == |v| <= 4 && u != v
    requires RestoredFrom(front + u + back, profile, now).Ok? && ValidProfile(profile')
    ensures RestoredFrom(front + v + back, profile', now') == Err(ChecksumMismatch)
  {
    hide RestorePayload, ValidProfile, Crc32.Sealed;
    Crc32.BurstBreaksSeal(front, u, v, back);
  }
}
