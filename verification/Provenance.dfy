/** Where the bytes of a staged file came from, over every run with a client that delivers right bytes: what an
    activation fetches is there, and what it found and counted as done is as it found it. */
module Provenance {
  import opened Bytes
  import opened Wrappers
  import opened DownloadPlan
  import opened DownloadCheckpoint
  import opened StagedPaths
  import opened HttpTransport
  import opened TransferScheduler
  import opened SchedulerInvariants

  function VersionOf(p: Plan): Version {
    Version(p.url, p.metadata.etag, p.metadata.lastModified)
  }

  function Source(o: Origin, p: Plan): seq<byte> {
    o(VersionOf(p))
  }

  /** The client tells the true length, and streams bytes of the requested range of the requested version. */
  ghost predicate HonestClient(c: Client, o: Origin) {
    && (forall n: nat, url: Text, referrer: Text ::
          var m := Inspected(c.inspect(n, url, referrer));
          m.Some? ==> m.value.total == |o(Version(url, m.value.etag, m.value.lastModified))|)
    && (forall n: nat, r: TransportRequest :: HonestStream(o(VersionAsked(r)), r, c.stream(n, r)))
  }

  /** Every byte a plan counts as done was fetched into this file, from the plan's version. */
  ghost predicate Backed(p: Plan, file: seq<Cell>) {
    forall i | 0 <= i < |p.segments| ::
      FromOver(VersionOf(p), file, p.segments[i].begin, p.segments[i].begin as int + p.segments[i].done as int)
  }

  /** A byte that nobody wrote: it is as it was, or a zero in a gap. */
  ghost predicate UntouchedAt(found: seq<Cell>, file: seq<Cell>, x: nat) {
    && (x < |found| ==> x < |file| && file[x] == found[x])
    && (|found| <= x < |file| ==> file[x] == Cell(0, None))
  }

  ghost predicate Untouched(found: seq<Cell>, file: seq<Cell>, lo: nat, hi: nat) {
    forall x | lo <= x < hi :: UntouchedAt(found, file, x)
  }

  /** One segment from its activation on: what it has done since was fetched, what it counted as done then is untouched. */
  ghost predicate SegmentTraced(v: Version, b: Segment, found: seq<Cell>, s: Segment, file: seq<Cell>) {
    && s.begin == b.begin && s.end == b.end && b.done <= s.done
    && FromOver(v, file, s.begin as int + b.done as int, s.begin as int + s.done as int)
    && Untouched(found, file, s.begin, s.begin as int + b.done as int)
  }

  /** The same download of the same version. */
  ghost predicate SameHead(p: Plan, q: Plan) {
    p.id == q.id && p.url == q.url && p.referrer == q.referrer && p.metadata == q.metadata && |p.segments| == |q.segments|
  }

  ghost predicate Traced(begun: Plan, found: seq<Cell>, p: Plan, file: seq<Cell>) {
    && SameHead(begun, p)
    && forall i | 0 <= i < |p.segments| :: SegmentTraced(VersionOf(p), begun.segments[i], found, p.segments[i], file)
  }

  ghost predicate Sized(o: Origin, p: Plan) {
    |Source(o, p)| == p.metadata.total
  }

  /** Every id is one of the queue's numbers. */
  ghost predicate NumberedCalls(calls: seq<Call>) {
    forall call | call in calls :: CallNumbered(call)
  }

  predicate CallNumbered(call: Call) {
    match call
    case Enqueue(r) => Numbered(r.id)
    case Prepare(r) => Numbered(r.id)
    case Restart(r) => Numbered(r.id)
    case Cancel(id, _) => Numbered(id)
    case _ => true
  }

  /** What the user asked for. */
  ghost function Records(calls: seq<Call>): set<Record> {
    set call | call in calls && (call.Enqueue? || call.Restart?) :: call.record
  }

  ghost predicate AskedFor(rs: set<Record>, p: Plan) {
    exists r | r in rs :: r.id == p.id && r.url == p.url && r.referrer == p.referrer
  }

  /** The server answered an inspection of the plan's URL with the plan's length and validators. */
  ghost predicate Answered(c: Client, p: Plan) {
    exists n: nat :: Inspected(c.inspect(n, p.url, p.referrer)) == Some(p.metadata)
  }

  /** An activation in the log is of a download asked for, as its server described it. */
  ghost predicate Begins(c: Client, o: Origin, rs: set<Record>, log: seq<Event>, k: nat) {
    k < |log| && log[k].Activated? && Sized(o, log[k].plan) && AskedFor(rs, log[k].plan) && Answered(c, log[k].plan)
  }

  /** A basis is what the activation began with, unless a commit took the file. */
  ghost predicate Rooted(log: seq<Event>, taken: set<Text>, since: nat, id: Text, basis: Basis) {
    id in taken || (since < |log| && log[since].Activated? && basis == Basis(log[since].plan, log[since].found))
  }

  ghost predicate EventTraced(c: Client, o: Origin, rs: set<Record>, log: seq<Event>, taken: set<Text>, k: nat)
    requires k < |log|
  {
    && (log[k].Activated? ==> Begins(c, o, rs, log, k))
    && (log[k].Complete? ==>
          && log[k].since < k && Begins(c, o, rs, log, log[k].since) && SameHead(log[log[k].since].plan, log[k].plan)
          && Traced(log[k].basis.plan, log[k].basis.found, log[k].plan, log[k].staged)
          && Rooted(log, taken, log[k].since, log[k].plan.id, log[k].basis)
          && Underway(log[k].plan) && AllFinished(log[k].plan.segments) && Rendered(o, log[k].staged))
  }

  ghost predicate ActiveTraced(c: Client, o: Origin, rs: set<Record>, e: Engine, a: Active) {
    && a.record in rs && Begins(c, o, rs, e.log, a.since) && SameHead(e.log[a.since].plan, a.plan)
    && a.record.id in e.bases && Rooted(e.log, e.taken, a.since, a.record.id, e.bases[a.record.id])
    && Traced(e.bases[a.record.id].plan, e.bases[a.record.id].found, a.plan, StagedFile(e, a.record.id))
  }

  ghost predicate FilesRendered(e: Engine, o: Origin) {
    forall path | path in e.files :: Rendered(o, e.files[path])
  }

  ghost predicate LogTraced(c: Client, o: Origin, rs: set<Record>, e: Engine) {
    forall k | 0 <= k < |e.log| :: EventTraced(c, o, rs, e.log, e.taken, k)
  }

  ghost predicate AllNumbered(rs: set<Record>) {
    forall r | r in rs :: Numbered(r.id)
  }

  ghost predicate BytesTracked(c: Client, o: Origin, rs: set<Record>, e: Engine) {
    && AllNumbered(rs) && FilesRendered(e, o) && LogTraced(c, o, rs, e)
    && (forall r | r in e.pending :: r in rs)
    && (forall i | 0 <= i < |e.active| :: ActiveTraced(c, o, rs, e, e.active[i]))
  }

  /** So what an activation ends with is backed exactly when what it began with was. */
  lemma TracedBacked(begun: Plan, found: seq<Cell>, p: Plan, file: seq<Cell>)
    requires Traced(begun, found, p, file)
    ensures Backed(begun, found) <==> Backed(p, file)
  {
    forall i | 0 <= i < |p.segments|
      ensures SegmentTraced(VersionOf(p), begun.segments[i], found, p.segments[i], file)
      ensures var b, s, v := begun.segments[i], p.segments[i], VersionOf(p);
        FromOver(v, found, b.begin, b.begin as int + b.done as int) <==> FromOver(v, file, s.begin, s.begin as int + s.done as int)
    {
      OneSegmentBacked(VersionOf(p), begun.segments[i], found, p.segments[i], file);
    }
    hide SegmentTraced, FromOver;
  }

  lemma OneSegmentBacked(v: Version, b: Segment, found: seq<Cell>, s: Segment, file: seq<Cell>)
    requires SegmentTraced(v, b, found, s, file)
    ensures FromOver(v, found, b.begin, b.begin as int + b.done as int) <==> FromOver(v, file, s.begin, s.begin as int + s.done as int)
  {
    if FromOver(v, found, b.begin, b.begin as int + b.done as int) {
      forall x | s.begin as int <= x < s.begin as int + s.done as int
        ensures FromAt(v, file, x)
      {
        if x < b.begin as int + b.done as int {
          assert FromAt(v, found, x) && UntouchedAt(found, file, x);
        }
      }
    }
    if FromOver(v, file, s.begin, s.begin as int + s.done as int) {
      forall x | b.begin as int <= x < b.begin as int + b.done as int
        ensures FromAt(v, found, x)
      {
        assert FromAt(v, file, x) && UntouchedAt(found, file, x);
      }
    }
  }

  lemma TracedSelf(p: Plan, file: seq<Cell>)
    ensures Traced(p, file, p, file)
  {
  }

  // A longer log.

  lemma BeginsLater(c: Client, o: Origin, rs: set<Record>, log: seq<Event>, longer: seq<Event>, k: nat)
    requires Begins(c, o, rs, log, k) && log <= longer
    ensures Begins(c, o, rs, longer, k) && longer[k] == log[k]
  {
    hide Sized, AskedFor, Answered;
  }

  /** The log may grow by events that neither begin nor complete anything. */
  ghost predicate Quietly(log: seq<Event>, longer: seq<Event>) {
    log <= longer && forall k | |log| <= k < |longer| :: !longer[k].Activated? && !longer[k].Complete?
  }

  lemma OneLater(c: Client, o: Origin, rs: set<Record>, log: seq<Event>, longer: seq<Event>, taken: set<Text>, more: set<Text>, k: nat)
    requires k < |log| && EventTraced(c, o, rs, log, taken, k) && log <= longer && taken <= more
    ensures EventTraced(c, o, rs, longer, more, k)
  {
    hide Begins, Traced, Underway, Rendered;
    assert longer[k] == log[k];
    if log[k].Activated? {
      BeginsLater(c, o, rs, log, longer, k);
    }
    if log[k].Complete? {
      BeginsLater(c, o, rs, log, longer, log[k].since);
    }
  }

  lemma LogLater(c: Client, o: Origin, rs: set<Record>, e: Engine, f: Engine)
    requires LogTraced(c, o, rs, e) && Quietly(e.log, f.log) && e.taken <= f.taken
    ensures LogTraced(c, o, rs, f)
  {
    hide EventTraced;
    forall k | 0 <= k < |f.log|
      ensures EventTraced(c, o, rs, f.log, f.taken, k)
    {
      if k < |e.log| {
        OneLater(c, o, rs, e.log, f.log, e.taken, f.taken, k);
      } else {
        QuietEvent(c, o, rs, f.log, f.taken, k);
      }
    }
  }

  lemma QuietEvent(c: Client, o: Origin, rs: set<Record>, log: seq<Event>, taken: set<Text>, k: nat)
    requires k < |log| && !log[k].Activated? && !log[k].Complete?
    ensures EventTraced(c, o, rs, log, taken, k)
  {
  }

  /** Nothing happened to the file of this download. */
  predicate Untroubled(e: Engine, f: Engine, id: Text) {
    StagedFile(f, id) == StagedFile(e, id) && id in e.bases && id in f.bases && f.bases[id] == e.bases[id]
  }

  lemma ActiveLater(c: Client, o: Origin, rs: set<Record>, e: Engine, f: Engine, a: Active)
    requires ActiveTraced(c, o, rs, e, a) && e.log <= f.log && e.taken <= f.taken && Untroubled(e, f, a.record.id)
    ensures ActiveTraced(c, o, rs, f, a)
  {
    hide Begins, Traced, StagedFile;
    BeginsLater(c, o, rs, e.log, f.log, a.since);
    BeginsHere(c, o, rs, e.log, a.since);
  }

  lemma BeginsHere(c: Client, o: Origin, rs: set<Record>, log: seq<Event>, k: nat)
    requires Begins(c, o, rs, log, k)
    ensures k < |log| && log[k].Activated?
  {
  }

  lemma TracedBase(c: Client, o: Origin, rs: set<Record>, e: Engine, a: Active)
    requires ActiveTraced(c, o, rs, e, a)
    ensures a.record.id in e.bases && a.record in rs
  {
    hide Begins, Traced, StagedFile;
  }

  // Activation.

  lemma StartTracks(c: Client, o: Origin, rs: set<Record>, e: Engine, r: Record, m: Metadata, n: nat)
    requires HonestClient(c, o) && Sound(e) && BytesTracked(c, o, rs, e)
    requires r in rs && !IsActive(e, r.id) && r.id != [] && Inspected(c.inspect(n, r.url, r.referrer)) == Some(m)
    ensures BytesTracked(c, o, rs, Started(e, r, m))
  {
    hide Sound, RestoredPlan, NewPlan, Kept, Saved, StagedFile, Traced, Begins, EventTraced, HonestStream, Inspected, FilesRendered, AllNumbered, HomeOf;
    var f, begun := Started(e, r, m), RestoredPlan(e.checkpoints, NewPlan(r, m, MAX_SEGMENTS));
    RestoredHead(e, r, m);
    StagedKept(e, f);
    assert f.log[|e.log|] == Activated(begun, StagedFile(e, r.id), Kept(e, NewPlan(r, m, MAX_SEGMENTS)));
    BeginsNow(c, o, rs, f.log, |e.log|, r, m, n);
    TracedSelf(begun, StagedFile(e, r.id));
    forall k | 0 <= k < |f.log|
      ensures EventTraced(c, o, rs, f.log, f.taken, k)
    {
      if k < |e.log| {
        OneLater(c, o, rs, e.log, f.log, e.taken, f.taken, k);
      } else if k == |e.log| {
        BegunEvent(c, o, rs, f.log, f.taken, k);
      } else {
        QuietEvent(c, o, rs, f.log, f.taken, k);
      }
    }
    forall i | 0 <= i < |f.active|
      ensures ActiveTraced(c, o, rs, f, f.active[i])
    {
      if i < |e.active| {
        TracedBase(c, o, rs, e, e.active[i]);
        ActiveLater(c, o, rs, e, f, e.active[i]);
      }
    }
    SameFilesRendered(e, f, o);
  }

  lemma SameFilesRendered(e: Engine, f: Engine, o: Origin)
    requires FilesRendered(e, o) && f.files == e.files
    ensures FilesRendered(f, o)
  {
    hide Rendered;
  }

  lemma StagedKept(e: Engine, f: Engine)
    requires f.files == e.files && f.names == e.names
    ensures forall id :: StagedFile(f, id) == StagedFile(e, id) && HomeOf(f, id) == HomeOf(e, id)
  {
  }

  lemma BegunEvent(c: Client, o: Origin, rs: set<Record>, log: seq<Event>, taken: set<Text>, k: nat)
    requires Begins(c, o, rs, log, k)
    ensures EventTraced(c, o, rs, log, taken, k)
  {
    hide Sized, AskedFor, Answered;
  }

  lemma RestoredHead(e: Engine, r: Record, m: Metadata)
    ensures var p := RestoredPlan(e.checkpoints, NewPlan(r, m, MAX_SEGMENTS));
      p.id == r.id && p.url == r.url && p.referrer == r.referrer && p.metadata == m
  {
  }

  lemma BeginsNow(c: Client, o: Origin, rs: set<Record>, log: seq<Event>, k: nat, r: Record, m: Metadata, n: nat)
    requires HonestClient(c, o) && r in rs && Inspected(c.inspect(n, r.url, r.referrer)) == Some(m)
    requires k < |log| && log[k].Activated?
    requires var p := log[k].plan; p.id == r.id && p.url == r.url && p.referrer == r.referrer && p.metadata == m
    ensures Begins(c, o, rs, log, k)
  {
    hide HonestStream, Inspected;
    assert Inspected(c.inspect(n, log[k].plan.url, log[k].plan.referrer)) == Some(log[k].plan.metadata);
  }

  /** The log grew quietly, and only the queue changed besides. */
  lemma QueueTracks(c: Client, o: Origin, rs: set<Record>, e: Engine, f: Engine)
    requires BytesTracked(c, o, rs, e) && Quietly(e.log, f.log) && f.active == e.active && f.files == e.files && f.names == e.names
    requires f.bases == e.bases && f.taken == e.taken
    requires forall r | r in f.pending :: r in rs
    ensures BytesTracked(c, o, rs, f)
  {
    hide EventTraced, ActiveTraced, Rendered, LogTraced, StagedFile, HomeOf, AllNumbered;
    LogLater(c, o, rs, e, f);
    StagedKept(e, f);
    forall i | 0 <= i < |f.active|
      ensures ActiveTraced(c, o, rs, f, f.active[i])
    {
      TracedBase(c, o, rs, e, e.active[i]);
      ActiveLater(c, o, rs, e, f, e.active[i]);
    }
  }

  lemma ActivateOneTracks(c: Client, o: Origin, rs: set<Record>, e: Engine)
    requires HonestClient(c, o) && Sound(e) && BytesTracked(c, o, rs, e) && e.pending != []
    ensures BytesTracked(c, o, rs, ActivateOne(c, e))
  {
    hide Started, NewPlan, Sound, HonestClient, Inspected, FilesRendered, LogTraced, ActiveTraced;
    var r, rest := e.pending[0], e.(pending := e.pending[1..]);
    var m := Inspected(c.inspect(e.calls, r.url, r.referrer));
    var asked := rest.(calls := e.calls + 1, log := e.log + [Described(r, m)]);
    FrontTaken(e);
    SoundFrame(rest, asked);
    assert r in e.pending && forall x | x in e.pending[1..] :: x in e.pending;
    QueueTracks(c, o, rs, e, asked);
    var f := ActivateOne(c, e);
    if r.id !in e.cancelled && r.id !in e.paused && m.Some? && NewPlan(r, m.value, MAX_SEGMENTS).segments != [] {
      StartTracks(c, o, rs, asked, r, m.value, e.calls);
    } else {
      QueueTracks(c, o, rs, e, f);
    }
  }

  lemma {:induction false} ActivationTracks(c: Client, o: Origin, rs: set<Record>, e: Engine, scans: nat)
    requires HonestClient(c, o) && Sound(e) && BytesTracked(c, o, rs, e)
    ensures BytesTracked(c, o, rs, ActivateUpTo(c, e, scans))
    decreases scans
  {
    hide HonestClient, Sound, BytesTracked, ActivateOne;
    if |e.active| < MAX_ACTIVE && e.pending != [] && scans > 0 {
      ActivateOneTracks(c, o, rs, e);
      ActivateOneKeeps(c, e);
      ActivationTracks(c, o, rs, ActivateOne(c, e), scans - 1);
    }
  }

  // One transfer.

  /** The credit of an honest reply is exactly the bytes that arrived. */
  lemma CreditIsExact(s: Segment, r: TransferResult)
    requires s.done as int + r.transferred as int <= Size(s) && (r.completed ==> s.done as int + r.transferred as int == Size(s))
    ensures AfterTransfer(s, r).done as int == s.done as int + r.transferred as int
    ensures AfterTransfer(s, r).begin == s.begin && AfterTransfer(s, r).end == s.end
  {
  }

  /** Without a staged file nothing is written, and an honest reply then claims nothing. */
  lemma RefusedIsNothing(origin: seq<byte>, r: TransportRequest, s: Stream)
    requires HonestStream(origin, r, s) && r.begin as int + r.resume as int < r.end as int + 1 <= |origin|
    ensures ResultOf(false, s).transferred == 0 && !ResultOf(false, s).completed
  {
    assert s.chunks == [] ==> Flatten(s.chunks) == [];
  }

  lemma SegmentInside(p: Plan, k: nat)
    requires Underway(p) && k < |p.segments|
    ensures p.segments[k].begin <= p.segments[k].end < p.metadata.total
    ensures Size(p.segments[k]) == p.segments[k].end - p.segments[k].begin + 1
    ensures p.segments[k].done <= Size(p.segments[k]) && (p.segments[k].finished <==> p.segments[k].done == Size(p.segments[k]))
  {
    TilesEnd(p.segments, p.metadata.total, k);
    assert SegmentProgress(p.segments[k]);
  }

  /** What one honest transfer of a segment does to its staged file. */
  ghost predicate Fetches(o: Origin, v: Version, s: Segment, n: nat, before: seq<Cell>, after: seq<Cell>) {
    var lo, hi := s.begin as int + s.done as int, s.end as int + 1;
    && lo + n <= hi
    && FromOver(v, after, lo, lo + n)
    && (forall x | FromAt(v, before, x) :: FromAt(v, after, x))
    && (forall x | 0 <= x < |after| && !(lo <= x < hi) :: after[x] == if x < |before| then before[x] else Cell(0, None))
    && |before| <= |after| && (|after| <= |before| || |after| <= |o(v)|)
    && (Rendered(o, before) ==> Rendered(o, after))
  }

  lemma TransferFetches(c: Client, o: Origin, e: Engine, i: nat, k: nat)
    requires HonestClient(c, o) && i < |e.active| && ActiveSound(e.active[i]) && Sized(o, e.active[i].plan)
    requires k < |e.active[i].plan.segments| && !e.active[i].plan.segments[k].finished
    ensures var a := e.active[i];
      var s, after := a.plan.segments[k], AfterTransfer(a.plan.segments[k], ResultAt(c, e, i, k));
      && s.done <= after.done && after.begin == s.begin && after.end == s.end
      && Fetches(o, VersionOf(a.plan), s, after.done as int - s.done as int,
                 StagedFile(e, a.record.id), StagedFile(AfterStreaming(c, e, i, k), a.record.id))
  {
    hide Delivered, AfterTransfer, ResultOf, HonestStream, Budget, Tiles, SameLayout, Inspected, Rendered;
    var a := e.active[i];
    var s, request := a.plan.segments[k], RequestOf(a, k);
    var reply := c.stream(e.calls, request);
    SegmentInside(a.plan, k);
    if Writable(e.files, e.names, a.record.id) {
      HonestDelivery(o, e.files[HomeOf(e, a.record.id)], request, reply);
    } else {
      RefusedIsNothing(Source(o, a.plan), request, reply);
    }
    CreditIsExact(s, ResultAt(c, e, i, k));
  }

  lemma OtherFiles(c: Client, e: Engine, i: nat, k: nat, path: Path)
    requires i < |e.active| && k < |e.active[i].plan.segments| && path != HomeOf(e, e.active[i].record.id)
    ensures FileAt(AfterStreaming(c, e, i, k), path) == FileAt(e, path)
    ensures path in AfterStreaming(c, e, i, k).files <==> path in e.files
  {
    hide Delivered;
  }

  /** The segments of a tiling do not touch each other's bytes. */
  lemma SegmentApart(v: Version, o: Origin, p: Plan, b: Segment, found: seq<Cell>, k: nat, n: nat, before: seq<Cell>, after: seq<Cell>, i: nat)
    requires Underway(p) && k < |p.segments| && i < |p.segments| && p.segments[k].done as int + n < U64_LIMIT
    requires SegmentTraced(v, b, found, p.segments[i], before) && Fetches(o, v, p.segments[k], n, before, after)
    ensures SegmentTraced(v, b, found, if i == k then p.segments[k].(done := p.segments[k].done + n) else p.segments[i], after)
  {
    hide SegmentTraced, Fetches, SameLayout, Layout;
    var s, t := p.segments[i], p.segments[k];
    SegmentInside(p, i);
    SegmentInside(p, k);
    if i < k {
      TilesOrdered(p.segments, p.metadata.total, i, k);
    } else if k < i {
      TilesOrdered(p.segments, p.metadata.total, k, i);
    }
    SegmentMoves(o, v, b, found, s, t, n, before, after, i == k);
  }

  lemma SegmentMoves(o: Origin, v: Version, b: Segment, found: seq<Cell>, s: Segment, t: Segment, n: nat, before: seq<Cell>, after: seq<Cell>, same: bool)
    requires SegmentTraced(v, b, found, s, before) && Fetches(o, v, t, n, before, after)
    requires s.begin as int + s.done as int <= s.end as int + 1 && t.begin as int + t.done as int <= t.end as int + 1 && t.done as int + n < U64_LIMIT
    requires if same then s == t else s.end < t.begin || t.end < s.begin
    ensures SegmentTraced(v, b, found, if same then s.(done := s.done + n) else s, after)
  {
    hide Rendered;
    var lo, hi := t.begin as int + t.done as int, t.end as int + 1;
    var start := s.begin as int + b.done as int;
    forall x | start <= x < s.begin as int + s.done as int + (if same then n else 0)
      ensures FromAt(v, after, x)
    {
      if x < s.begin as int + s.done as int {
        assert FromAt(v, before, x);
      } else {
        assert lo <= x < lo + n;
      }
    }
    assert Untouched(found, after, s.begin, start) by {
      forall x: nat | s.begin as int <= x < start
        ensures UntouchedAt(found, after, x)
      {
        assert !(lo <= x < hi);
        assert UntouchedAt(found, before, x);
      }
    }
  }

  lemma ResultShape(a: Active, k: nat, r: TransferResult)
    requires k < |a.plan.segments|
    ensures var after := AfterResult(a, k, r);
      && after.record == a.record && after.since == a.since && SameHead(a.plan, after.plan)
      && after.plan.segments == a.plan.segments[k := AfterTransfer(a.plan.segments[k], r)]
  {
    hide AfterTransfer, Fills, Retries, TotalDone;
  }

  lemma ResultTraces(c: Client, o: Origin, rs: set<Record>, e: Engine, i: nat, k: nat)
    requires HonestClient(c, o) && i < |e.active| && ActiveSound(e.active[i]) && ActiveTraced(c, o, rs, e, e.active[i])
    requires k < |e.active[i].plan.segments| && !e.active[i].plan.segments[k].finished
    ensures var f, after := AfterStreaming(c, e, i, k), AfterResult(e.active[i], k, ResultAt(c, e, i, k));
      && after.record == e.active[i].record && |after.plan.segments| == |e.active[i].plan.segments|
      && e.active[i].plan.segments[k].done <= after.plan.segments[k].done
      && ActiveTraced(c, o, rs, f, after)
      && Fetches(o, VersionOf(e.active[i].plan), e.active[i].plan.segments[k], after.plan.segments[k].done as int - e.active[i].plan.segments[k].done as int,
                 StagedFile(e, after.record.id), StagedFile(f, after.record.id))
  {
    hide HonestClient, ResultOf, FilesAfter, StagedFile, AfterTransfer, AfterResult, Fetches, Traced, Budget, Underway, Begins, Rooted;
    var a := e.active[i];
    var f, after, result := AfterStreaming(c, e, i, k), AfterResult(a, k, ResultAt(c, e, i, k)), ResultAt(c, e, i, k);
    ResultShape(a, k, result);
    BeginsLater(c, o, rs, e.log, f.log, a.since);
    BeginsHere(c, o, rs, e.log, a.since);
    RootedLater(e.log, f.log, e.taken, a.since, a.record.id, e.bases[a.record.id]);
    assert Sized(o, a.plan) by {
      BeginsSized(c, o, rs, e.log, a.since, a.plan);
    }
    TransferFetches(c, o, e, i, k);
    var base := e.bases[a.record.id];
    SegmentsTrace(o, base.plan, base.found, a.plan, after.plan, k, StagedFile(e, a.record.id), StagedFile(f, a.record.id));
  }

  lemma RootedLater(log: seq<Event>, longer: seq<Event>, taken: set<Text>, since: nat, id: Text, basis: Basis)
    requires Rooted(log, taken, since, id, basis) && log <= longer
    ensures Rooted(longer, taken, since, id, basis)
  {
  }

  lemma BeginsSized(c: Client, o: Origin, rs: set<Record>, log: seq<Event>, k: nat, p: Plan)
    requires Begins(c, o, rs, log, k) && SameHead(log[k].plan, p)
    ensures Sized(o, p)
  {
    hide AskedFor, Answered;
  }

  /** One segment fetched further keeps the whole plan traced. */
  lemma SegmentsTrace(o: Origin, begun: Plan, found: seq<Cell>, p: Plan, q: Plan, k: nat, before: seq<Cell>, after: seq<Cell>)
    requires Traced(begun, found, p, before) && Underway(p) && SameHead(p, q) && k < |p.segments| && p.segments[k].done <= q.segments[k].done
    requires q.segments[k].begin == p.segments[k].begin && q.segments[k].end == p.segments[k].end
    requires q.segments == p.segments[k := q.segments[k]]
    requires Fetches(o, VersionOf(p), p.segments[k], q.segments[k].done as int - p.segments[k].done as int, before, after)
    ensures Traced(begun, found, q, after)
  {
    hide Fetches, SegmentTraced, Underway;
    var v, n := VersionOf(p), q.segments[k].done as int - p.segments[k].done as int;
    forall j | 0 <= j < |q.segments|
      ensures SegmentTraced(v, begun.segments[j], found, q.segments[j], after)
    {
      SegmentApart(v, o, p, begun.segments[j], found, k, n, before, after, j);
      SameSegment(v, begun.segments[j], found, if j == k then p.segments[k].(done := q.segments[k].done) else p.segments[j], q.segments[j], after);
    }
  }

  lemma SameSegment(v: Version, b: Segment, found: seq<Cell>, s: Segment, t: Segment, file: seq<Cell>)
    requires t.begin == s.begin && t.end == s.end && t.done == s.done
    ensures SegmentTraced(v, b, found, s, file) <==> SegmentTraced(v, b, found, t, file)
  {
  }

  /** The staged file of another download has another path. */
  lemma HomesApart(e: Engine, name: Text, id: Text, other: Text)
    requires Numbered(id) && Numbered(other) && id != other
    ensures HomeOf(e, other) != StagedPath(name, id) && HomeOf(e, other) != HomeOf(e, id)
  {
    hide StagedPath, Numbered;
    if HomeOf(e, other) == StagedPath(name, id) {
      StagedApart(NameOf(e, other), other, name, id);
    }
    if HomeOf(e, other) == HomeOf(e, id) {
      StagedApart(NameOf(e, other), other, NameOf(e, id), id);
    }
  }

  /** Streaming leaves the other downloads' files alone, and every file what its versions have. */
  lemma StreamingTracks(c: Client, o: Origin, rs: set<Record>, e: Engine, i: nat, k: nat)
    requires HonestClient(c, o) && Sound(e) && BytesTracked(c, o, rs, e) && i < |e.active|
    requires k < |e.active[i].plan.segments| && !e.active[i].plan.segments[k].finished
    ensures var f := AfterStreaming(c, e, i, k);
      && FilesRendered(f, o) && LogTraced(c, o, rs, f)
      && (forall j | 0 <= j < |e.active| && j != i :: ActiveTraced(c, o, rs, f, e.active[j]))
      && ActiveTraced(c, o, rs, f, AfterResult(e.active[i], k, ResultAt(c, e, i, k)))
  {
    hide HonestClient, Sound, ResultOf, FilesAfter, AfterResult, ActiveTraced, LogTraced, FilesRendered, StagedFile, HomeOf;
    var a, f := e.active[i], AfterStreaming(c, e, i, k);
    OneSound(e, i);
    SoundIds(e);
    ResultTraces(c, o, rs, e, i, k);
    LogLater(c, o, rs, e, f);
    TracedBase(c, o, rs, e, a);
    forall j | 0 <= j < |e.active| && j != i
      ensures ActiveTraced(c, o, rs, f, e.active[j])
    {
      TracedBase(c, o, rs, e, e.active[j]);
      OthersStaged(c, e, i, k, e.active[j].record.id);
      ActiveLater(c, o, rs, e, f, e.active[j]);
    }
    StreamedRendered(c, o, rs, e, i, k);
  }

  lemma OthersStaged(c: Client, e: Engine, i: nat, k: nat, other: Text)
    requires i < |e.active| && k < |e.active[i].plan.segments| && Numbered(e.active[i].record.id) && Numbered(other) && other != e.active[i].record.id
    ensures StagedFile(AfterStreaming(c, e, i, k), other) == StagedFile(e, other)
  {
    hide FilesAfter, FileAt, Numbered, StagedPath;
    HomesApart(e, [], e.active[i].record.id, other);
    OtherFiles(c, e, i, k, HomeOf(e, other));
  }

  lemma StreamedRendered(c: Client, o: Origin, rs: set<Record>, e: Engine, i: nat, k: nat)
    requires i < |e.active| && k < |e.active[i].plan.segments| && FilesRendered(e, o)
    requires Rendered(o, StagedFile(e, e.active[i].record.id)) ==> Rendered(o, StagedFile(AfterStreaming(c, e, i, k), e.active[i].record.id))
    ensures FilesRendered(AfterStreaming(c, e, i, k), o)
  {
    hide FilesAfter, Rendered, StagedPath;
    var a, f := e.active[i], AfterStreaming(c, e, i, k);
    StreamedPlace(c, e, i, k);
    StagedRendered(e, o, a.record.id);
    forall path | path in f.files
      ensures Rendered(o, f.files[path])
    {
      if path == HomeOf(e, a.record.id) {
        assert f.files[path] == StagedFile(f, a.record.id);
      } else {
        OtherFiles(c, e, i, k, path);
        assert f.files[path] == FileAt(f, path) == FileAt(e, path) == e.files[path];
      }
    }
  }

  lemma StreamedPlace(c: Client, e: Engine, i: nat, k: nat)
    requires i < |e.active| && k < |e.active[i].plan.segments|
    ensures forall path :: path in AfterStreaming(c, e, i, k).files <==> path in e.files
  {
    hide Delivered;
  }

  lemma StagedRendered(e: Engine, o: Origin, id: Text)
    requires FilesRendered(e, o)
    ensures Rendered(o, StagedFile(e, id))
  {
    EmptyRendered(o);
  }

  lemma EmptyRendered(o: Origin)
    ensures Rendered(o, [])
  {
  }

  lemma NotedTracks(c: Client, o: Origin, rs: set<Record>, e: Engine, i: nat, a: Active)
    requires FilesRendered(e, o) && LogTraced(c, o, rs, e) && AllNumbered(rs) && (forall r | r in e.pending :: r in rs) && i < |e.active|
    requires forall j | 0 <= j < |e.active| && j != i :: ActiveTraced(c, o, rs, e, e.active[j])
    requires ActiveTraced(c, o, rs, e, a)
    ensures BytesTracked(c, o, rs, Noted(e, i, a))
  {
    hide LogTraced, ActiveTraced, FilesRendered, Saved, StagedFile, HomeOf, AllNumbered;
    var f := Noted(e, i, a);
    LogLater(c, o, rs, e, f);
    StagedKept(e, f);
    SameFilesRendered(e, f, o);
    forall j | 0 <= j < |f.active|
      ensures ActiveTraced(c, o, rs, f, f.active[j])
    {
      var x := if j == i then a else e.active[j];
      TracedBase(c, o, rs, e, x);
      ActiveLater(c, o, rs, e, f, x);
    }
  }

  lemma RunOneTracks(c: Client, o: Origin, rs: set<Record>, e: Engine, i: nat)
    requires HonestClient(c, o) && Sound(e) && BytesTracked(c, o, rs, e) && i < |e.active|
    ensures BytesTracked(c, o, rs, RunOne(c, e, i))
  {
    hide HonestClient, Sound, FilesRendered, LogTraced, ActiveTraced, AfterResult, FilesAfter, ResultOf, Noted;
    if !Skipped(e, i) {
      var a := e.active[i];
      var k := FirstUnfinished(a.plan.segments);
      if k == |a.plan.segments| {
        FinishedTraced(c, o, rs, e, a);
        NotedTracks(c, o, rs, e, i, a.(finished := true));
      } else {
        StreamingTracks(c, o, rs, e, i, k);
        NotedTracks(c, o, rs, AfterStreaming(c, e, i, k), i, AfterResult(a, k, ResultAt(c, e, i, k)));
      }
    }
  }

  lemma FinishedTraced(c: Client, o: Origin, rs: set<Record>, e: Engine, a: Active)
    requires ActiveTraced(c, o, rs, e, a)
    ensures ActiveTraced(c, o, rs, e, a.(finished := true))
  {
  }

  lemma {:induction false} RunTracks(c: Client, o: Origin, rs: set<Record>, e: Engine, n: nat)
    requires HonestClient(c, o) && Sound(e) && BytesTracked(c, o, rs, e) && n <= |e.active|
    ensures BytesTracked(c, o, rs, RunUpTo(c, e, n))
  {
    hide HonestClient, Sound, BytesTracked, RunOne;
    if n > 0 {
      RunTracks(c, o, rs, e, n - 1);
      RunKeeps(c, e, n - 1);
      RunOneTracks(c, o, rs, RunUpTo(c, e, n - 1), n - 1);
    }
  }

  // The end of a pump.

  lemma NotedCompleteTracks(c: Client, o: Origin, rs: set<Record>, e: Engine, a: Active)
    requires LogTraced(c, o, rs, e) && FilesRendered(e, o) && ActiveSound(a) && a.finished && ActiveTraced(c, o, rs, e, a)
    ensures LogTraced(c, o, rs, NotedComplete(e, a))
  {
    hide EventTraced, ActiveSound, FilesRendered, ActiveTraced, CompleteNow;
    var f := NotedComplete(e, a);
    CompletedEvent(c, o, rs, e, f, a);
    forall k | 0 <= k < |f.log|
      ensures EventTraced(c, o, rs, f.log, f.taken, k)
    {
      if k < |e.log| {
        OneLater(c, o, rs, e.log, f.log, e.taken, f.taken, k);
      }
    }
  }

  lemma CompletedEvent(c: Client, o: Origin, rs: set<Record>, e: Engine, f: Engine, a: Active)
    requires ActiveSound(a) && a.finished && ActiveTraced(c, o, rs, e, a) && FilesRendered(e, o)
    requires f.log == e.log + [CompleteNow(e, a)] && f.taken == e.taken
    ensures EventTraced(c, o, rs, f.log, f.taken, |e.log|)
  {
    hide Underway, Budget, Rendered, StagedFile, Begins, Traced, FilesRendered, Rooted;
    StagedRendered(e, o, a.record.id);
    BeginsLater(c, o, rs, e.log, f.log, a.since);
    BeginsHere(c, o, rs, e.log, a.since);
    RootedLater(e.log, f.log, e.taken, a.since, a.record.id, e.bases[a.record.id]);
  }

  /** What a callback does to the disk: the files there stay what their versions have. */
  lemma FinishRendered(e: Engine, id: Text, ending: Ending, o: Origin)
    requires FilesRendered(e, o)
    ensures FilesRendered(Finish(e, id, ending), o)
  {
    hide Rendered, Off, Rebased, StagedAt, StagedPath;
    StagedRendered(e, o, id);
  }

  lemma {:induction false} RebasedIs(e: Engine, actives: seq<Active>, path: Path, file: seq<Cell>, i: nat)
    requires i < |actives| && forall j, k | 0 <= j < k < |actives| :: actives[j].record.id != actives[k].record.id
    ensures var id := actives[i].record.id;
      && (id in e.bases ==> id in Rebased(e, actives, path, file))
      && (HomeOf(e, id) == path ==> id in Rebased(e, actives, path, file) && Rebased(e, actives, path, file)[id] == Basis(actives[i].plan, file))
      && (HomeOf(e, id) != path && id in e.bases ==> Rebased(e, actives, path, file)[id] == e.bases[id])
  {
    hide HomeOf;
    var last := |actives| - 1;
    if i < last {
      RebasedIs(e, actives[..last], path, file, i);
    } else {
      RebasedOthers(e, actives[..last], path, file, actives[i].record.id);
    }
  }

  lemma {:induction false} RebasedOthers(e: Engine, actives: seq<Active>, path: Path, file: seq<Cell>, id: Text)
    requires forall j | 0 <= j < |actives| :: actives[j].record.id != id
    ensures id in Rebased(e, actives, path, file) <==> id in e.bases
    ensures id in e.bases ==> Rebased(e, actives, path, file)[id] == e.bases[id]
  {
    hide HomeOf;
    if actives != [] {
      RebasedOthers(e, actives[..|actives| - 1], path, file, id);
    }
  }

  /** A commit leaves a download its file, or takes it and puts another there: then that is what it counts on. */
  lemma PutTracks(c: Client, o: Origin, rs: set<Record>, e: Engine, path: Path, file: Option<seq<Cell>>, i: nat)
    requires Sound(e) && i < |e.active| && ActiveTraced(c, o, rs, e, e.active[i])
    ensures ActiveTraced(c, o, rs, Put(e, path, file), e.active[i])
    ensures HomeOf(e, e.active[i].record.id) == path ==> e.active[i].record.id in Put(e, path, file).taken
  {
    hide Sound, Begins, Traced, Off, StagedPath, Rebased;
    var a, f, left := e.active[i], Put(e, path, file), if file.Some? then file.value else [];
    SoundIds(e);
    RebasedIs(e, e.active, path, left, i);
    if HomeOf(e, a.record.id) == path {
      assert StagedFile(f, a.record.id) == left;
      TracedSelf(a.plan, left);
      assert f.bases[a.record.id] == Basis(a.plan, left);
    } else {
      assert StagedFile(f, a.record.id) == StagedFile(e, a.record.id);
      hide StagedFile, Put, StagedAt;
    }
  }

  /** Moving its own file away leaves the others theirs. */
  lemma DroppedTracks(c: Client, o: Origin, rs: set<Record>, e: Engine, id: Text, a: Active)
    requires ActiveTraced(c, o, rs, e, a) && AllNumbered(rs) && Numbered(id) && a.record.id != id
    ensures ActiveTraced(c, o, rs, Dropped(e, HomeOf(e, id)), a)
  {
    hide ActiveTraced, StagedPath, Numbered, Off;
    TracedBase(c, o, rs, e, a);
    HomesApart(e, [], id, a.record.id);
    ActiveLater(c, o, rs, e, Dropped(e, HomeOf(e, id)), a);
  }

  /** What a callback does to the disk keeps every other download traced. */
  lemma FinishTracks(c: Client, o: Origin, rs: set<Record>, e: Engine, id: Text, ending: Ending, i: nat)
    requires Sound(e) && i < |e.active| && ActiveTraced(c, o, rs, e, e.active[i]) && AllNumbered(rs) && Numbered(id) && e.active[i].record.id != id
    ensures ActiveTraced(c, o, rs, Finish(e, id, ending), e.active[i])
  {
    hide Sound, ActiveTraced, Numbered, Put, Dropped, HomeOf, NameOf, StagedFile, AllNumbered;
    var committed := AfterCommit(e, id, ending.commit);
    assert ActiveTraced(c, o, rs, committed, e.active[i]) by {
      PutTracks(c, o, rs, e, NameOf(e, id), None, i);
      var gone := Dropped(e, HomeOf(e, id));
      DroppedTracks(c, o, rs, e, id, e.active[i]);
      DroppedKeepsLists(e, HomeOf(e, id));
      SoundFrame(e, gone);
      PutTracks(c, o, rs, gone, NameOf(e, id), Some(StagedFile(e, id)), i);
    }
    if ending.forgets {
      ForgotTracks(c, o, rs, committed, id, e.active[i]);
    }
  }

  lemma DroppedKeepsLists(e: Engine, path: Path)
    ensures var f := Dropped(e, path);
      f.pending == e.pending && f.active == e.active && f.checkpoints == e.checkpoints && f.names == e.names && f.log == e.log && f.taken == e.taken && f.bases == e.bases
  {
    hide Off;
  }

  lemma ForgotTracks(c: Client, o: Origin, rs: set<Record>, e: Engine, id: Text, a: Active)
    requires ActiveTraced(c, o, rs, e, a)
    ensures ActiveTraced(c, o, rs, Forgot(e, id), a)
  {
    hide ActiveTraced;
    TracedBase(c, o, rs, e, a);
    StagedKept(e, Forgot(e, id));
    ActiveLater(c, o, rs, e, Forgot(e, id), a);
  }

  lemma FinishTakes(e: Engine, id: Text, ending: Ending)
    ensures e.taken <= Finish(e, id, ending).taken
  {
    hide Off, Rebased, StagedAt, StagedPath;
  }

  /** In the middle of the reports every download that is not yet reported, or not finished, is traced. */
  ghost predicate Halfway(c: Client, o: Origin, rs: set<Record>, e: Engine, n: nat) {
    && FilesRendered(e, o) && LogTraced(c, o, rs, e) && AllNumbered(rs)
    && forall i | 0 <= i < |e.active| && (i >= n || !e.active[i].finished) :: ActiveTraced(c, o, rs, e, e.active[i])
  }

  lemma QuietlyHalfway(c: Client, o: Origin, rs: set<Record>, e: Engine, f: Engine, n: nat)
    requires Halfway(c, o, rs, e, n) && Quietly(e.log, f.log) && f.files == e.files && f.names == e.names && f.active == e.active
    requires f.bases == e.bases && f.taken == e.taken
    ensures Halfway(c, o, rs, f, n)
  {
    hide ActiveTraced, LogTraced, FilesRendered, StagedFile, HomeOf, AllNumbered;
    LogLater(c, o, rs, e, f);
    SameFilesRendered(e, f, o);
    StagedKept(e, f);
    forall i | 0 <= i < |f.active| && (i >= n || !f.active[i].finished)
      ensures ActiveTraced(c, o, rs, f, f.active[i])
    {
      TracedBase(c, o, rs, e, e.active[i]);
      ActiveLater(c, o, rs, e, f, e.active[i]);
    }
  }

  lemma FinishHalfway(c: Client, o: Origin, rs: set<Record>, e: Engine, n: nat, ending: Ending)
    requires Sound(e) && n < |e.active| && e.active[n].finished && Halfway(c, o, rs, e, n)
    ensures Halfway(c, o, rs, Finish(NotedComplete(e, e.active[n]), e.active[n].record.id, ending), n + 1)
  {
    hide Sound, ActiveTraced, LogTraced, FilesRendered, AllNumbered, Finish, NotedComplete, StagedFile, HomeOf;
    var a := e.active[n];
    var noted := NotedComplete(e, a);
    OneSound(e, n);
    SoundIds(e);
    TracedBase(c, o, rs, e, a);
    NumberedIn(rs, a.record);
    NotedCompleteTracks(c, o, rs, e, a);
    NotedKeepsLists(e, a);
    SameFilesRendered(e, noted, o);
    SoundFrame(e, noted);
    StagedKept(e, noted);
    var f := Finish(noted, a.record.id, ending);
    FinishKeepsLists(noted, a.record.id, ending);
    FinishRendered(noted, a.record.id, ending, o);
    FinishTakes(noted, a.record.id, ending);
    LogLater(c, o, rs, noted, f);
    forall i | 0 <= i < |f.active| && (i >= n + 1 || !f.active[i].finished)
      ensures ActiveTraced(c, o, rs, f, f.active[i])
    {
      TracedBase(c, o, rs, e, e.active[i]);
      ActiveLater(c, o, rs, e, noted, e.active[i]);
      FinishTracks(c, o, rs, noted, a.record.id, ending, i);
    }
  }

  lemma NumberedIn(rs: set<Record>, r: Record)
    requires AllNumbered(rs) && r in rs
    ensures Numbered(r.id)
  {
    hide Numbered;
  }

  lemma NotedKeepsLists(e: Engine, a: Active)
    ensures var f := NotedComplete(e, a);
      && f == e.(completed := f.completed, log := f.log) && e.log <= f.log && f.log == e.log + [CompleteNow(e, a)]
  {
    hide CompleteNow;
  }

  lemma ReportOneTracks(c: Client, o: Origin, rs: set<Record>, e: Engine, n: nat, ending: Ending)
    requires Sound(e) && n < |e.active| && Halfway(c, o, rs, e, n)
    ensures Halfway(c, o, rs, ReportOne(e, e.active[n], ending), n + 1)
  {
    hide Sound, Halfway, Finish, NotedComplete;
    var a := e.active[n];
    if a.finished {
      FinishHalfway(c, o, rs, e, n, ending);
    } else {
      OneFurther(c, o, rs, e, n);
    }
    var first := if a.finished then Finish(NotedComplete(e, a), a.record.id, ending) else e;
    QuietlyHalfway(c, o, rs, first, ReportOne(e, a, ending), n + 1);
  }

  lemma OneFurther(c: Client, o: Origin, rs: set<Record>, e: Engine, n: nat)
    requires n < |e.active| && !e.active[n].finished && Halfway(c, o, rs, e, n)
    ensures Halfway(c, o, rs, e, n + 1)
  {
    hide ActiveTraced, LogTraced, FilesRendered, AllNumbered;
  }

  lemma {:induction false} ReportTracks(c: Client, o: Origin, rs: set<Record>, e: Engine, endings: seq<Ending>, n: nat)
    requires Sound(e) && BytesTracked(c, o, rs, e) && n <= |e.active|
    ensures Halfway(c, o, rs, ReportUpTo(e, endings, n), n)
  {
    hide Sound, BytesTracked, Halfway, ReportOne, EndingAt;
    if n == 0 {
      TrackedHalfway(c, o, rs, e);
    } else {
      ReportTracks(c, o, rs, e, endings, n - 1);
      ReportFrame(e, endings, n - 1);
      SoundFrame(e, ReportUpTo(e, endings, n - 1));
      ReportOneTracks(c, o, rs, ReportUpTo(e, endings, n - 1), n - 1, EndingAt(endings, n - 1));
    }
  }

  lemma TrackedHalfway(c: Client, o: Origin, rs: set<Record>, e: Engine)
    requires BytesTracked(c, o, rs, e)
    ensures Halfway(c, o, rs, e, 0)
  {
    hide ActiveTraced, LogTraced, FilesRendered, AllNumbered;
  }

  lemma SweptTracks(c: Client, o: Origin, rs: set<Record>, e: Engine)
    requires Halfway(c, o, rs, e, |e.active|) && forall r | r in e.pending :: r in rs
    ensures BytesTracked(c, o, rs, Swept(e))
  {
    hide LogTraced, FilesRendered, ActiveTraced, Settled, StagedFile, HomeOf, AllNumbered;
    var f := Swept(e);
    SettledAre(e.cancelled, e.active);
    SameLogTraced(c, o, rs, e, f);
    SameFilesRendered(e, f, o);
    StagedKept(e, f);
    forall i | 0 <= i < |f.active|
      ensures ActiveTraced(c, o, rs, f, f.active[i])
    {
      assert f.active[i] in f.active;
      var j :| 0 <= j < |e.active| && e.active[j] == f.active[i];
      TracedBase(c, o, rs, e, e.active[j]);
      ActiveLater(c, o, rs, e, f, e.active[j]);
    }
  }

  lemma SameLogTraced(c: Client, o: Origin, rs: set<Record>, e: Engine, f: Engine)
    requires LogTraced(c, o, rs, e) && f.log == e.log && f.taken == e.taken
    ensures LogTraced(c, o, rs, f)
  {
    hide EventTraced;
  }

  /** Some of the active downloads, with their files as they were. */
  lemma FewerTraced(c: Client, o: Origin, rs: set<Record>, e: Engine, f: Engine)
    requires (forall i | 0 <= i < |e.active| :: ActiveTraced(c, o, rs, e, e.active[i])) && e.log <= f.log && e.taken <= f.taken
    requires forall a | a in f.active :: a in e.active && StagedFile(f, a.record.id) == StagedFile(e, a.record.id)
    requires f.bases == e.bases
    ensures forall i | 0 <= i < |f.active| :: ActiveTraced(c, o, rs, f, f.active[i])
  {
    hide ActiveTraced, StagedFile;
    forall i | 0 <= i < |f.active|
      ensures ActiveTraced(c, o, rs, f, f.active[i])
    {
      assert f.active[i] in f.active;
      var j :| 0 <= j < |e.active| && e.active[j] == f.active[i];
      TracedBase(c, o, rs, e, e.active[j]);
      ActiveLater(c, o, rs, e, f, e.active[j]);
    }
  }

  lemma WorkTracks(c: Client, o: Origin, rs: set<Record>, e: Engine)
    requires HonestClient(c, o) && Sound(e) && BytesTracked(c, o, rs, e)
    ensures BytesTracked(c, o, rs, Worked(c, e))
  {
    hide HonestClient, Sound, BytesTracked, ActivateUpTo, RunUpTo;
    var activated := ActivateUpTo(c, e, |e.pending|);
    ActivationTracks(c, o, rs, e, |e.pending|);
    ActivationKeeps(c, e, |e.pending|);
    RunTracks(c, o, rs, activated, |activated.active|);
  }

  lemma PumpTracks(c: Client, o: Origin, rs: set<Record>, e: Engine, endings: seq<Ending>)
    requires HonestClient(c, o) && Sound(e) && BytesTracked(c, o, rs, e)
    ensures BytesTracked(c, o, rs, AfterPump(c, e, endings))
  {
    hide HonestClient, Sound, BytesTracked, Worked, ReportUpTo, Swept, Halfway;
    var worked := Worked(c, e);
    WorkTracks(c, o, rs, e);
    WorkKeeps(c, e);
    ReportTracks(c, o, rs, worked, endings, |worked.active|);
    ReportFrame(worked, endings, |worked.active|);
    PendingAsked(c, o, rs, worked);
    SweptTracks(c, o, rs, ReportUpTo(worked, endings, |worked.active|));
  }

  lemma ReportsDoneTrack(c: Client, o: Origin, rs: set<Record>, e: Engine, endings: seq<Ending>)
    requires HonestClient(c, o) && Sound(e) && BytesTracked(c, o, rs, e)
    ensures BytesTracked(c, o, rs, Ended(ReportsDone(c, e, endings)))
  {
    hide HonestClient, Sound, BytesTracked, Worked, ReportUpTo, Halfway, Ended;
    var worked := Worked(c, e);
    WorkTracks(c, o, rs, e);
    WorkKeeps(c, e);
    ReportTracks(c, o, rs, worked, endings, Min(|endings|, |worked.active|));
    HalfwayOnDisk(c, o, rs, ReportsDone(c, e, endings), Min(|endings|, |worked.active|));
    EndedTracks(c, o, rs, ReportsDone(c, e, endings));
  }

  lemma HalfwayOnDisk(c: Client, o: Origin, rs: set<Record>, e: Engine, n: nat)
    requires Halfway(c, o, rs, e, n)
    ensures FilesRendered(e, o) && LogTraced(c, o, rs, e) && AllNumbered(rs)
  {
  }

  lemma CrashTracks(c: Client, o: Origin, rs: set<Record>, e: Engine, scans: nat, runs: nat, torn: bool)
    requires HonestClient(c, o) && Sound(e) && BytesTracked(c, o, rs, e)
    ensures BytesTracked(c, o, rs, Ended(Interrupted(c, e, scans, runs, torn)))
  {
    hide HonestClient, Sound, BytesTracked, ActivateUpTo, RunUpTo, AfterStreaming;
    var activated := ActivateUpTo(c, e, Min(scans, |e.pending|));
    ActivationTracks(c, o, rs, e, Min(scans, |e.pending|));
    ActivationKeeps(c, e, Min(scans, |e.pending|));
    var n := Min(runs, |activated.active|);
    RunTracks(c, o, rs, activated, n);
    RunKeeps(c, activated, n);
    var ran := RunUpTo(c, activated, n);
    TrackedOnDisk(c, o, rs, ran);
    if torn && n < |ran.active| && !Skipped(ran, n) && FirstUnfinished(ran.active[n].plan.segments) < |ran.active[n].plan.segments| {
      StreamingTracks(c, o, rs, ran, n, FirstUnfinished(ran.active[n].plan.segments));
    }
    EndedTracks(c, o, rs, Interrupted(c, e, scans, runs, torn));
  }

  lemma TrackedOnDisk(c: Client, o: Origin, rs: set<Record>, e: Engine)
    requires BytesTracked(c, o, rs, e)
    ensures FilesRendered(e, o) && LogTraced(c, o, rs, e) && AllNumbered(rs)
  {
  }

  lemma EndedTracks(c: Client, o: Origin, rs: set<Record>, e: Engine)
    requires FilesRendered(e, o) && LogTraced(c, o, rs, e) && AllNumbered(rs)
    ensures BytesTracked(c, o, rs, Ended(e))
  {
    hide EventTraced, Rendered, AllNumbered;
  }

  // The other calls.

  /** Files that no active download uses may go, be emptied or be made. */
  lemma FrameTracks(c: Client, o: Origin, rs: set<Record>, e: Engine, f: Engine)
    requires BytesTracked(c, o, rs, e) && f.log == e.log && f.taken == e.taken && f.bases == e.bases && (forall r | r in f.pending :: r in rs)
    requires forall a | a in f.active :: a in e.active && StagedFile(f, a.record.id) == StagedFile(e, a.record.id)
    requires forall path | path in f.files :: f.files[path] == [] || (path in e.files && f.files[path] == e.files[path])
    ensures BytesTracked(c, o, rs, f)
  {
    hide LogTraced, ActiveTraced, Rendered, StagedFile, AllNumbered;
    SameLogTraced(c, o, rs, e, f);
    FewerTraced(c, o, rs, e, f);
    EmptyRendered(o);
  }

  /** The ids of the active downloads are numbers. */
  lemma ActiveNumbered(c: Client, o: Origin, rs: set<Record>, e: Engine, a: Active)
    requires BytesTracked(c, o, rs, e) && a in e.active
    ensures Numbered(a.record.id)
  {
    hide Numbered, LogTraced, FilesRendered, ActiveTraced;
    var i :| 0 <= i < |e.active| && e.active[i] == a;
    TracedBase(c, o, rs, e, e.active[i]);
  }

  lemma CancelTracks(c: Client, o: Origin, rs: set<Record>, e: Engine, id: Text, drops: Option<Text>)
    requires BytesTracked(c, o, rs, e) && Numbered(id)
    ensures BytesTracked(c, o, rs, Withdrawn(e, id, drops))
    ensures forall a | a in Withdrawn(e, id, drops).active :: a.record.id != id
  {
    hide BytesTracked, WithoutRecord, WithoutActive, Numbered, StagedPath, Off;
    var f := Withdrawn(e, id, drops);
    WithoutRecordIs(e.pending, id);
    WithoutActiveIs(e.active, id);
    PendingAsked(c, o, rs, e);
    forall a | a in f.active
      ensures StagedFile(f, a.record.id) == StagedFile(e, a.record.id)
    {
      ActiveNumbered(c, o, rs, e, a);
      if drops.Some? {
        HomesApart(e, drops.value, id, a.record.id);
      }
    }
    FrameTracks(c, o, rs, e, f);
  }

  lemma PendingAsked(c: Client, o: Origin, rs: set<Record>, e: Engine)
    requires BytesTracked(c, o, rs, e)
    ensures forall r | r in e.pending :: r in rs
  {
  }

  lemma PreparedTracks(c: Client, o: Origin, rs: set<Record>, e: Engine, r: Record)
    requires BytesTracked(c, o, rs, e) && Numbered(r.id) && forall a | a in e.active :: a.record.id != r.id
    ensures BytesTracked(c, o, rs, HasFile(e, r))
    ensures r in rs ==> BytesTracked(c, o, rs, AfterQueue(HasFile(e, r), r))
  {
    hide BytesTracked, CanQueue, Numbered, StagedPath;
    PendingAsked(c, o, rs, e);
    forall a | a in e.active
      ensures StagedFile(HasFile(e, r), a.record.id) == StagedFile(e, a.record.id)
    {
      ActiveNumbered(c, o, rs, e, a);
      HomesApart(e, r.name, r.id, a.record.id);
    }
    FrameTracks(c, o, rs, e, HasFile(e, r));
    if r in rs {
      StagedKept(HasFile(e, r), AfterQueue(HasFile(e, r), r));
      FrameTracks(c, o, rs, e, AfterQueue(HasFile(e, r), r));
    }
  }

  lemma InactiveElsewhere(e: Engine, id: Text)
    ensures !IsActive(e, id) ==> forall a | a in e.active :: a.record.id != id
  {
  }

  lemma StepTracks(c: Client, o: Origin, rs: set<Record>, e: Engine, call: Call)
    requires HonestClient(c, o) && Sound(e) && BytesTracked(c, o, rs, e) && CallNumbered(call)
    requires call.Enqueue? || call.Restart? ==> call.record in rs
    ensures BytesTracked(c, o, rs, Step(c, e, call))
  {
    hide HonestClient, Sound, BytesTracked, AfterPump, Interrupted, ReportsDone, Withdrawn, AfterQueue, HasFile, StagedFile, CanQueue, Numbered, Ended;
    match call
    case Enqueue(r) =>
      if CanQueue(e, r) {
        QueueableIsNew(e, r);
        PreparedTracks(c, o, rs, e, r);
      }
    case Prepare(r) =>
      InactiveElsewhere(e, r.id);
      if !IsPending(e, r.id) && !IsActive(e, r.id) {
        PreparedTracks(c, o, rs, e, r);
      }
    case Cancel(id, drops) => CancelTracks(c, o, rs, e, id, drops);
    case Restart(r) =>
      CancelTracks(c, o, rs, e, r.id, Some(r.name));
      PreparedTracks(c, o, rs, Withdrawn(e, r.id, Some(r.name)), r);
    case Pump(endings) => PumpTracks(c, o, rs, e, endings);
    case Crash(scans, runs, torn) => CrashTracks(c, o, rs, e, scans, runs, torn);
    case CrashInReports(endings) => ReportsDoneTrack(c, o, rs, e, endings);
    case Pause(id) => GateTracks(c, o, rs, e, AfterPause(e, id));
    case Resume(id) => GateTracks(c, o, rs, e, AfterResume(e, id));
  }

  lemma QueueableIsNew(e: Engine, r: Record)
    requires CanQueue(e, r)
    ensures forall a | a in e.active :: a.record.id != r.id
  {
  }

  lemma GateTracks(c: Client, o: Origin, rs: set<Record>, e: Engine, f: Engine)
    requires BytesTracked(c, o, rs, e) && f == e.(paused := f.paused)
    ensures BytesTracked(c, o, rs, f)
  {
    hide BytesTracked, StagedFile;
    PendingAsked(c, o, rs, e);
    StagedKept(e, f);
    FrameTracks(c, o, rs, e, f);
  }

  /** More may have been asked for. */
  lemma AskedLater(c: Client, o: Origin, rs: set<Record>, more: set<Record>, e: Engine)
    requires BytesTracked(c, o, rs, e) && rs <= more && AllNumbered(more)
    ensures BytesTracked(c, o, more, e)
  {
    hide Traced, Rendered, Underway, Answered, Sized, Rooted, SameHead, StagedFile, AllNumbered;
    forall p: Plan | AskedFor(rs, p)
      ensures AskedFor(more, p)
    {
    }
    hide AskedFor;
    forall k | 0 <= k < |e.log|
      ensures EventTraced(c, o, more, e.log, e.taken, k)
    {
      assert EventTraced(c, o, rs, e.log, e.taken, k);
    }
    forall i | 0 <= i < |e.active|
      ensures ActiveTraced(c, o, more, e, e.active[i])
    {
      assert ActiveTraced(c, o, rs, e, e.active[i]);
    }
  }

  lemma RecordsNumbered(calls: seq<Call>)
    requires NumberedCalls(calls)
    ensures AllNumbered(Records(calls))
  {
    hide Numbered;
    forall r | r in Records(calls)
      ensures Numbered(r.id)
    {
      var call :| call in calls && (call.Enqueue? || call.Restart?) && call.record == r;
      assert CallNumbered(call);
    }
  }

  lemma NumberedPart(calls: seq<Call>, n: nat)
    requires NumberedCalls(calls) && n <= |calls|
    ensures NumberedCalls(calls[..n])
  {
    hide CallNumbered;
  }

  /** Over every run: every byte there is is the one its version has at that place, and every activation and completion
      is traced. */
  lemma {:induction false} RunIsTracked(c: Client, o: Origin, calls: seq<Call>)
    requires HonestClient(c, o) && NumberedCalls(calls)
    ensures BytesTracked(c, o, Records(calls), Run(c, calls))
  {
    hide HonestClient, Step, Sound, Resting, BytesTracked, CallNumbered, AllNumbered;
    if calls == [] {
      NothingTracked(c, o);
    } else {
      var before := calls[..|calls| - 1];
      NumberedPart(calls, |calls| - 1);
      RunIsTracked(c, o, before);
      RunIsSound(c, before);
      assert calls[|calls| - 1] in calls && forall call | call in before :: call in calls;
      RecordsNumbered(calls);
      AskedLater(c, o, Records(before), Records(calls), Run(c, before));
      StepTracks(c, o, Records(calls), Run(c, before), calls[|calls| - 1]);
    }
  }

  lemma NothingTracked(c: Client, o: Origin)
    ensures BytesTracked(c, o, Records([]), Empty())
  {
  }
}
