/** What one pump does, in terms of the lists before it and of the client's replies alone. */
module TransferTerms {
  import opened Bytes
  import opened Wrappers
  import opened DownloadPlan
  import opened StagedPaths
  import opened HttpTransport
  import opened TransferScheduler
  import opened SchedulerInvariants
  import opened SchedulerTheorems
  import opened PumpEvents

  /** How often a download was reported completed, and failed. */
  function Outcomes(e: Engine, id: Text): (nat, nat) {
    (multiset(e.completed)[id], multiset(e.failed)[id])
  }

  lemma OneMorePump(c: Client, calls: seq<Call>, endings: seq<Ending>)
    ensures Run(c, calls + [Pump(endings)]) == AfterPump(c, Run(c, calls), endings)
  {
    hide AfterPump;
    assert (calls + [Pump(endings)])[..|calls + [Pump(endings)]| - 1] == calls;
  }

  // One turn.

  /** The first segment that is not finished. */
  predicate Next(p: Plan, k: nat) {
    k < |p.segments| && !p.segments[k].finished && forall j | 0 <= j < k :: p.segments[j].finished
  }

  /** What the server is asked for: the rest of the segment, of the version that the plan is of. */
  function Asking(a: Active, k: nat): TransportRequest
    requires k < |a.plan.segments|
  {
    TransportRequest(a.record.id, a.record.url, a.record.referrer, a.plan.segments[k].begin, a.plan.segments[k].end,
                     a.plan.segments[k].done, a.plan.metadata.etag, a.plan.metadata.lastModified)
  }

  /** The chunks that the disk takes: none if the download's file is not there. */
  function Taken(e: Engine, id: Text, reply: Stream): (n: nat)
    ensures n <= |reply.chunks|
  {
    if id in e.names && StagedPath(e.names[id], id) in e.files && reply.accepts < |reply.chunks| then reply.accepts
    else if id in e.names && StagedPath(e.names[id], id) in e.files then |reply.chunks|
    else 0
  }

  /** The count of a segment after the chunks taken, as the 64-bit counter holds it. */
  function Count(s: Segment, reply: Stream, taken: nat): u64
    requires taken <= |reply.chunks|
  {
    (s.done as int + |Flatten(reply.chunks[..taken])|) % 0x1_0000_0000_0000_0000
  }

  /** The reply finishes the segment: it is complete and all of it was taken, or the count reaches the segment's size. */
  predicate Finishes(s: Segment, reply: Stream, taken: nat)
    requires taken <= |reply.chunks|
  {
    (reply.completed && taken == |reply.chunks|) || Count(s, reply, taken) as int >= s.end as int - s.begin as int + 1
  }

  /** It may be tried again: the server says so, the disk took all of it, and it was not tried again three times. */
  predicate Again(s: Segment, reply: Stream, taken: nat) {
    reply.retryable && taken == |reply.chunks| && s.retries < 3
  }

  lemma CountIs(s: Segment, reply: Stream, taken: nat, open: bool)
    requires taken <= |reply.chunks| && taken == WholeChunks(open, reply)
    ensures (s.done as int + ResultOf(open, reply).transferred as int) % U64_LIMIT == Count(s, reply, taken)
  {
    AddInMachine(s.done, |Flatten(reply.chunks[..taken])|);
  }

  lemma AddInMachine(a: u64, b: nat)
    ensures (a as int + (b % U64_LIMIT)) % U64_LIMIT == (a as int + b) % U64_LIMIT
  {
  }

  lemma TakenIs(e: Engine, id: Text, reply: Stream)
    ensures Taken(e, id, reply) == WholeChunks(Writable(e.files, e.names, id), reply)
  {
  }

  lemma SizeIs(a: Active, k: nat)
    requires ActiveSound(a) && k < |a.plan.segments|
    ensures var s := a.plan.segments[k]; Size(s) as int == s.end as int - s.begin as int + 1 && s.begin <= s.end
  {
    hide Size, Budget, SameLayout, Layout;
    TileAt(a.plan.segments, a.plan.metadata.total, k);
    assert a.plan.segments[k] in a.plan.segments;
    assert SegmentProgress(a.plan.segments[k]);
  }

  /** What becomes of the segment. */
  predicate Becomes(s: Segment, reply: Stream, taken: nat, t: Segment)
    requires taken <= |reply.chunks|
  {
    && t.index == s.index && t.begin == s.begin && t.end == s.end
    && (if Finishes(s, reply, taken) then t.finished && t.done as int == s.end as int - s.begin as int + 1 && t.retries == s.retries
        else !t.finished && t.done == Count(s, reply, taken) && t.retries == if Again(s, reply, taken) then s.retries + 1 else s.retries)
  }

  lemma SegmentBecomes(s: Segment, reply: Stream, taken: nat, open: bool)
    requires taken <= |reply.chunks| && taken == WholeChunks(open, reply) && !s.finished
    requires Size(s) as int == s.end as int - s.begin as int + 1
    ensures var r := ResultOf(open, reply);
      && Becomes(s, reply, taken, AfterTransfer(s, r))
      && (Fills(s, r) <==> Finishes(s, reply, taken))
      && (!Finishes(s, reply, taken) ==> (Retries(s, r) <==> Again(s, reply, taken)))
  {
    CountIs(s, reply, taken, open);
    hide Flatten, WholeChunks;
  }

  /** The turn of a download in the run loop. */
  lemma TurnExactly(c: Client, e: Engine, i: nat, k: nat)
    requires Sound(e) && i < |e.active| && !Skipped(e, i) && Next(e.active[i].plan, k)
    ensures var a, b := e.active[i], RunOne(c, e, i).active[i];
      var s, reply := a.plan.segments[k], c.stream(e.calls, Asking(a, k));
      var taken := Taken(e, a.record.id, reply);
      && |b.plan.segments| == |a.plan.segments| && b.plan.segments == a.plan.segments[k := b.plan.segments[k]]
      && Becomes(s, reply, taken, b.plan.segments[k])
      && (b.finished <==> forall t | t in b.plan.segments :: t.finished)
      && (b.failed <==> !Finishes(s, reply, taken) && !Again(s, reply, taken))
  {
    hide Sound, FilesAfter, ResultOf, Saved, Taken, Becomes, Finishes, Again, AfterTransfer, Fills, Retries, TotalDone, Size, Writable, WholeChunks, NameOf;
    var a := e.active[i];
    FirstIs(a.plan.segments, k);
    var reply := c.stream(e.calls, Asking(a, k));
    TakenIs(e, a.record.id, reply);
    OneSound(e, i);
    SizeIs(a, k);
    SegmentBecomes(a.plan.segments[k], reply, Taken(e, a.record.id, reply), Writable(e.files, e.names, a.record.id));
    Unfinished(a.plan.segments[k], reply, Taken(e, a.record.id, reply), RunOne(c, e, i).active[i].plan.segments, k);
  }

  lemma Unfinished(s: Segment, reply: Stream, taken: nat, after: seq<Segment>, k: nat)
    requires taken <= |reply.chunks| && k < |after| && Becomes(s, reply, taken, after[k])
    ensures !Finishes(s, reply, taken) ==> exists t :: t in after && !t.finished
  {
    assert after[k] in after;
  }

  lemma {:induction false} FirstIs(segments: seq<Segment>, k: nat)
    requires k < |segments| && !segments[k].finished && forall j | 0 <= j < k :: segments[j].finished
    ensures FirstUnfinished(segments) == k
  {
  }

  // One pump.

  /** The state when the turn of an active download comes in a pump. */
  function BeforeTurn(c: Client, e: Engine, i: nat): Engine
    requires i < |ActivateUpTo(c, e, |e.pending|).active|
  {
    RunUpTo(c, ActivateUpTo(c, e, |e.pending|), i)
  }

  lemma {:induction false} ActivationOutcomes(c: Client, e: Engine, scans: nat, i: nat)
    requires Sound(e) && i < |e.active|
    ensures var f := ActivateUpTo(c, e, scans);
      i < |f.active| && f.active[i] == e.active[i] && Outcomes(f, e.active[i].record.id) == Outcomes(e, e.active[i].record.id)
    decreases scans
  {
    hide ActivateOne, Sound, Outcomes;
    if |e.active| < MAX_ACTIVE && e.pending != [] && scans > 0 {
      ActivateOneKeeps(c, e);
      ActivateOneOutcomes(c, e, i);
      ActivationOutcomes(c, ActivateOne(c, e), scans - 1, i);
    }
  }

  lemma ActivateOneOutcomes(c: Client, e: Engine, i: nat)
    requires Sound(e) && i < |e.active| && e.pending != []
    ensures var f := ActivateOne(c, e);
      i < |f.active| && f.active[i] == e.active[i] && Outcomes(f, e.active[i].record.id) == Outcomes(e, e.active[i].record.id)
  {
    hide NewPlan, Sound, Inspected, Started, Outcomes;
    var r := e.pending[0];
    var m := Inspected(c.inspect(e.calls, r.url, r.referrer));
    var asked := e.(pending := e.pending[1..], calls := e.calls + 1, log := e.log + [Described(r, m)]);
    FrontTaken(e);
    assert r.id != e.active[i].record.id;
    OtherOutcomes(e, ActivateOne(c, e), r.id, e.active[i].record.id);
    if m.Some? {
      StartOutcomes(asked, r, m.value);
    }
  }

  lemma StartOutcomes(e: Engine, r: Record, m: Metadata)
    ensures var f := Started(e, r, m); f.completed == e.completed && f.failed == e.failed && e.active <= f.active
  {
    StartedParts(e, r, m);
    hide Started, NewPlan, RestoredPlan, StagedFile, Kept;
  }

  lemma OtherOutcomes(e: Engine, f: Engine, id: Text, other: Text)
    ensures f.completed == e.completed && (f.failed == e.failed || f.failed == e.failed + [id]) && other != id ==> Outcomes(f, other) == Outcomes(e, other)
  {
  }

  lemma OneOutcomes(e: Engine, a: Active, ending: Ending, id: Text)
    ensures var f, own := ReportOne(e, a, ending), a.record.id == id;
      Outcomes(f, id) == (Outcomes(e, id).0 + if own && a.finished then 1 else 0, Outcomes(e, id).1 + if own && a.failed then 1 else 0)
  {
    hide Finish, CompleteNow;
    FinishKeepsLists(NotedComplete(e, a), a.record.id, ending);
  }

  lemma {:induction false} ReportsOutcomes(e: Engine, endings: seq<Ending>, n: nat, i: nat)
    requires Sound(e) && n <= |e.active| && i < |e.active|
    ensures var id, own := e.active[i].record.id, i < n;
      Outcomes(ReportUpTo(e, endings, n), id) ==
        (Outcomes(e, id).0 + if own && e.active[i].finished then 1 else 0, Outcomes(e, id).1 + if own && e.active[i].failed then 1 else 0)
  {
    hide Sound, ReportOne, Outcomes;
    if n > 0 {
      ReportsOutcomes(e, endings, n - 1, i);
      SoundIds(e);
      OneOutcomes(ReportUpTo(e, endings, n - 1), e.active[n - 1], EndingAt(endings, n - 1), e.active[i].record.id);
    }
  }

  /** Among the active downloads there is still this one, with these segments, neither over nor failed. */
  ghost predicate Going(e: Engine, b: Active) {
    b in e.active && !b.finished && !b.failed
  }

  ghost predicate Gone(e: Engine, id: Text) {
    forall b | b in e.active :: b.record.id != id
  }

  /** What a pump makes of an active download is what its turn makes of it, and a report if it is over. */
  lemma PumpMakes(c: Client, e: Engine, endings: seq<Ending>, i: nat)
    requires Sound(e) && Resting(e) && i < |e.active|
    requires e.active[i].record.id !in e.paused && e.active[i].record.id !in e.cancelled
    ensures i < |ActivateUpTo(c, e, |e.pending|).active|
    ensures var f, g := BeforeTurn(c, e, i), AfterPump(c, e, endings);
      && Sound(f) && i < |f.active| && f.active[i] == e.active[i] && !Skipped(f, i)
      && var b, id := RunOne(c, f, i).active[i], e.active[i].record.id;
         && b.record == e.active[i].record
         && (if b.finished || b.failed then Gone(g, id) else Going(g, b))
         && Outcomes(g, id) == (Outcomes(e, id).0 + if b.finished then 1 else 0, Outcomes(e, id).1 + if b.failed then 1 else 0)
  {
    hide Sound, RunOne, RunUpTo, ActivateUpTo, ReportUpTo, Settled, Outcomes;
    var activated := ActivateUpTo(c, e, |e.pending|);
    var n := |activated.active|;
    var ran := RunUpTo(c, activated, n);
    ActivationOutcomes(c, e, |e.pending|, i);
    ActivationKeeps(c, e, |e.pending|);
    RunKeeps(c, activated, i);
    RunKeeps(c, activated, n);
    RunLeaves(c, activated, n);
    RunReaches(c, activated, n, i);
    SameOutcomes(activated, ran, e.active[i].record.id);
    RunOneKeeps(c, RunUpTo(c, activated, i), i);
    ReportsOutcomes(ran, endings, n, i);
    ReportFrame(ran, endings, n);
    SettledAre(ran.cancelled, ran.active);
    SoundIds(ran);
    SweptOutcomes(ReportUpTo(ran, endings, n), e.active[i].record.id);
    SettledOwn(ran, i);
  }

  lemma SameOutcomes(e: Engine, f: Engine, id: Text)
    requires f.completed == e.completed && f.failed == e.failed
    ensures Outcomes(f, id) == Outcomes(e, id)
  {
  }

  lemma SweptOutcomes(e: Engine, id: Text)
    ensures Outcomes(Swept(e), id) == Outcomes(e, id)
  {
    hide Settled;
  }

  lemma SettledOwn(e: Engine, i: nat)
    requires i < |e.active| && forall j, k | 0 <= j < k < |e.active| :: e.active[j].record.id != e.active[k].record.id
    requires e.active[i].record.id !in e.cancelled
    ensures var a, left := e.active[i], Settled(e.cancelled, e.active);
      if a.finished || a.failed then forall b | b in left :: b.record.id != a.record.id else a in left
  {
    hide Settled;
    SettledAre(e.cancelled, e.active);
    forall b | b in Settled(e.cancelled, e.active) && (e.active[i].finished || e.active[i].failed)
      ensures b.record.id != e.active[i].record.id
    {
      var k :| 0 <= k < |e.active| && e.active[k] == b;
      assert k != i;
    }
  }

  /** Over every run: a running download, neither paused nor cancelled, has one segment transferred in a pump, the first that
      is not finished. If the reply finishes the segment, the download goes on, or is reported completed once if that was the
      last; if not, it goes on with one more retry, and no report, exactly when the server allows another try, the disk took
      all of it and fewer than three retries were made, and otherwise it is reported failed once. */
  lemma PumpExactly(c: Client, calls: seq<Call>, endings: seq<Ending>, i: nat, k: nat)
    requires var e := Run(c, calls);
      i < |e.active| && e.active[i].record.id !in e.paused && e.active[i].record.id !in e.cancelled && Next(e.active[i].plan, k)
    ensures var e, g := Run(c, calls), Run(c, calls + [Pump(endings)]);
      i < |ActivateUpTo(c, e, |e.pending|).active| &&
      var a, f := e.active[i], BeforeTurn(c, e, i);
      var s, reply := a.plan.segments[k], c.stream(f.calls, Asking(a, k));
      var taken := Taken(f, a.record.id, reply);
      exists b: Active | Turned(a, k, reply, taken, b) ::
        if Finishes(s, reply, taken) then
          if forall t | t in b.plan.segments :: t.finished
          then Gone(g, a.record.id) && Outcomes(g, a.record.id) == (Outcomes(e, a.record.id).0 + 1, Outcomes(e, a.record.id).1)
          else Going(g, b) && Outcomes(g, a.record.id) == Outcomes(e, a.record.id)
        else if reply.retryable && taken == |reply.chunks| && s.retries < 3
        then Going(g, b) && Outcomes(g, a.record.id) == Outcomes(e, a.record.id)
        else Gone(g, a.record.id) && Outcomes(g, a.record.id) == (Outcomes(e, a.record.id).0, Outcomes(e, a.record.id).1 + 1)
  {
    hide Run, Sound, RunOne, ActivateUpTo, BeforeTurn, AfterPump, Going, Gone, Outcomes, Finishes, Taken, Becomes, Skipped, Resting, Asking;
    var e := Run(c, calls);
    RunIsSound(c, calls);
    OneMorePump(c, calls, endings);
    PumpMakes(c, e, endings, i);
    var f := BeforeTurn(c, e, i);
    TurnExactly(c, f, i, k);
    var b := RunOne(c, f, i).active[i];
    var a := e.active[i];
    var reply := c.stream(f.calls, Asking(a, k));
    assert Turned(a, k, reply, Taken(f, a.record.id, reply), b);
    if Finishes(a.plan.segments[k], reply, Taken(f, a.record.id, reply)) {
    } else {
      StillUnfinished(a, k, reply, Taken(f, a.record.id, reply), b);
    }
  }

  /** The download after its turn: the same but for the segment, which became what the reply makes of it. */
  ghost predicate Turned(a: Active, k: nat, reply: Stream, taken: nat, b: Active)
    requires k < |a.plan.segments| && taken <= |reply.chunks|
  {
    && b.record == a.record && |b.plan.segments| == |a.plan.segments| && b.plan.segments == a.plan.segments[k := b.plan.segments[k]]
    && Becomes(a.plan.segments[k], reply, taken, b.plan.segments[k])
  }

  lemma StillUnfinished(a: Active, k: nat, reply: Stream, taken: nat, b: Active)
    requires k < |a.plan.segments| && taken <= |reply.chunks| && Turned(a, k, reply, taken, b) && !Finishes(a.plan.segments[k], reply, taken)
    ensures !forall t | t in b.plan.segments :: t.finished
  {
    Unfinished(a.plan.segments[k], reply, taken, b.plan.segments, k);
  }

  // Activation.

  function PausedOf(rs: seq<Record>, paused: set<Text>, cancelled: set<Text>): seq<Record> {
    if rs == [] then []
    else (if rs[0].id in paused && rs[0].id !in cancelled then [rs[0]] else []) + PausedOf(rs[1..], paused, cancelled)
  }

  /** What the activation loop leaves waiting after n turns: the records behind, and the paused ones that it put back. */
  ghost predicate Scanned(e: Engine, f: Engine, n: nat) {
    n <= |e.pending| && f.pending == e.pending[n..] + PausedOf(e.pending[..n], e.paused, e.cancelled)
  }

  lemma FirstScanned(c: Client, e: Engine)
    requires e.pending != []
    ensures Scanned(e, ActivateOne(c, e), 1) && ActivateOne(c, e).paused == e.paused && ActivateOne(c, e).cancelled == e.cancelled
  {
    hide ActivateOne;
    FirstLeaves(c, e);
    assert PausedOf(e.pending[..1][1..], e.paused, e.cancelled) == [];
  }

  lemma FirstLeaves(c: Client, e: Engine)
    requires e.pending != []
    ensures var r, f := e.pending[0], ActivateOne(c, e);
      && f.pending == e.pending[1..] + (if r.id in e.paused && r.id !in e.cancelled then [r] else [])
      && f.paused == e.paused && f.cancelled == e.cancelled
  {
    hide NewPlan, Inspected, Started;
    var r := e.pending[0];
    var m := Inspected(c.inspect(e.calls, r.url, r.referrer));
    if m.Some? {
      StartScans(e.(pending := e.pending[1..], calls := e.calls + 1, log := e.log + [Described(r, m)]), r, m.value);
    }
  }

  lemma StartScans(e: Engine, r: Record, m: Metadata)
    ensures Started(e, r, m).pending == e.pending && Started(e, r, m).paused == e.paused && Started(e, r, m).cancelled == e.cancelled
  {
    StartedParts(e, r, m);
    hide Started, NewPlan, RestoredPlan, StagedFile, Kept;
  }

  lemma ScannedThen(e: Engine, f: Engine, g: Engine, n: nat)
    requires e.pending != [] && Scanned(e, f, 1) && f.paused == e.paused && f.cancelled == e.cancelled && n < |e.pending| && Scanned(f, g, n)
    ensures Scanned(e, g, n + 1)
  {
    var back := PausedOf(e.pending[..1], e.paused, e.cancelled);
    assert PausedOf(e.pending[..1][1..], e.paused, e.cancelled) == [];
    assert f.pending[..n] == e.pending[1..][..n] == e.pending[..n + 1][1..];
    assert f.pending[n..] == e.pending[n + 1..] + back;
    assert e.pending[..n + 1][0] == e.pending[0];
  }

  lemma {:induction false} ActivationScans(c: Client, e: Engine, scans: nat) returns (n: nat)
    requires scans <= |e.pending|
    ensures n <= scans && Scanned(e, ActivateUpTo(c, e, scans), n) && (n == scans || |ActivateUpTo(c, e, scans).active| >= 5)
    decreases scans
  {
    hide ActivateOne, Scanned;
    if |e.active| >= MAX_ACTIVE || e.pending == [] || scans == 0 {
      NothingScanned(e);
      n := 0;
    } else {
      FirstScanned(c, e);
      ScannedLength(e, ActivateOne(c, e), 1);
      var m := ActivationScans(c, ActivateOne(c, e), scans - 1);
      ScannedThen(e, ActivateOne(c, e), ActivateUpTo(c, e, scans), m);
      n := m + 1;
    }
  }

  lemma NothingScanned(e: Engine)
    ensures Scanned(e, e, 0)
  {
    assert e.pending[0..] == e.pending;
  }

  lemma ScannedLength(e: Engine, f: Engine, n: nat)
    requires Scanned(e, f, n)
    ensures |f.pending| >= |e.pending| - n
  {
  }

  lemma {:induction false} AllPaused(rs: seq<Record>, paused: set<Text>, cancelled: set<Text>)
    ensures forall r | r in PausedOf(rs, paused, cancelled) :: r in rs && r.id in paused
  {
    if rs != [] {
      AllPaused(rs[1..], paused, cancelled);
    }
  }

  /** The answer to an inspection that says how long the resource is, and that it is not empty. */
  predicate Answered(head: Option<Head>) {
    head.Some? && head.value.contentLength.Some? && head.value.contentLength.value > 0
  }

  ghost predicate Unanswered(c: Client, r: Record) {
    exists n: nat :: !Answered(c.inspect(n, r.url, r.referrer))
  }

  lemma InspectedExactly(head: Option<Head>)
    ensures Inspected(head).Some? <==> Answered(head)
    ensures Answered(head) ==>
              Inspected(head).value == Metadata(head.value.contentLength.value, head.value.acceptsRanges, head.value.etag, head.value.lastModified)
  {
  }

  /** What became of a record: it still waits, or it is active, or its inspection failed and was reported once. */
  ghost predicate Tried(c: Client, e: Engine, f: Engine, r: Record) {
    || r in f.pending
    || (exists a | a in f.active :: a.record == r)
    || (Unanswered(c, r) && Outcomes(f, r.id) == (Outcomes(e, r.id).0, Outcomes(e, r.id).1 + 1))
  }

  lemma FirstTried(c: Client, e: Engine)
    requires e.pending != [] && e.pending[0].id !in e.cancelled
    ensures Tried(c, e, ActivateOne(c, e), e.pending[0])
  {
    hide NewPlan, Started, Inspected, Answered, Unanswered;
    var r, f := e.pending[0], ActivateOne(c, e);
    var head := c.inspect(e.calls, r.url, r.referrer);
    var m := Inspected(head);
    var asked := e.(pending := e.pending[1..], calls := e.calls + 1, log := e.log + [Described(r, m)]);
    InspectedExactly(head);
    assert !Answered(head) ==> Unanswered(c, r) by {
      NotAnswered(c, r, e.calls);
    }
    if r.id in e.paused {
      assert f.pending[|f.pending| - 1] == r;
    } else if m.Some? {
      AnsweredIsPlanned(head, r);
      StartTries(asked, r, m.value);
    }
  }

  lemma NotAnswered(c: Client, r: Record, n: nat)
    ensures !Answered(c.inspect(n, r.url, r.referrer)) ==> Unanswered(c, r)
  {
  }

  lemma AnsweredIsPlanned(head: Option<Head>, r: Record)
    ensures Inspected(head).Some? ==> NewPlan(r, Inspected(head).value, MAX_SEGMENTS).segments != []
  {
  }

  lemma StartTries(e: Engine, r: Record, m: Metadata)
    ensures exists a | a in Started(e, r, m).active :: a.record == r
  {
    StartedParts(e, r, m);
    hide Started, NewPlan, RestoredPlan, StagedFile, Kept;
    assert Started(e, r, m).active[|e.active|].record == r;
  }

  lemma {:induction false} ActivationTries(c: Client, e: Engine, scans: nat, r: Record)
    requires Sound(e) && r in e.pending && r.id !in e.cancelled
    ensures Tried(c, e, ActivateUpTo(c, e, scans), r)
    decreases scans
  {
    hide ActivateOne, Sound, Unanswered, Outcomes;
    if |e.active| >= MAX_ACTIVE || e.pending == [] || scans == 0 {
    } else {
      var f := ActivateOne(c, e);
      FirstScanned(c, e);
      ActivateOneKeeps(c, e);
      if r in f.pending {
        ActivationTries(c, f, scans - 1, r);
        WaitingOutcomes(c, e, r);
      } else {
        WasFirst(e, f, r);
        FirstTried(c, e);
        NoOther(e, f);
        TriedStays(c, e, f, scans - 1, r);
      }
    }
  }

  lemma WasFirst(e: Engine, f: Engine, r: Record)
    requires e.pending != [] && Scanned(e, f, 1) && r in e.pending && r !in f.pending
    ensures r == e.pending[0]
  {
    assert forall i | 1 <= i < |e.pending| :: e.pending[i] == e.pending[1..][i - 1];
  }

  lemma NoOther(e: Engine, f: Engine)
    requires Sound(e) && e.pending != [] && Scanned(e, f, 1) && e.pending[0] !in f.pending
    ensures forall i | 0 <= i < |f.pending| :: f.pending[i].id != e.pending[0].id
  {
    FrontTaken(e);
    hide Sound;
    assert PausedOf(e.pending[..1][1..], e.paused, e.cancelled) == [];
    assert e.pending[..1][0] == e.pending[0];
    var back := PausedOf(e.pending[..1], e.paused, e.cancelled);
    assert f.pending == e.pending[1..] + back;
    assert f.pending == e.pending[1..];
  }

  /** While a record waits its tally is untouched. */
  lemma WaitingOutcomes(c: Client, e: Engine, r: Record)
    requires Sound(e) && e.pending != [] && r in ActivateOne(c, e).pending
    ensures Outcomes(ActivateOne(c, e), r.id) == Outcomes(e, r.id)
  {
    hide NewPlan, Sound, Inspected, Started, Outcomes;
    var first, f := e.pending[0], ActivateOne(c, e);
    var m := Inspected(c.inspect(e.calls, first.url, first.referrer));
    var asked := e.(pending := e.pending[1..], calls := e.calls + 1, log := e.log + [Described(first, m)]);
    FrontTaken(e);
    OtherOutcomes(e, f, first.id, r.id);
    SameOutcomes(e, e.(pending := e.pending[1..]), r.id);
    if m.Some? {
      StartOutcomes(asked, first, m.value);
      StartScans(asked, first, m.value);
      SameOutcomes(e, Started(asked, first, m.value), r.id);
    }
    if first.id in e.paused && first.id !in e.cancelled {
      SameOutcomes(e, f, r.id);
    }
  }

  /** Active downloads stay active in the loop, and what no longer waits is not reported again. */
  lemma {:induction false} TriedStays(c: Client, e: Engine, f: Engine, scans: nat, r: Record)
    requires Sound(f) && Tried(c, e, f, r) && r !in f.pending && (forall i | 0 <= i < |f.pending| :: f.pending[i].id != r.id)
    ensures Tried(c, e, ActivateUpTo(c, f, scans), r)
    decreases scans
  {
    hide ActivateOne, Sound, Unanswered, Outcomes;
    if |f.active| < MAX_ACTIVE && f.pending != [] && scans > 0 {
      var g := ActivateOne(c, f);
      ActivateOneKeeps(c, f);
      ActivateOneMoves(c, f);
      OtherTaken(c, f, r.id);
      MovedOn(c, e, f, g, r);
      TriedStays(c, e, g, scans - 1, r);
    }
  }

  lemma OtherTaken(c: Client, e: Engine, id: Text)
    requires e.pending != [] && e.pending[0].id != id
    ensures Outcomes(ActivateOne(c, e), id) == Outcomes(e, id)
  {
    hide NewPlan, Inspected, Started, Outcomes;
    var r := e.pending[0];
    var m := Inspected(c.inspect(e.calls, r.url, r.referrer));
    OtherOutcomes(e, ActivateOne(c, e), r.id, id);
    if m.Some? {
      StartOutcomes(e.(pending := e.pending[1..], calls := e.calls + 1, log := e.log + [Described(r, m)]), r, m.value);
    }
  }

  lemma MovedOn(c: Client, e: Engine, f: Engine, g: Engine, r: Record)
    requires Tried(c, e, f, r) && r !in f.pending && f.pending != [] && Moves(f, g) && Outcomes(g, r.id) == Outcomes(f, r.id)
    requires forall i | 0 <= i < |f.pending| :: f.pending[i].id != r.id
    ensures Tried(c, e, g, r) && r !in g.pending && forall i | 0 <= i < |g.pending| :: g.pending[i].id != r.id
  {
    hide Outcomes, Unanswered;
    if a :| a in f.active && a.record == r {
      var i :| 0 <= i < |f.active| && f.active[i] == a;
      assert g.active[i] == a;
    }
  }

  /** Over every run: a pump fills the room there is. At most five downloads are active, those that were stay, and unless
      there are five, nobody waits but the paused; the queue is served from its front. A record that no longer waits and was
      not cancelled is active, or its server did not describe it and that was reported once. */
  lemma RoomIsFilled(c: Client, calls: seq<Call>) returns (n: nat)
    ensures var e := Run(c, calls);
      var f := ActivateUpTo(c, e, |e.pending|);
      && |e.active| <= |f.active| <= 5 && (forall i | 0 <= i < |e.active| :: f.active[i] == e.active[i])
      && Scanned(e, f, n) && (|f.active| == 5 || forall r | r in f.pending :: r.id in e.paused)
      && forall r | r in e.pending && r.id !in e.cancelled :: Tried(c, e, f, r)
  {
    hide Run, Sound, Scanned, Tried, ActivateUpTo;
    var e := Run(c, calls);
    RunIsSound(c, calls);
    n := ActivationScans(c, e, |e.pending|);
    var f := ActivateUpTo(c, e, |e.pending|);
    ActivationKeeps(c, e, |e.pending|);
    AtMostFive(f);
    ActiveStay(c, e, |e.pending|);
    if n == |e.pending| {
      OnlyPaused(e, f);
    }
    forall r | r in e.pending && r.id !in e.cancelled
      ensures Tried(c, e, f, r)
    {
      ActivationTries(c, e, |e.pending|, r);
    }
  }

  lemma AtMostFive(e: Engine)
    requires Sound(e)
    ensures |e.active| <= 5
  {
    hide ActiveSound, Genuine, DistinctIds;
  }

  lemma OnlyPaused(e: Engine, f: Engine)
    requires Scanned(e, f, |e.pending|)
    ensures forall r | r in f.pending :: r.id in e.paused
  {
    AllPaused(e.pending[..|e.pending|], e.paused, e.cancelled);
  }

  lemma {:induction false} ActiveStay(c: Client, e: Engine, scans: nat)
    ensures var f := ActivateUpTo(c, e, scans);
      |e.active| <= |f.active| && forall i | 0 <= i < |e.active| :: f.active[i] == e.active[i]
    decreases scans
  {
    hide ActivateOne;
    if |e.active| < MAX_ACTIVE && e.pending != [] && scans > 0 {
      ActivateOneMoves(c, e);
      ActiveStay(c, ActivateOne(c, e), scans - 1);
      assert forall i | 0 <= i < |e.active| :: ActivateOne(c, e).active[i] == e.active[i] by {
        ActiveKept(e, ActivateOne(c, e));
      }
    }
  }

  lemma ActiveKept(e: Engine, f: Engine)
    requires e.pending != [] && Moves(e, f)
    ensures |e.active| <= |f.active| && forall i | 0 <= i < |e.active| :: f.active[i] == e.active[i]
  {
    assert forall i | 0 <= i < |e.active| :: f.active[..|e.active|][i] == e.active[i];
  }
}
