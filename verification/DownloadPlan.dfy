/** Download plans: the planner that cuts a resource into segments, the effect of one transfer on a plan,
    and the checkpoints that carry a plan's progress over a restart. */
module DownloadPlan {
  import opened Bytes
  import opened Wrappers

  const MAX_SEGMENTS: nat := 16
  const MAX_RETRIES: nat := 3

  /** `name` is the file name it is to be saved under. */
  datatype Record = Record(id: Text, url: Text, referrer: Text, name: Text, segmentLimit: nat)

  datatype Metadata = Metadata(total: u64, acceptsRanges: bool, etag: Option<Text>, lastModified: Option<Text>)

  /** `end` is inclusive, as in a range request. */
  datatype Segment = Segment(index: nat, begin: u64, end: u64, done: u64, retries: nat, finished: bool)

  datatype Plan = Plan(id: Text, url: Text, referrer: Text, metadata: Metadata, segments: seq<Segment>, done: u64)

  /** The length of a segment, in machine arithmetic. */
  function Size(s: Segment): u64 {
    (s.end as int - s.begin as int + 1) % U64_LIMIT
  }

  // The planner.

  function SegmentCount(r: Record, m: Metadata, requested: nat): nat {
    var cap := Min(Min(requested, r.segmentLimit), MAX_SEGMENTS);
    var atLeastOne := if cap < 1 then 1 else cap;
    if m.acceptsRanges then Min(atLeastOne, m.total) else 1
  }

  /** Where segment i of n begins. */
  function Start(total: nat, n: nat, i: nat): nat
    requires n > 0
  {
    i * (total / n) + Min(i, total % n)
  }

  lemma StartBounds(total: nat, n: nat, i: nat)
    requires 0 < n <= total && i < n
    ensures Start(total, n, 0) == 0 && Start(total, n, n) == total
    ensures Start(total, n, i + 1) == Start(total, n, i) + total / n + (if i < total % n then 1 else 0)
    ensures total / n >= 1
    ensures Start(total, n, i + 1) <= total
  {
    var base, rest := total / n, total % n;
    assert total == n * base + rest;
    Products(n, i, base);
  }

  lemma Products(n: nat, i: nat, base: nat)
    requires i < n
    ensures (i + 1) * base == i * base + base && (i + 1) * base <= n * base
    ensures base == 0 ==> n * base == 0
  {
    assert n * base == (i + 1) * base + (n - i - 1) * base;
  }

  function Planned(total: u64, n: nat, i: nat): Segment
    requires 0 < n <= total && i < n
  {
    StartBounds(total, n, i);
    Segment(i, Start(total, n, i), Start(total, n, i + 1) - 1, 0, 0, false)
  }

  function Layout(total: u64, n: nat): (segments: seq<Segment>)
    requires 0 < n <= total
    ensures |segments| == n
  {
    seq(n, i requires 0 <= i < n => Planned(total, n, i))
  }

  function NewPlan(r: Record, m: Metadata, requested: nat): Plan {
    Plan(r.id, r.url, r.referrer, m,
         if m.total == 0 then [] else Layout(m.total, SegmentCount(r, m, requested)), 0)
  }

  method MakePlan(r: Record, m: Metadata, requested: nat) returns (plan: Plan)
    ensures plan == NewPlan(r, m, requested)
  {
    plan := Plan(r.id, r.url, r.referrer, m, [], 0);
    if m.total == 0 {
      return;
    }
    var cap := Min(Min(requested, r.segmentLimit), MAX_SEGMENTS);
    if cap < 1 {
      cap := 1;
    }
    var count := if m.acceptsRanges then Min(cap, m.total) else 1;
    var base := m.total as int / count;
    var remainder := m.total as int % count;
    var cursor: int := 0;
    var segments: seq<Segment> := [];
    var i := 0;
    StartBounds(m.total, count, 0);
    while i < count
      invariant 0 <= i <= count
      invariant cursor == Start(m.total, count, i) <= m.total
      invariant |segments| == i
      invariant forall j | 0 <= j < i :: segments[j] == Planned(m.total, count, j)
    {
      StartBounds(m.total, count, i);
      var size := base + if i < remainder then 1 else 0;
      segments := segments + [Segment(i, cursor, cursor + size - 1, 0, 0, false)];
      cursor := cursor + size;
      i := i + 1;
    }
    assert segments == Layout(m.total, count);
    plan := plan.(segments := segments);
  }

  /** The segments cut [0, total) into nonempty contiguous pieces, numbered in order. */
  ghost predicate Tiles(segments: seq<Segment>, total: int) {
    && segments != []
    && segments[0].begin == 0
    && segments[|segments| - 1].end as int + 1 == total
    && (forall i | 0 <= i < |segments| :: segments[i].index == i && segments[i].begin <= segments[i].end)
    && (forall i | 0 <= i < |segments| - 1 :: segments[i + 1].begin as int == segments[i].end as int + 1)
  }

  lemma PlannedFacts(total: u64, n: nat, i: nat)
    requires 0 < n <= total && i < n
    ensures var s := Planned(total, n, i);
      && s.begin == Start(total, n, i) <= s.end && s.end as int + 1 == Start(total, n, i + 1)
      && total / n <= Size(s) <= total / n + 1
  {
    StartBounds(total, n, i);
  }

  lemma LayoutTiles(total: u64, n: nat)
    requires 0 < n <= total
    ensures Tiles(Layout(total, n), total)
    ensures forall i, j | 0 <= i < n && 0 <= j < n :: Size(Layout(total, n)[i]) <= Size(Layout(total, n)[j]) as int + 1
  {
    hide Start, Planned, Size;
    var segments := Layout(total, n);
    StartBounds(total, n, 0);
    forall i | 0 <= i < n
      ensures segments[i].index == i
      ensures segments[i].begin == Start(total, n, i) <= segments[i].end && segments[i].end as int + 1 == Start(total, n, i + 1)
      ensures total / n <= Size(segments[i]) <= total / n + 1
    {
      PlannedFacts(total, n, i);
      PlannedIndex(total, n, i);
    }
  }

  lemma PlannedIndex(total: u64, n: nat, i: nat)
    requires 0 < n <= total && i < n
    ensures Planned(total, n, i) == Segment(i, Planned(total, n, i).begin, Planned(total, n, i).end, 0, 0, false)
  {
  }

  /** What the planner promises: pieces that tile the resource, the first ones one byte longer than the others. There is one
      if the server takes no ranges; otherwise as many as were asked for, but no more than the record allows, sixteen, or
      the bytes there are, and at least one. */
  lemma PlanIsFair(r: Record, m: Metadata, requested: nat)
    requires m.total > 0
    ensures var p := NewPlan(r, m, requested);
      var segments := p.segments;
      && p == Plan(r.id, r.url, r.referrer, m, segments, 0) && Tiles(segments, m.total)
      && (!m.acceptsRanges ==> |segments| == 1)
      && (m.acceptsRanges ==>
            && 1 <= |segments| <= m.total && |segments| <= 16
            && (|segments| <= requested || |segments| == 1) && (|segments| <= r.segmentLimit || |segments| == 1)
            && (|segments| == m.total as int || |segments| == 16 || |segments| >= requested || |segments| >= r.segmentLimit))
      && (forall i | 0 <= i < |segments| ::
           segments[i].end as int - segments[i].begin as int + 1
             == m.total as int / |segments| + if i < m.total as int % |segments| then 1 else 0)
      && (forall s | s in segments :: s.done == 0 && s.retries == 0 && !s.finished)
  {
    var n := SegmentCount(r, m, requested);
    hide Tiles, Size, Start, Planned;
    LayoutTiles(m.total, n);
    forall i | 0 <= i < n
      ensures var s := Planned(m.total, n, i);
        && s.done == 0 && s.retries == 0 && !s.finished
        && s.end as int - s.begin as int + 1 == m.total as int / n + if i < m.total as int % n then 1 else 0
    {
      PlannedIndex(m.total, n, i);
      PlannedFacts(m.total, n, i);
      StartBounds(m.total, n, i);
    }
  }

  /** A tiling puts every byte of the resource in exactly one segment. */
  lemma {:induction false} TilesCover(segments: seq<Segment>, total: int, x: int)
    requires Tiles(segments, total) && 0 <= x < total
    ensures exists i | 0 <= i < |segments| :: segments[i].begin <= x <= segments[i].end
    ensures forall i, j | 0 <= i < j < |segments| :: segments[i].end < segments[j].begin
  {
    forall i, j | 0 <= i < j < |segments|
      ensures segments[i].end < segments[j].begin
    {
      TilesOrdered(segments, total, i, j);
    }
    var i := |segments| - 1;
    while x < segments[i].begin
      invariant 0 <= i < |segments| && x <= segments[i].end
    {
      i := i - 1;
    }
  }

  lemma {:induction false} TilesOrdered(segments: seq<Segment>, total: int, i: nat, j: nat)
    requires Tiles(segments, total) && i < j < |segments|
    ensures segments[i].end < segments[j].begin
    decreases j
  {
    if i < j - 1 {
      TilesOrdered(segments, total, i, j - 1);
    }
  }

  // Progress.

  function TotalDone(segments: seq<Segment>): nat {
    if segments == [] then 0 else TotalDone(segments[..|segments| - 1]) + segments[|segments| - 1].done
  }

  method SumDone(segments: seq<Segment>) returns (total: u64)
    ensures total == TotalDone(segments) % U64_LIMIT
  {
    total := 0;
    var i := 0;
    while i < |segments|
      invariant 0 <= i <= |segments|
      invariant total == TotalDone(segments[..i]) % U64_LIMIT
    {
      assert segments[..i + 1][..i] == segments[..i];
      total := (total as int + segments[i].done as int) % U64_LIMIT;
      i := i + 1;
    }
    assert segments[..i] == segments;
  }

  ghost predicate SegmentProgress(s: Segment) {
    && s.begin <= s.end
    && s.done <= Size(s)
    && (s.finished <==> s.done == Size(s))
  }

  /** A plan on its way: the layout of its own metadata, each segment finished exactly when it is full. */
  ghost predicate Underway(p: Plan) {
    && Tiles(p.segments, p.metadata.total)
    && (exists n: nat | 0 < n <= p.metadata.total :: SameLayout(p.segments, Layout(p.metadata.total, n)))
    && (forall s | s in p.segments :: SegmentProgress(s))
    && p.done == TotalDone(p.segments)
  }

  ghost predicate SameLayout(a: seq<Segment>, b: seq<Segment>) {
    && |a| == |b|
    && forall i | 0 <= i < |a| :: a[i].index == b[i].index && a[i].begin == b[i].begin && a[i].end == b[i].end
  }

  /** What has been fetched never exceeds the resource, and is all of it once every segment is full. */
  lemma {:induction false} DoneBelow(segments: seq<Segment>, total: u64, k: nat)
    requires Tiles(segments, total) && k <= |segments|
    requires forall s | s in segments :: s.done <= Size(s)
    ensures TotalDone(segments[..k]) <= if k == 0 then 0 else segments[k - 1].end as int + 1
    ensures (forall i | 0 <= i < k :: segments[i].done == Size(segments[i])) ==>
              TotalDone(segments[..k]) == if k == 0 then 0 else segments[k - 1].end as int + 1
  {
    hide Tiles, Size;
    if k == 0 {
      NothingBelow(segments);
    } else {
      DoneBelow(segments, total, k - 1);
      TileAt(segments, total, k - 1);
      OneMoreDone(segments, k - 1);
      assert segments[k - 1] in segments;
    }
  }

  lemma NothingBelow(segments: seq<Segment>)
    ensures TotalDone(segments[..0]) == 0
  {
  }

  lemma OneMoreDone(segments: seq<Segment>, i: nat)
    requires i < |segments|
    ensures TotalDone(segments[..i + 1]) == TotalDone(segments[..i]) + segments[i].done
  {
    assert segments[..i + 1][..i] == segments[..i];
  }

  /** Where a segment of a tiling begins, and its length. */
  lemma TileAt(segments: seq<Segment>, total: u64, i: nat)
    requires Tiles(segments, total) && i < |segments|
    ensures segments[i].begin as int == if i == 0 then 0 else segments[i - 1].end as int + 1
    ensures Size(segments[i]) == segments[i].end - segments[i].begin + 1
  {
    TilesEnd(segments, total, i);
  }

  lemma {:induction false} TilesEnd(segments: seq<Segment>, total: u64, i: nat)
    requires Tiles(segments, total) && i < |segments|
    ensures segments[i].end < total
    decreases |segments| - i
  {
    if i < |segments| - 1 {
      TilesEnd(segments, total, i + 1);
    }
  }

  lemma UnderwayDone(p: Plan)
    requires Underway(p)
    ensures p.done <= p.metadata.total
    ensures (forall s | s in p.segments :: s.finished) ==> p.done == p.metadata.total
  {
    hide Tiles, SameLayout, Layout, TotalDone, Size;
    forall s | s in p.segments
      ensures s.done <= Size(s) && (s.finished ==> s.done == Size(s))
    {
      assert SegmentProgress(s);
    }
    WholeDone(p.segments, p.metadata.total);
  }

  lemma WholeDone(segments: seq<Segment>, total: u64)
    requires Tiles(segments, total) && forall s | s in segments :: s.done <= Size(s)
    ensures TotalDone(segments) <= total
    ensures (forall s | s in segments :: s.done == Size(s)) ==> TotalDone(segments) == total
  {
    hide Size, TotalDone;
    DoneBelow(segments, total, |segments|);
    assert segments[..|segments|] == segments;
  }

  // The effect of one transfer.

  datatype TransferResult = TransferResult(completed: bool, retryable: bool, transferred: u64)

  /** The bytes credited to a segment after a transfer: machine addition, capped at the segment. */
  function Credited(s: Segment, r: TransferResult): u64 {
    Min(Size(s), (s.done as int + r.transferred as int) % U64_LIMIT)
  }

  predicate Fills(s: Segment, r: TransferResult) {
    r.completed || Credited(s, r) >= Size(s)
  }

  predicate Retries(s: Segment, r: TransferResult) {
    r.retryable && s.retries < MAX_RETRIES
  }

  function AfterTransfer(s: Segment, r: TransferResult): Segment {
    if Fills(s, r) then s.(done := Size(s), finished := true)
    else if Retries(s, r) then s.(done := Credited(s, r), retries := s.retries + 1)
    else s.(done := Credited(s, r))
  }

  function WithSegment(p: Plan, i: nat, s: Segment): Plan
    requires i < |p.segments|
  {
    var segments := p.segments[i := s];
    p.(segments := segments, done := TotalDone(segments) % U64_LIMIT)
  }

  lemma TransferredSegment(s: Segment, r: TransferResult)
    requires SegmentProgress(s) && !s.finished
    ensures SegmentProgress(AfterTransfer(s, r))
    ensures AfterTransfer(s, r) == s.(done := AfterTransfer(s, r).done, retries := AfterTransfer(s, r).retries, finished := AfterTransfer(s, r).finished)
  {
  }

  /** Machine addition of the segments never wraps, so a sound plan needs only sound segments. */
  lemma UnderwayFrom(p: Plan, n: nat)
    requires Tiles(p.segments, p.metadata.total)
    requires 0 < n <= p.metadata.total && SameLayout(p.segments, Layout(p.metadata.total, n))
    requires forall i | 0 <= i < |p.segments| :: SegmentProgress(p.segments[i])
    requires p.done == TotalDone(p.segments) % U64_LIMIT
    ensures Underway(p)
  {
    hide Layout, Tiles, SameLayout;
    DoneBelow(p.segments, p.metadata.total, |p.segments|);
    assert p.segments[..|p.segments|] == p.segments;
    TilesNonempty(p.segments, p.metadata.total);
    TilesEnd(p.segments, p.metadata.total, |p.segments| - 1);
  }

  lemma TilesNonempty(segments: seq<Segment>, total: int)
    requires Tiles(segments, total)
    ensures |segments| > 0
  {
  }

  lemma TilesMoved(a: seq<Segment>, b: seq<Segment>, total: int)
    requires Tiles(a, total) && SameLayout(a, b)
    ensures Tiles(b, total)
  {
  }

  lemma SameLayoutChains(a: seq<Segment>, b: seq<Segment>, c: seq<Segment>)
    requires SameLayout(a, b) && SameLayout(b, c)
    ensures SameLayout(a, c) && SameLayout(b, a)
  {
  }

  /** Whatever a transfer answers, the total stays the sum of the segments and finished stays full. */
  lemma TransferKeepsUnderway(p: Plan, i: nat, r: TransferResult)
    requires Underway(p) && i < |p.segments| && !p.segments[i].finished
    ensures Underway(WithSegment(p, i, AfterTransfer(p.segments[i], r)))
  {
    hide AfterTransfer, Layout, Tiles, SegmentProgress, TotalDone;
    assert SegmentProgress(p.segments[i]);
    TransferredSegment(p.segments[i], r);
    var n: nat :| 0 < n <= p.metadata.total && SameLayout(p.segments, Layout(p.metadata.total, n));
    var after := p.segments[i := AfterTransfer(p.segments[i], r)];
    assert SameLayout(p.segments, after);
    SameLayoutChains(p.segments, after, p.segments);
    SameLayoutChains(after, p.segments, Layout(p.metadata.total, n));
    TilesMoved(p.segments, after, p.metadata.total);
    UnderwayFrom(WithSegment(p, i, AfterTransfer(p.segments[i], r)), n);
  }

  lemma {:induction false} NothingDone(segments: seq<Segment>)
    requires forall s | s in segments :: s.done == 0
    ensures TotalDone(segments) == 0
  {
    if segments != [] {
      NothingDone(segments[..|segments| - 1]);
    }
  }

  lemma NewPlanUnderway(r: Record, m: Metadata, requested: nat)
    requires m.total > 0
    ensures Underway(NewPlan(r, m, requested))
  {
    hide Tiles, Layout, SegmentCount;
    var p := NewPlan(r, m, requested);
    PlanIsFair(r, m, requested);
    NothingDone(p.segments);
    FreshProgress(p);
    CountBounds(r, m, requested);
    assert SameLayout(p.segments, Layout(m.total, SegmentCount(r, m, requested)));
  }

  lemma CountBounds(r: Record, m: Metadata, requested: nat)
    requires m.total > 0
    ensures 0 < SegmentCount(r, m, requested) <= m.total
  {
  }

  lemma FreshProgress(p: Plan)
    requires Tiles(p.segments, p.metadata.total)
    requires forall s | s in p.segments :: s.done == 0 && !s.finished
    ensures forall s | s in p.segments :: SegmentProgress(s)
  {
    forall i | 0 <= i < |p.segments|
      ensures SegmentProgress(p.segments[i])
    {
      TilesEnd(p.segments, p.metadata.total, i);
    }
  }
}
