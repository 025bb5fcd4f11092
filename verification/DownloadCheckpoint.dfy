/** Checkpoints: what is saved of a plan, and putting it back into a new plan for the same download. */
module DownloadCheckpoint {
  import opened Bytes
  import opened Wrappers
  import opened DownloadPlan

  datatype Checkpoint = Checkpoint(
    id: Text, url: Text, referrer: Text, total: u64, done: u64,
    etag: Option<Text>, lastModified: Option<Text>, segments: seq<Segment>)

  method MakeCheckpoint(p: Plan) returns (c: Checkpoint)
    ensures c == CheckpointOf(p)
  {
    var segments: seq<Segment> := [];
    var i := 0;
    while i < |p.segments|
      invariant 0 <= i <= |p.segments|
      invariant segments == p.segments[..i]
    {
      var s := p.segments[i];
      segments := segments + [Segment(s.index, s.begin, s.end, s.done, s.retries, s.finished)];
      i := i + 1;
    }
    c := Checkpoint(p.id, p.url, p.referrer, p.metadata.total, p.done, p.metadata.etag, p.metadata.lastModified, segments);
  }

  function CheckpointOf(p: Plan): Checkpoint {
    Checkpoint(p.id, p.url, p.referrer, p.metadata.total, p.done, p.metadata.etag, p.metadata.lastModified, p.segments)
  }

  predicate SameHeader(p: Plan, c: Checkpoint) {
    && p.id == c.id && p.url == c.url
    && p.metadata.total == c.total && p.metadata.etag == c.etag && p.metadata.lastModified == c.lastModified
    && |p.segments| == |c.segments|
  }

  predicate Fits(s: Segment, saved: Segment) {
    && s.index == saved.index && s.begin == saved.begin && s.end == saved.end
    && saved.done <= Size(s)
  }

  /** The first saved segment that does not fit, or the number of segments when all do. */
  function FirstMisfit(segments: seq<Segment>, saved: seq<Segment>): (i: nat)
    requires |segments| == |saved|
    ensures i <= |segments|
    ensures i < |segments| ==> !Fits(segments[i], saved[i])
    ensures forall j | 0 <= j < i :: Fits(segments[j], saved[j])
  {
    if segments == [] || !Fits(segments[0], saved[0]) then 0 else 1 + FirstMisfit(segments[1..], saved[1..])
  }

  function Restored(s: Segment, saved: Segment): Segment {
    s.(done := saved.done, retries := saved.retries, finished := saved.finished || saved.done == Size(s))
  }

  /** The first k segments restored, the rest as they were. */
  function RestoredUpTo(segments: seq<Segment>, saved: seq<Segment>, k: nat): (r: seq<Segment>)
    requires |segments| == |saved| && k <= |segments|
    ensures |r| == |segments|
  {
    seq(|segments|, i requires 0 <= i < |segments| => if i < k then Restored(segments[i], saved[i]) else segments[i])
  }

  /** The plan after applying a checkpoint, and whether that succeeded. A misfit stops it where it is found:
      the segments before it stay restored. */
  function Applied(p: Plan, c: Checkpoint): (Plan, bool) {
    if !SameHeader(p, c) then (p, false)
    else
      var k := FirstMisfit(p.segments, c.segments);
      var segments := RestoredUpTo(p.segments, c.segments, k);
      if k < |p.segments| then (p.(segments := segments), false)
      else (p.(segments := segments, done := TotalDone(segments) % U64_LIMIT), true)
  }

  lemma {:induction false} SameDone(a: seq<Segment>, b: seq<Segment>)
    requires |a| == |b| && forall i | 0 <= i < |a| :: a[i].done == b[i].done
    ensures TotalDone(a) == TotalDone(b)
  {
    if a != [] {
      SameDone(a[..|a| - 1], b[..|b| - 1]);
    }
  }

  lemma MisfitAt(segments: seq<Segment>, saved: seq<Segment>, i: nat)
    requires |segments| == |saved| && i <= |segments|
    requires forall j | 0 <= j < i :: Fits(segments[j], saved[j])
    requires i < |segments| ==> !Fits(segments[i], saved[i])
    ensures FirstMisfit(segments, saved) == i
  {
    hide Fits;
  }

  class PlanInProgress {
    var plan: Plan

    constructor (p: Plan)
      ensures plan == p
    {
      plan := p;
    }

    method ApplyCheckpoint(c: Checkpoint) returns (ok: bool)
      modifies this
      ensures (plan, ok) == Applied(old(plan), c)
    {
      hide Size, Fits, TotalDone, FirstMisfit;
      if !SameHeader(plan, c) {
        return false;
      }
      NothingBelow(c.segments);
      var total: u64 := 0;
      var i := 0;
      while i < |plan.segments|
        invariant 0 <= i <= |plan.segments| == |c.segments| == |old(plan).segments|
        invariant plan == old(plan).(segments := plan.segments)
        invariant forall j | 0 <= j < i :: Fits(old(plan).segments[j], c.segments[j])
        invariant forall j | 0 <= j < i :: plan.segments[j] == Restored(old(plan).segments[j], c.segments[j])
        invariant forall j | i <= j < |plan.segments| :: plan.segments[j] == old(plan).segments[j]
        invariant total == TotalDone(c.segments[..i]) % U64_LIMIT
      {
        var s, saved := plan.segments[i], c.segments[i];
        if !Fits(s, saved) {
          MisfitAt(old(plan).segments, c.segments, i);
          assert plan.segments == RestoredUpTo(old(plan).segments, c.segments, i);
          return false;
        }
        plan := plan.(segments := plan.segments[i := Restored(s, saved)]);
        OneMoreDone(c.segments, i);
        total := (total as int + saved.done as int) % U64_LIMIT;
        i := i + 1;
      }
      assert c.segments[..i] == c.segments;
      SameDone(plan.segments, c.segments);
      MisfitAt(old(plan).segments, c.segments, i);
      assert plan.segments == RestoredUpTo(old(plan).segments, c.segments, i);
      plan := plan.(done := total);
      return true;
    }
  }

  lemma SameLayoutSize(a: seq<Segment>, b: seq<Segment>)
    requires SameLayout(a, b)
    ensures forall i | 0 <= i < |a| :: Size(a[i]) == Size(b[i])
  {
  }

  /** The layout of an underway plan is that of any new plan with the same length and segment count. */
  lemma LayoutIsDetermined(p: Plan, q: Plan, n: nat)
    requires Underway(p) && 0 < n <= q.metadata.total && q.segments == Layout(q.metadata.total, n)
    requires p.metadata.total == q.metadata.total && |p.segments| == |q.segments|
    ensures SameLayout(p.segments, q.segments)
  {
    hide Planned, Tiles, SegmentProgress;
    var m: nat :| 0 < m <= p.metadata.total && SameLayout(p.segments, Layout(p.metadata.total, m));
  }

  /** A genuine checkpoint put back into a new plan for the same download reproduces the progress exactly. */
  lemma GenuineApplies(p: Plan, q: Plan, n: nat)
    requires Underway(p) && 0 < n <= q.metadata.total && q.segments == Layout(q.metadata.total, n)
    requires SameHeader(q, CheckpointOf(p))
    ensures Applied(q, CheckpointOf(p)) == (q.(segments := p.segments, done := p.done), true)
  {
    hide Layout, Tiles;
    LayoutIsDetermined(p, q, n);
    SameLayoutSize(p.segments, q.segments);
    assert forall i | 0 <= i < |p.segments| :: SegmentProgress(p.segments[i]);
    assert FirstMisfit(q.segments, p.segments) == |q.segments|;
    assert RestoredUpTo(q.segments, p.segments, |q.segments|) == p.segments;
    UnderwayDone(p);
  }

  /** So a genuine checkpoint never fails half way: where it does not apply, nothing has changed. */
  lemma GenuineIsAllOrNothing(p: Plan, q: Plan, n: nat)
    requires Underway(p) && 0 < n <= q.metadata.total && q.segments == Layout(q.metadata.total, n)
    ensures var (r, ok) := Applied(q, CheckpointOf(p));
      && (ok <==> SameHeader(q, CheckpointOf(p)))
      && (ok ==> r == q.(segments := p.segments, done := p.done))
      && (!ok ==> r == q)
  {
    hide Underway, Layout, RestoredUpTo;
    if SameHeader(q, CheckpointOf(p)) {
      GenuineApplies(p, q, n);
    }
  }

  /** An arbitrary checkpoint fails half way exactly when its header fits, a later segment does not,
      and an earlier one changed something. */
  lemma HalfwayExactly(p: Plan, c: Checkpoint)
    ensures (!Applied(p, c).1 && Applied(p, c).0 != p) <==>
            && SameHeader(p, c)
            && FirstMisfit(p.segments, c.segments) < |p.segments|
            && exists i | 0 <= i < FirstMisfit(p.segments, c.segments) :: Restored(p.segments[i], c.segments[i]) != p.segments[i]
  {
    hide Fits, Restored;
    if SameHeader(p, c) {
      var k := FirstMisfit(p.segments, c.segments);
      var r := RestoredUpTo(p.segments, c.segments, k);
      assert forall i | 0 <= i < |r| :: r[i] == if i < k then Restored(p.segments[i], c.segments[i]) else p.segments[i];
      if forall i | 0 <= i < k :: Restored(p.segments[i], c.segments[i]) == p.segments[i] {
        assert r == p.segments;
      }
    }
  }

  /** A saved flag is believed: after a successful apply the plan is sound exactly when the checkpoint
      calls no segment finished that it does not also record as full. */
  lemma SavedFlagIsTrusted(q: Plan, c: Checkpoint, n: nat)
    requires 0 < n <= q.metadata.total && q.segments == Layout(q.metadata.total, n)
    requires Applied(q, c).1
    ensures Underway(Applied(q, c).0) <==> forall i | 0 <= i < |q.segments| :: c.segments[i].finished ==> c.segments[i].done == Size(q.segments[i])
  {
    hide Layout, TotalDone, Tiles, Applied;
    var p := Applied(q, c).0;
    AppliedShape(q, c, n);
    assert forall i | 0 <= i < |p.segments| :: Size(p.segments[i]) == Size(q.segments[i]);
    LayoutTiles(q.metadata.total, n);
    if forall i | 0 <= i < |q.segments| :: c.segments[i].finished ==> c.segments[i].done == Size(q.segments[i]) {
      forall i | 0 <= i < |p.segments|
        ensures SegmentProgress(p.segments[i])
      {
        TilesForward(q.segments, q.metadata.total, i);
      }
      UnderwayFrom(p, n);
    } else {
      var i :| 0 <= i < |q.segments| && c.segments[i].finished && c.segments[i].done != Size(q.segments[i]);
      assert !SegmentProgress(p.segments[i]);
      assert p.segments[i] in p.segments;
    }
  }

  lemma TilesForward(segments: seq<Segment>, total: int, i: int)
    requires Tiles(segments, total) && 0 <= i < |segments|
    ensures segments[i].begin <= segments[i].end
  {
  }

  lemma AppliedShape(q: Plan, c: Checkpoint, n: nat)
    requires 0 < n <= q.metadata.total && q.segments == Layout(q.metadata.total, n)
    requires Applied(q, c).1
    ensures var p := Applied(q, c).0;
      && p.metadata == q.metadata && |p.segments| == |q.segments| == |c.segments|
      && SameLayout(p.segments, Layout(p.metadata.total, n)) && Tiles(p.segments, p.metadata.total)
      && (forall i | 0 <= i < |p.segments| :: p.segments[i] == Restored(q.segments[i], c.segments[i]) && c.segments[i].done <= Size(q.segments[i]))
      && p.done == TotalDone(p.segments) % U64_LIMIT
  {
    hide Planned;
    LayoutTiles(q.metadata.total, n);
  }
}
