/** A completed download was released from the URL that its record names. */
module ReleasedRecord {
  import opened Bytes
  import opened Wrappers
  import opened DownloadPlan
  import opened StagedPaths
  import opened HttpTransport
  import opened TransferScheduler
  import opened SchedulerInvariants
  import opened SchedulerTheorems
  import opened PumpEvents
  import opened Provenance
  import opened EndToEnd
  import opened StaleFiles
  import opened DownloadQueue
  import opened Wardveil
  import opened DownloadRuntime
  import opened ReleaseGate
  import opened RuntimeRuns
  import opened ReleasedResource

  ghost predicate ListedRecord(e: Engine, record: Record) {
    record in e.pending || exists a | a in e.active :: a.record == record
  }

  /** What the queue says of a download that the scheduler has. */
  predicate IsRecord(items: seq<Item>, record: Record) {
    HasItem(items, record.id) && RecordOf(items[FindItem(items, record.id)]) == record
  }

  ghost predicate QueueMatches(r: Runtime) {
    forall record: Record | ListedRecord(r.engine, record) :: IsRecord(r.items, record)
  }

  ghost predicate OfRecord(items: seq<Item>, x: Release, id: Text) {
    x.plan.id == id && HasItem(items, id) && x.plan.url == items[FindItem(items, id)].request.url
  }

  ghost predicate Sourced(r: Runtime) {
    && QueueMatches(r)
    && forall id | Known(r, id, {Completed}) :: exists k | 0 <= k < |r.releases| :: OfRecord(r.items, r.releases[k], id)
  }

  // The scheduler makes no records of its own.

  lemma ActivateOneLists(c: Client, e: Engine, record: Record)
    requires e.pending != [] && ListedRecord(ActivateOne(c, e), record)
    ensures ListedRecord(e, record)
  {
    hide NewPlan, RestoredPlan, Checkpointed, StagedFile, Kept, Inspected;
    var r := e.pending[0];
    var m := Inspected(c.inspect(e.calls, r.url, r.referrer));
    if m.Some? {
      StartedLists(e.(pending := e.pending[1..], calls := e.calls + 1, log := e.log + [Described(r, m)]), r, m.value);
    }
  }

  lemma StartedLists(e: Engine, r: Record, m: Metadata)
    ensures Started(e, r, m).pending == e.pending
    ensures forall a | a in Started(e, r, m).active :: a in e.active || a.record == r
  {
    hide NewPlan, RestoredPlan, StagedFile, Kept;
  }

  lemma {:induction false} ActivationLists(c: Client, e: Engine, scans: nat, record: Record)
    requires ListedRecord(ActivateUpTo(c, e, scans), record)
    ensures ListedRecord(e, record)
    decreases scans
  {
    hide ActivateOne, ListedRecord;
    if |e.active| < MAX_ACTIVE && e.pending != [] && scans > 0 {
      ActivationLists(c, ActivateOne(c, e), scans - 1, record);
      ActivateOneLists(c, e, record);
    }
  }

  lemma WorkedLists(c: Client, e: Engine, i: nat)
    requires Sound(e) && i < |Worked(c, e).active|
    ensures ListedRecord(e, Worked(c, e).active[i].record)
    ensures Worked(c, e).pending == ActivateUpTo(c, e, |e.pending|).pending
  {
    hide Sound, ActivateUpTo, RunUpTo;
    var activated := ActivateUpTo(c, e, |e.pending|);
    ActivationKeeps(c, e, |e.pending|);
    RunKeeps(c, activated, |activated.active|);
    assert activated.active[i] in activated.active;
    ActivationLists(c, e, |e.pending|, activated.active[i].record);
  }

  lemma WorkPending(c: Client, e: Engine, record: Record)
    requires Sound(e) && record in Worked(c, e).pending
    ensures ListedRecord(e, record)
  {
    hide Sound, ActivateUpTo, RunUpTo;
    var activated := ActivateUpTo(c, e, |e.pending|);
    ActivationKeeps(c, e, |e.pending|);
    RunKeeps(c, activated, |activated.active|);
    ActivationLists(c, e, |e.pending|, record);
  }

  lemma PumpLists(c: Client, e: Engine, endings: seq<Ending>, record: Record)
    requires Sound(e) && ListedRecord(AfterPump(c, e, endings), record)
    ensures ListedRecord(e, record)
  {
    hide Sound, Worked, ReportUpTo, TransferScheduler.Settled;
    var worked, f := Worked(c, e), AfterPump(c, e, endings);
    ReportFrame(worked, endings, |worked.active|);
    SettledAre(worked.cancelled, worked.active);
    if record in f.pending {
      WorkPending(c, e, record);
    } else {
      var a :| a in f.active && a.record == record;
      var i :| 0 <= i < |worked.active| && worked.active[i] == a;
      WorkedLists(c, e, i);
    }
  }

  // What is released by a report is of the plan reported.

  ghost predicate PlanIn(actives: seq<Active>, p: Plan) {
    exists i | 0 <= i < |actives| :: actives[i].plan == p
  }

  lemma ReportedPlan(scanner: Scanner, r: Runtime, a: Active)
    ensures var s := ReportedBack(scanner, r, a);
      s.releases == r.releases || (|s.releases| == |r.releases| + 1 && r.releases <= s.releases && s.releases[|r.releases|].plan == a.plan)
  {
    hide VerdictOf, WithState, Finish, NotedComplete, Proper;
    var noted := r.(engine := NotedComplete(r.engine, a));
    VerdictFits(scanner, Verifies(noted, a.plan.id), a.plan, a.since);
  }

  lemma {:induction false} CalledBackPlans(scanner: Scanner, r: Runtime, actives: seq<Active>)
    ensures var s := CalledBack(scanner, r, actives);
      r.releases <= s.releases && forall k | |r.releases| <= k < |s.releases| :: PlanIn(actives, s.releases[k].plan)
  {
    hide ReportedBack;
    if actives != [] {
      var last := |actives| - 1;
      var before, s := CalledBack(scanner, r, actives[..last]), CalledBack(scanner, r, actives);
      CalledBackPlans(scanner, r, actives[..last]);
      ReportedPlan(scanner, before, actives[last]);
      forall k | |r.releases| <= k < |s.releases|
        ensures PlanIn(actives, s.releases[k].plan)
      {
        if k < |before.releases| {
          assert PlanIn(actives[..last], before.releases[k].plan);
          var i :| 0 <= i < last && actives[..last][i].plan == before.releases[k].plan;
          assert actives[i].plan == s.releases[k].plan;
        } else {
          assert actives[last].plan == s.releases[k].plan;
        }
      }
    }
  }

  // The queue keeps its records.

  ghost predicate KeepsRecords(items: seq<Item>, after: seq<Item>) {
    forall id | HasItem(items, id) :: HasItem(after, id) && SameAsked(items[FindItem(items, id)], after[FindItem(after, id)])
  }

  predicate SameAsked(item: Item, after: Item) {
    after.id == item.id && after.request == item.request && after.segmentLimit == item.segmentLimit
  }

  lemma StatesKeepRecords(items: seq<Item>, after: seq<Item>)
    requires OnlyStates(items, after)
    ensures KeepsRecords(items, after)
  {
    forall id | HasItem(items, id)
      ensures HasItem(after, id) && SameAsked(items[FindItem(items, id)], after[FindItem(after, id)])
    {
      SameIds(items, after, id);
    }
  }

  lemma AddedKeepsRecords(items: seq<Item>, item: Item)
    requires !HasItem(items, item.id)
    ensures KeepsRecords(items, items + [item]) && IsRecord(items + [item], RecordOf(item))
  {
    hide FileName;
    forall id
      ensures HasItem(items, id) ==> HasItem(items + [item], id) && SameAsked(items[FindItem(items, id)], (items + [item])[FindItem(items + [item], id)])
    {
      AppendedFind(items, item, id);
    }
    AppendedFind(items, item, item.id);
  }

  lemma KeepsChain(a: seq<Item>, b: seq<Item>, d: seq<Item>)
    requires KeepsRecords(a, b) && KeepsRecords(b, d)
    ensures KeepsRecords(a, d)
  {
    hide FindItem;
  }

  lemma RecordKept(items: seq<Item>, after: seq<Item>, record: Record)
    requires KeepsRecords(items, after) && IsRecord(items, record)
    ensures IsRecord(after, record)
  {
    hide FindItem, FileName;
  }

  lemma ReleaseKept(items: seq<Item>, after: seq<Item>, x: Release, id: Text)
    requires KeepsRecords(items, after) && OfRecord(items, x, id)
    ensures OfRecord(after, x, id)
  {
    hide FindItem;
  }

  /** Nothing newly listed, nothing newly completed. */
  lemma StillSourced(r: Runtime, s: Runtime)
    requires Sourced(r) && KeepsRecords(r.items, s.items) && r.releases <= s.releases
    requires forall record: Record | ListedRecord(s.engine, record) :: ListedRecord(r.engine, record) || IsRecord(s.items, record)
    requires forall id | Known(s, id, {Completed}) :: Known(r, id, {Completed})
    ensures Sourced(s)
  {
    hide ListedRecord, IsRecord, OfRecord, Known, KeepsRecords;
    forall record: Record | ListedRecord(s.engine, record)
      ensures IsRecord(s.items, record)
    {
      if ListedRecord(r.engine, record) {
        RecordKept(r.items, s.items, record);
      }
    }
    forall id | Known(s, id, {Completed})
      ensures exists k | 0 <= k < |s.releases| :: OfRecord(s.items, s.releases[k], id)
    {
      var k :| 0 <= k < |r.releases| && OfRecord(r.items, r.releases[k], id);
      ReleaseKept(r.items, s.items, r.releases[k], id);
      assert s.releases[k] == r.releases[k];
    }
  }

  // A pump.

  /** A new release of a pump is of a record that the scheduler had. */
  lemma PumpReleases(c: Client, scanner: Scanner, r: Runtime, now: int, k: nat) returns (record: Record)
    requires Gated(r) && |r.releases| <= k < |AfterRuntimePump(c, scanner, r, now).releases|
    ensures ListedRecord(r.engine, record)
    ensures var p := AfterRuntimePump(c, scanner, r, now).releases[k].plan; p.id == record.id && p.url == record.url
  {
    hide Gated, ReleasedDue, AfterWork, CalledBack, Sound, Worked, Swept, ListedRecord;
    var released := ReleasedDue(r, now);
    LetGo(r, now);
    LetGoLists(r, now);
    GatedSound(released);
    WorkEngine(c, released);
    WorkKeeps(c, released.engine);
    var worked := AfterWork(c, released);
    var s := AfterRuntimePump(c, scanner, r, now);
    CalledBackPlans(scanner, worked, worked.engine.active);
    assert PlanIn(worked.engine.active, s.releases[k].plan);
    var i :| 0 <= i < |worked.engine.active| && worked.engine.active[i].plan == s.releases[k].plan;
    OneSound(worked.engine, i);
    ActiveUnderway(worked.engine.active[i]);
    WorkedLists(c, released.engine, i);
    record := worked.engine.active[i].record;
    SameListedRecord(released.engine, r.engine, record);
  }

  lemma PumpSourced(c: Client, scanner: Scanner, r: Runtime, now: int)
    requires Gated(r) && Sourced(r)
    ensures Sourced(AfterRuntimePump(c, scanner, r, now))
  {
    hide Gated, Sound, ListedRecord, IsRecord, OfRecord, Known, ReleasedDue, KeepsRecords, AfterRuntimePump, AfterPump, OnlyStates, Proper;
    var s, released := AfterRuntimePump(c, scanner, r, now), ReleasedDue(r, now);
    PumpGates(c, scanner, r, now);
    PumpStates(c, scanner, r, now);
    StatesKeepRecords(r.items, s.items);
    LetGo(r, now);
    LetGoLists(r, now);
    GatedSound(released);
    var endings := PumpEngine(c, scanner, r, now);
    forall record: Record | ListedRecord(s.engine, record)
      ensures IsRecord(s.items, record)
    {
      PumpLists(c, released.engine, endings, record);
      SameListedRecord(released.engine, r.engine, record);
      RecordKept(r.items, s.items, record);
    }
    forall id | Known(s, id, {Completed})
      ensures exists k | 0 <= k < |s.releases| :: OfRecord(s.items, s.releases[k], id)
    {
      assert PumpEffect(r, s, id);
      CompletedByPump(r, s, id);
      if Known(r, id, {Completed}) {
        var k :| 0 <= k < |r.releases| && OfRecord(r.items, r.releases[k], id);
        ReleaseKept(r.items, s.items, r.releases[k], id);
        assert s.releases[k] == r.releases[k];
      } else {
        var k :| |r.releases| <= k < |s.releases| && s.releases[k].plan.id == id;
        var record := PumpReleases(c, scanner, r, now, k);
        RecordKept(r.items, s.items, record);
        RecordReleased(s.items, record, s.releases[k]);
      }
    }
  }

  lemma CompletedByPump(r: Runtime, s: Runtime, id: Text)
    requires PumpEffect(r, s, id) && Known(s, id, {Completed})
    ensures Known(r, id, {Completed}) || exists k | |r.releases| <= k < |s.releases| :: s.releases[k].plan.id == id
  {
    hide Known, StateOf, Listed;
  }

  lemma RecordReleased(items: seq<Item>, record: Record, x: Release)
    requires IsRecord(items, record) && x.plan.id == record.id && x.plan.url == record.url
    ensures OfRecord(items, x, record.id)
  {
    hide FindItem, FileName;
  }

  lemma SameListedRecord(e: Engine, f: Engine, record: Record)
    requires e.pending == f.pending && e.active == f.active
    ensures ListedRecord(e, record) == ListedRecord(f, record)
  {
  }

  lemma LetGoLists(r: Runtime, now: int)
    ensures ReleasedDue(r, now).engine.pending == r.engine.pending && ReleasedDue(r, now).engine.active == r.engine.active
  {
    hide Due;
  }

  // The other calls.

  lemma BegunSourced(r: Runtime, item: Item, prepares: bool, now: int)
    requires Gated(r) && Sourced(r) && New(r, item)
    ensures Sourced(Begun(r, item, prepares, now))
  {
    hide Gated, Sourced, KeepsRecords, IsRecord, Known, Begun, New, RecordOf, ListedRecord, WithState, OnlyStates;
    var s, added := Begun(r, item, prepares, now), r.items + [item];
    BeginGates(r, item, prepares, now);
    BegunLooks(r, item, prepares, now);
    BegunState(r, item, prepares, now);
    AddedKeepsRecords(r.items, item);
    DistinctKept(added, item.id, Cancelled);
    SelfStates(added);
    StatesKeepRecords(added, s.items);
    KeepsChain(r.items, added, s.items);
    NewRecord(r, item);
    RecordKept(added, s.items, RecordOf(item));
    forall record: Record | ListedRecord(s.engine, record)
      ensures ListedRecord(r.engine, record) || IsRecord(s.items, record)
    {
      BegunRecords(r, item, prepares, now, record);
    }
    forall id | Known(s, id, {Completed})
      ensures Known(r, id, {Completed})
    {
      OtherKnown(r, s, id, item.id);
    }
    StillSourced(r, s);
  }

  /** Beginning a download adds its record, perhaps already cancelled. */
  lemma BegunLooks(r: Runtime, item: Item, prepares: bool, now: int)
    ensures var s := Begun(r, item, prepares, now);
      && s.releases == r.releases
      && (s.items == r.items + [item] || s.items == WithState(r.items + [item], item.id, Cancelled))
  {
    hide Future, FileName, CanQueue, StagedPath, Off, WithState;
  }

  lemma BegunRecords(r: Runtime, item: Item, prepares: bool, now: int, record: Record)
    requires ListedRecord(Begun(r, item, prepares, now).engine, record)
    ensures ListedRecord(r.engine, record) || record == RecordOf(item)
  {
    hide Future, RecordOf, CanQueue, StagedPath, Off, WithState, IsPending, IsActive;
  }

  lemma NewRecord(r: Runtime, item: Item)
    requires New(r, item)
    ensures IsRecord(r.items + [item], RecordOf(item)) && !HasItem(r.items, item.id)
  {
    hide FileName, Numbered;
    AppendedFind(r.items, item, item.id);
  }

  lemma SelfStates(items: seq<Item>)
    ensures OnlyStates(items, items)
  {
  }

  lemma OtherKnown(r: Runtime, s: Runtime, id: Text, but: Text)
    requires id != but ==> StateOf(s, id) == StateOf(r, id)
    ensures id != but ==> Known(s, id, {Completed}) == Known(r, id, {Completed})
  {
  }

  lemma PausedSourced(r: Runtime, id: Text)
    requires Gated(r) && Sourced(r)
    ensures Sourced(AfterRuntimePause(r, id)) && Sourced(AfterRuntimeResume(r, id))
  {
    hide Gated, Sourced, KeepsRecords, IsRecord, OnlyStates, WithState, StateOf;
    PauseGates(r, id);
    SelfStates(r.items);
    DistinctKept(r.items, id, Paused);
    DistinctKept(r.items, id, Queued);
    StatesKeepRecords(r.items, AfterRuntimePause(r, id).items);
    StatesKeepRecords(r.items, AfterRuntimeResume(r, id).items);
    StillSourced(r, AfterRuntimePause(r, id));
    StillSourced(r, AfterRuntimeResume(r, id));
  }

  lemma WithdrawnLists(e: Engine, id: Text, drops: Option<Text>, record: Record)
    requires ListedRecord(Withdrawn(e, id, drops), record)
    ensures ListedRecord(e, record)
  {
    hide WithoutRecord, WithoutActive;
    WithoutRecordIs(e.pending, id);
    WithoutActiveIs(e.active, id);
  }

  lemma CancelledSourced(r: Runtime, id: Text, discard: bool)
    requires Gated(r) && Sourced(r)
    ensures Sourced(AfterRuntimeCancel(r, id, discard))
  {
    hide Gated, Sourced, KeepsRecords, IsRecord, OnlyStates, WithState, StateOf, Withdrawn, ListedRecord;
    var s := AfterRuntimeCancel(r, id, discard);
    CancelGates(r, id, discard);
    SameReleases(r, id, discard, (false, false));
    SelfStates(r.items);
    DistinctKept(r.items, id, Cancelled);
    StatesKeepRecords(r.items, s.items);
    forall record: Record | ListedRecord(s.engine, record)
      ensures ListedRecord(r.engine, record)
    {
      if s != r {
        WithdrawnLists(r.engine, id, if discard && id in r.engine.names then Some(r.engine.names[id]) else None, record);
      }
    }
    StillSourced(r, s);
  }

  lemma QueuedLists(e: Engine, other: Record, record: Record)
    requires ListedRecord(AfterQueue(e, other), record)
    ensures ListedRecord(e, record) || record == other
  {
    hide CanQueue;
  }

  lemma RestartedSourced(r: Runtime, id: Text, prepared: (bool, bool))
    requires Gated(r) && Sourced(r)
    ensures Sourced(AfterRuntimeRestart(r, id, prepared))
  {
    hide Gated, Sourced, KeepsRecords, OnlyStates, WithState, StateOf, Withdrawn, ListedRecord, CanQueue, FileName, FindItem, AfterQueue;
    var s := AfterRuntimeRestart(r, id, prepared);
    RestartGates(r, id, prepared);
    SameReleases(r, id, false, prepared);
    SelfStates(r.items);
    DistinctKept(r.items, id, Queued);
    StatesKeepRecords(r.items, s.items);
    if Known(r, id, {Completed, Failed, Cancelled, Held, Blocked}) {
      KnownHas(r, id);
      KnownRecord(r, id);
      var own := RecordOf(r.items[FindItem(r.items, id)]);
      RecordKept(r.items, s.items, own);
      forall record: Record | ListedRecord(s.engine, record)
        ensures ListedRecord(r.engine, record) || IsRecord(s.items, record)
      {
        RestartedLists(r.engine, own, record);
        SameListedRecord(HasFile(Withdrawn(r.engine, id, Some(own.name)), own), Withdrawn(r.engine, id, Some(own.name)), record);
        MaybeWithdrawn(r.engine, id, own.name, record);
      }
    }
    StillSourced(r, s);
  }

  lemma RestartedLists(e: Engine, own: Record, record: Record)
    ensures ListedRecord(AfterQueue(HasFile(Withdrawn(e, own.id, Some(own.name)), own), own), record) ==>
              ListedRecord(HasFile(Withdrawn(e, own.id, Some(own.name)), own), record) || record == own
  {
    hide Withdrawn, ListedRecord, HasFile, AfterQueue;
    if ListedRecord(AfterQueue(HasFile(Withdrawn(e, own.id, Some(own.name)), own), own), record) {
      QueuedLists(HasFile(Withdrawn(e, own.id, Some(own.name)), own), own, record);
    }
  }

  lemma MaybeWithdrawn(e: Engine, id: Text, name: Text, record: Record)
    ensures ListedRecord(Withdrawn(e, id, Some(name)), record) || ListedRecord(Withdrawn(e, id, None), record) ==> ListedRecord(e, record)
  {
    hide Withdrawn, ListedRecord;
    if ListedRecord(Withdrawn(e, id, Some(name)), record) {
      WithdrawnLists(e, id, Some(name), record);
    }
    if ListedRecord(Withdrawn(e, id, None), record) {
      WithdrawnLists(e, id, None, record);
    }
  }

  /** A record read back keeps the others, and its own if it was added. */
  lemma ReopenedKeeps(r: Runtime, item: Item, prepares: Text -> bool, now: int)
    ensures var s, restored := ReopenedOne(r, item, prepares, now), RestoredItem(item);
      KeepsRecords(r.items, s.items) && (s != r ==> IsRecord(s.items, RecordOf(restored)))
  {
    hide ReopenedOne, KeepsRecords, IsRecord, RecordOf, WithState, HasItem, OnlyStates, RestoredItem;
    var s, restored := ReopenedOne(r, item, prepares, now), RestoredItem(item);
    SelfStates(r.items);
    StatesKeepRecords(r.items, r.items);
    ReopenedLooks(r, item, prepares, now);
    if s != r {
      var added := r.items + [restored];
      AddedKeepsRecords(r.items, restored);
      DistinctKept(added, item.id, Failed);
      SelfStates(added);
      StatesKeepRecords(added, s.items);
      KeepsChain(r.items, added, s.items);
      RecordKept(added, s.items, RecordOf(restored));
    }
  }

  lemma ReopenedLists(r: Runtime, item: Item, prepares: Text -> bool, now: int, record: Record)
    requires ListedRecord(ReopenedOne(r, item, prepares, now).engine, record)
    ensures ListedRecord(r.engine, record) || (record == RecordOf(RestoredItem(item)) && ReopenedOne(r, item, prepares, now) != r)
  {
    hide ReopenedOne, RestoredItem, RecordOf, ListedRecord;
    ReopenedLooks(r, item, prepares, now);
    OneMoreRecord(r.engine, ReopenedOne(r, item, prepares, now).engine, RecordOf(RestoredItem(item)), record);
  }

  lemma OneMoreRecord(e: Engine, f: Engine, added: Record, record: Record)
    requires f.active == e.active && (f.pending == e.pending || f.pending == e.pending + [added])
    ensures ListedRecord(f, record) ==> ListedRecord(e, record) || record == added
  {
  }

  lemma ReopenedSourced(r: Runtime, item: Item, prepares: Text -> bool, now: int)
    requires Gated(r) && Sourced(r)
    ensures Sourced(ReopenedOne(r, item, prepares, now))
  {
    hide Gated, Sourced, KeepsRecords, IsRecord, Known, ListedRecord, ReopenedOne, RecordOf, RestoredItem, CanRestore;
    var s := ReopenedOne(r, item, prepares, now);
    ReopenOneGates(r, item, prepares, now);
    ReopenedKeeps(r, item, prepares, now);
    forall record: Record | ListedRecord(s.engine, record)
      ensures ListedRecord(r.engine, record) || IsRecord(s.items, record)
    {
      ReopenedLists(r, item, prepares, now, record);
    }
    forall id | Known(s, id, {Completed})
      ensures Known(r, id, {Completed})
    {
      OtherKnown(r, s, id, item.id);
      OwnKnown(r, s, item, prepares);
    }
    StillSourced(r, s);
  }

  lemma OwnKnown(r: Runtime, s: Runtime, item: Item, prepares: Text -> bool)
    requires ReadBack(r, s, item, prepares)
    ensures Known(s, item.id, {Completed}) ==> Known(r, item.id, {Completed})
  {
  }

  lemma {:induction false} ReopenedAllSourced(r: Runtime, items: seq<Item>, prepares: Text -> bool, now: int)
    requires Gated(r) && Sourced(r)
    ensures Sourced(ReopenedAll(r, items, prepares, now)) && Gated(ReopenedAll(r, items, prepares, now))
  {
    hide Gated, Sourced, ReopenedOne, ReadBack;
    if items != [] {
      var before := ReopenedAll(r, items[..|items| - 1], prepares, now);
      ReopenedAllSourced(r, items[..|items| - 1], prepares, now);
      ReopenOneGates(before, items[|items| - 1], prepares, now);
      ReopenedSourced(before, items[|items| - 1], prepares, now);
    }
  }

  lemma NothingSourced(r: Runtime)
    requires r.items == [] && r.engine.pending == [] && r.engine.active == []
    ensures Sourced(r)
  {
    NobodyThere(r);
  }

  lemma RuntimeStepSourced(c: Client, scanner: Scanner, r: Runtime, call: RuntimeCall)
    requires Gated(r) && Sourced(r)
    ensures Sourced(RuntimeStep(c, scanner, r, call))
  {
    hide Gated, Sourced, OnlyStates, StateOf, Listed, New, AfterRuntimePump, Begun, AfterRuntimePause, AfterRuntimeResume, AfterRuntimeCancel, AfterRuntimeRestart, StoppedAt, ReopenedAll, OnDisk;
    match call
    case Begin(item, prepares, now) =>
      if New(r, item) {
        BegunSourced(r, item, prepares, now);
      }
    case PauseDownload(id) => PausedSourced(r, id);
    case ResumeDownload(id) => PausedSourced(r, id);
    case CancelDownload(id, discard) => CancelledSourced(r, id, discard);
    case RestartDownload(id, prepared) => RestartedSourced(r, id, prepared);
    case PumpDownloads(now) => PumpSourced(c, scanner, r, now);
    case Reopen(stop, last, destinations, now) =>
      var stopped := StoppedAt(c, scanner, r, stop, last);
      StoppedGates(c, scanner, r, stop, last, []);
      ReopeningGated(stopped);
      NothingSourced(Reopening(stopped));
      ReopenedAllSourced(Reopening(stopped), stopped.items, destinations, now);
  }

  lemma {:induction false} RunIsSourced(c: Client, scanner: Scanner, calls: seq<RuntimeCall>)
    ensures Sourced(RuntimeRun(c, scanner, calls))
  {
    hide RuntimeStep, Sourced, Gated;
    if calls == [] {
      NothingSourced(FirstRuntime());
    } else {
      RunIsSourced(c, scanner, calls[..|calls| - 1]);
      RunIsGated(c, scanner, calls[..|calls| - 1]);
      RuntimeStepSourced(c, scanner, RuntimeRun(c, scanner, calls[..|calls| - 1]), calls[|calls| - 1]);
    }
  }

  /** So a download that is completed was released from the URL that its record names, with a proper finding; and the
      bytes are its resource's, as far as SHA-256 can tell, if what it counted as done when it last came by its staged file
      was in that file. */
  lemma CompletedIsReleased(c: Client, o: Origin, scanner: Scanner, calls: seq<RuntimeCall>, id: Text)
    requires HonestClient(c, o) && Known(RuntimeRun(c, scanner, calls), id, {Completed})
    ensures var r := RuntimeRun(c, scanner, calls);
      && HasItem(r.items, id)
      && exists k, j | 0 <= k < |r.releases| && 0 <= j < |r.engine.log| ::
           var x := r.releases[k];
           && x.plan.id == id && x.plan.url == r.items[FindItem(r.items, id)].request.url && Proper(x)
           && FromCompletion(x, r.engine.log[j]) && (BegunRight(r.engine.log, j) ==> Faithful(o, x))
  {
    hide HonestClient, RuntimeRun, Proper, Faithful, QueueMatches, FindItem, Inspected, DigestOf, BegunRight;
    RunIsSourced(c, scanner, calls);
    var r := RuntimeRun(c, scanner, calls);
    var k :| 0 <= k < |r.releases| && OfRecord(r.items, r.releases[k], id);
    ReleasedIsTheResource(c, o, scanner, calls, k);
  }
}
