/** The runtime's own rules: the names of files, starts that wait for their time, and what each call of the user does. */
module RuntimeTerms {
  import opened Bytes
  import opened Wrappers
  import opened DownloadPlan
  import opened DownloadCheckpoint
  import opened StagedPaths
  import opened HttpTransport
  import opened TransferScheduler
  import opened SchedulerInvariants
  import opened PumpEvents
  import opened DownloadQueue
  import opened DownloadRuntime
  import opened ReleaseGate
  import Decimal

  // File names.

  /** A slash, a backslash or a zero, which no file name may have. */
  predicate Separates(b: byte) {
    b == 0x2f || b == 0x5c || b == 0
  }

  predicate IsDots(name: Text) {
    name == [0x2e] || name == [0x2e, 0x2e]
  }

  /** The name that a request asks for: the suggestion, or where its URL ends. */
  function Wanted(request: Request): Text {
    if request.suggested.Some? then request.suggested.value else DefaultName(request.url)
  }

  lemma SafeExactly(name: Text)
    ensures var safe := SafeName(name);
      && (forall i | 0 <= i < |safe| :: !Separates(safe[i])) && !IsDots(safe)
      && (if IsDots(name) then safe == [0x5f] + name
          else |safe| == |name| && forall i | 0 <= i < |name| :: safe[i] == if Separates(name[i]) then 0x5f else name[i])
  {
    hide Ascii;
    Letters();
    var safe := WithoutSeparators(name);
    if IsDots(safe) {
      assert forall i | 0 <= i < |name| :: name[i] == safe[i];
    }
    if IsDots(name) {
      assert safe == name;
      assert SafeName(name)[0] == 0x5f;
    }
  }

  lemma Letters()
    ensures Ascii(".") == [0x2e] && Ascii("..") == [0x2e, 0x2e] && Ascii("_") == [0x5f]
  {
  }

  /** The name a download is saved under: no separator is left in it, each became an underscore, and it is neither dot nor
      dots. */
  lemma NameExactly(request: Request)
    ensures var name, wanted := FileName(request), Wanted(request);
      && (forall i | 0 <= i < |name| :: !Separates(name[i])) && !IsDots(name)
      && (if IsDots(wanted) then name == [0x5f] + wanted
          else |name| == |wanted| && forall i | 0 <= i < |wanted| :: name[i] == if Separates(wanted[i]) then 0x5f else wanted[i])
  {
    hide SafeName, DefaultName, Separates, IsDots;
    SafeExactly(Wanted(request));
  }

  predicate EndsPath(b: byte) {
    b == 0x3f || b == 0x23
  }

  lemma {:induction false} PathEndIs(path: Text, tail: Text)
    requires (forall i | 0 <= i < |path| :: !EndsPath(path[i])) && (tail == [] || EndsPath(tail[0]))
    ensures PathEnd(path + tail) == |path|
  {
    if path == [] {
      assert path + tail == tail;
    } else {
      assert (path + tail)[1..] == path[1..] + tail;
      PathEndIs(path[1..], tail);
    }
  }

  lemma {:induction false} LastComponentIs(dir: Text, name: Text)
    requires (dir == [] || dir[|dir| - 1] == 0x2f) && 0x2f !in name
    ensures LastComponent(dir + name) == |dir|
  {
    if name == [] {
      assert dir + name == dir;
    } else {
      assert (dir + name)[..|dir + name| - 1] == dir + name[..|name| - 1];
      LastComponentIs(dir, name[..|name| - 1]);
    }
  }

  /** Without a suggestion the name is the last part of the URL's path, before any query or fragment. */
  lemma DefaultExactly(dir: Text, name: Text, tail: Text)
    requires (dir == [] || dir[|dir| - 1] == 0x2f) && 0x2f !in name
    requires (forall i | 0 <= i < |dir| :: !EndsPath(dir[i])) && (forall i | 0 <= i < |name| :: !EndsPath(name[i]))
    requires tail == [] || EndsPath(tail[0])
    ensures DefaultName(dir + name + tail) == if name == [] then Ascii("download.bin") else name
  {
    hide Ascii, PathEnd, LastComponent;
    PathEndIs(dir + name, tail);
    LastComponentIs(dir, name);
    assert (dir + name + tail)[..|dir + name|] == dir + name;
    assert (dir + name)[|dir|..] == name;
  }

  // The time of a start.

  /** A start that lies ahead. */
  predicate Ahead(item: Item, now: int) {
    item.request.scheduledStart.Some? && now < item.request.scheduledStart.value
  }

  /** What the pump at this time lets go: the waiting downloads of which no record says that their start lies ahead. */
  lemma LetGoExactly(r: Runtime, now: int)
    requires DistinctItems(r.items)
    ensures var s := ReleasedDue(r, now);
      && s.items == r.items
      && (forall id :: id in s.waiting <==> id in r.waiting && exists item | item in r.items :: item.id == id && Ahead(item, now))
      && (forall id :: id in s.engine.paused <==> id in r.engine.paused && !(id in r.waiting && id !in s.waiting))
      && s.engine == r.engine.(paused := s.engine.paused)
      && (forall id | id in r.waiting && id !in s.waiting && id in r.engine.paused :: id in s.shown && s.shown[id] == Queued)
      && (forall id | id !in r.waiting || id in s.waiting || id !in r.engine.paused ::
           (id in s.shown <==> id in r.shown) && (id in r.shown ==> s.shown[id] == r.shown[id]))
  {
    forall id
      ensures HasItem(r.items, id) && Future(r.items[FindItem(r.items, id)], now) <==> exists item | item in r.items :: item.id == id && Ahead(item, now)
    {
      FoundAhead(r.items, id, now);
    }
    hide FindItem, HasItem, Future, Ahead;
  }

  lemma FoundAhead(items: seq<Item>, id: Text, now: int)
    requires DistinctItems(items)
    ensures HasItem(items, id) && Future(items[FindItem(items, id)], now) <==> exists item | item in items :: item.id == id && Ahead(item, now)
  {
    var i := FindItem(items, id);
    if item :| item in items && item.id == id && Ahead(item, now) {
      var j :| 0 <= j < |items| && items[j] == item;
      assert i == j;
    }
    if i < |items| && Future(items[i], now) {
      assert items[i] in items;
    }
  }

  /** What the transfers tell: progress makes a record run, a failure makes it fail and wait no longer, and nothing else is
      told of. */
  lemma EventExactly(r: Runtime, ev: Event)
    ensures var s := Handled(r, ev);
      match ev
      case Progress(p) =>
        && (HasItem(r.items, p.id) ==> StateOf(s, p.id) == Some(Running)) && p.id in s.shown && s.shown[p.id] == Running
        && s == r.(items := s.items, shown := s.shown)
      case Failure(id) =>
        && (HasItem(r.items, id) ==> StateOf(s, id) == Some(Failed)) && id in s.shown && s.shown[id] == Failed
        && s == r.(items := s.items, shown := s.shown, waiting := r.waiting - {id})
      case _ => s == r
  {
    hide StateOf, WithState, FindItem, HasItem;
    match ev
    case Progress(p) =>
      Listedness(r, p.id);
      StateAfter(r, p.id, Running, p.id);
      SameState(r.(items := WithState(r.items, p.id, Running)), Handled(r, ev), p.id);
    case Failure(id) =>
      Listedness(r, id);
      StateAfter(r, id, Failed, id);
      SameState(r.(items := WithState(r.items, id, Failed)), Handled(r, ev), id);
    case _ =>
  }

  // The user's calls.

  ghost predicate InScheduler(e: Engine, id: Text) {
    (exists x | x in e.pending :: x.id == id) || (exists a | a in e.active :: a.record.id == id)
  }

  lemma InSchedulerIs(e: Engine, id: Text)
    ensures InScheduler(e, id) <==> IsPending(e, id) || IsActive(e, id)
  {
    if x :| x in e.pending && x.id == id {
      var i :| 0 <= i < |e.pending| && e.pending[i] == x;
    }
    if a :| a in e.active && a.record.id == id {
      var i :| 0 <= i < |e.active| && e.active[i] == a;
    }
  }

  lemma NineStates(state: State)
    ensures state in {Queued, Running, Paused, Failed, Held, Blocked, Completed, Cancelled, Verifying}
  {
  }

  /** A record marked, whatever else changed of the runtime. */
  lemma MarkedState(r: Runtime, s: Runtime, id: Text, state: State)
    requires s.items == r.items && StateOf(r, id).Some?
    ensures StateOf(Marked(s, id, state), id) == Some(state)
  {
    hide StateOf, Beside, Marked;
    SameState(r, s, id);
    MarkedSets(s, id, state);
  }

  /** Pausing: a record that is not over, held, blocked or being verified, while its download is with the scheduler. */
  lemma PauseExactly(r: Runtime, id: Text)
    ensures var s, state := AfterRuntimePause(r, id), StateOf(r, id);
      if state.Some? && state.value !in {Completed, Cancelled, Verifying, Held, Blocked} && InScheduler(r.engine, id) then
        && StateOf(s, id) == Some(Paused) && id in s.shown && s.shown[id] == Paused && s.waiting == r.waiting - {id}
        && s.engine == r.engine.(paused := r.engine.paused + {id})
      else s == r
  {
    hide StateOf, WithState, InScheduler, IsPending, IsActive;
    InSchedulerIs(r.engine, id);
    if StateOf(r, id).Some? {
      NineStates(StateOf(r, id).value);
      MarkedState(r, r.(engine := TransferScheduler.AfterPause(r.engine, id)), id, Paused);
    }
  }

  /** Resuming: a paused record stops waiting for its time, and is queued again if the scheduler held it. */
  lemma ResumeExactly(r: Runtime, id: Text)
    ensures var s := AfterRuntimeResume(r, id);
      if StateOf(r, id) == Some(Paused) then
        && s.engine == r.engine.(paused := r.engine.paused - {id}) && s.waiting == r.waiting - {id}
        && (if id in r.engine.paused then StateOf(s, id) == Some(Queued) && id in s.shown && s.shown[id] == Queued
            else s.items == r.items && s.shown == r.shown)
      else s == r
  {
    hide StateOf, WithState;
    if StateOf(r, id).Some? {
      MarkedState(r, r.(waiting := r.waiting - {id}, engine := TransferScheduler.AfterResume(r.engine, id)), id, Queued);
    }
  }

  /** Cancelling: a record that is not over or being verified; its download leaves the scheduler, its checkpoint is erased, and
      its staged file too if that was asked for and it was opened. */
  lemma CancelExactly(r: Runtime, id: Text, discard: bool)
    ensures var s, state := AfterRuntimeCancel(r, id, discard), StateOf(r, id);
      if state.Some? && state.value !in {Completed, Cancelled, Verifying} then
        && StateOf(s, id) == Some(Cancelled) && id in s.shown && s.shown[id] == Cancelled && s.waiting == r.waiting - {id}
        && !InScheduler(s.engine, id) && id in s.engine.cancelled && id !in s.engine.paused
        && (forall x | x in r.engine.pending && x.id != id :: x in s.engine.pending)
        && (forall a | a in r.engine.active && a.record.id != id :: a in s.engine.active)
        && s.engine.checkpoints == r.engine.checkpoints - {id} && s.decisions == r.decisions - {id}
        && s.engine.files == (if discard && id in r.engine.names then r.engine.files - {StagedPath(r.engine.names[id], id)} else r.engine.files)
      else s == r
  {
    hide StateOf, WithState, Withdrawn, InScheduler, StagedPath;
    var drops := if discard && id in r.engine.names then Some(r.engine.names[id]) else None;
    WithdrawnIs(r.engine, id, drops);
    if StateOf(r, id).Some? {
      NineStates(StateOf(r, id).value);
      MarkedState(r, r.(engine := Withdrawn(r.engine, id, drops), decisions := r.decisions - {id}), id, Cancelled);
    }
  }

  /** Restarting: a record that is over, held or blocked; its download starts again behind the others, over an empty file. */
  lemma RestartExactly(r: Runtime, id: Text, prepares: (bool, bool))
    requires id != []
    ensures var s, state := AfterRuntimeRestart(r, id, prepares), StateOf(r, id);
      if state.Some? && state.value in {Completed, Failed, Cancelled, Held, Blocked} then
        && id in s.engine.cancelled && s.engine.checkpoints == r.engine.checkpoints - {id} && s.waiting == r.waiting - {id} && s.decisions == r.decisions - {id}
        && (!prepares.0 ==> s.items == r.items && s.engine.files == r.engine.files && !InScheduler(s.engine, id))
        && (prepares.0 && !prepares.1 ==> s.items == r.items && !InScheduler(s.engine, id))
        && (prepares.0 && prepares.1 ==>
              && HasItem(r.items, id) && StateOf(s, id) == Some(Queued)
              && var record := RecordOf(r.items[FindItem(r.items, id)]);
                 && id in s.engine.names && s.engine.names[id] == record.name
                 && StagedPath(record.name, id) in s.engine.files && s.engine.files[StagedPath(record.name, id)] == []
                 && (record.url != [] ==> s.engine.pending != [] && s.engine.pending[|s.engine.pending| - 1] == record && id in s.shown && s.shown[id] == Queued))
      else s == r
  {
    hide StateOf, StagedPath, FindItem, HasItem, RecordOf, WithState, Withdrawn, InScheduler, IsPending, IsActive, Again;
    if Known(r, id, {Completed, Failed, Cancelled, Held, Blocked}) {
      Listedness(r, id);
      KnownRecord(r, id);
      var record := RecordOf(r.items[FindItem(r.items, id)]);
      WithdrawnIs(r.engine, id, None);
      WithdrawnIs(r.engine, id, Some(record.name));
      var gone := r.(waiting := r.waiting - {id}, decisions := r.decisions - {id}, engine := Withdrawn(r.engine, id, Some(record.name)));
      AgainIs(gone, id, record);
      SameState(r, gone, id);
    }
  }

  lemma AgainIs(r: Runtime, id: Text, record: Record)
    requires id != [] && record.id == id && !IsPending(r.engine, id) && !IsActive(r.engine, id)
    ensures var s := Again(r, id, record);
      && s.engine.cancelled == r.engine.cancelled && s.engine.checkpoints == r.engine.checkpoints
      && s.waiting == r.waiting && s.decisions == r.decisions && id in s.engine.names && s.engine.names[id] == record.name
      && StagedPath(record.name, id) in s.engine.files
      && (StagedPath(record.name, id) !in r.engine.files ==> s.engine.files[StagedPath(record.name, id)] == [])
      && (StateOf(r, id).Some? ==> StateOf(s, id) == Some(Queued))
      && (record.url != [] ==> s.engine.pending != [] && s.engine.pending[|s.engine.pending| - 1] == record && id in s.shown && s.shown[id] == Queued)
  {
    hide StateOf, StagedPath, WithState, Marked;
    MarkedItems(r, id, Queued);
    if StateOf(r, id).Some? {
      MarkedState(r, r, id, Queued);
      SameState(Marked(r, id, Queued), Again(r, id, record), id);
    }
  }

  /** A download withdrawn from the scheduler. */
  lemma WithdrawnIs(e: Engine, id: Text, drops: Option<Text>)
    ensures var f := Withdrawn(e, id, drops);
      && !InScheduler(f, id) && !IsPending(f, id) && !IsActive(f, id) && id in f.cancelled && id !in f.paused
      && (forall x | x in e.pending && x.id != id :: x in f.pending) && (forall a | a in e.active && a.record.id != id :: a in f.active)
      && f.checkpoints == e.checkpoints - {id} && f.names == e.names
      && f.files == if drops.Some? then e.files - {StagedPath(drops.value, id)} else e.files
  {
    hide WithoutRecord, WithoutActive, StagedPath, Off;
    WithoutRecordIs(e.pending, id);
    WithoutActiveIs(e.active, id);
    NotInScheduler(e, id);
  }

  lemma Listedness(r: Runtime, id: Text)
    ensures StateOf(r, id).Some? <==> HasItem(r.items, id)
  {
  }

  lemma NotInScheduler(e: Engine, id: Text)
    ensures !IsPending(AfterCancel(e, id), id) && !IsActive(AfterCancel(e, id), id) && !InScheduler(AfterCancel(e, id), id)
  {
    hide WithoutRecord, WithoutActive;
    WithoutRecordIs(e.pending, id);
    WithoutActiveIs(e.active, id);
    forall i | 0 <= i < |WithoutRecord(e.pending, id)|
      ensures WithoutRecord(e.pending, id)[i].id != id
    {
      assert WithoutRecord(e.pending, id)[i] in WithoutRecord(e.pending, id);
    }
    forall i | 0 <= i < |WithoutActive(e.active, id)|
      ensures WithoutActive(e.active, id)[i].record.id != id
    {
      assert WithoutActive(e.active, id)[i] in WithoutActive(e.active, id);
    }
  }

  /** A download as the scheduler gets it. */
  function Handed(item: Item, limit: nat): Record {
    Record(item.id, item.request.url, item.request.referrer, FileName(item.request), limit)
  }

  lemma Queues(e: Engine, item: Item)
    requires item.id != [] && item.request.url != [] && !InScheduler(e, item.id)
    ensures var name := FileName(item.request);
      && AfterQueue(Prepared(e, item.id, name), RecordOf(item)) == Prepared(e, item.id, name).(pending := e.pending + [Handed(item, item.segmentLimit)])
      && CanQueue(Prepared(e, item.id, name), RecordOf(item))
      && IsPending(AfterQueue(Prepared(e, item.id, name), RecordOf(item)), item.id)
  {
    hide FileName, InScheduler, StagedPath;
    InSchedulerIs(e, item.id);
    assert (e.pending + [RecordOf(item)])[|e.pending|].id == item.id;
  }

  lemma AheadIs(item: Item, now: int)
    ensures Future(item, now) <==> Ahead(item, now)
  {
  }

  /** Enqueueing a new record: without a place for its file it is cancelled; otherwise it goes behind the others in the
      scheduler, and waits there while its start lies ahead. */
  lemma BeginExactly(r: Runtime, item: Item, prepares: bool, now: int)
    requires CanRestore(r.items, item) && item.state == Queued && !InScheduler(r.engine, item.id)
    ensures var s, path := Begun(r, item, prepares, now), StagedPath(FileName(item.request), item.id);
      if !prepares then StateOf(s, item.id) == Some(Cancelled) && s.engine == r.engine && s.waiting == r.waiting
      else
        && StateOf(s, item.id) == Some(Queued) && item.id in s.shown && s.shown[item.id] == Queued
        && s.engine.pending == r.engine.pending + [Handed(item, item.segmentLimit)]
        && item.id in s.engine.names && s.engine.names[item.id] == FileName(item.request)
        && s.engine.files == (if path in r.engine.files then r.engine.files else r.engine.files[path := []])
        && s.engine.paused == (if Ahead(item, now) then r.engine.paused + {item.id} else r.engine.paused)
        && s.waiting == (if Ahead(item, now) then r.waiting + {item.id} else r.waiting)
  {
    hide StateOf, FileName, StagedPath, InScheduler, CanQueue, IsPending, IsActive, Future, Ahead, WithState, HasItem;
    AheadIs(item, now);
    Queues(r.engine, item);
    AppendedState(r, item, item.id);
    var listed := r.(items := r.items + [item]);
    StateAfter(listed, item.id, Cancelled, item.id);
    SameState(listed, Begun(r, item, true, now), item.id);
  }

  /** Reading a record back: a private one, one that is over, and one without an id or source or with an id that is taken are
      dropped; without a place for its file it fails; held and blocked ones stay so, out of the scheduler; the others are
      queued again, paused if they were or their start lies ahead, and with at least one and at most sixteen segments. */
  lemma ReopenExactly(r: Runtime, item: Item, prepares: Text -> bool, now: int)
    requires !InScheduler(r.engine, item.id)
    ensures var s, id := ReopenedOne(r, item, prepares, now), item.id;
      if item.request.privateSession || item.state in {Completed, Cancelled} || id == [] || item.request.url == [] || HasItem(r.items, id) then s == r
      else if !prepares(id) then StateOf(s, id) == Some(Failed) && s.engine == r.engine
      else
        && StateOf(s, id) == Some(if item.state in {Running, Verifying} then Queued else item.state)
        && id in s.engine.names && s.engine.names[id] == FileName(item.request)
        && if item.state in {Held, Blocked} then s.engine.pending == r.engine.pending && s.engine.paused == r.engine.paused && s.waiting == r.waiting
           else
             && s.engine.pending == r.engine.pending + [Handed(item, if item.segmentLimit < 1 then 1 else if item.segmentLimit > 16 then 16 else item.segmentLimit)]
             && s.engine.paused == (if item.state == Paused || Ahead(item, now) then r.engine.paused + {id} else r.engine.paused)
             && s.waiting == (if item.state != Paused && Ahead(item, now) then r.waiting + {id} else r.waiting)
  {
    hide StateOf, FileName, StagedPath, InScheduler, CanQueue, IsPending, IsActive, Future, Ahead, WithState, HasItem;
    var restored := RestoredItem(item);
    AheadIs(restored, now);
    SameStart(restored, item, now);
    if CanRestore(r.items, item) {
      Queues(r.engine, restored);
      AppendedState(r, restored, item.id);
      var listed := r.(items := r.items + [restored]);
      StateAfter(listed, item.id, Failed, item.id);
      MarkedState(listed, listed, item.id, Failed);
      if prepares(item.id) && !item.request.privateSession && item.state !in {Completed, Cancelled} {
        SameState(listed, ReopenedOne(r, item, prepares, now), item.id);
      }
    }
  }

  lemma SameStart(a: Item, b: Item, now: int)
    requires a.request == b.request
    ensures Ahead(a, now) == Ahead(b, now)
  {
  }
}
