/** The release gate in the fields of the scanner's finding and of the disk: what one verification ends with, and what a
    pump of any run leaves of it. */
module GateTerms {
  import opened Bytes
  import opened Wrappers
  import opened DownloadPlan
  import opened StagedPaths
  import opened HttpTransport
  import opened TransferScheduler
  import opened SchedulerInvariants
  import opened PumpEvents
  import opened DownloadQueue
  import opened Wardveil
  import opened DownloadRuntime
  import opened ReleaseGate
  import Sha256

  // The disk.

  /** Where a download is staged while it has a name in this session. */
  function Home(e: Engine, id: Text): Path
    requires id in e.names
  {
    e.names[id] + Ascii(".goreecloud-part-") + id
  }

  predicate IsStaged(e: Engine, id: Text) {
    id in e.names && Home(e, id) in e.files
  }

  ghost predicate Holds(file: seq<Cell>, bytes: seq<byte>) {
    |file| == |bytes| && forall i | 0 <= i < |file| :: file[i].value == bytes[i]
  }

  /** What a commit does to the files: nothing, the file in the way removed, or the staged file moved to its final path. */
  lemma CommitMoves(e: Engine, id: Text, commit: Commit)
    ensures var f := AfterCommit(e, id, commit);
      && f.names == e.names && f.checkpoints == e.checkpoints
      && (!IsStaged(e, id) || commit.NotMade? ==> f.files == e.files)
      && (IsStaged(e, id) && commit.Cleared? ==> f.files == e.files - {e.names[id]})
      && (IsStaged(e, id) && commit.Renamed? ==>
            && e.names[id] != Home(e, id)
            && e.names[id] in f.files && f.files[e.names[id]] == e.files[Home(e, id)]
            && f.files.Keys == e.files.Keys - {Home(e, id)} + {e.names[id]}
            && forall path | path in f.files && path != e.names[id] :: f.files[path] == e.files[path])
  {
    hide Off, Rebased, StagedAt;
    if IsStaged(e, id) {
      StagedElsewhere(e.names[id], id);
    }
  }

  // One verification.

  ghost predicate Same(x: Inspection, staged: seq<byte>) {
    x.after.Some? && Sha256.Hex(Sha256.Digest(x.after.value)) == Sha256.Hex(Sha256.Digest(staged))
  }

  /** The answer to a verification that holds the download: a current finding about it that says suspicious. */
  ghost predicate Suspects(x: Inspection, id: Text, staged: seq<byte>) {
    && Bears(x, id, staged) && x.now < x.response.record.value.validUntil && x.response.record.value.result == Suspicious
  }

  /** The clean finding stood, and the bytes are still those; what is missing is their length, or the commit. */
  ghost predicate Spoiled(x: Inspection, p: Plan, staged: seq<byte>) {
    Clears(x, p.id, staged) && Same(x, staged) && (|x.after.value| != p.metadata.total as int || x.commit != Renamed)
  }

  ghost predicate Passes(x: Inspection, p: Plan, staged: seq<byte>) {
    Clears(x, p.id, staged) && Same(x, staged) && |x.after.value| == p.metadata.total as int && x.commit == Renamed
  }

  /** What the scan is asked. */
  function Question(id: Text, staged: seq<byte>, isPrivate: bool): ScanRequest
    requires |staged| < 0x1_0000_0000_0000_0000
  {
    ScanRequest(Ascii("browser:download:") + id, Sha256.Hex(Sha256.Digest(staged)), |staged|, isPrivate)
  }

  /** The release that comes of it. */
  function ReleaseOf(p: Plan, since: nat, path: Path, staged: seq<byte>, isPrivate: bool, x: Inspection): Release
    requires x.after.Some? && |staged| < 0x1_0000_0000_0000_0000
  {
    Release(p, since, path, x.after.value, Question(p.id, staged, isPrivate), x)
  }

  /** The decision kept with the download says what happened. */
  ghost predicate Explains(d: Decision, x: Inspection, p: Plan, staged: seq<byte>) {
    && d.resourceId == Ascii("browser:download:") + p.id && d.digest == Sha256.Hex(Sha256.Digest(staged))
    && (d.canRelease <==> Clears(x, p.id, staged) && Same(x, staged)) && d.canOpen == d.canRelease
    && (d.disposition == Allow <==> d.canRelease) && (d.disposition == HoldReview <==> Suspects(x, p.id, staged))
    && (d.quarantine <==> Bears(x, p.id, staged) && x.response.record.value.result == Malicious)
    && (d.disposition == BlockQuarantine <==> d.quarantine)
    && (Clears(x, p.id, staged) && !Same(x, staged) ==> d.reasons == [ContentChanged])
  }

  /** How a verification of bytes that could be read ends. */
  ghost predicate Rules(v: Verdict, r: Runtime, p: Plan, since: nat, staged: seq<byte>, x: Inspection)
    requires HasItem(r.items, p.id) && |staged| < 0x1_0000_0000_0000_0000
  {
    && v.state == (if Passes(x, p, staged) then Completed else if Spoiled(x, p, staged) then Failed
                   else if Suspects(x, p.id, staged) then Held else Blocked)
    && v.ending == (if Passes(x, p, staged) then Ending(Renamed, true) else if Spoiled(x, p, staged) then
                      Ending(if |x.after.value| == p.metadata.total as int then x.commit else NotMade, false)
                    else Ending(NotMade, true))
    && v.decision.Some? && Explains(v.decision.value, x, p, staged)
    && v.release == if Passes(x, p, staged)
                    then Some(ReleaseOf(p, since, NameOf(r.engine, p.id), staged, r.items[FindItem(r.items, p.id)].request.privateSession, x))
                    else None
  }

  lemma EvaluateMeans(id: Text, bytes: seq<byte>, request: ScanRequest, x: Inspection)
    requires request.resourceId == Ascii("browser:download:") + id && request.digest == Sha256.Hex(Sha256.Digest(bytes))
    ensures var d := Evaluate(request, x.response, x.now);
      && (d.canRelease <==> Clears(x, id, bytes)) && d.canOpen == d.canRelease && (d.disposition == Allow <==> d.canRelease)
      && (d.disposition == HoldReview <==> Suspects(x, id, bytes))
      && (d.quarantine <==> Bears(x, id, bytes) && x.response.record.value.result == Malicious)
      && (d.disposition == BlockQuarantine <==> d.quarantine)
      && d.resourceId == request.resourceId && d.digest == request.digest
  {
    hide Sha256.Hex, Sha256.Digest, Ascii;
  }

  lemma RequestIs(r: Runtime, id: Text, staged: seq<byte>)
    requires HasItem(r.items, id) && |staged| < 0x1_0000_0000_0000_0000
    ensures ScanRequestOf(r, id, staged) == Question(id, staged, r.items[FindItem(r.items, id)].request.privateSession)
  {
    hide Sha256.Hex, Sha256.Digest, Ascii;
  }

  lemma ScanRules(r: Runtime, p: Plan, since: nat, staged: seq<byte>, x: Inspection)
    requires HasItem(r.items, p.id) && |staged| == p.metadata.total
    ensures Rules(ScanVerdict(r, p, since, staged, x), r, p, since, staged, x)
  {
    hide Evaluate, ScanRequestOf, Clears, Bears, Suspects, Sha256.Hex, Sha256.Digest, Ascii, FindItem, HasItem, NameOf;
    var request := ScanRequestOf(r, p.id, staged);
    RequestIs(r, p.id, staged);
    EvaluateMeans(p.id, staged, request, x);
    ClearsNotSuspects(x, p.id, staged);
  }

  lemma ClearsNotSuspects(x: Inspection, id: Text, staged: seq<byte>)
    ensures !(Clears(x, id, staged) && Suspects(x, id, staged))
    ensures Clears(x, id, staged) ==> Bears(x, id, staged) && x.response.record.value.result != Malicious
  {
    hide Bears;
  }

  /** What a verification of a staged file of the planned length leaves: the record's state, the disk, the decision, and the
      release if there is one. */
  ghost predicate Ends(r: Runtime, s: Runtime, p: Plan, since: nat, staged: seq<byte>, x: Inspection)
    requires IsStaged(r.engine, p.id) && |staged| < 0x1_0000_0000_0000_0000
  {
    && (Known(s, p.id, {Completed}) <==> x.readable && Passes(x, p, staged))
    && (Known(s, p.id, {Failed}) <==> x.readable && Spoiled(x, p, staged))
    && (Known(s, p.id, {Held}) <==> x.readable && Suspects(x, p.id, staged))
    && (Known(s, p.id, {Blocked}) <==> !x.readable || !(Passes(x, p, staged) || Spoiled(x, p, staged) || Suspects(x, p.id, staged)))
    && s.engine.checkpoints.Keys == r.engine.checkpoints.Keys - (if Known(s, p.id, {Failed}) then {} else {p.id})
    && (Known(s, p.id, {Held, Blocked}) ==> s.engine.files == r.engine.files)
    && (Known(s, p.id, {Completed}) ==>
          && r.engine.names[p.id] in s.engine.files && s.engine.files[r.engine.names[p.id]] == r.engine.files[Home(r.engine, p.id)]
          && Home(r.engine, p.id) !in s.engine.files)
    && s.scans == r.scans + (if x.readable then 1 else 0)
    && (if x.readable then p.id in s.decisions && Explains(s.decisions[p.id], x, p, staged) else s.decisions == r.decisions)
    && (if x.readable && Passes(x, p, staged)
        then s.releases == r.releases + [ReleaseOf(p, since, r.engine.names[p.id], staged, Private(r, p.id), x)]
        else s.releases == r.releases)
  }

  lemma VerdictIs(scanner: Scanner, r: Runtime, p: Plan, since: nat, staged: seq<byte>)
    requires HasItem(r.items, p.id) && IsStaged(r.engine, p.id)
    requires Holds(r.engine.files[Home(r.engine, p.id)], staged) && |staged| == p.metadata.total
    ensures var v, x := VerdictOf(scanner, r, p, since), scanner(r.scans, p.id, staged);
      if x.readable then Rules(v, r, p, since, staged, x) else v == Verdict(Blocked, Ending(NotMade, true), None, None)
  {
    hide ScanVerdict, HasItem, FindItem, Rules, Ascii;
    assert Contents(StagedFile(r.engine, p.id)) == staged;
    if scanner(r.scans, p.id, staged).readable {
      ScanRules(r, p, since, staged, scanner(r.scans, p.id, staged));
    }
  }

  lemma ConcludedIs(r: Runtime, id: Text, v: Verdict)
    requires HasItem(r.items, id) && (v.release.Some? ==> v.ending.commit == Renamed)
    ensures var s := Concluded(r, id, v);
      && StateOf(s, id) == Some(v.state) && s.engine == Finish(r.engine, id, v.ending)
      && s.scans == r.scans + (if v.decision.Some? then 1 else 0)
      && s.decisions == (if v.decision.Some? then r.decisions[id := v.decision.value] else r.decisions)
      && s.releases == (if v.release.Some? then r.releases + [v.release.value] else r.releases)
  {
    hide Finish, StateOf, Beside;
    var noted := Noting(r, id, v.ending, v);
    NotingBeside(r, id, v.ending, v);
    Listedness(r, id);
    MarkedSets(noted, id, v.state);
  }

  lemma Listedness(r: Runtime, id: Text)
    ensures StateOf(r, id).Some? <==> HasItem(r.items, id)
  {
  }

  lemma BegunIs(r: Runtime, id: Text)
    requires HasItem(r.items, id)
    ensures var s := Verifies(r, id);
      && HasItem(s.items, id) && s.engine == r.engine && s.scans == r.scans && s.decisions == r.decisions && s.releases == r.releases
      && s.items[FindItem(s.items, id)].request.privateSession == Private(r, id)
  {
    SameItem(r.items, id, Verifying);
  }

  lemma SameItem(items: seq<Item>, id: Text, state: State)
    requires HasItem(items, id)
    ensures FindItem(WithState(items, id, state), id) == FindItem(items, id)
  {
    var i, j := FindItem(items, id), FindItem(WithState(items, id, state), id);
    assert WithState(items, id, state)[i].id == id;
    assert items[j].id == WithState(items, id, state)[j].id;
  }

  lemma FinishIs(e: Engine, id: Text, ending: Ending)
    ensures Finish(e, id, ending).checkpoints.Keys == e.checkpoints.Keys - (if ending.forgets then {id} else {})
    ensures Finish(e, id, ending).files == AfterCommit(e, id, ending.commit).files
  {
    hide AfterCommit;
    CommitMoves(e, id, ending.commit);
  }

  lemma RuledEnds(r: Runtime, begun: Runtime, s: Runtime, v: Verdict, p: Plan, since: nat, staged: seq<byte>, x: Inspection)
    requires HasItem(begun.items, p.id) && begun.engine == r.engine && begun.scans == r.scans && begun.decisions == r.decisions && begun.releases == r.releases
    requires begun.items[FindItem(begun.items, p.id)].request.privateSession == Private(r, p.id)
    requires IsStaged(r.engine, p.id) && |staged| == p.metadata.total
    requires if x.readable then Rules(v, begun, p, since, staged, x) else v == Verdict(Blocked, Ending(NotMade, true), None, None)
    requires StateOf(s, p.id) == Some(v.state) && s.engine == Finish(r.engine, p.id, v.ending)
    requires s.scans == r.scans + (if v.decision.Some? then 1 else 0)
    requires s.decisions == (if v.decision.Some? then r.decisions[p.id := v.decision.value] else r.decisions)
    requires s.releases == (if v.release.Some? then r.releases + [v.release.value] else r.releases)
    ensures Ends(r, s, p, since, staged, x)
  {
    hide Finish, StateOf, Passes, Spoiled, Suspects, Explains, ReleaseOf, Ascii, HasItem, FindItem, Private;
    FinishIs(r.engine, p.id, v.ending);
    CommitMoves(r.engine, p.id, v.ending.commit);
    Apart(x, p, staged);
  }

  lemma Apart(x: Inspection, p: Plan, staged: seq<byte>)
    ensures !(Passes(x, p, staged) && Spoiled(x, p, staged))
    ensures !(Suspects(x, p.id, staged) && (Passes(x, p, staged) || Spoiled(x, p, staged)))
    ensures Passes(x, p, staged) ==> x.after.Some?
  {
    hide Clears, Suspects;
    ClearsNotSuspects(x, p.id, staged);
  }

  /** A verification of a staged file of the planned length, whatever the scanner and the disk answer. */
  lemma VerificationEnds(scanner: Scanner, r: Runtime, p: Plan, since: nat, staged: seq<byte>)
    requires HasItem(r.items, p.id) && IsStaged(r.engine, p.id)
    requires Holds(r.engine.files[Home(r.engine, p.id)], staged) && |staged| == p.metadata.total
    ensures Ends(r, Verified(scanner, r, p, since), p, since, staged, scanner(r.scans, p.id, staged))
  {
    hide VerdictOf, Verifies, Concluded, Finish, StateOf, HasItem, FindItem, Ends, Rules, Ascii, Private;
    var begun := Verifies(r, p.id);
    BegunIs(r, p.id);
    VerdictIs(scanner, begun, p, since, staged);
    var v := VerdictOf(scanner, begun, p, since);
    RulesRelease(v, begun, p, since, staged, scanner(r.scans, p.id, staged));
    ConcludedIs(begun, p.id, v);
    RuledEnds(r, begun, Concluded(begun, p.id, v), v, p, since, staged, scanner(r.scans, p.id, staged));
  }

  lemma RulesRelease(v: Verdict, r: Runtime, p: Plan, since: nat, staged: seq<byte>, x: Inspection)
    requires HasItem(r.items, p.id) && |staged| < 0x1_0000_0000_0000_0000
    ensures Rules(v, r, p, since, staged, x) && v.release.Some? ==> v.ending.commit == Renamed
  {
    hide Passes, Spoiled, Suspects, Explains, ReleaseOf, HasItem, FindItem;
  }

  /** A completion that finds no file of the planned length fails, and nothing is asked. */
  lemma MissingFails(scanner: Scanner, r: Runtime, p: Plan, since: nat)
    requires HasItem(r.items, p.id)
    requires !IsStaged(r.engine, p.id) || |r.engine.files[Home(r.engine, p.id)]| != p.metadata.total
    ensures var s := Verified(scanner, r, p, since);
      && Known(s, p.id, {Failed}) && s.releases == r.releases && s.decisions == r.decisions && s.scans == r.scans
      && s.engine.files == r.engine.files && s.engine.checkpoints == r.engine.checkpoints
  {
    hide ScanVerdict, Ascii, StateOf, HasItem, FindItem, Beside, Verifies, Concluded;
    Listedness(r, p.id);
    MarkedSets(r, p.id, Failed);
    if p.id in r.engine.names {
      var begun := Verifies(r, p.id);
      BegunIs(r, p.id);
      assert VerdictOf(scanner, begun, p, since) == Verdict(Failed, Ending(NotMade, false), None, None);
      ConcludedIs(begun, p.id, Verdict(Failed, Ending(NotMade, false), None, None));
      Unmoved(r.engine, p.id);
    }
  }

  lemma Unmoved(e: Engine, id: Text)
    ensures Finish(e, id, Ending(NotMade, false)) == e
  {
  }

  // A pump of any run.

  /** The state of the runtime when the completion of an active download is reported in a pump. */
  function BeforeReport(c: Client, scanner: Scanner, r: Runtime, now: int, j: nat): Runtime
    requires j < |AfterWork(c, ReleasedDue(r, now)).engine.active|
  {
    var worked := AfterWork(c, ReleasedDue(r, now));
    CalledBack(scanner, worked, worked.engine.active[..j])
  }

  /** In the pump at this time the active download j is complete, and these bytes of the planned length are staged of it. */
  ghost predicate Completes(c: Client, scanner: Scanner, r: Runtime, now: int, j: nat, staged: seq<byte>) {
    var worked := AfterWork(c, ReleasedDue(r, now));
    && j < |worked.engine.active| && worked.engine.active[j].finished && |staged| == worked.engine.active[j].plan.metadata.total
    && var id, e := worked.engine.active[j].record.id, BeforeReport(c, scanner, r, now, j).engine;
       IsStaged(e, id) && Holds(e.files[Home(e, id)], staged)
  }

  /** How the record of a download is left whose verification got this answer, and what is released of it. */
  ghost predicate Answered(s: Runtime, turn: Runtime, a: Active, staged: seq<byte>, x: Inspection)
    requires IsStaged(turn.engine, a.record.id) && |staged| == a.plan.metadata.total
  {
    var p, id := a.plan, a.record.id;
    && p.id == id
    && (Known(s, id, {Completed}) <==> x.readable && Passes(x, p, staged))
    && (Known(s, id, {Failed}) <==> x.readable && Spoiled(x, p, staged))
    && (Known(s, id, {Held}) <==> x.readable && Suspects(x, id, staged))
    && (Known(s, id, {Blocked}) <==> !x.readable || !(Passes(x, p, staged) || Spoiled(x, p, staged) || Suspects(x, id, staged)))
    && (x.readable && Passes(x, p, staged) ==> ReleaseOf(p, a.since, turn.engine.names[id], staged, Private(turn, id), x) in s.releases)
  }

  lemma EndsAnswered(r: Runtime, t: Runtime, s: Runtime, a: Active, staged: seq<byte>, x: Inspection)
    requires a.plan.id == a.record.id && IsStaged(r.engine, a.record.id) && |staged| == a.plan.metadata.total
    requires Ends(r, t, a.plan, a.since, staged, x) && StateOf(s, a.record.id) == StateOf(t, a.record.id) && t.releases <= s.releases
    ensures Answered(s, r, a, staged, x)
  {
    hide StateOf, Passes, Spoiled, Suspects, Explains, ReleaseOf, Ascii, Private;
    PassesRead(x, a.plan, staged);
    if x.readable && Passes(x, a.plan, staged) {
      assert s.releases[|r.releases|] == t.releases[|r.releases|];
    }
  }

  lemma PassesRead(x: Inspection, p: Plan, staged: seq<byte>)
    ensures Passes(x, p, staged) ==> x.after.Some?
  {
    hide Clears;
  }

  /** Later reports keep the releases made. */
  lemma {:induction false} LaterKeeps(scanner: Scanner, r: Runtime, actives: seq<Active>, j: nat)
    requires WellReported(actives) && j <= |actives|
    ensures CalledBack(scanner, r, actives[..j]).releases <= CalledBack(scanner, r, actives).releases
  {
    hide ReportedBack, Proper, StateOf, Beside;
    if j == |actives| {
      assert actives[..j] == actives;
    } else {
      var before := actives[..|actives| - 1];
      assert before[..j] == actives[..j];
      LaterKeeps(scanner, r, before, j);
      ReportedEffect(scanner, CalledBack(scanner, r, before), actives[|actives| - 1]);
      BesideReleases(CalledBack(scanner, r, before), CalledBack(scanner, r, actives));
    }
  }

  /** An active download has its record, still at its turn. */
  lemma TurnHasItem(c: Client, scanner: Scanner, r: Runtime, now: int, j: nat)
    requires Gated(r) && j < |AfterWork(c, ReleasedDue(r, now)).engine.active|
    ensures HasItem(BeforeReport(c, scanner, r, now, j).items, AfterWork(c, ReleasedDue(r, now)).engine.active[j].record.id)
    ensures AfterWork(c, ReleasedDue(r, now)).engine.active[j].plan.id == AfterWork(c, ReleasedDue(r, now)).engine.active[j].record.id
    ensures WellReported(AfterWork(c, ReleasedDue(r, now)).engine.active)
  {
    hide Gated, ReleasedDue, AfterWork, CalledBack, Sound, StateOf, Beside, Proper, HasItem, Worked, OnlyStates;
    var released, worked := ReleasedDue(r, now), AfterWork(c, ReleasedDue(r, now));
    var id := worked.engine.active[j].record.id;
    LetGo(r, now);
    WorkEffect(c, released, id);
    assert IsActive(worked.engine, id);
    GatedTracks(released, id);
    SoundReported(worked.engine);
    CalledBackOutcome(scanner, worked, worked.engine.active[..j], id);
    SomeState(worked, BeforeReport(c, scanner, r, now, j), id);
    Listedness(BeforeReport(c, scanner, r, now, j), id);
  }

  lemma GatedTracks(r: Runtime, id: Text)
    requires Gated(r)
    ensures Listed(r.engine, id) ==> StateOf(r, id).Some?
  {
    hide Sound, Resting, Orderly, Proper, HasRelease, Listed, StateOf;
  }

  lemma SomeState(r: Runtime, s: Runtime, id: Text)
    requires Beside(r, s)
    ensures StateOf(s, id).Some? <==> StateOf(r, id).Some?
  {
    hide StateOf, Orderly, OnlyStates;
  }

  lemma PumpAnswered(c: Client, scanner: Scanner, r: Runtime, now: int, j: nat, staged: seq<byte>)
    requires Gated(r) && Completes(c, scanner, r, now, j, staged)
    ensures var a, turn := AfterWork(c, ReleasedDue(r, now)).engine.active[j], BeforeReport(c, scanner, r, now, j);
      Answered(AfterRuntimePump(c, scanner, r, now), turn, a, staged, scanner(turn.scans, a.record.id, staged))
  {
    hide Gated, ReleasedDue, AfterWork, CalledBack, Verified, StateOf, HasItem, WellReported, Ends, Answered, Ascii, Swept;
    var worked, turn := AfterWork(c, ReleasedDue(r, now)), BeforeReport(c, scanner, r, now, j);
    var a := worked.engine.active[j];
    TurnHasItem(c, scanner, r, now, j);
    VerdictStands(c, scanner, r, now, j);
    LaterKeeps(scanner, worked, worked.engine.active, j + 1);
    OverOnce(worked.engine.active, j);
    AtTurn(scanner, turn, a, staged);
    EndsAnswered(turn, ReportedBack(scanner, turn, a), AfterRuntimePump(c, scanner, r, now), a, staged, scanner(turn.scans, a.record.id, staged));
  }

  lemma OverOnce(actives: seq<Active>, j: nat)
    requires WellReported(actives) && j < |actives|
    ensures !(actives[j].finished && actives[j].failed)
  {
  }

  lemma AtTurn(scanner: Scanner, r: Runtime, a: Active, staged: seq<byte>)
    requires a.plan.id == a.record.id && a.finished && !a.failed && HasItem(r.items, a.record.id)
    requires IsStaged(r.engine, a.record.id) && Holds(r.engine.files[Home(r.engine, a.record.id)], staged) && |staged| == a.plan.metadata.total
    ensures Ends(r, ReportedBack(scanner, r, a), a.plan, a.since, staged, scanner(r.scans, a.record.id, staged))
  {
    hide Verified, Passes, Spoiled, Suspects, Explains, ReleaseOf, Ascii, HasItem, FindItem, StateOf;
    VerificationEnds(scanner, r.(engine := NotedComplete(r.engine, a)), a.plan, a.since, staged);
  }

  /** Over every run: the state that a pump leaves a finished download in, and what it releases of it, by the scanner's answer
      and the disk's. The download is completed exactly when the answer is a current clean finding with evidence for this
      very download and these very bytes, the bytes are still those afterwards and of the planned length, and the commit
      succeeds; then that release is made. */
  lemma PumpEnds(c: Client, scanner: Scanner, calls: seq<RuntimeCall>, now: int, j: nat, staged: seq<byte>)
    requires Completes(c, scanner, RuntimeRun(c, scanner, calls), now, j, staged)
    ensures var r, s := RuntimeRun(c, scanner, calls), RuntimeRun(c, scanner, calls + [PumpDownloads(now)]);
      var a, turn := AfterWork(c, ReleasedDue(r, now)).engine.active[j], BeforeReport(c, scanner, r, now, j);
      Answered(s, turn, a, staged, scanner(turn.scans, a.record.id, staged))
  {
    hide RuntimeRun, Gated, Completes, AfterRuntimePump, AfterWork, ReleasedDue, BeforeReport, Answered;
    RunIsGated(c, scanner, calls);
    PumpAnswered(c, scanner, RuntimeRun(c, scanner, calls), now, j, staged);
    NextRunIs(c, scanner, calls + [PumpDownloads(now)]);
    assert (calls + [PumpDownloads(now)])[..|calls|] == calls;
  }
}
