/** The process broker: extension processes of the platform, paired with the sessions of the runtime authority. */
module ProcessBroker {
  import opened Bytes
  import opened Extensions
  import opened PermissionLedger
  import opened RuntimeAuthority
  import opened Wrappers
  import opened AuthorityHistory

  const ISOLATION_VERSION := 1

  /** What the platform adapter reports after a launch. */
  datatype Receipt = Receipt(
    runtimeId: Text, platformId: Text, isolationVersion: int,
    dedicatedProcess: bool, brokerChannel: bool, internalsBlocked: bool, extensionsBlocked: bool,
    servicesBlocked: bool, ambientBlocked: bool)

  predicate ValidReceipt(identity: Identity, r: Receipt) {
    && r.runtimeId == identity.runtimeId
    && ValidRuntimeIdentifier(r.runtimeId) && ValidRuntimeIdentifier(r.platformId)
    && r.isolationVersion == ISOLATION_VERSION
    && r.dedicatedProcess && r.brokerChannel && r.internalsBlocked && r.extensionsBlocked
    && r.servicesBlocked && r.ambientBlocked
  }

  datatype Process = Process(runtimeId: Text, platformId: Text, confirmed: bool)

  function FindProcess(ps: seq<Process>, runtimeId: Text): (i: nat)
    ensures i <= |ps|
    ensures i < |ps| ==> ps[i].runtimeId == runtimeId
    ensures forall j | 0 <= j < i :: ps[j].runtimeId != runtimeId
  {
    if ps == [] || ps[0].runtimeId == runtimeId then 0 else 1 + FindProcess(ps[1..], runtimeId)
  }

  predicate RegisteredPlatform(ps: seq<Process>, platformId: Text) {
    exists i | 0 <= i < |ps| :: ps[i].platformId == platformId
  }

  /** The checks before the platform is asked to launch anything. */
  ghost predicate CanLaunch(a: Authority, ps: seq<Process>, m: Manifest, identity: Identity, d: LaunchDecision) {
    && d.launchAuthorized && (identity.privateBrowsing ==> d.privateAuthorized)
    && ManifestAccepted(m) && m.id == identity.extensionId && m.entryPoints != []
    && ValidRuntimeIdentifier(identity.extensionId) && ValidRuntimeIdentifier(identity.profileId)
    && ValidRuntimeIdentifier(identity.runtimeId)
    && FindProcess(ps, identity.runtimeId) == |ps|
    && FindSession(a.sessions, identity.runtimeId) == |a.sessions|
  }

  /** Whether the launch ends with a session and a process. */
  ghost predicate Launches(a: Authority, ps: seq<Process>, m: Manifest, identity: Identity, d: LaunchDecision, answer: Option<Receipt>) {
    && CanLaunch(a, ps, m, identity, d)
    && answer.Some? && ValidReceipt(identity, answer.value)
    && !RegisteredPlatform(ps, answer.value.platformId)
  }

  /** The platform process the broker asks to be killed while launching, if any. */
  ghost function RolledBack(a: Authority, ps: seq<Process>, m: Manifest, identity: Identity, d: LaunchDecision, answer: Option<Receipt>):
    Option<Text>
  {
    if CanLaunch(a, ps, m, identity, d) && answer.Some? && !ValidReceipt(identity, answer.value)
       && ValidRuntimeIdentifier(answer.value.platformId)
    then Some(answer.value.platformId)
    else None
  }

  /** A process that may still act: it is registered and its end is not confirmed. */
  predicate Open(ps: seq<Process>, runtimeId: Text) {
    var i := FindProcess(ps, runtimeId);
    i < |ps| && !ps[i].confirmed
  }

  function Confirmed(ps: seq<Process>, runtimeId: Text): seq<Process> {
    var i := FindProcess(ps, runtimeId);
    if i < |ps| then ps[i := ps[i].(confirmed := true)] else ps
  }

  class ExtensionProcessBroker {
    const authority: ExtensionRuntimeAuthority
    var processes: seq<Process>

    constructor ()
      ensures fresh(authority) && authority.State() == NoAuthority() && processes == []
    {
      authority := new ExtensionRuntimeAuthority();
      processes := [];
    }

    method ProcessIndex(runtimeId: Text) returns (i: nat)
      ensures i == FindProcess(processes, runtimeId)
    {
      i := 0;
      while i < |processes| && processes[i].runtimeId != runtimeId
        invariant 0 <= i <= |processes|
        invariant forall j | 0 <= j < i :: processes[j].runtimeId != runtimeId
      {
        i := i + 1;
      }
    }

    method HasPlatformProcess(platformId: Text) returns (found: bool)
      ensures found == RegisteredPlatform(processes, platformId)
    {
      var i := 0;
      while i < |processes|
        invariant 0 <= i <= |processes|
        invariant forall j | 0 <= j < i :: processes[j].platformId != platformId
      {
        if processes[i].platformId == platformId {
          return true;
        }
        i := i + 1;
      }
      return false;
    }

    /** `answer` is what the platform's launch returned; `killed` is the process its terminate was called on. */
    method Launch(m: Manifest, trust: TrustState, identity: Identity, d: LaunchDecision, answer: Option<Receipt>)
      returns (ok: bool, killed: Option<Text>)
      modifies this, authority
      ensures ok == Launches(old(authority.State()), old(processes), m, identity, d, answer)
      ensures killed == RolledBack(old(authority.State()), old(processes), m, identity, d, answer)
      ensures ok ==> authority.State() == AfterRegister(old(authority.State()), m, trust, identity, d)
      ensures ok ==> processes == old(processes) + [Process(identity.runtimeId, answer.value.platformId, false)]
      ensures !ok ==> authority.State() == old(authority.State()) && processes == old(processes)
    {
      hide ManifestAccepted, ValidRuntimeIdentifier;
      var issues := ValidateManifest(m);
      var p := ProcessIndex(identity.runtimeId);
      var s := authority.SessionIndex(identity.runtimeId);
      if !d.launchAuthorized || (identity.privateBrowsing && !d.privateAuthorized) || issues != {}
         || m.id != identity.extensionId || m.entryPoints == []
         || !ValidRuntimeIdentifier(identity.extensionId) || !ValidRuntimeIdentifier(identity.profileId)
         || !ValidRuntimeIdentifier(identity.runtimeId)
         || p != |processes| || s != |authority.sessions|
      {
        return false, None;
      }
      assert CanLaunch(authority.State(), processes, m, identity, d);
      if answer.None? {
        return false, None;
      }
      if !ValidReceipt(identity, answer.value) {
        return false, Rollback(answer.value);
      }
      var taken := HasPlatformProcess(answer.value.platformId);
      if taken {
        return false, None;
      }
      var registered := authority.RegisterRuntime(m, trust, identity, d);
      if !registered {
        // Unreachable: every check of the registration was made above, so its rollback never runs.
        assert false;
        return false, None;
      }
      processes := processes + [Process(answer.value.runtimeId, answer.value.platformId, false)];
      return true, None;
    }

    function Rollback(r: Receipt): Option<Text> {
      if ValidRuntimeIdentifier(r.platformId) then Some(r.platformId) else None
    }

    method IssueCapability(ledger: ExtensionPermissionLedger, r: CapabilityRequest) returns (token: Option<Token>)
      modifies authority, ledger
      ensures Open(processes, r.runtimeId) ==>
                (authority.State(), ledger.leases, token) == AfterIssue(old(authority.State()), old(ledger.leases), r)
      ensures !Open(processes, r.runtimeId) ==>
                (authority.State(), ledger.leases, token) == (old(authority.State()), old(ledger.leases), None)
    {
      hide AfterIssue;
      var i := ProcessIndex(r.runtimeId);
      if i == |processes| || processes[i].confirmed {
        return None;
      }
      token := authority.IssueCapability(ledger, r);
    }

    method AuthorizeAndConsume(id: u64, c: DispatchContext) returns (ok: bool)
      modifies authority
      ensures ok == (Open(processes, c.runtimeId) && CanDispatch(old(authority.State()), id, c))
      ensures authority.State() == if ok then AfterDispatch(old(authority.State()), id, c) else old(authority.State())
    {
      var i := ProcessIndex(c.runtimeId);
      if i == |processes| || processes[i].confirmed {
        return false;
      }
      ok := authority.AuthorizeAndConsume(id, c);
    }

    /** `confirms` is the platform's answer, should it be asked. */
    method Terminate(runtimeId: Text, confirms: bool) returns (ok: bool)
      modifies this, authority
      ensures ok == (FindProcess(old(processes), runtimeId) < |old(processes)| && (Open(old(processes), runtimeId) ==> confirms))
      ensures authority.State() == if Open(old(processes), runtimeId) then AfterTerminate(old(authority.State()), runtimeId) else old(authority.State())
      ensures processes == if Open(old(processes), runtimeId) && confirms then Confirmed(old(processes), runtimeId) else old(processes)
    {
      var i := ProcessIndex(runtimeId);
      if i == |processes| {
        return false;
      }
      if processes[i].confirmed {
        return true;
      }
      var s := authority.SessionIndex(runtimeId);
      if s < |authority.sessions| && authority.sessions[s].state != Terminated {
        var stopped := authority.Terminate(runtimeId);
        if !stopped {
          return false;
        }
      }
      if !confirms {
        return false;
      }
      processes := processes[i := processes[i].(confirmed := true)];
      return true;
    }
  }

  // Runs of the broker, with the ledger beside it.

  datatype Brokered = Brokered(system: System, processes: seq<Process>)

  datatype BrokerCall =
    | LedgerCalls(call: LedgerCall)
    | LaunchProcess(manifest: Manifest, trust: TrustState, identity: Identity, decision: LaunchDecision, answer: Option<Receipt>)
    | IssueToken(request: CapabilityRequest)
    | DispatchCall(id: u64, context: DispatchContext)
    | TerminateProcess(runtimeId: Text, confirms: bool)

  /** The calls on the ledger and the authority that a broker call comes to: at most one. */
  ghost function Underlying(b: Brokered, call: BrokerCall): (calls: seq<Call>)
    ensures |calls| <= 1
  {
    match call
    case LedgerCalls(c) => [OnLedger(c)]
    case LaunchProcess(m, trust, identity, d, answer) =>
      if Launches(b.system.authority, b.processes, m, identity, d, answer) then [Register(m, trust, identity, d)] else []
    case IssueToken(r) => if Open(b.processes, r.runtimeId) then [Issue(r)] else []
    case DispatchCall(id, c) => if Open(b.processes, c.runtimeId) then [Dispatch(id, c)] else []
    case TerminateProcess(id, _) => if Open(b.processes, id) then [AuthorityHistory.Terminate(id)] else []
  }

  ghost function ProcessesAfter(b: Brokered, call: BrokerCall): seq<Process> {
    match call
    case LaunchProcess(m, trust, identity, d, answer) =>
      if Launches(b.system.authority, b.processes, m, identity, d, answer)
      then b.processes + [Process(identity.runtimeId, answer.value.platformId, false)]
      else b.processes
    case TerminateProcess(id, confirms) =>
      if Open(b.processes, id) && confirms then Confirmed(b.processes, id) else b.processes
    case _ => b.processes
  }

  ghost function BrokerStep(b: Brokered, call: BrokerCall): Brokered {
    var calls := Underlying(b, call);
    Brokered(if calls == [] then b.system else Step(b.system, calls[0]), ProcessesAfter(b, call))
  }

  ghost function BrokerRun(calls: seq<BrokerCall>): Brokered {
    if calls == [] then Brokered(Run([]), [])
    else BrokerStep(BrokerRun(calls[..|calls| - 1]), calls[|calls| - 1])
  }

  /** The calls on the ledger and the authority behind a whole broker run. */
  ghost function Behind(calls: seq<BrokerCall>): seq<Call> {
    if calls == [] then []
    else Behind(calls[..|calls| - 1]) + Underlying(BrokerRun(calls[..|calls| - 1]), calls[|calls| - 1])
  }

  /** A broker run is a run of the ledger and the authority, so all that holds of those holds of it. */
  lemma {:induction false} BrokerRunsAreRuns(calls: seq<BrokerCall>)
    ensures BrokerRun(calls).system == Run(Behind(calls))
  {
    hide Step, Underlying, ProcessesAfter;
    if calls != [] {
      BrokerRunsAreRuns(calls[..|calls| - 1]);
      var before := Behind(calls[..|calls| - 1]);
      var last := Underlying(BrokerRun(calls[..|calls| - 1]), calls[|calls| - 1]);
      if last == [] {
        assert before + last == before;
      } else {
        assert (before + last)[..|before + last| - 1] == before;
      }
    }
  }

  /** Processes and sessions match one to one in order, platform ids are distinct, nothing is ever suspended,
      and a process whose end is confirmed has a terminated session. */
  ghost predicate Matched(sessions: seq<Session>, ps: seq<Process>) {
    && |ps| == |sessions|
    && (forall i | 0 <= i < |sessions| ::
          && ps[i].runtimeId == sessions[i].identity.runtimeId
          && ValidRuntimeIdentifier(ps[i].platformId)
          && sessions[i].state != Suspended
          && (ps[i].confirmed ==> sessions[i].state == Terminated))
    && (forall i, j | 0 <= i < j < |ps| :: ps[i].platformId != ps[j].platformId)
    && DistinctRuntimes(sessions)
  }

  ghost predicate Paired(b: Brokered) {
    Matched(b.system.authority.sessions, b.processes)
  }

  lemma SameIndex(b: Brokered, runtimeId: Text)
    requires Paired(b)
    ensures |b.processes| == |b.system.authority.sessions|
    ensures FindProcess(b.processes, runtimeId) == FindSession(b.system.authority.sessions, runtimeId)
  {
  }

  lemma SameSessions(s: System, call: Call)
    requires call.OnLedger? || call.Issue? || call.Dispatch?
    ensures Step(s, call).authority.sessions == s.authority.sessions
  {
    hide LedgerStep, IssuingLease, CanDispatch, LeaseContextOf;
  }

  lemma PairedLaunch(b: Brokered, call: BrokerCall)
    requires Paired(b) && call.LaunchProcess?
    ensures Paired(BrokerStep(b, call))
  {
    hide ManifestAccepted, ValidRuntimeIdentifier, AfterIssue, AfterDispatch;
  }

  lemma MatchedEnd(sessions: seq<Session>, ps: seq<Process>, i: nat)
    requires Matched(sessions, ps) && i < |ps|
    ensures Matched(sessions[i := sessions[i].(state := Terminated)], ps)
    ensures Matched(sessions[i := sessions[i].(state := Terminated)], ps[i := ps[i].(confirmed := true)])
  {
    hide ValidRuntimeIdentifier;
  }

  lemma TerminatedSessions(a: Authority, id: Text)
    requires FindSession(a.sessions, id) < |a.sessions|
    ensures var i := FindSession(a.sessions, id);
      AfterTerminate(a, id).sessions == a.sessions[i := a.sessions[i].(state := Terminated)]
  {
    hide AllRevoked;
    var i := FindSession(a.sessions, id);
    if a.sessions[i].state == Terminated {
      assert a.sessions[i := a.sessions[i].(state := Terminated)] == a.sessions;
    }
  }

  lemma PairedTerminate(b: Brokered, call: BrokerCall)
    requires Paired(b) && call.TerminateProcess?
    ensures Paired(BrokerStep(b, call))
  {
    hide Matched, AfterTerminate, Launches, LedgerStep, IssuingLease, AfterIssue, AfterDispatch;
    SameIndex(b, call.runtimeId);
    if Open(b.processes, call.runtimeId) {
      TerminatedSessions(b.system.authority, call.runtimeId);
      MatchedEnd(b.system.authority.sessions, b.processes, FindProcess(b.processes, call.runtimeId));
    }
  }

  lemma PairedStep(b: Brokered, call: BrokerCall)
    requires Paired(b)
    ensures Paired(BrokerStep(b, call))
  {
    hide Step, Launches, Open, Confirmed;
    match call
    case LaunchProcess(_, _, _, _, _) => PairedLaunch(b, call);
    case TerminateProcess(_, _) => PairedTerminate(b, call);
    case LedgerCalls(c) => SameSessions(b.system, OnLedger(c));
    case IssueToken(r) => SameSessions(b.system, Issue(r));
    case DispatchCall(id, c) => SameSessions(b.system, Dispatch(id, c));
  }

  lemma {:induction false} BrokerInvariant(calls: seq<BrokerCall>)
    ensures Paired(BrokerRun(calls))
  {
    hide BrokerStep;
    if calls != [] {
      BrokerInvariant(calls[..|calls| - 1]);
      PairedStep(BrokerRun(calls[..|calls| - 1]), calls[|calls| - 1]);
    }
  }

  /** Asking for termination ends the session and its tokens whether or not the platform confirms. */
  lemma TerminationComesFirst(calls: seq<BrokerCall>, runtimeId: Text, confirms: bool)
    requires FindProcess(BrokerRun(calls).processes, runtimeId) < |BrokerRun(calls).processes|
    ensures var i := FindProcess(BrokerRun(calls).processes, runtimeId);
      var after := BrokerStep(BrokerRun(calls), TerminateProcess(runtimeId, confirms)).system.authority;
      && i < |after.sessions|
      && after.sessions[i].identity.runtimeId == runtimeId && after.sessions[i].state == Terminated
      && NoLiveTokens(after.tokens, runtimeId)
  {
    hide *;
    var more := calls + [TerminateProcess(runtimeId, confirms)];
    assert more[..|more| - 1] == calls;
    BrokerExtended(calls, TerminateProcess(runtimeId, confirms));
    BrokerInvariant(calls);
    BrokerRunsAreRuns(more);
    StoppedRuntimesHoldNothing(Behind(more));
    TerminatedSession(BrokerRun(calls), runtimeId, confirms);
  }

  lemma BrokerExtended(calls: seq<BrokerCall>, call: BrokerCall)
    ensures BrokerRun(calls + [call]) == BrokerStep(BrokerRun(calls), call)
  {
    hide BrokerStep;
    assert (calls + [call])[..|calls + [call]| - 1] == calls;
  }

  lemma TerminatedSession(b: Brokered, runtimeId: Text, confirms: bool)
    requires Paired(b) && FindProcess(b.processes, runtimeId) < |b.processes|
    requires StoppedHoldNothing(BrokerStep(b, TerminateProcess(runtimeId, confirms)).system.authority)
    ensures var i := FindProcess(b.processes, runtimeId);
      var after := BrokerStep(b, TerminateProcess(runtimeId, confirms)).system.authority;
      && i < |after.sessions|
      && after.sessions[i].identity.runtimeId == runtimeId && after.sessions[i].state == Terminated
      && NoLiveTokens(after.tokens, runtimeId)
  {
    hide NoLiveTokens, AllRevoked;
    SameIndex(b, runtimeId);
  }

  /** Where processes and sessions match, the broker's own gate refuses nothing the authority would have allowed. */
  lemma GateAddsNothing(b: Brokered, r: CapabilityRequest, id: u64, c: DispatchContext)
    requires Paired(b)
    ensures BrokerStep(b, IssueToken(r)).system == Step(b.system, Issue(r))
    ensures BrokerStep(b, DispatchCall(id, c)).system == Step(b.system, Dispatch(id, c))
  {
    hide *;
    if !Open(b.processes, r.runtimeId) {
      ClosedIssue(b, r);
    }
    if !Open(b.processes, c.runtimeId) {
      ClosedDispatch(b, id, c);
    }
    GatedStep(b, r, id, c);
  }

  lemma GatedStep(b: Brokered, r: CapabilityRequest, id: u64, c: DispatchContext)
    ensures BrokerStep(b, IssueToken(r)).system == if Open(b.processes, r.runtimeId) then Step(b.system, Issue(r)) else b.system
    ensures BrokerStep(b, DispatchCall(id, c)).system == if Open(b.processes, c.runtimeId) then Step(b.system, Dispatch(id, c)) else b.system
  {
    hide Step, Open;
  }

  lemma ClosedIssue(b: Brokered, r: CapabilityRequest)
    requires Paired(b) && !Open(b.processes, r.runtimeId)
    ensures Step(b.system, Issue(r)) == b.system
  {
    hide Authorizing, Consumed, DeclaresPermission;
    SameIndex(b, r.runtimeId);
    assert !MayRequest(b.system.authority, r);
  }

  lemma ClosedDispatch(b: Brokered, id: u64, c: DispatchContext)
    requires Paired(b) && !Open(b.processes, c.runtimeId)
    ensures Step(b.system, Dispatch(id, c)) == b.system
  {
    hide TokenMatches;
    SameIndex(b, c.runtimeId);
    assert !SessionMatches(b.system.authority, c);
  }

  /** Rolling back a launch asks the platform to kill a registered process exactly when the receipt is invalid
      and names one: the check that a platform id is not in use comes only after the rollback. */
  lemma RollbackKillsRegistered(b: Brokered, m: Manifest, identity: Identity, d: LaunchDecision, answer: Option<Receipt>)
    requires Paired(b) && CanLaunch(b.system.authority, b.processes, m, identity, d)
    ensures var killed := RolledBack(b.system.authority, b.processes, m, identity, d, answer);
      (killed.Some? && RegisteredPlatform(b.processes, killed.value))
        <==> (answer.Some? && !ValidReceipt(identity, answer.value) && RegisteredPlatform(b.processes, answer.value.platformId))
  {
  }

  /** And it happens in every state that a run can reach in which some process runs: a second launch whose receipt is
      invalid and names that process kills it, while its session goes on running, still able to be issued tokens. */
  lemma KilledProcessKeepsSession(
    calls: seq<BrokerCall>, m: Manifest, trust: TrustState, identity: Identity, d: LaunchDecision, r: Receipt, i: nat)
    requires var b := BrokerRun(calls);
      && i < |b.processes| && i < |b.system.authority.sessions| && b.system.authority.sessions[i].state == Running
      && CanLaunch(b.system.authority, b.processes, m, identity, d)
      && !ValidReceipt(identity, r) && r.platformId == b.processes[i].platformId
    ensures var b := BrokerRun(calls);
      && b.system.authority.sessions[i].identity.runtimeId == b.processes[i].runtimeId && !b.processes[i].confirmed
      && RolledBack(b.system.authority, b.processes, m, identity, d, Some(r)) == Some(b.processes[i].platformId)
      && BrokerRun(calls + [LaunchProcess(m, trust, identity, d, Some(r))]) == b
  {
    hide ManifestAccepted, ValidRuntimeIdentifier, BrokerRun;
    BrokerInvariant(calls);
    BrokerExtended(calls, LaunchProcess(m, trust, identity, d, Some(r)));
  }

  /** Two launches are enough. */
  lemma TwoLaunchesKill(m: Manifest, trust: TrustState, first: Identity, second: Identity, d: LaunchDecision, good: Receipt, bad: Receipt)
    requires CanLaunch(NoAuthority(), [], m, first, d) && CanLaunch(NoAuthority(), [], m, second, d)
    requires second.runtimeId != first.runtimeId && ValidReceipt(first, good)
    requires !ValidReceipt(second, bad) && bad.platformId == good.platformId
    ensures var b := BrokerRun([LaunchProcess(m, trust, first, d, Some(good))]);
      && b.processes == [Process(first.runtimeId, good.platformId, false)]
      && |b.system.authority.sessions| == 1 && b.system.authority.sessions[0].state == Running
      && RolledBack(b.system.authority, b.processes, m, second, d, Some(bad)) == Some(good.platformId)
      && BrokerRun([LaunchProcess(m, trust, first, d, Some(good)), LaunchProcess(m, trust, second, d, Some(bad))]) == b
  {
    hide ManifestAccepted, ValidRuntimeIdentifier;
    var one, two := LaunchProcess(m, trust, first, d, Some(good)), LaunchProcess(m, trust, second, d, Some(bad));
    BrokerExtended([], one);
    assert [] + [one] == [one] && [one] + [two] == [one, two];
    var b := BrokerRun([one]);
    assert b.processes == [] + [Process(first.runtimeId, good.platformId, false)];
    assert CanLaunch(b.system.authority, b.processes, m, second, d);
    KilledProcessKeepsSession([one], m, trust, second, d, bad, 0);
  }
}
