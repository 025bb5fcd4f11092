/** What a launch and a termination of the process broker come to, over every run and in terms of recorded fields alone. */
module BrokerTerms {
  import opened Bytes
  import opened Wrappers
  import opened Extensions
  import opened RuntimeAuthority
  import opened AuthorityHistory
  import opened ProcessBroker

  lemma OneMoreCall(calls: seq<BrokerCall>, call: BrokerCall)
    ensures BrokerRun(calls + [call]) == BrokerStep(BrokerRun(calls), call)
  {
    hide BrokerStep;
    assert (calls + [call])[..|calls + [call]| - 1] == calls;
  }

  /** A receipt is of the runtime asked for, well named, of the first isolation profile, and claims all that it asks. */
  predicate Isolates(runtimeId: Text, r: Receipt) {
    && r.runtimeId == runtimeId && ValidRuntimeIdentifier(runtimeId) && ValidRuntimeIdentifier(r.platformId)
    && r.isolationVersion == 1
    && r.dedicatedProcess && r.brokerChannel && r.internalsBlocked && r.extensionsBlocked && r.servicesBlocked && r.ambientBlocked
  }

  /** What is checked before the platform is asked. */
  ghost predicate Launchable(b: Brokered, m: Manifest, identity: Identity, d: LaunchDecision) {
    && d.launchAuthorized && (identity.privateBrowsing ==> d.privateAuthorized)
    && ManifestAccepted(m) && m.id == identity.extensionId
    && ValidRuntimeIdentifier(identity.extensionId) && ValidRuntimeIdentifier(identity.profileId) && ValidRuntimeIdentifier(identity.runtimeId)
    && forall i | 0 <= i < |b.processes| :: b.processes[i].runtimeId != identity.runtimeId
  }

  /** A launch adds a process and a running session exactly when every check passes and the platform answers with a receipt
      that isolates the runtime in a process not known before; otherwise it changes nothing, and it kills the process named
      exactly when the receipt is refused though its name is well formed. */
  lemma LaunchExactly(calls: seq<BrokerCall>, m: Manifest, trust: TrustState, identity: Identity, d: LaunchDecision, answer: Option<Receipt>)
    ensures var b, c := BrokerRun(calls), BrokerRun(calls + [LaunchProcess(m, trust, identity, d, answer)]);
      && (if Launchable(b, m, identity, d) && answer.Some? && Isolates(identity.runtimeId, answer.value)
             && forall i | 0 <= i < |b.processes| :: b.processes[i].platformId != answer.value.platformId
          then c.processes == b.processes + [Process(identity.runtimeId, answer.value.platformId, false)]
               && c.system.authority.sessions == b.system.authority.sessions + [Session(identity, m, trust, Running)]
          else c == b)
      && RolledBack(b.system.authority, b.processes, m, identity, d, answer) ==
           if Launchable(b, m, identity, d) && answer.Some? && !Isolates(identity.runtimeId, answer.value)
              && ValidRuntimeIdentifier(answer.value.platformId)
           then Some(answer.value.platformId) else None
  {
    hide ManifestAccepted, ValidRuntimeIdentifier, BrokerRun, Paired, Launchable, Isolates, CanLaunch, ValidReceipt, FindSession, AfterIssue, AfterDispatch;
    OneMoreCall(calls, LaunchProcess(m, trust, identity, d, answer));
    BrokerInvariant(calls);
    var b := BrokerRun(calls);
    LaunchableExactly(b, m, identity, d);
    if answer.Some? {
      ReceiptExactly(identity, answer.value);
    }
    if CanLaunch(b.system.authority, b.processes, m, identity, d) {
      LaunchRegisters(b.system.authority, b.processes, m, trust, identity, d);
    }
  }

  lemma ReceiptExactly(identity: Identity, r: Receipt)
    ensures ValidReceipt(identity, r) <==> Isolates(identity.runtimeId, r)
  {
    hide ValidRuntimeIdentifier;
  }

  lemma LaunchRegisters(a: Authority, ps: seq<Process>, m: Manifest, trust: TrustState, identity: Identity, d: LaunchDecision)
    requires CanLaunch(a, ps, m, identity, d)
    ensures AfterRegister(a, m, trust, identity, d).sessions == a.sessions + [Session(identity, m, trust, Running)]
  {
    hide ManifestAccepted, ValidRuntimeIdentifier;
  }

  lemma LaunchableExactly(b: Brokered, m: Manifest, identity: Identity, d: LaunchDecision)
    requires Paired(b)
    ensures CanLaunch(b.system.authority, b.processes, m, identity, d) <==> Launchable(b, m, identity, d)
  {
    hide ValidRuntimeIdentifier, Paired, FindSession;
    SameIndex(b, identity.runtimeId);
    if ManifestAccepted(m) {
      assert !HasIssue(m, MissingEntryPoint);
    }
    hide HasIssue;
  }

  /** A process ends when it is asked to and the platform confirms, and no other is touched. */
  lemma EndExactly(calls: seq<BrokerCall>, runtimeId: Text, confirms: bool, i: nat)
    requires i < |BrokerRun(calls).processes|
    ensures var ps, qs := BrokerRun(calls).processes, BrokerRun(calls + [TerminateProcess(runtimeId, confirms)]).processes;
      |qs| == |ps| && qs[i] == if ps[i].runtimeId == runtimeId && confirms then ps[i].(confirmed := true) else ps[i]
  {
    hide BrokerRun, Underlying, Paired;
    OneMoreCall(calls, TerminateProcess(runtimeId, confirms));
    BrokerInvariant(calls);
    ProcessFound(BrokerRun(calls), i);
  }

  lemma ProcessFound(b: Brokered, i: nat)
    requires Paired(b) && i < |b.processes|
    ensures FindProcess(b.processes, b.processes[i].runtimeId) == i
  {
  }
}
