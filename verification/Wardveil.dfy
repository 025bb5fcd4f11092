/** The release decision over one Wardveil scan of a staged download. */
module Wardveil {
  import opened Bytes
  import opened Wrappers

  datatype ScanResult = Clean | Suspicious | Malicious | Unknown | Unsupported

  datatype Disposition = Allow | HoldReview | BlockQuarantine | BlockUnverified

  datatype ScanRecord = ScanRecord(
    contractVersion: Text, recordType: Text, authoritative: bool, producerId: Text,
    resourceType: Text, resourceId: Text, digest: Text, result: ScanResult,
    observedAt: int, validUntil: int, evidence: seq<Text>)

  datatype ScanRequest = ScanRequest(resourceId: Text, digest: Text, size: u64, privateSession: bool)

  datatype ScanResponse = ScanResponse(succeeded: bool, record: Option<ScanRecord>)

  datatype Reason =
    | ScanUnavailable | UnsupportedContract | InvalidRecordType | NotAuthoritative | ScopeMismatch | DigestMismatch
    | InvalidTimeWindow | FutureDated | MaliciousContent | EvidenceExpired | CleanEvidenceMissing | CurrentClean
    | ReviewRequired | ResultUnknown | ResultUnsupported | ResultInvalid | ContentChanged

  datatype Decision = Decision(
    disposition: Disposition, canRelease: bool, canOpen: bool, quarantine: bool,
    reasons: seq<Reason>, evidence: seq<Text>, resourceId: Text, digest: Text)

  function ContractVersion(): Text {
    Ascii("0.1.0")
  }

  function FindingType(): Text {
    Ascii("scan_finding")
  }

  function DownloadType(): Text {
    Ascii("browser_download")
  }

  function BlockedFor(request: ScanRequest, evidence: seq<Text>, reason: Reason): Decision {
    Decision(BlockUnverified, false, false, false, [reason], evidence, request.resourceId, request.digest)
  }

  function Evaluate(request: ScanRequest, response: ScanResponse, now: int): Decision {
    if !response.succeeded || response.record.None? then BlockedFor(request, [], ScanUnavailable)
    else
      var r := response.record.value;
      if r.contractVersion != ContractVersion() then BlockedFor(request, [], UnsupportedContract)
      else if r.recordType != FindingType() then BlockedFor(request, [], InvalidRecordType)
      else if !r.authoritative || r.producerId == [] then BlockedFor(request, [], NotAuthoritative)
      else if r.resourceType != DownloadType() || r.resourceId != request.resourceId then BlockedFor(request, [], ScopeMismatch)
      else if r.digest != request.digest then BlockedFor(request, [], DigestMismatch)
      else if r.observedAt <= 0 || r.validUntil <= r.observedAt then BlockedFor(request, [], InvalidTimeWindow)
      else if r.observedAt > now then BlockedFor(request, [], FutureDated)
      else if r.result == Malicious then
        Decision(BlockQuarantine, false, false, true, [MaliciousContent], r.evidence, request.resourceId, request.digest)
      else if r.validUntil <= now then BlockedFor(request, r.evidence, EvidenceExpired)
      else
        match r.result
        case Clean =>
          if r.evidence == [] then BlockedFor(request, r.evidence, CleanEvidenceMissing)
          else Decision(Allow, true, true, false, [CurrentClean], r.evidence, request.resourceId, request.digest)
        case Suspicious =>
          Decision(HoldReview, false, false, false, [ReviewRequired], r.evidence, request.resourceId, request.digest)
        case Unknown => BlockedFor(request, r.evidence, ResultUnknown)
        case Unsupported => BlockedFor(request, r.evidence, ResultUnsupported)
        case Malicious => BlockedFor(request, r.evidence, ResultInvalid)
  }

  /** A finding about exactly these bytes of this download, from an authoritative producer, already observed. */
  predicate Credible(request: ScanRequest, response: ScanResponse, now: int) {
    && response.succeeded && response.record.Some?
    && var r := response.record.value;
       && r.contractVersion == ContractVersion() && r.recordType == FindingType()
       && r.authoritative && r.producerId != []
       && r.resourceType == DownloadType() && r.resourceId == request.resourceId && r.digest == request.digest
       && 0 < r.observedAt < r.validUntil && r.observedAt <= now
  }

  /** A credible finding that is still valid. */
  predicate Current(request: ScanRequest, response: ScanResponse, now: int) {
    Credible(request, response, now) && now < response.record.value.validUntil
  }

  /** Which findings lead to which decision: only a current clean finding with evidence releases, while a
      malicious one quarantines even after it has expired. Everything else blocks. */
  lemma DecisionExactly(request: ScanRequest, response: ScanResponse, now: int)
    ensures var d := Evaluate(request, response, now);
      && (d.canRelease <==> Current(request, response, now) && response.record.value.result == Clean && response.record.value.evidence != [])
      && (d.disposition == HoldReview <==> Current(request, response, now) && response.record.value.result == Suspicious)
      && (d.quarantine <==> Credible(request, response, now) && response.record.value.result == Malicious)
      && (d.canRelease <==> d.disposition == Allow) && (d.quarantine <==> d.disposition == BlockQuarantine)
      && d.canOpen == d.canRelease && d.resourceId == request.resourceId && d.digest == request.digest
  {
    hide ContractVersion, FindingType, DownloadType;
  }

  /** Which reason is told: the first defect of the answer, or what its finding says. */
  lemma ReasonsExactly(request: ScanRequest, response: ScanResponse, now: int)
    ensures var d := Evaluate(request, response, now);
      if !response.succeeded || response.record.None? then d.reasons == [ScanUnavailable] && d.evidence == []
      else
        var f := response.record.value;
        if f.contractVersion != Ascii("0.1.0") then d.reasons == [UnsupportedContract] && d.evidence == []
        else if f.recordType != Ascii("scan_finding") then d.reasons == [InvalidRecordType] && d.evidence == []
        else if !f.authoritative || f.producerId == [] then d.reasons == [NotAuthoritative] && d.evidence == []
        else if f.resourceType != Ascii("browser_download") || f.resourceId != request.resourceId then d.reasons == [ScopeMismatch] && d.evidence == []
        else if f.digest != request.digest then d.reasons == [DigestMismatch] && d.evidence == []
        else if f.observedAt <= 0 || f.validUntil <= f.observedAt then d.reasons == [InvalidTimeWindow] && d.evidence == []
        else if now < f.observedAt then d.reasons == [FutureDated] && d.evidence == []
        else
          && d.evidence == f.evidence
          && d.reasons == (if f.result == Malicious then [MaliciousContent]
                           else if f.validUntil <= now then [EvidenceExpired]
                           else if f.result == Suspicious then [ReviewRequired]
                           else if f.result == Unknown then [ResultUnknown]
                           else if f.result == Unsupported then [ResultUnsupported]
                           else if f.evidence == [] then [CleanEvidenceMissing]
                           else [CurrentClean])
  {
    hide Ascii;
  }
}
