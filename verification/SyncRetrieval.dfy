/** Sync retrieval: a dataset fetched page by page behind a cursor. */
module SyncRetrieval {
  import opened Bytes
  import opened Wrappers
  import opened Lexicographic

  const PAGE_SIZE := 256
  const MAX_PAGES := 4096
  const MAX_RECORDS := 4096
  const MAX_ID := 512
  const SCHEMA_VERSION := 1

  datatype Envelope = Envelope(
    dataset: Text, schemaVersion: int, id: Text, revision: u64, updatedAt: Text, origin: Text, deleted: bool, payload: Text)

  datatype Batch = Batch(dataset: Text, records: seq<Envelope>, nextAfter: Text)

  /** The transport, arbitrary: its answer may depend on the page number and the cursor. */
  type Transport = (nat, Text) -> Option<Batch>

  /** The datasets with a capability: all readable, all at version one. */
  function Datasets(): seq<Text> {
    [Ascii("browser.tabs"), Ascii("browser.history"), Ascii("browser.preferences")]
  }

  predicate WellShaped(e: Envelope) {
    && e.dataset in Datasets() && e.schemaVersion == SCHEMA_VERSION
    && 1 <= |e.id| <= MAX_ID && e.revision != 0 && e.updatedAt != [] && e.origin != []
    && (e.deleted <==> e.payload == [])
  }

  ghost predicate Increasing(records: seq<Envelope>) {
    forall i, j | 0 <= i < j < |records| :: Less(records[i].id, records[j].id)
  }

  ghost predicate AllOf(dataset: Text, records: seq<Envelope>) {
    forall i | 0 <= i < |records| :: records[i].dataset == dataset && WellShaped(records[i])
  }

  /** What a page must satisfy after a cursor. */
  ghost predicate ValidBatch(b: Batch, dataset: Text, after: Text) {
    && dataset in Datasets() && b.dataset == dataset
    && |after| <= MAX_ID && |b.nextAfter| <= MAX_ID && |b.records| <= PAGE_SIZE
    && AllOf(dataset, b.records) && Increasing(b.records)
    && (after != [] && b.records != [] ==> Less(after, b.records[0].id))
  }

  method ValidateBatch(b: Batch, dataset: Text, after: Text) returns (ok: bool)
    ensures ok == ValidBatch(b, dataset, after)
  {
    hide Datasets, Less;
    if !(dataset in Datasets()) || b.dataset != dataset || |after| > MAX_ID || |b.nextAfter| > MAX_ID || |b.records| > PAGE_SIZE {
      return false;
    }
    var previous := after;
    var i := 0;
    while i < |b.records|
      invariant 0 <= i <= |b.records|
      invariant previous == if i == 0 then after else b.records[i - 1].id
      invariant AllOf(dataset, b.records[..i]) && Increasing(b.records[..i])
      invariant after != [] && i > 0 ==> Less(after, b.records[0].id)
    {
      var r := b.records[i];
      if r.dataset != dataset || !WellShaped(r) || (previous != [] && !Less(previous, r.id)) {
        NotValid(b, dataset, after, i);
        return false;
      }
      Extended(b.records, i, dataset);
      previous := r.id;
      i := i + 1;
    }
    assert b.records[..i] == b.records;
    return true;
  }

  lemma NotValid(b: Batch, dataset: Text, after: Text, i: nat)
    requires i < |b.records|
    requires AllOf(dataset, b.records[..i])
    requires var previous := if i == 0 then after else b.records[i - 1].id;
             b.records[i].dataset != dataset || !WellShaped(b.records[i]) || (previous != [] && !Less(previous, b.records[i].id))
    ensures !ValidBatch(b, dataset, after)
  {
    hide Datasets, Less;
  }

  lemma Extended(records: seq<Envelope>, i: nat, dataset: Text)
    requires i < |records| && AllOf(dataset, records[..i]) && Increasing(records[..i])
    requires records[i].dataset == dataset && WellShaped(records[i])
    requires i > 0 ==> Less(records[i - 1].id, records[i].id)
    ensures AllOf(dataset, records[..i + 1]) && Increasing(records[..i + 1])
  {
    hide Datasets, Less;
    forall j | 0 <= j < i
      ensures Less(records[j].id, records[i].id)
    {
      if j < i - 1 {
        assert Less(records[..i][j].id, records[..i][i - 1].id);
        LessTransitive(records[j].id, records[i - 1].id, records[i].id);
      }
    }
    assert records[..i + 1] == records[..i] + [records[i]];
  }

  /** The pages from some point on, with what was gathered before. */
  ghost function FetchedFrom(t: Transport, dataset: Text, after: Text, gathered: seq<Envelope>, page: nat): Option<seq<Envelope>>
    decreases MAX_PAGES - page
  {
    if page >= MAX_PAGES then None
    else
      var b := t(page, after);
      if b.None? || !ValidBatch(b.value, dataset, after) || |gathered| + |b.value.records| > MAX_RECORDS then None
      else if b.value.nextAfter == [] then Some(gathered + b.value.records)
      else if b.value.records == [] || b.value.nextAfter != b.value.records[|b.value.records| - 1].id
              || (after != [] && !Less(after, b.value.nextAfter)) then None
      else FetchedFrom(t, dataset, b.value.nextAfter, gathered + b.value.records, page + 1)
  }

  ghost function Fetched(t: Transport, dataset: Text): Option<seq<Envelope>> {
    FetchedFrom(t, dataset, [], [], 0)
  }

  method FetchDataset(t: Transport, dataset: Text) returns (records: Option<seq<Envelope>>)
    ensures records == Fetched(t, dataset)
  {
    hide ValidBatch, Less, FetchedFrom;
    var gathered: seq<Envelope> := [];
    var after: Text := [];
    var page: nat := 0;
    while page < MAX_PAGES
      invariant page <= MAX_PAGES
      invariant FetchedFrom(t, dataset, after, gathered, page) == Fetched(t, dataset)
    {
      PageStep(t, dataset, after, gathered, page);
      var b := t(page, after);
      if b.None? {
        return None;
      }
      var valid := ValidateBatch(b.value, dataset, after);
      if !valid || |gathered| + |b.value.records| > MAX_RECORDS {
        return None;
      }
      gathered := gathered + b.value.records;
      if b.value.nextAfter == [] {
        return Some(gathered);
      }
      if b.value.records == [] || b.value.nextAfter != b.value.records[|b.value.records| - 1].id
         || (after != [] && !Less(after, b.value.nextAfter)) {
        return None;
      }
      after := b.value.nextAfter;
      page := page + 1;
    }
    PagesEnd(t, dataset, after, gathered);
    return None;
  }

  lemma PagesEnd(t: Transport, dataset: Text, after: Text, gathered: seq<Envelope>)
    ensures FetchedFrom(t, dataset, after, gathered, 4096) == None
  {
  }

  predicate IsDataset(dataset: Text) {
    dataset == Ascii("browser.tabs") || dataset == Ascii("browser.history") || dataset == Ascii("browser.preferences")
  }

  /** A record with all its parts, and without a payload exactly when it is deleted. */
  predicate HasAll(e: Envelope) {
    && e.schemaVersion == 1 && 1 <= |e.id| <= 512 && e.revision > 0 && e.updatedAt != [] && e.origin != []
    && (e.deleted <==> e.payload == [])
  }

  lemma WellShapedIs(e: Envelope)
    ensures WellShaped(e) <==> IsDataset(e.dataset) && HasAll(e)
    ensures e.dataset in Datasets() <==> IsDataset(e.dataset)
  {
    hide Ascii;
  }

  lemma IsOneOf(dataset: Text)
    ensures dataset in Datasets() <==> IsDataset(dataset)
  {
    hide Ascii;
  }

  /** A page that is accepted: of one of the three datasets, of at most 256 whole records whose ids increase beyond the cursor. */
  lemma PageExactly(b: Batch, dataset: Text, after: Text)
    ensures ValidBatch(b, dataset, after) <==>
              && IsDataset(dataset) && b.dataset == dataset && |after| <= 512 && |b.nextAfter| <= 512 && |b.records| <= 256
              && (forall i | 0 <= i < |b.records| :: b.records[i].dataset == dataset && HasAll(b.records[i]))
              && (forall i, j | 0 <= i < j < |b.records| :: Less(b.records[i].id, b.records[j].id))
              && (after != [] && b.records != [] ==> Less(after, b.records[0].id))
  {
    hide Less, Datasets, IsDataset, HasAll, WellShaped;
    IsOneOf(dataset);
    forall i | 0 <= i < |b.records|
      ensures WellShaped(b.records[i]) <==> IsDataset(b.records[i].dataset) && HasAll(b.records[i])
    {
      WellShapedIs(b.records[i]);
    }
  }

  /** A page is refused, or is the last, or the next one is asked for. */
  lemma PageStep(t: Transport, dataset: Text, after: Text, gathered: seq<Envelope>, page: nat)
    requires page < 4096
    ensures var b, r := t(page, after), FetchedFrom(t, dataset, after, gathered, page);
      if b.None? || !ValidBatch(b.value, dataset, after) || |gathered| + |b.value.records| > 4096 then r == None
      else if b.value.nextAfter == [] then r == Some(gathered + b.value.records)
      else if b.value.records == [] || b.value.nextAfter != b.value.records[|b.value.records| - 1].id
              || (after != [] && !Less(after, b.value.nextAfter)) then r == None
      else r == FetchedFrom(t, dataset, b.value.nextAfter, gathered + b.value.records, page + 1)
  {
    hide ValidBatch, Less;
  }

  // Whatever the transport answers.

  lemma JoinedIncreasing(a: seq<Envelope>, b: seq<Envelope>)
    requires Increasing(a) && Increasing(b)
    requires a != [] && b != [] ==> Less(a[|a| - 1].id, b[0].id)
    ensures Increasing(a + b)
  {
    hide Less;
    var c := a + b;
    forall i, j | 0 <= i < j < |c|
      ensures Less(c[i].id, c[j].id)
    {
      if i < |a| <= j {
        if i < |a| - 1 {
          LessTransitive(a[i].id, a[|a| - 1].id, b[0].id);
        }
        if j > |a| {
          LessTransitive(a[i].id, b[0].id, b[j - |a|].id);
        }
      }
    }
  }

  lemma {:induction false} AnyTransportFrom(t: Transport, dataset: Text, after: Text, gathered: seq<Envelope>, page: nat)
    requires AllOf(dataset, gathered) && Increasing(gathered) && |gathered| <= MAX_RECORDS
    requires if gathered == [] then after == [] else after == gathered[|gathered| - 1].id
    ensures var r := FetchedFrom(t, dataset, after, gathered, page);
      r.Some? ==> gathered <= r.value && |r.value| <= MAX_RECORDS && AllOf(dataset, r.value) && Increasing(r.value)
    decreases MAX_PAGES - page
  {
    hide Datasets, Less, WellShaped;
    if page < MAX_PAGES {
      var b := t(page, after);
      if b.Some? && ValidBatch(b.value, dataset, after) && |gathered| + |b.value.records| <= MAX_RECORDS {
        if gathered != [] {
          NamedLast(dataset, gathered);
        }
        JoinedIncreasing(gathered, b.value.records);
        if b.value.nextAfter != [] && b.value.records != [] && b.value.nextAfter == b.value.records[|b.value.records| - 1].id {
          AnyTransportFrom(t, dataset, b.value.nextAfter, gathered + b.value.records, page + 1);
        }
      }
    }
  }

  lemma NamedLast(dataset: Text, gathered: seq<Envelope>)
    requires AllOf(dataset, gathered) && gathered != []
    ensures gathered[|gathered| - 1].id != []
  {
    hide Datasets;
  }

  /** Any result, from any transport, is strictly increasing by id, within the limit, and well shaped throughout. */
  lemma AnyTransport(t: Transport, dataset: Text)
    ensures var r := Fetched(t, dataset);
      r.Some? ==> |r.value| <= 4096 && Increasing(r.value) && AllOf(dataset, r.value)
  {
    hide FetchedFrom;
    AnyTransportFrom(t, dataset, [], [], 0);
  }

  // An honest server.

  function Cursor(data: seq<Envelope>, p: nat): Text
    requires p <= |data|
  {
    if p == 0 then [] else data[p - 1].id
  }

  /** The page after the first p records: the next few, and a cursor only if there are more. */
  ghost predicate HonestPage(dataset: Text, data: seq<Envelope>, p: nat, b: Batch)
    requires p <= |data|
  {
    var k := |b.records|;
    && b.dataset == dataset && k <= PAGE_SIZE && p + k <= |data| && (p < |data| ==> k >= 1)
    && b.records == data[p..p + k]
    && b.nextAfter == if p + k == |data| then [] else data[p + k - 1].id
  }

  ghost predicate HonestServer(t: Transport, dataset: Text, data: seq<Envelope>) {
    forall page: nat, p: nat | p <= |data| ::
      t(page, Cursor(data, p)).Some? && HonestPage(dataset, data, p, t(page, Cursor(data, p)).value)
  }

  lemma HonestIsValid(dataset: Text, data: seq<Envelope>, p: nat, b: Batch)
    requires dataset in Datasets() && AllOf(dataset, data) && Increasing(data)
    requires p <= |data| && HonestPage(dataset, data, p, b)
    ensures ValidBatch(b, dataset, Cursor(data, p))
    ensures b.nextAfter != [] ==>
              && b.records != [] && b.nextAfter == b.records[|b.records| - 1].id == Cursor(data, p + |b.records|)
              && (Cursor(data, p) != [] ==> Less(Cursor(data, p), b.nextAfter))
    ensures b.nextAfter == [] <==> p + |b.records| == |data|
  {
    hide Datasets, Less;
    assert forall i | 0 <= i < |b.records| :: b.records[i] == data[p + i];
  }

  lemma {:induction false} HonestServerFrom(t: Transport, dataset: Text, data: seq<Envelope>, p: nat, page: nat)
    requires dataset in Datasets() && AllOf(dataset, data) && Increasing(data) && HonestServer(t, dataset, data)
    requires page <= p <= |data| && p <= MAX_RECORDS && (p == |data| ==> p == 0)
    ensures FetchedFrom(t, dataset, Cursor(data, p), data[..p], page) == if |data| <= MAX_RECORDS then Some(data) else None
    decreases MAX_PAGES - page
  {
    hide ValidBatch, AllOf, Increasing, Less, Datasets, Cursor;
    if page < MAX_PAGES {
      assert t(page, Cursor(data, p)).Some? && HonestPage(dataset, data, p, t(page, Cursor(data, p)).value);
      var b := t(page, Cursor(data, p)).value;
      HonestIsValid(dataset, data, p, b);
      assert data[..p] + b.records == data[..p + |b.records|];
      if p + |b.records| == |data| {
        assert data[..|data|] == data;
      } else if p + |b.records| <= MAX_RECORDS {
        HonestServerFrom(t, dataset, data, p + |b.records|, page + 1);
      }
    }
  }

  /** Against an honest server, with pages of any size, the result is the whole dataset when it fits the limit,
      and nothing otherwise. */
  lemma HonestServerIsFetched(t: Transport, dataset: Text, data: seq<Envelope>)
    requires dataset in Datasets() && AllOf(dataset, data) && Increasing(data) && HonestServer(t, dataset, data)
    ensures Fetched(t, dataset) == if |data| <= 4096 then Some(data) else None
  {
    hide FetchedFrom, AllOf, Increasing, HonestServer, Datasets;
    HonestServerFrom(t, dataset, data, 0, 0);
    assert data[..0] == [];
  }
}
