/** The records sent to the stream and the accounting of a batch answer (app/aws.server.ts). */
module KinesisRecords {
  import opened Outcomes
  import opened Json

  /** `ShopifyEvent`. The topic is a string: the routes cast it to the topic union without a check. */
  datatype ShopifyEvent = ShopifyEvent(id: string, topic: string, shop: string, payload: Json, timestamp: string)

  /** The own fields of an event object, as `...event` copies them. */
  function EventFields(e: ShopifyEvent): (fields: Fields)
    ensures fields.Keys == {"id", "topic", "shop", "payload", "timestamp"}
    ensures fields["id"] == JStr(e.id) && fields["shop"] == JStr(e.shop) && fields["topic"] == JStr(e.topic)
    ensures fields["payload"] == e.payload && fields["timestamp"] == JStr(e.timestamp)
  {
    map["id" := JStr(e.id), "topic" := JStr(e.topic), "shop" := JStr(e.shop),
        "payload" := e.payload, "timestamp" := JStr(e.timestamp)]
  }

  /**
   * The serialized body `{id: generatedId, ...event, processedAt}`: every event field plus
   * `processedAt`; because the spread comes after it, the generated id is overwritten.
   */
  function RecordBody(e: ShopifyEvent, generatedId: string, processedAt: string): (body: Fields)
    ensures body.Keys == EventFields(e).Keys + {"processedAt"}
    ensures forall k :: k in EventFields(e) ==> body[k] == EventFields(e)[k]
    ensures body["processedAt"] == JStr(processedAt)
  {
    map["id" := JStr(generatedId)] + EventFields(e) + map["processedAt" := JStr(processedAt)]
  }

  /** The body carries the caller's id, and the generated `evt_` id leaves no trace in it. */
  lemma GeneratedIdIsOverridden(e: ShopifyEvent, generated1: string, generated2: string, processedAt: string)
    ensures RecordBody(e, generated1, processedAt)["id"] == JStr(e.id)
    ensures RecordBody(e, generated1, processedAt) == RecordBody(e, generated2, processedAt)
  {
    var b1, b2 := RecordBody(e, generated1, processedAt), RecordBody(e, generated2, processedAt);
    assert forall k :: k in b1 ==> b1[k] == b2[k];
  }

  /** `PutRecordCommandInput`. */
  datatype PutRecordInput = PutRecordInput(streamName: string, data: Fields, partitionKey: string)

  /** One element of `Records` in a `PutRecordsCommandInput`. */
  datatype PutRecordsEntry = PutRecordsEntry(data: Fields, partitionKey: string)

  /** `PutRecordsCommandInput`. */
  datatype PutRecordsInput = PutRecordsInput(streamName: string, records: seq<PutRecordsEntry>)

  /** The answer to a single put, returned to the caller untouched. */
  datatype PutRecordOutput = PutRecordOutput(sequenceNumber: string, shardId: string)

  /** The per-record outcome of a multi-record put, in request order. */
  datatype PutRecordsResultEntry = PutRecordsResultEntry(
    sequenceNumber: Option<string>, shardId: Option<string>,
    errorCode: Option<string>, errorMessage: Option<string>)

  /** The answer to a multi-record put; `Records` is optional in the SDK's type. */
  datatype PutRecordsOutput = PutRecordsOutput(failedRecordCount: Option<nat>, records: Option<seq<PutRecordsResultEntry>>)

  /**
   * `events.map(event => ({Data: ..., PartitionKey: event.shop}))`, where `ids[i]` and
   * `stamps[i]` are the id and the time generated while mapping `events[i]`.
   */
  function BatchEntries(events: seq<ShopifyEvent>, ids: seq<string>, stamps: seq<string>): (r: seq<PutRecordsEntry>)
    requires |ids| == |events| && |stamps| == |events|
    ensures |r| == |events|
    ensures forall i :: 0 <= i < |events| ==>
      r[i].partitionKey == events[i].shop && r[i].data == RecordBody(events[i], ids[i], stamps[i])
  {
    if events == [] then []
    else [PutRecordsEntry(RecordBody(events[0], ids[0], stamps[0]), events[0].shop)]
         + BatchEntries(events[1..], ids[1..], stamps[1..])
  }

  /** Every record of a batch keeps its event's own id, whatever ids were generated. */
  lemma BatchKeepsCallerIds(events: seq<ShopifyEvent>, ids: seq<string>, stamps: seq<string>, i: nat)
    requires |ids| == |events| && |stamps| == |events| && i < |events|
    ensures BatchEntries(events, ids, stamps)[i].data["id"] == JStr(events[i].id)
    ensures BatchEntries(events, ids, stamps)[i].data["shop"] == JStr(events[i].shop)
  {
    GeneratedIdIsOverridden(events[i], ids[i], ids[i], stamps[i]);
  }

  /** `r.ErrorCode` is truthy: present and not the empty string. */
  predicate HasErrorCode(r: PutRecordsResultEntry): (truthy: bool)
    ensures !truthy <==> r.errorCode == None || r.errorCode == Some("")
  {
    r.errorCode.Some? && r.errorCode.value != ""
  }

  /** `records.filter(r => r.ErrorCode)`. */
  function Failed(rs: seq<PutRecordsResultEntry>): (f: seq<PutRecordsResultEntry>)
    ensures |f| <= |rs|
    ensures forall x :: x in f ==> x in rs && HasErrorCode(x)
  {
    if rs == [] then []
    else if HasErrorCode(rs[0]) then [rs[0]] + Failed(rs[1..])
    else Failed(rs[1..])
  }

  /** `records.filter(r => !r.ErrorCode)`. */
  function Succeeded(rs: seq<PutRecordsResultEntry>): (s: seq<PutRecordsResultEntry>)
    ensures |s| <= |rs|
    ensures forall x :: x in s ==> x in rs && !HasErrorCode(x)
  {
    if rs == [] then []
    else if HasErrorCode(rs[0]) then Succeeded(rs[1..])
    else [rs[0]] + Succeeded(rs[1..])
  }

  /** The two filters split the answer's records between them: together they hold each record as often as the answer does. */
  lemma {:induction false} FiltersPartitionRecords(rs: seq<PutRecordsResultEntry>)
    ensures multiset(Failed(rs)) + multiset(Succeeded(rs)) == multiset(rs)
  {
    if rs != [] {
      FiltersPartitionRecords(rs[1..]);
      assert rs == [rs[0]] + rs[1..];
    }
  }

  /** Every record is counted once: as a success or as a failure. */
  lemma {:induction false} CountsPartitionRecords(rs: seq<PutRecordsResultEntry>)
    ensures |Succeeded(rs)| + |Failed(rs)| == |rs|
  {
    if rs != [] {
      CountsPartitionRecords(rs[1..]);
    }
  }

  /** An entry of `failedRecords`. */
  datatype FailedRecord = FailedRecord(index: nat, errorCode: Option<string>, errorMessage: Option<string>)

  /**
   * `failedRecords` as written: `filter(r => r.ErrorCode).map((r, i) => ({index: i, ...}))`,
   * where `i` is the rank among the failures, not the record's position in the batch.
   */
  function FailedRecordsAsWritten(rs: seq<PutRecordsResultEntry>): (f: seq<FailedRecord>)
    ensures |f| == |Failed(rs)|
    ensures forall j :: 0 <= j < |f| ==>
      f[j].index == j && f[j].errorCode == Failed(rs)[j].errorCode && f[j].errorMessage == Failed(rs)[j].errorMessage &&
      f[j].errorCode.Some? && f[j].errorCode.value != ""
  {
    var failed := Failed(rs);
    assert forall j :: 0 <= j < |failed| ==> failed[j] in failed;
    seq(|failed|, j requires 0 <= j < |failed| => FailedRecord(j, failed[j].errorCode, failed[j].errorMessage))
  }

  /**
   * The corrected failure list of the records `rs` that start at batch position `offset`:
   * each entry's index is the failed record's own position.
   */
  function FailedRecordsFrom(rs: seq<PutRecordsResultEntry>, offset: nat): (f: seq<FailedRecord>)
    ensures |f| == |Failed(rs)|
  {
    if rs == [] then []
    else
      var rest := FailedRecordsFrom(rs[1..], offset + 1);
      if HasErrorCode(rs[0]) then [FailedRecord(offset, rs[0].errorCode, rs[0].errorMessage)] + rest
      else rest
  }

  /** Each reported entry names a failed record of the slice, with that record's error code and message. */
  ghost predicate ReportsFailureOf(f: FailedRecord, rs: seq<PutRecordsResultEntry>, offset: nat)
  {
    offset <= f.index < offset + |rs| &&
    HasErrorCode(rs[f.index - offset]) &&
    f.errorCode == rs[f.index - offset].errorCode &&
    f.errorMessage == rs[f.index - offset].errorMessage
  }

  /** Soundness of the corrected list: every entry is a real failure, and positions strictly increase. */
  lemma {:induction false} FailedRecordsFromSound(rs: seq<PutRecordsResultEntry>, offset: nat)
    ensures forall j :: 0 <= j < |FailedRecordsFrom(rs, offset)| ==>
      ReportsFailureOf(FailedRecordsFrom(rs, offset)[j], rs, offset)
    ensures forall j, k :: 0 <= j < k < |FailedRecordsFrom(rs, offset)| ==>
      FailedRecordsFrom(rs, offset)[j].index < FailedRecordsFrom(rs, offset)[k].index
  {
    if rs != [] {
      var f := FailedRecordsFrom(rs, offset);
      var rest := FailedRecordsFrom(rs[1..], offset + 1);
      FailedRecordsFromSound(rs[1..], offset + 1);
      forall j | 0 <= j < |rest| ensures ReportsFailureOf(rest[j], rs, offset) {
        assert ReportsFailureOf(rest[j], rs[1..], offset + 1);
        assert rs[1..][rest[j].index - (offset + 1)] == rs[rest[j].index - offset];
      }
      if HasErrorCode(rs[0]) {
        assert f == [FailedRecord(offset, rs[0].errorCode, rs[0].errorMessage)] + rest;
        forall j | 0 < j < |f| ensures f[j] == rest[j - 1] {}
      } else {
        assert f == rest;
      }
    }
  }

  /** The corrected `failedRecords`: indices are positions in the batch. */
  function FailedRecords(rs: seq<PutRecordsResultEntry>): (f: seq<FailedRecord>)
    ensures |f| == |Failed(rs)|
    ensures forall j :: 0 <= j < |f| ==>
      f[j].index < |rs| && HasErrorCode(rs[f[j].index]) &&
      f[j].errorCode == rs[f[j].index].errorCode && f[j].errorMessage == rs[f[j].index].errorMessage
    ensures forall j, k :: 0 <= j < k < |f| ==> f[j].index < f[k].index
  {
    FailedRecordsFromSound(rs, 0);
    var f := FailedRecordsFrom(rs, 0);
    assert forall j :: 0 <= j < |f| ==> ReportsFailureOf(f[j], rs, 0);
    f
  }

  /** Every failed record of the batch is reported, under its own position. */
  lemma {:induction false} FailedRecordsFromComplete(rs: seq<PutRecordsResultEntry>, offset: nat, k: nat)
    requires k < |rs| && HasErrorCode(rs[k])
    ensures exists j :: 0 <= j < |FailedRecordsFrom(rs, offset)| && FailedRecordsFrom(rs, offset)[j].index == offset + k
  {
    var f := FailedRecordsFrom(rs, offset);
    if k == 0 {
      assert f[0].index == offset;
    } else {
      FailedRecordsFromComplete(rs[1..], offset + 1, k - 1);
      var rest := FailedRecordsFrom(rs[1..], offset + 1);
      var j :| 0 <= j < |rest| && rest[j].index == offset + 1 + (k - 1);
      if HasErrorCode(rs[0]) {
        assert f[j + 1] == rest[j];
      } else {
        assert f[j] == rest[j];
      }
    }
  }

  /** A batch position is reported as failed exactly when its record carries an error code. */
  lemma FailedRecordsExact(rs: seq<PutRecordsResultEntry>, k: nat)
    requires k < |rs|
    ensures HasErrorCode(rs[k]) <==> exists j :: 0 <= j < |FailedRecords(rs)| && FailedRecords(rs)[j].index == k
  {
    assert FailedRecords(rs) == FailedRecordsFrom(rs, 0);
    if HasErrorCode(rs[k]) {
      FailedRecordsFromComplete(rs, 0, k);
    }
  }

  /** Every position of the batch is reported exactly when its record failed. */
  lemma FailedRecordsCover(rs: seq<PutRecordsResultEntry>)
    ensures forall k :: 0 <= k < |rs| ==>
      (HasErrorCode(rs[k]) <==> exists j :: 0 <= j < |FailedRecords(rs)| && FailedRecords(rs)[j].index == k)
  {
    forall k | 0 <= k < |rs| {
      FailedRecordsExact(rs, k);
    }
  }

  /** The failures keep batch order: the j-th failure is the record at the j-th reported position. */
  lemma {:induction false} FailedInBatchOrderFrom(rs: seq<PutRecordsResultEntry>, offset: nat)
    ensures forall j :: 0 <= j < |Failed(rs)| ==>
      offset <= FailedRecordsFrom(rs, offset)[j].index < offset + |rs| &&
      Failed(rs)[j] == rs[FailedRecordsFrom(rs, offset)[j].index - offset]
  {
    if rs != [] {
      FailedInBatchOrderFrom(rs[1..], offset + 1);
    }
  }

  /** `records.filter(r => r.ErrorCode)` is the subsequence of failed records, in batch order. */
  lemma FailedInBatchOrder(rs: seq<PutRecordsResultEntry>)
    ensures forall j :: 0 <= j < |Failed(rs)| ==> Failed(rs)[j] == rs[FailedRecords(rs)[j].index]
  {
    FailedInBatchOrderFrom(rs, 0);
  }

  /** Batch position `k` lies in the slice `rs`, which starts at position `offset`, and its record failed exactly when `failed`. */
  ghost predicate OutcomeAt(rs: seq<PutRecordsResultEntry>, offset: nat, failed: bool, k: nat)
  {
    offset <= k < offset + |rs| && HasErrorCode(rs[k - offset]) == failed
  }

  /** The positions of the slice whose records failed exactly when `failed`. */
  ghost function Positions(rs: seq<PutRecordsResultEntry>, offset: nat, failed: bool): set<nat>
  {
    set k: nat | k < offset + |rs| && OutcomeAt(rs, offset, failed, k)
  }

  /** The two filters are as long as the sets of failed and of successful positions. */
  lemma {:induction false} FilterLengthsArePositionCounts(rs: seq<PutRecordsResultEntry>, offset: nat)
    ensures |Failed(rs)| == |Positions(rs, offset, true)|
    ensures |Succeeded(rs)| == |Positions(rs, offset, false)|
  {
    if rs == [] {
      assert Positions(rs, offset, true) == {};
      assert Positions(rs, offset, false) == {};
    } else {
      FilterLengthsArePositionCounts(rs[1..], offset + 1);
      PositionsSplit(rs, offset, true);
      PositionsSplit(rs, offset, false);
    }
  }

  /** The positions of a non-empty slice are its first position, if it qualifies, and those of the rest. */
  lemma PositionsSplit(rs: seq<PutRecordsResultEntry>, offset: nat, failed: bool)
    requires rs != []
    ensures HasErrorCode(rs[0]) == failed ==>
      Positions(rs, offset, failed) == {offset} + Positions(rs[1..], offset + 1, failed) &&
      offset !in Positions(rs[1..], offset + 1, failed)
    ensures HasErrorCode(rs[0]) != failed ==>
      Positions(rs, offset, failed) == Positions(rs[1..], offset + 1, failed)
  {
  }

  /** The two lists report the same failures in the same order and differ only in `index`. */
  lemma {:induction false} CorrectedAgreesWithFailed(rs: seq<PutRecordsResultEntry>, offset: nat)
    ensures forall j :: 0 <= j < |Failed(rs)| ==>
      FailedRecordsFrom(rs, offset)[j].errorCode == Failed(rs)[j].errorCode &&
      FailedRecordsFrom(rs, offset)[j].errorMessage == Failed(rs)[j].errorMessage
  {
    if rs != [] {
      CorrectedAgreesWithFailed(rs[1..], offset + 1);
    }
  }

  /** The three-record batch whose middle record is rejected: the code reports index 0, the record is at 1. */
  lemma FailureIndexIsRankNotPosition()
    ensures var ok := PutRecordsResultEntry(Some("1"), Some("shardId-0"), None, None);
            var bad := PutRecordsResultEntry(None, None, Some("ProvisionedThroughputExceededException"), Some("Rate exceeded"));
            var rs := [ok, bad, ok];
            FailedRecordsAsWritten(rs) == [FailedRecord(0, bad.errorCode, bad.errorMessage)] &&
            FailedRecords(rs) == [FailedRecord(1, bad.errorCode, bad.errorMessage)]
  {
    var ok := PutRecordsResultEntry(Some("1"), Some("shardId-0"), None, None);
    var bad := PutRecordsResultEntry(None, None, Some("ProvisionedThroughputExceededException"), Some("Rate exceeded"));
    var rs := [ok, bad, ok];
    assert rs[1..] == [bad, ok] && rs[1..][1..] == [ok] && rs[1..][1..][1..] == [];
    assert Failed([ok]) == [];
    assert Failed([bad, ok]) == [bad];
    assert Failed(rs) == [bad];
  }

  /**
   * The accounting of a successful batch send: the two counts the code logs, and the failure list
   * with corrected positions (the code logs ranks instead, see `FailedRecordsAsWritten`).
   */
  datatype BatchReport = BatchReport(successCount: nat, failureCount: nat, failedRecords: seq<FailedRecord>)

  /**
   * The corrected accounting of a batch answer; none when the answer has no `Records` (every count
   * is then undefined). The counts, as logged, are the numbers of positions without and with a
   * truthy error code; the corrected failure list names every failed position once, in batch order.
   */
  function Report(out: PutRecordsOutput): (r: Option<BatchReport>)
    ensures r.Some? <==> out.records.Some?
    ensures r.Some? ==>
      var rs := out.records.value;
      r.value.successCount == |set k | 0 <= k < |rs| && !HasErrorCode(rs[k])| &&
      r.value.failureCount == |set k | 0 <= k < |rs| && HasErrorCode(rs[k])| &&
      r.value.successCount + r.value.failureCount == |rs| &&
      |r.value.failedRecords| == r.value.failureCount
    ensures r.Some? ==> forall k :: 0 <= k < |out.records.value| ==>
      (HasErrorCode(out.records.value[k]) <==>
       exists j :: 0 <= j < |r.value.failedRecords| && r.value.failedRecords[j].index == k)
    ensures r.Some? ==> forall j :: 0 <= j < |r.value.failedRecords| ==>
      var k := r.value.failedRecords[j].index;
      k < |out.records.value| && HasErrorCode(out.records.value[k]) &&
      r.value.failedRecords[j].errorCode == out.records.value[k].errorCode &&
      r.value.failedRecords[j].errorMessage == out.records.value[k].errorMessage
    ensures r.Some? ==> forall j, j' :: 0 <= j < j' < |r.value.failedRecords| ==>
      r.value.failedRecords[j].index < r.value.failedRecords[j'].index
  {
    match out.records
    case None => None
    case Some(rs) =>
      CountsPartitionRecords(rs);
      FilterLengthsArePositionCounts(rs, 0);
      assert Positions(rs, 0, true) == set k | 0 <= k < |rs| && HasErrorCode(rs[k]);
      assert Positions(rs, 0, false) == set k | 0 <= k < |rs| && !HasErrorCode(rs[k]);
      FailedRecordsCover(rs);
      Some(BatchReport(|Succeeded(rs)|, |Failed(rs)|, FailedRecords(rs)))
  }

  /**
   * Three records with the middle one rejected: two successes and one failure, and the corrected
   * list reports the failure at position 1 (the code logs index 0, see `FailureIndexIsRankNotPosition`).
   */
  lemma ReportOfMiddleRejection()
    ensures var ok := PutRecordsResultEntry(Some("1"), Some("shardId-0"), None, None);
            var bad := PutRecordsResultEntry(None, None, Some("ProvisionedThroughputExceededException"), Some("Rate exceeded"));
            Report(PutRecordsOutput(Some(1), Some([ok, bad, ok]))) ==
              Some(BatchReport(2, 1, [FailedRecord(1, bad.errorCode, bad.errorMessage)]))
  {
    var ok := PutRecordsResultEntry(Some("1"), Some("shardId-0"), None, None);
    var bad := PutRecordsResultEntry(None, None, Some("ProvisionedThroughputExceededException"), Some("Rate exceeded"));
    var rs := [ok, bad, ok];
    FailureIndexIsRankNotPosition();
    assert rs[1..] == [bad, ok] && rs[1..][1..] == [ok] && rs[1..][1..][1..] == [];
    assert Succeeded([ok]) == [ok];
    assert Succeeded([bad, ok]) == [ok];
    assert Succeeded(rs) == [ok, ok];
  }
}
