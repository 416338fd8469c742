/** The stream wrapper of app/aws.server.ts: record construction, the send, return or rethrow. */
module Kinesis {
  import opened Outcomes
  import opened AwsConfig
  import opened KinesisRecords

  /** A command handed to the stream service. */
  datatype KinesisCommand = PutRecord(input: PutRecordInput) | PutRecords(batch: PutRecordsInput)

  /**
   * The process-wide stream client. `sent` is every command it was asked to send, in order;
   * what the service answers is not decided here, so each send is given its answer.
   */
  class KinesisClient {
    var sent: seq<KinesisCommand>

    constructor ()
      ensures sent == []
    {
      sent := [];
    }

    /** `kinesis.send(new PutRecordCommand(input))`. */
    method SendPutRecord(input: PutRecordInput, answer: Outcome<PutRecordOutput>) returns (r: Outcome<PutRecordOutput>)
      modifies this
      ensures sent == old(sent) + [PutRecord(input)]
      ensures r == answer
    {
      sent := sent + [PutRecord(input)];
      r := answer;
    }

    /** `kinesis.send(new PutRecordsCommand(batch))`. */
    method SendPutRecords(batch: PutRecordsInput, answer: Outcome<PutRecordsOutput>) returns (r: Outcome<PutRecordsOutput>)
      modifies this
      ensures sent == old(sent) + [PutRecords(batch)]
      ensures r == answer
    {
      sent := sent + [PutRecords(batch)];
      r := answer;
    }
  }

  /** The module's state after it loaded: the configuration it read and the client it built. */
  class StreamWrapper {
    const streamName: string
    const missingVars: seq<string>
    const kinesis: KinesisClient

    constructor (env: Env, kinesis: KinesisClient)
      ensures streamName == StreamName(env) && missingVars == MissingVars(env) && this.kinesis == kinesis
    {
      streamName := StreamName(env);
      missingVars := MissingVars(env);
      this.kinesis := kinesis;
    }

    /**
     * `sendToKinesis(event)`: one record, partitioned by shop, sent once; the service's answer
     * is returned unchanged and its error rethrown unchanged, with no retry. `eventId` and
     * `processedAt` are the generated `evt_` id and the ISO time of the call.
     */
    method SendToKinesis(event: ShopifyEvent, eventId: string, processedAt: string, answer: Outcome<PutRecordOutput>)
      returns (r: Outcome<PutRecordOutput>)
      modifies kinesis
      ensures kinesis.sent == old(kinesis.sent) + [PutRecord(PutRecordInput(streamName, RecordBody(event, eventId, processedAt), event.shop))]
      ensures r == answer
    {
      var record := PutRecordInput(streamName, RecordBody(event, eventId, processedAt), event.shop);
      r := kinesis.SendPutRecord(record, answer);
    }

    /**
     * `sendBatchToKinesis(events)`: one multi-record command with one record per event, in order;
     * the answer is returned unchanged or its error rethrown. On success `report` is the corrected
     * accounting of the answer: the logged counts, and failure positions in place of the logged ranks. `ids[i]` and `stamps[i]` are generated for `events[i]`.
     */
    method SendBatchToKinesis(events: seq<ShopifyEvent>, ids: seq<string>, stamps: seq<string>, answer: Outcome<PutRecordsOutput>)
      returns (r: Outcome<PutRecordsOutput>, report: Option<BatchReport>)
      requires |ids| == |events| && |stamps| == |events|
      modifies kinesis
      ensures kinesis.sent == old(kinesis.sent) + [PutRecords(PutRecordsInput(streamName, BatchEntries(events, ids, stamps)))]
      ensures r == answer
      ensures report == (if answer.Ok? then Report(answer.value) else None)
    {
      var records := BatchEntries(events, ids, stamps);
      r := kinesis.SendPutRecords(PutRecordsInput(streamName, records), answer);
      if r.Ok? {
        report := Report(r.value);
      } else {
        report := None;
      }
    }
  }
}
