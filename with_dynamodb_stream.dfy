/** The DynamoDB Streams adapters: `parseRecord`, which decodes the images
    of a stream record, `withDynamoDBStream`, which runs the handler on
    every record and reports the failed ones, and `withDynamoDBStreamBatch`,
    which runs it once on the whole decoded batch. */
module WithDynamoDbStream {
  import opened Wrappers
  import opened JsValues
  import opened Json
  import opened HttpErrors

  // ---------------------------------------------------------------------
  // Decoding DynamoDB attribute values (`unmarshall`)
  // ---------------------------------------------------------------------

  /** A DynamoDB attribute value, by its type tag: string, number, boolean,
      null, map and list. */
  datatype AttributeValue =
    | S(s: string)
    | N(n: int)
    | BOOL(b: bool)
    | NULL
    | M(m: seq<Attribute>)
    | L(l: seq<AttributeValue>)

  /** One attribute of an item (or of a map attribute). */
  datatype Attribute = Attribute(name: string, value: AttributeValue)

  /** The attribute names of an item, in order. */
  function Names(item: seq<Attribute>): (ns: seq<string>)
    ensures |ns| == |item|
  {
    if item == [] then [] else [item[0].name] + Names(item[1..])
  }

  /** The JavaScript value of an attribute value. */
  function Convert(v: AttributeValue): Value
    decreases v, 1
  {
    match v
    case S(s) => Str(s)
    case N(n) => Num(n)
    case BOOL(b) => Bool(b)
    case NULL => Null
    case M(m) => Obj(Unmarshall(m))
    case L(l) => Arr(ConvertList(l))
  }

  function ConvertList(l: seq<AttributeValue>): (items: seq<Value>)
    ensures |items| == |l|
    decreases l, 0
  {
    if l == [] then [] else [Convert(l[0])] + ConvertList(l[1..])
  }

  /** `unmarshall(item)`: a plain object with one property per attribute,
      with the same names in the same order. */
  function Unmarshall(item: seq<Attribute>): (props: seq<Prop>)
    ensures Keys(props) == Names(item)
    decreases item, 0
  {
    if item == [] then []
    else [Prop(item[0].name, Convert(item[0].value))] + Unmarshall(item[1..])
  }

  /** A decoded attribute value never holds `undefined`, so within the
      model it survives a JSON round trip unchanged. */
  lemma {:induction false} ConvertIsJson(v: AttributeValue)
    ensures IsJson(Convert(v))
    decreases v, 1
  {
    match v
    case M(m) => UnmarshallIsJson(m);
    case L(l) => ConvertListIsJson(l);
    case _ =>
  }

  lemma {:induction false} ConvertListIsJson(l: seq<AttributeValue>)
    ensures ItemsAreJson(ConvertList(l))
    decreases l, 0
  {
    if l != [] {
      ConvertIsJson(l[0]);
      ConvertListIsJson(l[1..]);
      assert ConvertList(l)[1..] == ConvertList(l[1..]);
    }
  }

  lemma {:induction false} UnmarshallIsJson(item: seq<Attribute>)
    ensures PropsAreJson(Unmarshall(item))
    decreases item, 0
  {
    if item != [] {
      ConvertIsJson(item[0].value);
      UnmarshallIsJson(item[1..]);
      assert Unmarshall(item)[1..] == Unmarshall(item[1..]);
    }
  }

  // ---------------------------------------------------------------------
  // Records (`parseRecord`)
  // ---------------------------------------------------------------------

  /** The `dynamodb` part of a stream record: the key and the images as
      DynamoDB items, the sequence number, and the other fields (creation
      time, size, view type, ...). */
  datatype StreamRecord = StreamRecord(
    keys: Option<seq<Attribute>>,
    newImage: Option<seq<Attribute>>,
    oldImage: Option<seq<Attribute>>,
    sequenceNumber: Option<string>,
    others: seq<Prop>)

  /** A `DynamoDBRecord`: its `dynamodb` part, when there is one, and the
      other fields (event id, event name, source, region, ...). */
  datatype DynamoDBRecord = DynamoDBRecord(dynamodb: Option<StreamRecord>, others: seq<Prop>)

  /** The `dynamodb` part of a parsed record, with the images decoded. */
  datatype ParsedStreamRecord = ParsedStreamRecord(
    keys: Option<seq<Prop>>,
    newImage: Option<seq<Prop>>,
    oldImage: Option<seq<Prop>>,
    sequenceNumber: Option<string>,
    others: seq<Prop>)

  /** A parsed record always has a `dynamodb` part. */
  datatype ParsedRecord = ParsedRecord(dynamodb: ParsedStreamRecord, others: seq<Prop>)

  /** `x ? unmarshall(x) : undefined` for one of the images. */
  function DecodeImage(image: Option<seq<Attribute>>): (r: Option<seq<Prop>>)
    ensures r.Some? <==> image.Some?
    ensures r.Some? ==> Keys(r.value) == Names(image.value) && PropsAreJson(r.value)
  {
    if image.Some? then
      UnmarshallIsJson(image.value);
      Some(Unmarshall(image.value))
    else None
  }

  /** `parseRecord(record)`: every field is kept, the key and images are
      decoded when present and `undefined` otherwise, and the `dynamodb`
      part is there even when the record had none. */
  function ParseRecord(record: DynamoDBRecord): (r: ParsedRecord)
    ensures r.others == record.others
    ensures record.dynamodb.None? ==> r.dynamodb == ParsedStreamRecord(None, None, None, None, [])
    ensures record.dynamodb.Some? ==>
      var d := record.dynamodb.value;
      r.dynamodb.keys == DecodeImage(d.keys) && r.dynamodb.newImage == DecodeImage(d.newImage) &&
      r.dynamodb.oldImage == DecodeImage(d.oldImage) &&
      r.dynamodb.sequenceNumber == d.sequenceNumber && r.dynamodb.others == d.others
  {
    match record.dynamodb
    case None => ParsedRecord(ParsedStreamRecord(None, None, None, None, []), record.others)
    case Some(d) =>
      ParsedRecord(
        ParsedStreamRecord(DecodeImage(d.keys), DecodeImage(d.newImage), DecodeImage(d.oldImage), d.sequenceNumber, d.others),
        record.others)
  }

  /** `event.Records.map(parseRecord)`. */
  function ParseRecords(records: seq<DynamoDBRecord>): (parsed: seq<ParsedRecord>)
    ensures |parsed| == |records|
    ensures forall i :: 0 <= i < |records| ==> parsed[i] == ParseRecord(records[i])
  {
    if records == [] then [] else [ParseRecord(records[0])] + ParseRecords(records[1..])
  }

  // ---------------------------------------------------------------------
  // The per-record adapter (`withDynamoDBStream`)
  // ---------------------------------------------------------------------

  /** A `DynamoDBStreamEvent`. */
  datatype StreamEvent = StreamEvent(records: seq<DynamoDBRecord>)

  datatype BatchItemFailure = BatchItemFailure(itemIdentifier: string)

  datatype BatchResponse = BatchResponse(batchItemFailures: seq<BatchItemFailure>)

  /** The settled promise of a handler run on one parsed record. */
  type RecordHandler<!C> = (ParsedRecord, C) -> Outcome<Thrown>

  /** `record.dynamodb?.SequenceNumber || '0'`: the sequence number when it
      is there and not empty, `'0'` otherwise; never empty. */
  function ItemIdentifier(record: DynamoDBRecord): (id: string)
    ensures id != ""
    ensures id == "0" || (record.dynamodb.Some? && record.dynamodb.value.sequenceNumber == Some(id))
    ensures (record.dynamodb.Some? && record.dynamodb.value.sequenceNumber.Some? &&
             record.dynamodb.value.sequenceNumber.value != "") ==>
      id == record.dynamodb.value.sequenceNumber.value
  {
    if record.dynamodb.Some? && record.dynamodb.value.sequenceNumber.Some? &&
      record.dynamodb.value.sequenceNumber.value != ""
    then record.dynamodb.value.sequenceNumber.value
    else "0"
  }

  /** Whether the handler rejects on the parsed `record`. */
  predicate Fails<C>(handler: RecordHandler<C>, record: DynamoDBRecord, context: C)
  {
    handler(ParseRecord(record), context).Fail?
  }

  /** The failures reported for `records`, in record order. */
  function Failures<C>(handler: RecordHandler<C>, records: seq<DynamoDBRecord>, context: C): seq<BatchItemFailure>
  {
    if records == [] then []
    else
      var n := |records| - 1;
      Failures(handler, records[..n], context) +
        (if Fails(handler, records[n], context) then [BatchItemFailure(ItemIdentifier(records[n]))] else [])
  }

  /** The positions of the records whose handler rejects. */
  function FailingIndices<C>(handler: RecordHandler<C>, records: seq<DynamoDBRecord>, context: C): set<nat>
  {
    set i: nat | i < |records| && Fails(handler, records[i], context)
  }

  /** The function `withDynamoDBStream(handler)` returns, applied to an
      event and a context. The handler runs on every parsed record (the
      records are taken in order here), a rejection is recorded as a failure
      of that record, and the result is `undefined` (None) when no record
      failed. `invoked` lists the records the handler was given. */
  method WithDynamoDBStream<C>(handler: RecordHandler<C>, event: StreamEvent, context: C)
    returns (result: Option<BatchResponse>, invoked: seq<ParsedRecord>)
    ensures invoked == ParseRecords(event.records)
    ensures var failures := Failures(handler, event.records, context);
      result == if |failures| > 0 then Some(BatchResponse(failures)) else None
  {
    var records := event.records;
    var batchItemFailures: seq<BatchItemFailure> := [];
    invoked := [];
    var i := 0;
    while i < |records|
      invariant 0 <= i <= |records|
      invariant |invoked| == i
      invariant forall j :: 0 <= j < i ==> invoked[j] == ParseRecord(records[j])
      invariant batchItemFailures == Failures(handler, records[..i], context)
    {
      var parsed := ParseRecord(records[i]);
      invoked := invoked + [parsed];
      var outcome := handler(parsed, context);
      if outcome.Fail? {
        batchItemFailures := batchItemFailures + [BatchItemFailure(ItemIdentifier(records[i]))];
      }
      assert records[..i + 1][..i] == records[..i];
      i := i + 1;
    }
    assert records[..|records|] == records;
    result := if |batchItemFailures| > 0 then Some(BatchResponse(batchItemFailures)) else None;
  }

  /** Exactly one failure is reported per record whose handler rejects. */
  lemma {:induction false} FailuresCount<C>(handler: RecordHandler<C>, records: seq<DynamoDBRecord>, context: C)
    ensures |Failures(handler, records, context)| == |FailingIndices(handler, records, context)|
    decreases |records|
  {
    if records != [] {
      var n := |records| - 1;
      var init := records[..n];
      FailuresCount(handler, init, context);
      var before := FailingIndices(handler, init, context);
      var after := FailingIndices(handler, records, context);
      assert forall i :: 0 <= i < n ==> init[i] == records[i];
      if Fails(handler, records[n], context) {
        assert after == before + {n};
      } else {
        assert after == before;
      }
    }
  }

  /** A failure names a record exactly when the handler rejected on a
      record with that identifier. */
  lemma {:induction false} FailureReported<C>(handler: RecordHandler<C>, records: seq<DynamoDBRecord>, context: C, id: string)
    ensures BatchItemFailure(id) in Failures(handler, records, context) <==>
      exists i :: 0 <= i < |records| && Fails(handler, records[i], context) && ItemIdentifier(records[i]) == id
    decreases |records|
  {
    if records != [] {
      var n := |records| - 1;
      var init := records[..n];
      FailureReported(handler, init, context, id);
      assert forall i :: 0 <= i < n ==> init[i] == records[i];
    }
  }

  /** The positions of the rejecting records whose identifier is `id`. */
  function Reporting<C>(handler: RecordHandler<C>, records: seq<DynamoDBRecord>, context: C, id: string): set<nat>
  {
    set i: nat | i < |records| && Fails(handler, records[i], context) && ItemIdentifier(records[i]) == id
  }

  /** Each identifier is reported as many times as there are rejecting
      records with that identifier: records without a sequence number all
      report `'0'`, once each. */
  lemma {:induction false} FailureMultiplicity<C>(handler: RecordHandler<C>, records: seq<DynamoDBRecord>, context: C, id: string)
    ensures multiset(Failures(handler, records, context))[BatchItemFailure(id)] ==
      |Reporting(handler, records, context, id)|
    decreases |records|
  {
    if records != [] {
      var n := |records| - 1;
      var init := records[..n];
      FailureMultiplicity(handler, init, context, id);
      var last := if Fails(handler, records[n], context) then [BatchItemFailure(ItemIdentifier(records[n]))] else [];
      assert Failures(handler, records, context) == Failures(handler, init, context) + last;
      assert multiset(Failures(handler, records, context)) == multiset(Failures(handler, init, context)) + multiset(last);
      ReportingStep(handler, records, context, id);
    }
  }

  lemma ReportingStep<C>(handler: RecordHandler<C>, records: seq<DynamoDBRecord>, context: C, id: string)
    requires records != []
    ensures var n := |records| - 1;
      Reporting(handler, records, context, id) ==
        Reporting(handler, records[..n], context, id) +
        (if Fails(handler, records[n], context) && ItemIdentifier(records[n]) == id then {n} else {})
  {
    var n := |records| - 1;
    assert forall i :: 0 <= i < n ==> records[..n][i] == records[i];
  }

  /** The adapter resolves to `undefined` exactly when no handler rejected. */
  lemma NothingFailed<C>(handler: RecordHandler<C>, records: seq<DynamoDBRecord>, context: C)
    ensures |Failures(handler, records, context)| == 0 <==>
      forall i :: 0 <= i < |records| ==> !Fails(handler, records[i], context)
  {
    FailuresCount(handler, records, context);
    var failing := FailingIndices(handler, records, context);
    if failing != {} {
      var i :| i in failing;
    }
  }

  /** Three records of which only the middle one fails: the report names
      that record by its sequence number and no other. */
  lemma OneOfThreeFails<C>(handler: RecordHandler<C>, records: seq<DynamoDBRecord>, context: C, sequenceNumber: string)
    requires |records| == 3 && sequenceNumber != ""
    requires records[1].dynamodb.Some? && records[1].dynamodb.value.sequenceNumber == Some(sequenceNumber)
    requires !Fails(handler, records[0], context) && Fails(handler, records[1], context)
    requires !Fails(handler, records[2], context)
    ensures Failures(handler, records, context) == [BatchItemFailure(sequenceNumber)]
  {
    assert records[..2][..1] == records[..1] && records[..1][..0] == [];
    assert Failures(handler, records[..1], context) == [];
    assert Failures(handler, records[..2], context) == [BatchItemFailure(sequenceNumber)];
  }

  // ---------------------------------------------------------------------
  // The per-batch adapter (`withDynamoDBStreamBatch`)
  // ---------------------------------------------------------------------

  /** The event the batch handler receives: every record parsed. */
  datatype ParsedStreamEvent = ParsedStreamEvent(records: seq<ParsedRecord>)

  /** The settled promise of a handler run on a whole parsed event. */
  type BatchHandler<!C> = (ParsedStreamEvent, C) -> Outcome<Thrown>

  /** The function `withDynamoDBStreamBatch(handler)` returns, applied to an
      event and a context: one handler run on the parsed event, whose
      rejection is passed on untouched; otherwise it resolves to
      `undefined`. */
  function WithDynamoDBStreamBatch<C>(handler: BatchHandler<C>, event: StreamEvent, context: C): (r: Outcome<Thrown>)
    ensures var parsed := ParsedStreamEvent(ParseRecords(event.records));
      (r.Fail? <==> handler(parsed, context).Fail?) &&
      (r.Fail? ==> r.error == handler(parsed, context).error)
  {
    handler(ParsedStreamEvent(ParseRecords(event.records)), context)
  }
}
