/** `GetRequests` and its `processOne` closure (sdk/sdk.go:403-491): the
    enabled requests of the connector configuration, in configuration order. */
module RequestExtraction {
  import opened Wrappers
  import opened JsonValues
  import opened Models

  const WrapperKey := "connectorsaccountrequest"

  /** Where an item's descriptor is read: under `"connectorsaccountrequest"`
      when that key is present (even as `null`), else the item itself, the
      legacy shape. */
  function DescriptorSource(item: map<string, Json>): Json {
    if WrapperKey in item then item[WrapperKey] else JObject(item)
  }

  /** `processOne`: what one configuration item adds to the result. A
      non-object adds nothing; an object whose descriptor does not decode
      aborts; a decoded descriptor is kept, with the item's free-form `request`
      payload, exactly when its status is strictly between Disabled and Error. */
  function ProcessOne(item: Json): (r: Result<Option<Request>, SdkError>)
    ensures r.Failure? ==> r.error == DescriptorNotDecodable
    ensures !item.JObject? ==> r == Success(None)
    ensures item.JObject? ==>
      var decoded := DecodeDescriptor(DescriptorSource(item.fields));
      && (r.Failure? <==> decoded.Failure?)
      && (r.Success? && r.value.Some? <==> decoded.Success? && IsEligibleStatus(decoded.value.status))
      && (r.Success? && r.value.Some? ==>
            r.value.value == Request(decoded.value, Field(item.fields, "request")))
  {
    match item
    case JObject(reqMap) =>
      var caReq :- DecodeDescriptor(DescriptorSource(reqMap));
      if !IsEligibleStatus(caReq.status) then Success(None)
      else Success(Some(Request(caReq, Field(reqMap, "request"))))
    case _ => Success(None)
  }

  /** The requests the items contribute, in item order. */
  ghost function Survivors(items: seq<Json>): seq<Request> {
    if items == [] then []
    else
      (match ProcessOne(items[0]) case Success(Some(req)) => [req] case _ => [])
        + Survivors(items[1..])
  }

  ghost predicate AllDecode(items: seq<Json>) {
    forall i :: 0 <= i < |items| ==> ProcessOne(items[i]).Success?
  }

  /** Processing a list of items: one failing item fails the whole list. */
  ghost function ProcessAll(items: seq<Json>): Result<seq<Request>, SdkError> {
    if AllDecode(items) then Success(Survivors(items)) else Failure(DescriptorNotDecodable)
  }

  /** The items to process: the `requests` list (absent or `null`: none; not a
      list: an error), then the singular `request` when present and not `null`.
      A `null` configuration is Go's nil map, with no items; any other
      non-object cannot be decoded into a map. */
  ghost function RequestItems(conf: Json): Result<seq<Json>, SdkError> {
    match conf
    case JNull => Success([])
    case JObject(confMap) =>
      var listed :- match Field(confMap, "requests")
        case JNull => Success([])
        case JArray(items) => Success(items)
        case _ => Failure(RequestsNotList);
      Success(listed + SingleItem(confMap))
    case _ => Failure(ConnectorConfNotObject)
  }

  /** What `GetRequests` returns. */
  ghost function ExtractRequests(conf: Json): Result<seq<Request>, SdkError> {
    var items :- RequestItems(conf);
    ProcessAll(items)
  }

  lemma {:induction false} SurvivorsAppend(a: seq<Json>, b: seq<Json>)
    ensures Survivors(a + b) == Survivors(a) + Survivors(b)
  {
    if a == [] {
      assert a + b == b;
    } else {
      assert (a + b)[1..] == a[1..] + b;
      SurvivorsAppend(a[1..], b);
    }
  }

  /** A request survives exactly when some item produced it: every survivor
      comes from an eligible object item, and every such item is kept. */
  lemma {:induction false} SurvivorsAre(items: seq<Json>, req: Request)
    ensures req in Survivors(items) <==> exists i :: 0 <= i < |items| && ProcessOne(items[i]) == Success(Some(req))
  {
    if items != [] {
      SurvivorsAre(items[1..], req);
      if exists i :: 0 <= i < |items[1..]| && ProcessOne(items[1..][i]) == Success(Some(req)) {
        var i :| 0 <= i < |items[1..]| && ProcessOne(items[1..][i]) == Success(Some(req));
        assert items[i + 1] == items[1..][i];
      }
      if exists i :: 0 <= i < |items| && ProcessOne(items[i]) == Success(Some(req)) {
        var i :| 0 <= i < |items| && ProcessOne(items[i]) == Success(Some(req));
        if i > 0 {
          assert items[1..][i - 1] == items[i];
        }
      }
    }
  }

  /** Survivors are never more than the items, and each has an eligible status. */
  lemma {:induction false} SurvivorsEligible(items: seq<Json>)
    ensures |Survivors(items)| <= |items|
    ensures forall k :: 0 <= k < |Survivors(items)| ==> IsEligibleStatus(Survivors(items)[k].descriptor.status)
  {
    if items != [] {
      SurvivorsEligible(items[1..]);
    }
  }

  /** The filtering contract of `GetRequests`: on success every request has a
      status strictly between 100 and 300, the `requests` items come first in
      list order and the singular `request` after them, and a configuration
      with no surviving request gives the empty list rather than an error. */
  lemma ExtractRequestsOrder(confMap: map<string, Json>, listed: seq<Json>)
    requires Field(confMap, "requests") == JArray(listed) || (Field(confMap, "requests").JNull? && listed == [])
    requires ExtractRequests(JObject(confMap)).Success?
    ensures var reqs := ExtractRequests(JObject(confMap)).value;
      && (forall k :: 0 <= k < |reqs| ==> IsEligibleStatus(reqs[k].descriptor.status))
      && reqs == Survivors(listed) + (if Field(confMap, "request").JNull? then [] else Survivors([confMap["request"]]))
  {
    var items := RequestItems(JObject(confMap)).value;
    SurvivorsEligible(items);
    if !Field(confMap, "request").JNull? {
      SurvivorsAppend(listed, [confMap["request"]]);
    } else {
      assert items == listed;
    }
  }

  /** The error cases of `GetRequests`: a configuration that is neither an
      object nor `null`, a `requests` value that is not a list, and any object
      item whose descriptor does not decode (it aborts the call; it is not
      skipped). */
  lemma ExtractRequestsErrors(conf: Json)
    ensures !conf.JNull? && !conf.JObject? ==> ExtractRequests(conf) == Failure(ConnectorConfNotObject)
    ensures conf.JObject? && !Field(conf.fields, "requests").JNull? && !Field(conf.fields, "requests").JArray? ==>
      ExtractRequests(conf) == Failure(RequestsNotList)
    ensures conf.JObject? && Field(conf.fields, "requests").JArray? ==>
      forall i :: 0 <= i < |Field(conf.fields, "requests").items| ==>
        var item := Field(conf.fields, "requests").items[i];
        item.JObject? && DecodeDescriptor(DescriptorSource(item.fields)).Failure? ==>
          ExtractRequests(conf) == Failure(DescriptorNotDecodable)
  {
    if conf.JObject? && Field(conf.fields, "requests").JArray? {
      var listed := Field(conf.fields, "requests").items;
      var items := RequestItems(conf).value;
      forall i | 0 <= i < |listed|
        ensures var item := listed[i];
          item.JObject? && DecodeDescriptor(DescriptorSource(item.fields)).Failure? ==>
            ExtractRequests(conf) == Failure(DescriptorNotDecodable)
      {
        assert items[i] == listed[i];
      }
    }
  }

  /** An object item whose descriptor does not decode: `processOne` returns an error for it. */
  predicate BadItem(item: Json) {
    item.JObject? && DecodeDescriptor(DescriptorSource(item.fields)).Failure?
  }

  /** `GetRequests` fails exactly in three ways: the configuration is neither
      an object nor `null`; `requests` is there, not `null` and not a list; or
      some item, from the list or the singular `request`, is an object whose
      descriptor does not decode. In every other case it succeeds, with the
      empty list when no request survives. */
  lemma ExtractRequestsFailsIff(conf: Json)
    ensures ExtractRequests(conf).Failure? <==>
      || (!conf.JNull? && !conf.JObject?)
      || (conf.JObject? && !Field(conf.fields, "requests").JNull? && !Field(conf.fields, "requests").JArray?)
      || (RequestItems(conf).Success? &&
          exists i :: 0 <= i < |RequestItems(conf).value| && BadItem(RequestItems(conf).value[i]))
  {
    if RequestItems(conf).Success? {
      var items := RequestItems(conf).value;
      if !AllDecode(items) {
        var i :| 0 <= i < |items| && !ProcessOne(items[i]).Success?;
        assert BadItem(items[i]);
      }
      if exists i :: 0 <= i < |items| && BadItem(items[i]) {
        var i :| 0 <= i < |items| && BadItem(items[i]);
        assert ProcessOne(items[i]).Failure?;
      }
    }
  }

  /** A singular `request` whose descriptor does not decode aborts the call,
      whatever the `requests` list holds. */
  lemma SingularRequestAborts(confMap: map<string, Json>)
    requires Field(confMap, "requests").JNull? || Field(confMap, "requests").JArray?
    requires BadItem(Field(confMap, "request"))
    ensures ExtractRequests(JObject(confMap)) == Failure(DescriptorNotDecodable)
  {
    var items := RequestItems(JObject(confMap)).value;
    assert items[|items| - 1] == confMap["request"];
    assert ProcessOne(items[|items| - 1]).Failure?;
  }

  /** An item whose descriptor has no `status` decodes with status 0 and is dropped. */
  lemma MissingStatusDropped(item: map<string, Json>)
    requires DescriptorSource(item).JNull? || (DescriptorSource(item).JObject? && "status" !in DescriptorSource(item).fields)
    ensures ProcessOne(JObject(item)) == Success(None) || ProcessOne(JObject(item)).Failure?
  {
  }

  lemma AllDecodeAppend(a: seq<Json>, b: seq<Json>)
    ensures AllDecode(a + b) <==> AllDecode(a) && AllDecode(b)
  {
    if AllDecode(a) && AllDecode(b) {
      forall k | 0 <= k < |a + b| ensures ProcessOne((a + b)[k]).Success? {
        if k < |a| { assert (a + b)[k] == a[k]; } else { assert (a + b)[k] == b[k - |a|]; }
      }
    }
    if AllDecode(a + b) {
      forall k | 0 <= k < |a| ensures ProcessOne(a[k]).Success? { assert (a + b)[k] == a[k]; }
      forall k | 0 <= k < |b| ensures ProcessOne(b[k]).Success? { assert (a + b)[|a| + k] == b[k]; }
    }
  }

  /** Processing a list then more items is processing the concatenation. */
  lemma ProcessAllSnoc(a: seq<Json>, x: Json)
    ensures ProcessAll(a + [x]) ==
      match ProcessAll(a)
      case Failure(e) => Failure(e)
      case Success(reqs) =>
        match ProcessOne(x)
        case Failure(e) => Failure(e)
        case Success(None) => Success(reqs)
        case Success(Some(req)) => Success(reqs + [req])
  {
    AllDecodeAppend(a, [x]);
    SurvivorsAppend(a, [x]);
    assert [x][1..] == [];
    assert AllDecode([x]) <==> ProcessOne([x][0]).Success?;
    if AllDecode(a) {
      match ProcessOne(x)
      case Failure(e) =>
      case Success(None) =>
        assert Survivors([x]) == [];
        assert Survivors(a + [x]) == Survivors(a);
      case Success(Some(req)) =>
        assert Survivors([x]) == [req];
    }
  }

  /** The `requests` loop of `GetRequests` (sdk/sdk.go:468-472): `processOne`
      on each item in order, stopping at the first failure. */
  method ProcessItems(items: seq<Json>) returns (r: Result<seq<Request>, SdkError>)
    ensures r == ProcessAll(items)
  {
    var result: seq<Request> := [];
    for i := 0 to |items|
      invariant ProcessAll(items[..i]) == Success(result)
    {
      var one := ProcessOne(items[i]);
      ProcessAllSnoc(items[..i], items[i]);
      assert items[..i + 1] == items[..i] + [items[i]];
      if one.Failure? {
        FailureIsFinal(items[..i + 1], items[i + 1..]);
        assert items[..i + 1] + items[i + 1..] == items;
        return Failure(one.error);
      }
      if one.value.Some? {
        result := result + [one.value.value];
      }
    }
    assert items[..|items|] == items;
    return Success(result);
  }

  /** `GetRequests`: process each `requests` item, then the singular `request`. */
  method GetRequests(config: ConfigFile) returns (r: Result<seq<Request>, SdkError>)
    ensures r == ExtractRequests(config.connectorConf)
  {
    var conf := config.connectorConf;
    if conf.JNull? {
      return Success([]);
    }
    if !conf.JObject? {
      return Failure(ConnectorConfNotObject);
    }
    var confMap := conf.fields;
    ghost var listed: seq<Json> := [];
    var result: seq<Request> := [];
    if "requests" in confMap && !confMap["requests"].JNull? {
      var reqsRaw := confMap["requests"];
      if reqsRaw.JArray? {
        var reqsList := reqsRaw.items;
        var processed := ProcessItems(reqsList);
        if processed.Failure? {
          FailureIsFinal(reqsList, SingleItem(confMap));
          return Failure(processed.error);
        }
        result := processed.value;
        listed := reqsList;
      } else {
        return Failure(RequestsNotList);
      }
    }
    assert ProcessAll(listed) == Success(result);
    assert RequestItems(conf) == Success(listed + SingleItem(confMap));
    if "request" in confMap && !confMap["request"].JNull? {
      var singleRaw := confMap["request"];
      var one := ProcessOne(singleRaw);
      ProcessAllSnoc(listed, singleRaw);
      if one.Failure? {
        return Failure(one.error);
      }
      if one.value.Some? {
        result := result + [one.value.value];
      }
    } else {
      assert listed + SingleItem(confMap) == listed;
    }
    return Success(result);
  }

  function SingleItem(confMap: map<string, Json>): seq<Json> {
    if Field(confMap, "request").JNull? then [] else [confMap["request"]]
  }

  lemma FailureIsFinal(a: seq<Json>, b: seq<Json>)
    requires ProcessAll(a).Failure?
    ensures ProcessAll(a + b) == Failure(DescriptorNotDecodable)
  {
    AllDecodeAppend(a, b);
  }
}
