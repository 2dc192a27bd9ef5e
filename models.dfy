/** The typed entities of the scheduler (sdk/models.go) and the part of
    `encoding/json` the scheduler leans on: decoding a request descriptor out of
    the loose document, and the key set the descriptor has when encoded again. */
module Models {
  import opened Wrappers
  import opened JsonValues
  import opened Calendar

  /** Go's `int` on a 64-bit platform. */
  const MinInt64: int := -0x8000_0000_0000_0000
  const MaxInt64: int := 0x7FFF_FFFF_FFFF_FFFF

  /** `Request_status` values (sdk/models.go:69-75). */
  const RequestStatusDisabled: int := 100
  const RequestStatusEnabled: int := 200
  const RequestStatusError: int := 300

  /** The errors the scheduler returns, each standing for the error sites noted
      beside it. The two marshal sites (sdk/sdk.go:405-408, 435-438) have no
      constructor, nor does the one in `GetAdAccounts` (sdk/sdk.go:495-498):
      encoding an already decoded value cannot fail. The wrapping
      of an inner error with `%w` (sdk/sdk.go:641-648) keeps the inner kind. */
  datatype SdkError =
    | InvalidStartDate(startDate: string)    // sdk/sdk.go:374-376
    | InvalidEndDate(endDate: string)        // sdk/sdk.go:377-379
    | StartAfterEnd                          // sdk/sdk.go:382-384
    | ConnectorConfNotObject                 // sdk/sdk.go:411-414
    | DescriptorNotDecodable                 // sdk/sdk.go:440-443
    | RequestsNotList                        // sdk/sdk.go:473-475
    | InvalidStateDate(stateDate: string)    // sdk/sdk.go:680-683
    | AdAccountsNotDecodable                 // sdk/sdk.go:500-502, returned as is at 566-569

  /** `ConnectorsAccountRequest` (sdk/models.go:107-121). The schema is kept as
      the raw document it was decoded from. */
  datatype ConnectorsAccountRequest = ConnectorsAccountRequest(
    description: string,
    id: string,
    isDimension: bool,
    isPrebuild: bool,
    name: string,
    schema: Json,
    status: int,
    purpose: string,
    businessDomain: string,
    grain: string,
    sampleQuestions: seq<string>)

  const ZeroDescriptor: ConnectorsAccountRequest :=
    ConnectorsAccountRequest("", "", false, false, "", JNull, 0, "", "", "", [])

  /** `Request` (sdk/models.go:123-126): the typed descriptor and the optional
      free-form `request` payload, `JNull` standing for Go's `nil`. */
  datatype Request = Request(descriptor: ConnectorsAccountRequest, payload: Json)

  /** `AdAccount` (sdk/models.go:155-159). */
  datatype AdAccount = AdAccount(accountId: string, id: string, name: string)

  /** `RequestByDate` (sdk/sdk.go:633-636): `None` is the nil date of a dimension request. */
  datatype RequestByDate = RequestByDate(date: Option<Day>, request: Request)

  /** `RequestByDateAndAdAccount` (sdk/models.go:161-167). */
  datatype RequestByDateAndAdAccount = RequestByDateAndAdAccount(
    date: Option<Day>,
    request: Request,
    adAccountId: string,
    adAccount: Option<AdAccount>)

  /** `RequestParams` (sdk/models.go:51-56), the fields the scheduler reads. */
  datatype RequestParams = RequestParams(startDate: string, endDate: string)

  /** `ConfigFile` (sdk/models.go:58-65), the fields the scheduler reads. */
  datatype ConfigFile = ConfigFile(connectorConf: Json, requestParams: RequestParams)

  predicate IsEligibleStatus(status: int) {
    RequestStatusDisabled < status < RequestStatusError
  }

  // ---- decoding a descriptor: json.Unmarshal into ConnectorsAccountRequest ----

  function DecodeString(m: map<string, Json>, key: string): Result<string, SdkError> {
    match Field(m, key)
    case JNull => Success("")
    case JString(s) => Success(s)
    case _ => Failure(DescriptorNotDecodable)
  }

  function DecodeBool(m: map<string, Json>, key: string): Result<bool, SdkError> {
    match Field(m, key)
    case JNull => Success(false)
    case JBool(b) => Success(b)
    case _ => Failure(DescriptorNotDecodable)
  }

  /** A JSON number fits Go's `int` only when it is integral and in range. */
  function DecodeInt(m: map<string, Json>, key: string): Result<int, SdkError> {
    match Field(m, key)
    case JNull => Success(0)
    case JNumber(n) =>
      if n == n.Floor as real && MinInt64 <= n.Floor <= MaxInt64 then Success(n.Floor)
      else Failure(DescriptorNotDecodable)
    case _ => Failure(DescriptorNotDecodable)
  }

  /** The schema must be an object (or absent); its contents are not checked. */
  function DecodeSchema(m: map<string, Json>, key: string): Result<Json, SdkError> {
    match Field(m, key)
    case JNull => Success(JNull)
    case JObject(_) => Success(Field(m, key))
    case _ => Failure(DescriptorNotDecodable)
  }

  function DecodeStringItems(items: seq<Json>): (r: Result<seq<string>, SdkError>)
    ensures r.Failure? ==> r.error == DescriptorNotDecodable
    ensures r.Success? ==> |r.value| == |items|
  {
    if items == [] then Success([])
    else
      var first :- match items[0]
        case JNull => Success("")
        case JString(s) => Success(s)
        case _ => Failure(DescriptorNotDecodable);
      var rest :- DecodeStringItems(items[1..]);
      Success([first] + rest)
  }

  function DecodeStrings(m: map<string, Json>, key: string): Result<seq<string>, SdkError> {
    match Field(m, key)
    case JNull => Success([])
    case JArray(items) => DecodeStringItems(items)
    case _ => Failure(DescriptorNotDecodable)
  }

  /** `json.Unmarshal(b, &caReq)`: `null` leaves the zero descriptor, an object
      fills the fields it names (keys it does not know are ignored), and a value
      of the wrong JSON type anywhere, or a non-object, is an error. */
  function DecodeDescriptor(j: Json): (r: Result<ConnectorsAccountRequest, SdkError>)
    ensures r.Failure? ==> r.error == DescriptorNotDecodable
    ensures j.JNull? ==> r == Success(ZeroDescriptor)
    ensures !j.JNull? && !j.JObject? ==> r.Failure?
  {
    match j
    case JNull => Success(ZeroDescriptor)
    case JObject(m) =>
      var description :- DecodeString(m, "description");
      var id :- DecodeString(m, "id");
      var isDimension :- DecodeBool(m, "isDimension");
      var isPrebuild :- DecodeBool(m, "isPrebuild");
      var name :- DecodeString(m, "name");
      var schema :- DecodeSchema(m, "schema");
      var status :- DecodeInt(m, "status");
      var purpose :- DecodeString(m, "purpose");
      var businessDomain :- DecodeString(m, "business_domain");
      var grain :- DecodeString(m, "grain");
      var sampleQuestions :- DecodeStrings(m, "sample_questions");
      Success(ConnectorsAccountRequest(description, id, isDimension, isPrebuild, name, schema,
                                       status, purpose, businessDomain, grain, sampleQuestions))
    case _ => Failure(DescriptorNotDecodable)
  }

  /** The zero value of `Schema` as `json.Marshal` writes it. */
  const ZeroSchemaJson: Json := JObject(map["orderedFields" := JNull, "tableName" := JString("")])

  /** `json.Marshal(ca)` read back into a `map[string]interface{}`: the seven
      fields without `omitempty` always, the four `omitempty` ones when
      non-empty (sdk/models.go:108-120). Only the key set matters to its
      callers; the value under `schema` is the raw decoded schema, not Go's
      re-encoding of the `Schema` struct. */
  function DescriptorAsObject(d: ConnectorsAccountRequest): map<string, Json> {
    var always := map[
      "description" := JString(d.description),
      "id" := JString(d.id),
      "isDimension" := JBool(d.isDimension),
      "isPrebuild" := JBool(d.isPrebuild),
      "name" := JString(d.name),
      "schema" := (if d.schema.JNull? then ZeroSchemaJson else d.schema),
      "status" := JNumber(d.status as real)];
    var withPurpose := if d.purpose != "" then always["purpose" := JString(d.purpose)] else always;
    var withDomain := if d.businessDomain != "" then withPurpose["business_domain" := JString(d.businessDomain)] else withPurpose;
    var withGrain := if d.grain != "" then withDomain["grain" := JString(d.grain)] else withDomain;
    if |d.sampleQuestions| != 0 then withGrain["sample_questions" := JArray(seq(|d.sampleQuestions|, i requires 0 <= i < |d.sampleQuestions| => JString(d.sampleQuestions[i])))]
    else withGrain
  }

  /** Every key the encoded descriptor can have. */
  const DescriptorKeys: set<string> := {
    "description", "id", "isDimension", "isPrebuild", "name", "schema", "status",
    "purpose", "business_domain", "grain", "sample_questions" }

  /** The encoded descriptor has exactly its seven non-`omitempty` keys plus
      those `omitempty` keys whose field is non-empty. */
  lemma DescriptorObjectKeys(d: ConnectorsAccountRequest)
    ensures var keys := DescriptorAsObject(d).Keys;
      && keys <= DescriptorKeys
      && {"description", "id", "isDimension", "isPrebuild", "name", "schema", "status"} <= keys
      && ("purpose" in keys <==> d.purpose != "")
      && ("business_domain" in keys <==> d.businessDomain != "")
      && ("grain" in keys <==> d.grain != "")
      && ("sample_questions" in keys <==> d.sampleQuestions != [])
  {
  }

  /** A decoded descriptor's status and integer fields are Go `int`s, and a
      document that has no `status` key decodes with status 0. */
  lemma DecodeDescriptorStatus(m: map<string, Json>)
    requires DecodeDescriptor(JObject(m)).Success?
    ensures var d := DecodeDescriptor(JObject(m)).value;
      && MinInt64 <= d.status <= MaxInt64
      && ("status" !in m ==> d.status == 0)
      && ("status" in m && m["status"].JNumber? ==> d.status as real == m["status"].n)
  {
  }
}
