/** The connector error type (sdk/errors.go): the codes and their two tables,
    the accessors on a possibly nil `*QError`, the `Error` text and the code
    parse. A nil receiver is `None`. */
module QErrors {
  import opened Wrappers
  import opened Decimal
  import opened Models

  /** `QErrorCode` (sdk/errors.go:9), a Go `int` on a 64-bit platform. */
  type QErrorCode = c: int | MinInt64 <= c <= MaxInt64

  /** `QError` (sdk/errors.go:11-16). */
  datatype QError = QError(code: QErrorCode, message: string, details: string, err: string)

  // ---- the codes (sdk/errors.go:18-35) ----

  const ErrDefAuthNotValid: QErrorCode := 1000
  const ErrDefInvalidRequest: QErrorCode := 1010
  const ErrDefInvalidData: QErrorCode := 1020
  const ErrDefNotFound: QErrorCode := 1040
  const ErrDefPermissionDenied: QErrorCode := 1050
  const ErrDefInvalidUpsert: QErrorCode := 1060
  const ErrDefInvalidDate: QErrorCode := 1070
  const ErrDefInvalidRequests: QErrorCode := 1080
  const ErrDefApiUnavailable: QErrorCode := 1090
  const ErrDefUnabledStartProcess: QErrorCode := 1100
  const ErrDefCantInsertInDatawarehouse: QErrorCode := 1200
  const ErrDefProcessedWithError: QErrorCode := 1210
  const ErrTmpRateLimitExceeded: QErrorCode := 2000
  const ErrTmpTimeout: QErrorCode := 2010
  const ErrTmpServiceUnavailable: QErrorCode := 2020

  /** The definitive codes, named by their `ERR_DEF_` prefix. */
  const DefCodes: set<QErrorCode> := {
    ErrDefAuthNotValid, ErrDefInvalidRequest, ErrDefInvalidData, ErrDefNotFound,
    ErrDefPermissionDenied, ErrDefInvalidUpsert, ErrDefInvalidDate, ErrDefInvalidRequests,
    ErrDefApiUnavailable, ErrDefUnabledStartProcess, ErrDefCantInsertInDatawarehouse,
    ErrDefProcessedWithError }

  /** The temporary codes, named by their `ERR_TMP_` prefix. */
  const TmpCodes: set<QErrorCode> := { ErrTmpRateLimitExceeded, ErrTmpTimeout, ErrTmpServiceUnavailable }

  /** `errorCodeLabels` (sdk/errors.go:37-53). */
  const ErrorCodeLabels: map<QErrorCode, string> := map[
    ErrDefAuthNotValid := "DEF",
    ErrDefInvalidRequest := "DEF",
    ErrDefInvalidData := "DEF",
    ErrDefNotFound := "DEF",
    ErrDefPermissionDenied := "DEF",
    ErrDefInvalidUpsert := "DEF",
    ErrDefInvalidDate := "DEF",
    ErrDefInvalidRequests := "DEF",
    ErrTmpRateLimitExceeded := "TMP",
    ErrTmpTimeout := "TMP",
    ErrTmpServiceUnavailable := "TMP",
    ErrDefApiUnavailable := "DEF",
    ErrDefUnabledStartProcess := "DEF",
    ErrDefCantInsertInDatawarehouse := "DEF",
    ErrDefProcessedWithError := "DEF"]

  /** `ErrorCodes` (sdk/errors.go:55-71). */
  const ErrorCodes: map<QErrorCode, string> := map[
    ErrDefAuthNotValid := "Auth not valid",
    ErrDefInvalidRequest := "Invalid Request",
    ErrDefInvalidData := "Invalid Data",
    ErrDefNotFound := "Not Found",
    ErrDefPermissionDenied := "Permission Denied",
    ErrTmpRateLimitExceeded := "Rate Limit Exceeded",
    ErrTmpTimeout := "Timeout",
    ErrTmpServiceUnavailable := "Service Unavailable",
    ErrDefInvalidUpsert := "Invalid Upsert",
    ErrDefInvalidDate := "Invalid Date",
    ErrDefInvalidRequests := "Invalid Requests",
    ErrDefApiUnavailable := "API Unavailable",
    ErrDefUnabledStartProcess := "Process start is disabled",
    ErrDefCantInsertInDatawarehouse := "Can't insert in Datawarehouse",
    ErrDefProcessedWithError := "Processed with error"]

  // ---- the accessors ----

  /** `GetErrorCodeType` (sdk/errors.go:92-97): `TMP` for the temporary codes,
      `DEF` for the definitive ones, empty for any other code. */
  function GetErrorCodeType(code: QErrorCode): (r: string)
    ensures r == "TMP" <==> code in TmpCodes
    ensures r == "DEF" <==> code in DefCodes
    ensures r == "" <==> code !in TmpCodes && code !in DefCodes
  {
    if code in ErrorCodeLabels then ErrorCodeLabels[code] else ""
  }

  /** `ErrorCode` (sdk/errors.go:120-125). */
  function ErrorCode(e: Option<QError>): (r: QErrorCode)
    ensures e.None? ==> r == 0
    ensures e.Some? ==> r == e.value.code
  {
    if e.None? then 0 else e.value.code
  }

  /** `ErrorMessage` (sdk/errors.go:128-143): the label of the code, not the
      `Message` field. */
  function ErrorMessage(e: Option<QError>): (r: string)
    ensures e.None? ==> r == "nil QError"
    ensures e.Some? && e.value.code == 0 ==> r == ""
    ensures e.Some? && e.value.code != 0 && e.value.code in ErrorCodes ==> r == ErrorCodes[e.value.code]
    ensures e.Some? && e.value.code != 0 && e.value.code !in ErrorCodes ==> r == "unknown error"
  {
    if e.None? then "nil QError"
    else if e.value.code == 0 then ""
    else if e.value.code in ErrorCodes then ErrorCodes[e.value.code]
    else "unknown error"
  }

  /** The part of the `Error` text every non-nil error has. */
  function ErrorHead(e: QError): string {
    "code: " + FormatInt(e.code) + ", message: " + ErrorMessage(Some(e))
  }

  /** `Error` (sdk/errors.go:100-110): the code and its label, then the cause
      when `Err` is set. */
  function Error(e: Option<QError>): (r: string)
    ensures e.None? ==> r == "nil QError"
    ensures e.Some? && e.value.err != "" ==> r == ErrorHead(e.value) + ", cause: " + e.value.err
    ensures e.Some? && e.value.err == "" ==> r == ErrorHead(e.value)
  {
    match e
    case None => "nil QError"
    case Some(q) =>
      if q.err != "" then ErrorHead(q) + ", cause: " + q.err else ErrorHead(q)
  }

  // ---- properties of the tables ----

  /** Both tables cover exactly the fifteen codes, the temporary and the definitive ones. */
  lemma TablesCoverSameCodes()
    ensures forall c :: c in ErrorCodeLabels <==> c in TmpCodes || c in DefCodes
    ensures forall c :: c in ErrorCodes <==> c in TmpCodes || c in DefCodes
  {
    LabelKeys();
    MessageKeys();
  }

  /** No code is both temporary and definitive. */
  lemma CodeKindsDisjoint()
    ensures forall c :: c in TmpCodes ==> c !in DefCodes
  {
  }

  lemma LabelKeys()
    ensures forall c :: c in ErrorCodeLabels <==> c in TmpCodes || c in DefCodes
  {
  }

  lemma MessageKeys()
    ensures forall c :: c in ErrorCodes <==> c in TmpCodes || c in DefCodes
  {
  }

  /** For every non-zero code the label is known exactly when the code has a type. */
  lemma MessageKnownIffTyped(e: QError)
    requires e.code != 0
    ensures ErrorMessage(Some(e)) != "unknown error" <==> GetErrorCodeType(e.code) != ""
  {
    TablesCoverSameCodes();
    NoLabelIsUnknown();
  }

  lemma NoLabelIsUnknown()
    ensures forall c :: c in ErrorCodes ==> ErrorCodes[c] != "unknown error" && ErrorCodes[c] != ""
  {
  }

  /** The label is empty exactly for code 0. */
  lemma MessageEmptyIffCodeZero(e: QError)
    ensures ErrorMessage(Some(e)) == "" <==> e.code == 0
  {
    NoLabelIsUnknown();
  }

  // ---- the cause in the `Error` text ----

  predicate NoComma(s: string) {
    ',' !in s
  }

  /** `t` occurs in `s`. */
  predicate Contains(s: string, t: string) {
    exists i :: 0 <= i <= |s| && t <= s[i..]
  }

  /** No label contains a comma. */
  lemma LabelsHaveNoComma()
    ensures forall c :: c in ErrorCodes ==> NoComma(ErrorCodes[c])
  {
    forall c | c in ErrorCodes ensures NoComma(ErrorCodes[c]) {
      if c < ErrDefInvalidUpsert {
        LabelsHaveNoCommaIn(c, ErrDefAuthNotValid, ErrDefInvalidUpsert);
      } else if c < ErrTmpRateLimitExceeded {
        LabelsHaveNoCommaIn(c, ErrDefInvalidUpsert, ErrTmpRateLimitExceeded);
      } else {
        LabelsHaveNoCommaIn(c, ErrTmpRateLimitExceeded, ErrTmpServiceUnavailable + 1);
      }
    }
  }

  lemma LabelsHaveNoCommaIn(c: QErrorCode, lo: int, hi: int)
    requires c in ErrorCodes && lo <= c < hi
    requires (lo, hi) in {(1000, 1060), (1060, 2000), (2000, 2021)}
    ensures NoComma(ErrorCodes[c])
  {
  }

  lemma NumberHasNoComma(n: int)
    ensures NoComma(FormatInt(n))
  {
    if n < 0 {
      var d := FormatNat(-n);
      assert forall i :: 1 <= i < |"-" + d| ==> ("-" + d)[i] == d[i - 1];
    }
  }

  /** The head of the text never contains `, cause: `: its one comma is
      followed by ` message: `. */
  lemma HeadHasNoCause(e: QError)
    ensures !Contains(ErrorHead(e), ", cause: ")
  {
    NumberHasNoComma(e.code);
    LabelsHaveNoComma();
    assert NoComma(ErrorMessage(Some(e)));
    NoCauseInHead(FormatInt(e.code), ErrorMessage(Some(e)));
  }

  lemma NoCauseInHead(d: string, m: string)
    requires NoComma(d) && NoComma(m)
    ensures !Contains("code: " + d + ", message: " + m, ", cause: ")
  {
    var b := ", message: ";
    var s := "code: " + d + b + m;
    var p := 6 + |d|;
    forall i | 0 <= i < |s| && i != p
      ensures s[i] != ','
    {
      if i < 6 {
        assert s[i] == "code: "[i];
      } else if i < p {
        assert s[i] == d[i - 6];
      } else if p + |b| <= i {
        assert s[i] == m[i - p - |b|];
      } else {
        assert s[i] == b[i - p];
      }
    }
    var t := ", cause: ";
    forall i | 0 <= i <= |s|
      ensures !(t <= s[i..])
    {
      if i + |t| <= |s| {
        if s[i] == ',' {
          assert s[i..][2] == s[p + 2] == 'm';
        } else {
          assert s[i..][0] != ',';
        }
      }
    }
    assert !Contains(s, t);
  }

  /** The `Error` text of a non-nil error mentions a cause exactly when `Err`
      is non-empty. */
  lemma ErrorHasCauseIff(e: QError)
    ensures Contains(Error(Some(e)), ", cause: ") <==> e.err != ""
  {
    HeadHasNoCause(e);
    if e.err != "" {
      var s := Error(Some(e));
      var h := ErrorHead(e);
      assert ", cause: " <= s[|h|..];
    }
  }

  // ---- the code parse ----

  /** `strconv.Atoi` on a 64-bit platform: an optional sign and decimal
      digits, whose value must fit the 64-bit range. */
  function Atoi(s: string): (r: Option<QErrorCode>)
    ensures r.Some? <==> IsDecimalInteger(s) && MinInt64 <= DecimalValue(s) <= MaxInt64
    ensures r.Some? ==> r.value == DecimalValue(s)
  {
    if IsDecimalInteger(s) && MinInt64 <= DecimalValue(s) <= MaxInt64 then Some(DecimalValue(s)) else None
  }

  /** The dynamic types `ParseQErrorCode` distinguishes; Go's `int` and `int64`
      are both 64-bit here. Any other type is `OtherValue`. */
  datatype CodeValue =
    | IntValue(i: QErrorCode)
    | Int64Value(i: QErrorCode)
    | StringValue(s: string)
    | OtherValue

  /** `ParseQErrorCode` (sdk/errors.go:73-90) without its float64 case. */
  function ParseQErrorCode(v: CodeValue): (r: (QErrorCode, bool))
    ensures !r.1 ==> r.0 == 0
    ensures v.IntValue? || v.Int64Value? ==> r == (v.i, true)
    ensures v.StringValue? ==> (r.1 <==> IsDecimalInteger(v.s) && MinInt64 <= DecimalValue(v.s) <= MaxInt64)
    ensures v.StringValue? && r.1 ==> r.0 == DecimalValue(v.s)
    ensures v.OtherValue? ==> r == (0, false)
  {
    match v
    case IntValue(i) => (i, true)
    case Int64Value(i) => (i, true)
    case StringValue(s) => (if Atoi(s).Some? then (Atoi(s).value, true) else (0, false))
    case OtherValue => (0, false)
  }

  /** A code written with `%d` parses back to itself. */
  lemma CodeTextRoundTrip(code: QErrorCode)
    ensures ParseQErrorCode(StringValue(FormatInt(code))) == (code, true)
  {
    FormatIntRoundTrip(code);
  }
}
