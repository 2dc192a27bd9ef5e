/** `GetRequestsByDate` (sdk/sdk.go:638-750): the `(request, date)` pairs
    still to run, honouring the resume state's `date` and `requestId`. */
module Scheduling {
  import opened Wrappers
  import opened Calendar
  import opened Models
  import opened DateRanges
  import opened RequestExtraction

  // ---- the reference definition ----

  /** One pair per date, in date order. */
  function DatedPairs(req: Request, dates: seq<Day>): (r: seq<RequestByDate>)
    ensures |r| == |dates|
    ensures forall i :: 0 <= i < |dates| ==> r[i] == RequestByDate(Some(dates[i]), req)
  {
    seq(|dates|, i requires 0 <= i < |dates| => RequestByDate(Some(dates[i]), req))
  }

  /** What one request contributes when nothing is filtered: a dimension
      request once without a date, a metric request once per date. */
  function PairsOf(req: Request, dates: seq<Day>): seq<RequestByDate> {
    if req.descriptor.isDimension then [RequestByDate(None, req)] else DatedPairs(req, dates)
  }

  /** Every request's pairs, in request order. */
  ghost function Expand(reqs: seq<Request>, dates: seq<Day>): seq<RequestByDate> {
    if reqs == [] then [] else PairsOf(reqs[0], dates) + Expand(reqs[1..], dates)
  }

  /** The metric (non-dimension) requests, in order. */
  ghost function Metrics(reqs: seq<Request>): seq<Request> {
    if reqs == [] then []
    else (if reqs[0].descriptor.isDimension then [] else [reqs[0]]) + Metrics(reqs[1..])
  }

  /** The requests from the first one whose id is `id` on; none if no id matches. */
  ghost function GateFrom(reqs: seq<Request>, id: string): seq<Request> {
    if reqs == [] then []
    else if reqs[0].descriptor.id == id then reqs
    else GateFrom(reqs[1..], id)
  }

  ghost predicate Before(p: RequestByDate, floor: Day) {
    p.date.Some? && p.date.value < floor
  }

  /** The pairs without their leading run of pairs dated before `floor`:
      the floor holds only until the first pair is let through. */
  ghost function DropBefore(floor: Day, ps: seq<RequestByDate>): seq<RequestByDate> {
    if ps == [] then []
    else if Before(ps[0], floor) then DropBefore(floor, ps[1..])
    else ps
  }

  /** `state[key]`, a missing key reading as the empty string. */
  function StateValue(state: map<string, string>, key: string): string {
    if key in state then state[key] else ""
  }

  /** The requests a date-resumed pass walks: the metric requests, from the
      first one with the resume id on when a resume id is set. */
  ghost function DateResumeRequests(reqs: seq<Request>, stateRequestId: string): seq<Request> {
    if stateRequestId != "" then GateFrom(Metrics(reqs), stateRequestId) else Metrics(reqs)
  }

  /** The interleaving of the requests with the dates under a resume state. */
  ghost function Interleave(reqs: seq<Request>, dates: seq<Day>, state: map<string, string>)
    : Result<seq<RequestByDate>, SdkError>
  {
    var stateDate, stateRequestId := StateValue(state, "date"), StateValue(state, "requestId");
    if stateDate == "" && stateRequestId == "" then
      Success(Expand(reqs, dates))
    else if stateDate != "" then
      match ParseDate(stateDate)
      case None => Failure(InvalidStateDate(stateDate))
      case Some(floor) => Success(DropBefore(floor, Expand(DateResumeRequests(reqs, stateRequestId), dates)))
    else
      Success(Expand(GateFrom(reqs, stateRequestId), dates))
  }

  /** What `GetRequestsByDate` returns: request and date errors first, then the interleaving. */
  ghost function RequestsByDate(config: ConfigFile, state: map<string, string>)
    : Result<seq<RequestByDate>, SdkError>
  {
    var reqs :- ExtractRequests(config.connectorConf);
    var dates :- DateRange(config.requestParams);
    Interleave(reqs, dates, state)
  }

  // ---- structural lemmas ----

  lemma {:induction false} ExpandAppend(a: seq<Request>, b: seq<Request>, dates: seq<Day>)
    ensures Expand(a + b, dates) == Expand(a, dates) + Expand(b, dates)
  {
    if a == [] {
      assert a + b == b;
    } else {
      assert (a + b)[1..] == a[1..] + b;
      ExpandAppend(a[1..], b, dates);
    }
  }

  lemma ExpandSnoc(a: seq<Request>, req: Request, dates: seq<Day>)
    ensures Expand(a + [req], dates) == Expand(a, dates) + PairsOf(req, dates)
  {
    ExpandAppend(a, [req], dates);
    assert [req][1..] == [];
  }

  lemma {:induction false} MetricsSnoc(a: seq<Request>, req: Request)
    ensures Metrics(a + [req]) == Metrics(a) + (if req.descriptor.isDimension then [] else [req])
  {
    if a == [] {
      assert a + [req] == [req];
      assert [req][1..] == [];
    } else {
      assert (a + [req])[1..] == a[1..] + [req];
      MetricsSnoc(a[1..], req);
    }
  }

  lemma {:induction false} GateFromSnoc(a: seq<Request>, req: Request, id: string)
    ensures GateFrom(a + [req], id) ==
      if GateFrom(a, id) != [] then GateFrom(a, id) + [req]
      else if req.descriptor.id == id then [req]
      else []
  {
    if a == [] {
      assert a + [req] == [req];
      assert [req][1..] == [];
    } else {
      assert (a + [req])[1..] == a[1..] + [req];
      GateFromSnoc(a[1..], req, id);
    }
  }

  lemma {:induction false} DropBeforeSnoc(floor: Day, a: seq<RequestByDate>, p: RequestByDate)
    ensures DropBefore(floor, a + [p]) ==
      if DropBefore(floor, a) != [] then DropBefore(floor, a) + [p]
      else if Before(p, floor) then []
      else [p]
  {
    if a == [] {
      assert a + [p] == [p];
      assert [p][1..] == [];
    } else {
      assert (a + [p])[1..] == a[1..] + [p];
      DropBeforeSnoc(floor, a[1..], p);
    }
  }

  lemma {:induction false} DropBeforeAppend(floor: Day, a: seq<RequestByDate>, b: seq<RequestByDate>)
    ensures DropBefore(floor, a + b) ==
      if DropBefore(floor, a) != [] then DropBefore(floor, a) + b else DropBefore(floor, b)
  {
    if a == [] {
      assert a + b == b;
    } else {
      assert (a + b)[1..] == a[1..] + b;
      DropBeforeAppend(floor, a[1..], b);
    }
  }

  // ---- properties of the reference definition ----

  /** Without a resume filter every dimension request yields one pair and
      every metric request one pair per date:
      |pairs| = metrics * |dates| + dimensions. */
  lemma {:induction false} ExpandCount(reqs: seq<Request>, dates: seq<Day>)
    ensures |Metrics(reqs)| <= |reqs|
    ensures |Expand(reqs, dates)| == |Metrics(reqs)| * |dates| + (|reqs| - |Metrics(reqs)|)
  {
    if reqs != [] {
      ExpandCount(reqs[1..], dates);
      var m := |Metrics(reqs[1..])|;
      if !reqs[0].descriptor.isDimension {
        assert (m + 1) * |dates| == m * |dates| + |dates|;
      }
    }
  }

  /** A pair is produced exactly when its request is one of the requests and
      it is dateless for a dimension request, dated with one of the dates for
      a metric request. */
  lemma {:induction false} ExpandMembership(reqs: seq<Request>, dates: seq<Day>, p: RequestByDate)
    ensures p in Expand(reqs, dates) <==>
      && p.request in reqs
      && (if p.request.descriptor.isDimension then p.date.None? else p.date.Some? && p.date.value in dates)
  {
    if reqs != [] {
      ExpandMembership(reqs[1..], dates, p);
      var first := PairsOf(reqs[0], dates);
      assert Expand(reqs, dates) == first + Expand(reqs[1..], dates);
      if p in first && !reqs[0].descriptor.isDimension {
        var i :| 0 <= i < |first| && first[i] == p;
        assert p.date.value == dates[i];
      }
      if p.request == reqs[0] && !reqs[0].descriptor.isDimension && p.date.Some? && p.date.value in dates {
        var i :| 0 <= i < |dates| && dates[i] == p.date.value;
        assert first[i] == p;
      }
    }
  }

  /** No request carries `id`. */
  predicate NoneWithId(reqs: seq<Request>, id: string) {
    forall k :: 0 <= k < |reqs| ==> reqs[k].descriptor.id != id
  }

  /** `k` is the position of the first request carrying `id`. */
  predicate FirstWithId(reqs: seq<Request>, id: string, k: int) {
    && 0 <= k < |reqs|
    && reqs[k].descriptor.id == id
    && forall j :: 0 <= j < k ==> reqs[j].descriptor.id != id
  }

  /** The request-id gate lets nothing through when no request has the id. */
  lemma {:induction false} GateFromNone(reqs: seq<Request>, id: string)
    requires NoneWithId(reqs, id)
    ensures GateFrom(reqs, id) == []
  {
    if reqs != [] {
      assert forall k :: 0 <= k < |reqs[1..]| ==> reqs[1..][k] == reqs[k + 1];
      GateFromNone(reqs[1..], id);
    }
  }

  /** The request-id gate lets through the first request with the id and
      everything after it. */
  lemma {:induction false} GateFromFirst(reqs: seq<Request>, id: string, k: int)
    requires FirstWithId(reqs, id, k)
    ensures GateFrom(reqs, id) == reqs[k..]
  {
    if k > 0 {
      assert FirstWithId(reqs[1..], id, k - 1) by {
        assert reqs[1..][k - 1] == reqs[k];
        assert forall j :: 0 <= j < k - 1 ==> reqs[1..][j] == reqs[j + 1];
      }
      GateFromFirst(reqs[1..], id, k - 1);
      assert reqs[1..][k - 1..] == reqs[k..];
    }
  }

  /** The metric requests are the non-dimension requests, in order. */
  lemma {:induction false} MetricsSpec(reqs: seq<Request>)
    ensures forall k :: 0 <= k < |Metrics(reqs)| ==> !Metrics(reqs)[k].descriptor.isDimension && Metrics(reqs)[k] in reqs
    ensures forall r :: r in reqs && !r.descriptor.isDimension ==> r in Metrics(reqs)
  {
    if reqs != [] {
      MetricsSpec(reqs[1..]);
    }
  }

  /** The date floor: the kept pairs are a suffix, every dropped pair is dated
      before the floor, and the first kept pair is not. */
  lemma {:induction false} DropBeforeSpec(floor: Day, ps: seq<RequestByDate>)
    ensures |DropBefore(floor, ps)| <= |ps|
    ensures var k := |ps| - |DropBefore(floor, ps)|;
      && 0 <= k <= |ps|
      && DropBefore(floor, ps) == ps[k..]
      && (forall i :: 0 <= i < k ==> Before(ps[i], floor))
      && (k < |ps| ==> !Before(ps[k], floor))
  {
    if ps != [] && Before(ps[0], floor) {
      DropBeforeSpec(floor, ps[1..]);
      var k := |ps| - |DropBefore(floor, ps)|;
      assert ps[1..][k - 1..] == ps[k..];
      assert forall i :: 1 <= i < k ==> ps[i] == ps[1..][i - 1];
    }
  }

  /** The length of the leading run of dates before `floor`. */
  function LeadingBefore(dates: seq<Day>, floor: Day): (k: nat)
    ensures k <= |dates|
  {
    if dates == [] || dates[0] >= floor then 0 else 1 + LeadingBefore(dates[1..], floor)
  }

  /** For ascending dates the leading run is exactly the dates before the floor. */
  lemma {:induction false} LeadingBeforeAscending(dates: seq<Day>, floor: Day)
    requires forall i, j :: 0 <= i < j < |dates| ==> dates[i] < dates[j]
    ensures forall i :: 0 <= i < |dates| ==> (dates[i] < floor <==> i < LeadingBefore(dates, floor))
  {
    if dates != [] && dates[0] < floor {
      LeadingBeforeAscending(dates[1..], floor);
      forall i | 1 <= i < |dates| ensures dates[i] < floor <==> i < LeadingBefore(dates, floor) {
        assert dates[i] == dates[1..][i - 1];
      }
    }
  }

  lemma {:induction false} DropBeforeDated(floor: Day, req: Request, dates: seq<Day>)
    ensures DropBefore(floor, DatedPairs(req, dates)) == DatedPairs(req, dates[LeadingBefore(dates, floor)..])
  {
    if dates != [] && dates[0] < floor {
      assert DatedPairs(req, dates)[1..] == DatedPairs(req, dates[1..]);
      DropBeforeDated(floor, req, dates[1..]);
      assert dates[1..][LeadingBefore(dates[1..], floor)..] == dates[LeadingBefore(dates, floor)..];
    }
  }

  /** The date floor applies once, not per request: over metric requests the
      first request keeps its dates from the floor on and every later request
      keeps all its dates, unless every date is before the floor, when nothing is kept. */
  lemma {:induction false} FloorAppliesOnce(floor: Day, ms: seq<Request>, dates: seq<Day>)
    requires forall k :: 0 <= k < |ms| ==> !ms[k].descriptor.isDimension
    ensures var k := LeadingBefore(dates, floor);
      DropBefore(floor, Expand(ms, dates)) ==
        if ms == [] || k == |dates| then [] else DatedPairs(ms[0], dates[k..]) + Expand(ms[1..], dates)
  {
    if ms != [] {
      var k := LeadingBefore(dates, floor);
      DropBeforeAppend(floor, DatedPairs(ms[0], dates), Expand(ms[1..], dates));
      DropBeforeDated(floor, ms[0], dates);
      if k == |dates| {
        assert dates[k..] == [];
        FloorAppliesOnce(floor, ms[1..], dates);
      }
    }
  }

  /** Resume with no filter: the schedule is every request's pairs in request
      order, and its length is metrics * |dates| + dimensions. */
  lemma NoResumeFilter(reqs: seq<Request>, dates: seq<Day>, state: map<string, string>)
    requires StateValue(state, "date") == "" && StateValue(state, "requestId") == ""
    ensures Interleave(reqs, dates, state) == Success(Expand(reqs, dates))
    ensures |Interleave(reqs, dates, state).value| == |Metrics(reqs)| * |dates| + (|reqs| - |Metrics(reqs)|)
  {
    ExpandCount(reqs, dates);
  }

  /** Resume by date: an unparseable date (the sentinel "dimension" included)
      is an error; otherwise no dimension request appears, every pair is dated
      and its request is one of the walked metric requests, the first pair is
      not before the resume date, and what is dropped is exactly the leading
      run of pairs before it. */
  lemma DateResume(reqs: seq<Request>, dates: seq<Day>, state: map<string, string>)
    requires StateValue(state, "date") != ""
    ensures ParseDate(StateValue(state, "date")).None? ==>
      Interleave(reqs, dates, state) == Failure(InvalidStateDate(StateValue(state, "date")))
    ensures ParseDate(StateValue(state, "date")).Some? ==>
      var floor := ParseDate(StateValue(state, "date")).value;
      var walked := Expand(DateResumeRequests(reqs, StateValue(state, "requestId")), dates);
      var out := Interleave(reqs, dates, state);
      && out.Success?
      && (forall i :: 0 <= i < |out.value| ==>
            && !out.value[i].request.descriptor.isDimension
            && out.value[i].date.Some?
            && out.value[i].request in reqs)
      && (|out.value| > 0 ==> out.value[0].date.value >= floor)
      && |out.value| <= |walked|
      && out.value == walked[|walked| - |out.value|..]
      && (forall i :: 0 <= i < |walked| - |out.value| ==> Before(walked[i], floor))
  {
    var stateDate, id := StateValue(state, "date"), StateValue(state, "requestId");
    if ParseDate(stateDate).Some? {
      var floor := ParseDate(stateDate).value;
      var ms := DateResumeRequests(reqs, id);
      var walked := Expand(ms, dates);
      DropBeforeSpec(floor, walked);
      MetricsSpec(reqs);
      if id != "" {
        GateFromSuffix(Metrics(reqs), id);
      }
      forall p | p in walked
        ensures !p.request.descriptor.isDimension && p.date.Some? && p.request in reqs
      {
        ExpandMembership(ms, dates, p);
      }
      var out := DropBefore(floor, walked);
      var k := |walked| - |out|;
      forall i | 0 <= i < |out| ensures out[i] in walked {
        assert out[i] == walked[k + i];
      }
    }
  }

  lemma {:induction false} GateFromSuffix(reqs: seq<Request>, id: string)
    ensures forall r :: r in GateFrom(reqs, id) ==> r in reqs
  {
    if reqs != [] && reqs[0].descriptor.id != id {
      GateFromSuffix(reqs[1..], id);
    }
  }

  /** The sentinel "dimension" is not a date, so resuming from it is an error. */
  lemma DimensionStateDateIsError(reqs: seq<Request>, dates: seq<Day>, state: map<string, string>)
    requires StateValue(state, "date") == "dimension"
    ensures Interleave(reqs, dates, state) == Failure(InvalidStateDate("dimension"))
  {
    assert !HasDateShape("dimension");
  }

  /** Resume by request id alone: the pairs of the request with that id and of
      every later request (dimensions once, dateless; metrics once per date),
      and nothing when no request has that id. */
  lemma RequestIdResume(reqs: seq<Request>, dates: seq<Day>, state: map<string, string>, k: int)
    requires StateValue(state, "date") == "" && StateValue(state, "requestId") != ""
    ensures NoneWithId(reqs, StateValue(state, "requestId")) ==> Interleave(reqs, dates, state) == Success([])
    ensures FirstWithId(reqs, StateValue(state, "requestId"), k) ==>
      Interleave(reqs, dates, state) == Success(Expand(reqs[k..], dates))
  {
    var id := StateValue(state, "requestId");
    if NoneWithId(reqs, id) { GateFromNone(reqs, id); }
    if FirstWithId(reqs, id, k) { GateFromFirst(reqs, id, k); }
  }

  /** Resume by date and request id: requests before the first metric request
      with that id contribute nothing, and a dimension request never opens the gate. */
  lemma DateAndRequestIdResume(reqs: seq<Request>, dates: seq<Day>, state: map<string, string>, k: int)
    requires StateValue(state, "date") != "" && StateValue(state, "requestId") != ""
    requires ParseDate(StateValue(state, "date")).Some?
    ensures NoneWithId(Metrics(reqs), StateValue(state, "requestId")) ==> Interleave(reqs, dates, state) == Success([])
    ensures FirstWithId(Metrics(reqs), StateValue(state, "requestId"), k) ==>
      Interleave(reqs, dates, state) ==
        Success(DropBefore(ParseDate(StateValue(state, "date")).value, Expand(Metrics(reqs)[k..], dates)))
  {
    var id := StateValue(state, "requestId");
    if NoneWithId(Metrics(reqs), id) { GateFromNone(Metrics(reqs), id); }
    if FirstWithId(Metrics(reqs), id, k) { GateFromFirst(Metrics(reqs), id, k); }
  }

  // ---- the method ----

  /** `GetRequestsByDate`: load the requests and the dates, read the resume
      state (an empty value counts as absent), then walk the requests under
      whichever of the three filters applies. */
  method GetRequestsByDate(config: ConfigFile, state: map<string, string>)
    returns (r: Result<seq<RequestByDate>, SdkError>)
    ensures r == RequestsByDate(config, state)
  {
    var requestsResult := GetRequests(config);
    if requestsResult.Failure? {
      return Failure(requestsResult.error);
    }
    var requests := requestsResult.value;
    var datesResult := GetDateRange(config.requestParams);
    if datesResult.Failure? {
      return Failure(datesResult.error);
    }
    var dates := datesResult.value;

    var stateDate, hasDate := StateValue(state, "date"), "date" in state;
    var stateRequestId, hasReq := StateValue(state, "requestId"), "requestId" in state;
    if stateDate == "" {
      hasDate := false;
    }
    if stateRequestId == "" {
      hasReq := false;
    }
    assert RequestsByDate(config, state) == Interleave(requests, dates, state);

    if !hasDate && !hasReq {
      var out := AllPairs(requests, dates);
      return Success(out);
    }
    if hasDate {
      var filterDate := ParseDate(stateDate);
      if filterDate.None? {
        return Failure(InvalidStateDate(stateDate));
      }
      var out := PairsFromDate(requests, dates, filterDate.value, hasReq, stateRequestId);
      return Success(out);
    }
    var out := PairsFromRequest(requests, dates, stateRequestId);
    return Success(out);
  }

  /** Case 1 of `GetRequestsByDate` (sdk/sdk.go:663-676): no filter. */
  method AllPairs(requests: seq<Request>, dates: seq<Day>) returns (out: seq<RequestByDate>)
    ensures out == Expand(requests, dates)
  {
    out := [];
    for i := 0 to |requests|
      invariant out == Expand(requests[..i], dates)
    {
      var req := requests[i];
      ExpandSnoc(requests[..i], req, dates);
      assert requests[..i + 1] == requests[..i] + [req];
      if req.descriptor.isDimension {
        out := out + [RequestByDate(None, req)];
        continue;
      }
      for j := 0 to |dates|
        invariant out == Expand(requests[..i], dates) + DatedPairs(req, dates[..j])
      {
        assert DatedPairs(req, dates[..j + 1]) == DatedPairs(req, dates[..j]) + [RequestByDate(Some(dates[j]), req)];
        out := out + [RequestByDate(Some(dates[j]), req)];
      }
      assert dates[..|dates|] == dates;
    }
    assert requests[..|requests|] == requests;
  }

  /** Case 2 of `GetRequestsByDate` (sdk/sdk.go:679-722): dimension requests
      are skipped, a resume id gates the metric requests, and until the first
      pair is emitted dates before `filterDate` are suppressed. */
  method PairsFromDate(requests: seq<Request>, dates: seq<Day>, filterDate: Day, hasReq: bool, stateRequestId: string)
    returns (out: seq<RequestByDate>)
    requires hasReq <==> stateRequestId != ""
    ensures out == DropBefore(filterDate, Expand(DateResumeRequests(requests, stateRequestId), dates))
  {
    out := [];
    var startedReq := !hasReq;
    for i := 0 to |requests|
      invariant startedReq == (!hasReq || DateResumeRequests(requests[..i], stateRequestId) != [])
      invariant out == DropBefore(filterDate, Expand(DateResumeRequests(requests[..i], stateRequestId), dates))
    {
      var req := requests[i];
      ghost var before := DateResumeRequests(requests[..i], stateRequestId);
      DateResumeStep(requests[..i], req, stateRequestId);
      assert requests[..i + 1] == requests[..i] + [req];
      if req.descriptor.isDimension {
        continue;
      }
      if hasReq && !startedReq {
        if req.descriptor.id != stateRequestId {
          continue;
        }
        startedReq := true;
      }
      ExpandSnoc(before, req, dates);
      ghost var done := Expand(before, dates);
      assert done + DatedPairs(req, dates[..0]) == done;
      for j := 0 to |dates|
        invariant out == DropBefore(filterDate, done + DatedPairs(req, dates[..j]))
      {
        var dt := dates[j];
        FloorStep(filterDate, done, req, dates, j);
        if |out| == 0 {
          if dt < filterDate {
            continue;
          }
        }
        out := out + [RequestByDate(Some(dt), req)];
      }
      assert dates[..|dates|] == dates;
    }
    assert requests[..|requests|] == requests;
  }

  /** One step of the date loop of case 2: the next pair is let through
      unless nothing has been emitted yet and its date is before the floor. */
  lemma FloorStep(floor: Day, done: seq<RequestByDate>, req: Request, dates: seq<Day>, j: nat)
    requires j < |dates|
    ensures var sofar := DropBefore(floor, done + DatedPairs(req, dates[..j]));
      DropBefore(floor, done + DatedPairs(req, dates[..j + 1])) ==
        if |sofar| == 0 && dates[j] < floor then sofar else sofar + [RequestByDate(Some(dates[j]), req)]
  {
    var p := RequestByDate(Some(dates[j]), req);
    assert DatedPairs(req, dates[..j + 1]) == DatedPairs(req, dates[..j]) + [p];
    assert done + DatedPairs(req, dates[..j + 1]) == (done + DatedPairs(req, dates[..j])) + [p];
    DropBeforeSnoc(floor, done + DatedPairs(req, dates[..j]), p);
  }

  /** Case 3 of `GetRequestsByDate` (sdk/sdk.go:725-746): no date, a resume
      id; nothing before the first request with that id, everything from it on. */
  method PairsFromRequest(requests: seq<Request>, dates: seq<Day>, stateRequestId: string)
    returns (out: seq<RequestByDate>)
    ensures out == Expand(GateFrom(requests, stateRequestId), dates)
  {
    out := [];
    var started := false;
    for i := 0 to |requests|
      invariant started == (GateFrom(requests[..i], stateRequestId) != [])
      invariant out == Expand(GateFrom(requests[..i], stateRequestId), dates)
    {
      var req := requests[i];
      ghost var before := GateFrom(requests[..i], stateRequestId);
      GateFromSnoc(requests[..i], req, stateRequestId);
      assert requests[..i + 1] == requests[..i] + [req];
      if !started {
        if req.descriptor.id != stateRequestId {
          continue;
        }
        started := true;
      }
      ExpandSnoc(before, req, dates);
      if req.descriptor.isDimension {
        out := out + [RequestByDate(None, req)];
        continue;
      }
      for j := 0 to |dates|
        invariant out == Expand(before, dates) + DatedPairs(req, dates[..j])
      {
        assert DatedPairs(req, dates[..j + 1]) == DatedPairs(req, dates[..j]) + [RequestByDate(Some(dates[j]), req)];
        out := out + [RequestByDate(Some(dates[j]), req)];
      }
      assert dates[..|dates|] == dates;
    }
    assert requests[..|requests|] == requests;
  }

  /** How the walked requests of a date-resumed pass grow by one request. */
  lemma DateResumeStep(a: seq<Request>, req: Request, id: string)
    ensures var before, after := DateResumeRequests(a, id), DateResumeRequests(a + [req], id);
      && (req.descriptor.isDimension ==> after == before)
      && (!req.descriptor.isDimension && id != "" && before == [] && req.descriptor.id != id ==> after == [])
      && (!req.descriptor.isDimension && (id == "" || before != [] || req.descriptor.id == id) ==>
            after == before + [req])
  {
    MetricsSnoc(a, req);
    if req.descriptor.isDimension {
      assert Metrics(a + [req]) == Metrics(a);
    }
    if id != "" {
      GateFromSnoc(Metrics(a), req, id);
    }
  }
}
