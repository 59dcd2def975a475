/** The trace query response as the client decodes it (sto/client.go, TraceInfo and
    TraceQueryResponse). Every field is the vendor's raw string, passed through unparsed. */
module Response {

  /** One tracking scan of one waybill. */
  datatype TraceInfo = TraceInfo(
    waybillNo: string,
    opTime: string,
    opOrgCode: string,
    opOrgName: string,
    opOrgProvinceName: string,
    opOrgCityName: string,
    opOrgTel: string,
    opEmpCode: string,
    opEmpName: string,
    scanType: string,
    weight: string,
    memo: string,
    bizEmpCode: string,
    bizEmpName: string,
    bizEmpPhone: string,
    bizEmpTel: string,
    nextOrgName: string,
    nextOrgCode: string,
    issueName: string,
    signoffPeople: string,
    containerNo: string,
    orderOrgCode: string,
    orderOrgName: string,
    transportTaskNo: string,
    carNo: string,
    opOrgTypeCode: string,
    partnerName: string)

  /** A decoded response. `success` and `needRetry` are booleans encoded as strings;
      `data` maps each waybill number to its scans in server order. */
  datatype TraceQueryResponse = TraceQueryResponse(
    success: string,
    errorCode: string,
    errorMsg: string,
    needRetry: string,
    requestId: string,
    expInfo: string,
    data: map<string, seq<TraceInfo>>)

  /** The only spelling of a true flag that the client recognises. */
  const TrueFlag: string := "true"

  /** Whether the server reports the query as successful. */
  predicate IsSuccess(r: TraceQueryResponse) {
    r.success == TrueFlag
  }

  /** Whether the server asks the client to send the same request again. */
  predicate ShouldRetry(r: TraceQueryResponse) {
    r.needRetry == TrueFlag
  }

  /** Each flag predicate reads its own field only: changing the other field, or any of
      the error, request-id or data fields, never changes its answer. */
  lemma FlagsReadOnlyTheirOwnField(r: TraceQueryResponse, s: string)
    ensures IsSuccess(r.(needRetry := s)) == IsSuccess(r)
    ensures ShouldRetry(r.(success := s)) == ShouldRetry(r)
    ensures IsSuccess(r.(needRetry := s)) <==> r.success == "true"
    ensures ShouldRetry(r.(success := s)) <==> r.needRetry == "true"
  {
  }

  /** The flags are exact, case-sensitive matches: other spellings of truth read as false. */
  lemma FlagsAreExactMatches(r: TraceQueryResponse)
    ensures !ShouldRetry(r.(needRetry := "True")) && !ShouldRetry(r.(needRetry := "TRUE"))
    ensures !ShouldRetry(r.(needRetry := "1")) && !ShouldRetry(r.(needRetry := ""))
    ensures !IsSuccess(r.(success := "True")) && !IsSuccess(r.(success := "1"))
    ensures !IsSuccess(r.(success := "TRUE")) && !IsSuccess(r.(success := ""))
    ensures ShouldRetry(r.(needRetry := "true")) && IsSuccess(r.(success := "true"))
  {
  }
}
