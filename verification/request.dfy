/** The trace query request and its validation (sto/client.go, TraceQueryRequest). */
module Request {
  import opened Wrappers

  /** A trace query: a sort order and the waybill numbers to look up. */
  datatype TraceQueryRequest = TraceQueryRequest(order: string, waybillNoList: seq<string>)

  /** The two ways `Validate` can refuse a request. */
  datatype ValidationError =
    | EmptyWaybillList   // "waybillNoList cannot be empty"
    | InvalidOrder       // "order must be either 'asc' or 'desc'"

  /** The order values the client accepts; the empty string is also accepted. */
  const AcceptedOrders: set<string> := {"", "asc", "desc"}

  /** Checks a request before anything is signed or sent; `None` means the request is
      acceptable. The waybill list is checked before the order. */
  function Validate(req: TraceQueryRequest): (err: Option<ValidationError>)
    // An empty list is always the reported error, whatever the order holds.
    ensures |req.waybillNoList| == 0 ==> err == Some(EmptyWaybillList)
    // With waybills present, the request is accepted exactly for the three order values.
    ensures |req.waybillNoList| > 0 ==> (err == None <==> req.order in AcceptedOrders)
    ensures |req.waybillNoList| > 0 && req.order !in AcceptedOrders ==> err == Some(InvalidOrder)
  {
    if |req.waybillNoList| == 0 then
      Some(EmptyWaybillList)
    else if req.order != "" && req.order != "asc" && req.order != "desc" then
      Some(InvalidOrder)
    else
      None
  }

  /** The order test is an exact, case-sensitive string comparison: spellings that differ
      only in case or whitespace are refused, and the accepted result does not depend on
      which (or how many) waybills are listed. */
  lemma OrderIsCaseSensitive(waybills: seq<string>)
    requires |waybills| > 0
    ensures Validate(TraceQueryRequest("ASC", waybills)) == Some(InvalidOrder)
    ensures Validate(TraceQueryRequest("Desc", waybills)) == Some(InvalidOrder)
    ensures Validate(TraceQueryRequest(" asc", waybills)) == Some(InvalidOrder)
    ensures Validate(TraceQueryRequest("asc", waybills)) == None
    ensures Validate(TraceQueryRequest("desc", waybills)) == None
    ensures Validate(TraceQueryRequest("", waybills)) == None
  {
  }

  /** Validation reads only the emptiness of the waybill list, never its contents. */
  lemma ValidateIgnoresWaybillContents(r1: TraceQueryRequest, r2: TraceQueryRequest)
    requires r1.order == r2.order
    requires (|r1.waybillNoList| == 0) == (|r2.waybillNoList| == 0)
    ensures Validate(r1) == Validate(r2)
  {
  }
}
