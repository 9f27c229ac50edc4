/** The JSON responses of the two handlers: status code plus the
    `success`, `data`, `count`, `message` and `error` fields, each of the
    optional ones present or absent. */
module Http {
  import opened Wrappers
  import opened RiskAssessment
  import opened Restaurant

  /** A search hit: the stored document's fields plus the computed `risk`. */
  datatype RestaurantWithRisk = RestaurantWithRisk(restaurant: Record, risk: Assessment)

  /** The `data` field: absent, the created document, or the list of hits. */
  datatype Payload = NoData | Created(record: Record) | Hits(items: seq<RestaurantWithRisk>)

  datatype Response = Response(
    status: int,
    success: bool,
    data: Payload,
    count: Option<nat>,
    message: Option<string>,
    error: Option<string>)

  /** `{success: false, error}` with the given status. */
  function ErrorResponse(status: int, error: string): Response {
    Response(status, false, NoData, None, None, Some(error))
  }
}
