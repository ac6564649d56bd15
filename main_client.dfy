/**
 * The calls the services make to the main backend through its HTTP client,
 * and what each call yields. The backend is an oracle: the reply a call
 * gets is a function of the call.
 */
module MainClient {
  import opened Wrappers
  import opened JsonValues

  /** The client methods: the user-service lookup, reading scrapped data,
      creating it (`consumption_data or {}` already applied) and the partial
      update, whose body holds only the arguments that are not `None`. */
  datatype Call =
    | GetUserService(userServiceId: int)
    | GetScrappedData(userServiceId: int)
    | CreateScrappedData(userServiceId: int, bills: seq<Json>, consumptionData: Json, debt: bool)
    | UpdateScrappedData(scrappedDataId: Json, setBills: Option<seq<Json>>, setConsumption: Option<Json>, setDebt: Option<bool>)

  /** The decoded JSON body, or the exception the client raises: an
      `HTTPClientError` carrying the status when there was a response. */
  datatype Reply = Ok(body: Json) | Raised(status: Option<int>, text: string)

  /** The backend, as the reply it gives to each call. */
  type Server = Call -> Reply
}
