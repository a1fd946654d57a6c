/** JSON exchanges between the dashboard and the route handlers. */
module Http {
  /** A JSON reply of a route handler: a status with data, or a status with a `message`. */
  datatype Response<T> = Success(status: nat, data: T) | Failure(status: nat, message: string)

  datatype Verb = Get | Post | Put

  /** A `fetch` the dashboard sends: verb, path and JSON body. */
  datatype Request<B> = Request(verb: Verb, path: string, body: B)
}
