// The outcome of one Lambda invocation behind API Gateway, and the canned
// outcomes of responses/responses.go.

module Responses {
  import opened Base
  import opened Json

  /**
   * An events.APIGatewayProxyResponse: the status code and the body. No
   * constructor here sets headers or any other field, so they are not modelled.
   */
  datatype ProxyResponse = ProxyResponse(statusCode: int, body: JsonText)

  /**
   * What the handler function hands back to the Lambda runtime: a response and
   * an error (None being nil), or a panic that unwinds the invocation.
   */
  datatype Invocation =
    | Returned(response: ProxyResponse, err: Option<Error>)
    | Panicked(cause: Error)

  /** Status 500 with an empty body; the error is handed back unchanged. */
  function InternalServerError(err: Option<Error>): (r: Invocation)
    ensures r.Returned? && r.response.statusCode == 500
    ensures r.response.body.NoText?
    ensures r.err == err
  {
    Returned(ProxyResponse(500, NoText), err)
  }

  /** Status 200 with exactly the given body and no error. */
  function Ok(body: JsonText): (r: Invocation)
    ensures r.Returned? && r.response.statusCode == 200
    ensures r.response.body == body
    ensures r.err.None?
  {
    Returned(ProxyResponse(200, body), None)
  }

  /** Status 401 with an empty body and no error. */
  function Unauthorized(): (r: Invocation)
    ensures r.Returned? && r.response.statusCode == 401
    ensures r.response.body.NoText?
    ensures r.err.None?
  {
    Returned(ProxyResponse(401, NoText), None)
  }

  /** Only the 500 constructor can hand back an error, and the three never coincide. */
  lemma OnlyServerErrorCarriesError(err: Option<Error>, body: JsonText)
    ensures Ok(body).err.None? && Unauthorized().err.None?
    ensures InternalServerError(err).err.Some? <==> err.Some?
    ensures InternalServerError(err) != Ok(body) && InternalServerError(err) != Unauthorized() && Ok(body) != Unauthorized()
  {
  }
}
