/** The two HTTP exchanges of invoices.py:39-72, reduced to their status-code rules. */
module Api {
  import opened Types

  /** A response: its status code, its raw text, and the JSON field the caller reads (access_token or id). */
  datatype Response = Response(status: int, body: string, field: string)

  /** get_token: 200 yields the access token, any other status fails with the response text. */
  function FetchToken(response: Response): Result<string>
  {
    if response.status == 200 then Ok(response.field) else Err(TokenRejected(response.body))
  }

  /** The invoice POST: 201 yields the new invoice's id, any other status fails with the response text. */
  function SubmitInvoice(response: Response): Result<string>
  {
    if response.status == 201 then Ok(response.field) else Err(InvoiceRejected(response.body))
  }

  /**
   * send_invoice_to_fakturoid: fetch a token, then post the invoice with it; post stands for the
   * invoice endpoint, answering a request made with the given bearer token. A rejected token
   * request fails without consulting post at all.
   */
  function SendInvoice(tokenResponse: Response, post: string -> Response): (r: Result<string>)
    ensures tokenResponse.status != 200 ==> r == Err(TokenRejected(tokenResponse.body))
    ensures tokenResponse.status == 200 ==>
              var answer := post(tokenResponse.field);
              (answer.status == 201 ==> r == Ok(answer.field)) &&
              (answer.status != 201 ==> r == Err(InvoiceRejected(answer.body)))
  {
    match FetchToken(tokenResponse)
    case Err(e) => Err(e)
    case Ok(token) => SubmitInvoice(post(token))
  }
}
