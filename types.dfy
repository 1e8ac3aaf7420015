/** Records that flow through the invoicing pipeline of invoices.py. */
module Types {

  datatype Option<T> = None | Some(value: T)

  /** Every failure that makes the run abort (all of them end in exit code 1). */
  datatype Error =
    | MissingVariable(name: string)   // a required environment variable is absent or empty
    | DirectoryNotFound               // the invoice folder did not exist (it is then created)
    | NoSpreadsheet                   // no entry of the folder ends in ".xlsx"
    | EmptyFile                       // the spreadsheet has no rows
    | DatesDoNotMatch                 // kept items span two or more delivery dates
    | EndOfInput                      // a prompt found no more operator input
    | NoItems                         // items[0] on an empty item list
    | TokenRejected(body: string)     // token endpoint answered with a status other than 200
    | InvoiceRejected(body: string)   // invoice endpoint answered with a status other than 201

  datatype Result<T> = Ok(value: T) | Err(error: Error)

  /** One spreadsheet row, with the date already formatted as YYYY-MM-DD and the price already rounded. */
  datatype Row = Row(
    orderNumber: string,
    deliveryDate: string,
    productCode: string,
    productName: string,
    quantity: int,
    price: string)

  /** One extracted line item; the quantity is kept as the decimal text of the row's integer. */
  datatype Item = Item(
    orderNumber: string,
    deliveryDate: string,
    name: string,
    quantity: string,
    price: string)

  /** A JSON scalar of an invoice line: header lines carry numbers, item lines carry the item's strings. */
  datatype Amount = Num(n: int) | Text(s: string)

  datatype InvoiceLine = InvoiceLine(name: string, quantity: Amount, unitPrice: Amount, vatRate: string)

  /** The JSON body posted to the invoice endpoint. */
  datatype Payload = Payload(
    number: string,
    note: string,
    subjectId: string,
    issuedOn: string,
    lines: seq<InvoiceLine>)
}
