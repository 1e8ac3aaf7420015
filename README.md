# Fakturoid invoice builder — Dafny model

This project models the data-shaping core of `invoices.py`, a script that turns a delivery
spreadsheet into one invoice for the Fakturoid accounting service:

- **Item extraction** (`extract_data`, `check_delivery_date`). Every spreadsheet row becomes an
  item record: its name is `"<code> - <name>"`, its quantity is the decimal text of the row's
  integer and the other fields are copied. Items whose quantity parses back to a positive
  integer are kept, in row order. An empty table fails. So do kept items that carry more than
  one delivery date.
- **Order grouping** (`group_items_by_order_number`). This is an insertion-ordered group-by,
  modelled as a loop that updates a key list and a map the way `setdefault(...).append` updates
  a Python dict.
- **Payload construction** (`create_invoice_data`). The operator's answers are a given sequence
  of strings. The first all-digit answer is the invoice number and the answer after it is the
  delivery-note answer. The invoice lines are one header per order, each followed by that
  order's item lines. `issued_on` is the first item's delivery date.
- **Start-up rules**: the required-variable check and the settings read after it, the
  `.xlsx` pick of `find_file`, and the status-code rules of the two HTTP calls.

Modules: `Types` (records, errors), `Seqs` (order-preserving filter, linear search),
`Decimal` (Python `str(int)`, `int(str)`, `str.isdigit` on ASCII), `Extraction`, `Grouping`,
`Invoice`, `Setup`, `Api`.

Every exception the model covers becomes an `Err` of `Types.Error`. The script prints it and
exits with code 1.

A non-empty
table whose rows all have non-positive quantities is not an extraction error. `extract_data`
returns an empty list (`Extraction.NoPositiveRowNoItems`), and the run then fails in
`create_invoice_data` at `items[0]`. That happens only after both prompts were answered
(`Err(NoItems)`).

## Model

| member | source | states |
|---|---|---|
| Extraction.ExtractData | invoices.py:117-138 | an empty table fails with EmptyFile; otherwise the result is the kept items, or DatesDoNotMatch when they carry two or more delivery dates |
| Extraction.KeepsPositiveRows | invoices.py:118-129 | every row with a positive quantity yields its item, at the position equal to the number of items kept from earlier rows |
| Extraction.KeptFromPositiveRow | invoices.py:118-129 | every kept item is the item of some row with a positive quantity, at the position that row's predecessors leave |
| Extraction.KeptIffPositive | invoices.py:125-128 | the filter `int(quantity) > 0` on the item keeps it exactly when the row's integer quantity is positive |
| Extraction.ToItem | invoices.py:121-127 | the item copies order number, delivery date and price from the row, and its quantity text parses back to the row's integer quantity |
| Extraction.NoPositiveRowNoItems | invoices.py:128-138 | a table with no positive quantity yields no items, and that empty list passes the date check, so a non-empty such table is not an error |
| Extraction.NonPositiveRowIgnored | invoices.py:128-135 | removing a row with quantity <= 0 from anywhere in the table leaves the kept items unchanged, so its date takes no part in the date check |
| Decimal.IntStringRoundTrip | invoices.py:125-128 | parsing the decimal text of any integer gives that integer back |
| Extraction.CheckDeliveryDate | invoices.py:140-145 | true iff all items share one delivery date, so true for an empty list |
| Extraction.SingleDateIffAllEqual | invoices.py:141-142 | at most one distinct date in the set iff every two items have the same date |
| Grouping.GroupKeys | invoices.py:74-78 | the group keys have no duplicates and are exactly the order numbers of the items |
| Grouping.GroupItemsByOrderNumber | invoices.py:74-78 | the dict built by the loop has keys in first-occurrence order, one per order number, each holding that order's items in input order |
| Grouping.ItemInOwnGroup | invoices.py:76-77 | each item lands in the group of its own order number, after the earlier items of that order |
| Grouping.GroupHoldsOnlyItsOrder | invoices.py:76-77 | every member of a group is an input item carrying that group's order number, so no item is in two groups |
| Grouping.GroupSizesSum | invoices.py:74-78 | the group sizes add up to the number of input items |
| Grouping.GroupKeysPrefix | invoices.py:75-77 | the keys seen after a prefix of the items are a prefix of the final keys |
| Grouping.FirstOccurrenceOrder | invoices.py:75-77 | an order number first met at item p takes the key position right after the keys of items before p |
| Invoice.PromptInvoiceNumber | invoices.py:82-84 | the loop stops at the first answer that is non-empty and all digits, or after the last answer |
| Invoice.NoteText | invoices.py:86-87 | every note ends with "Invoicing based on order:", and the note is exactly that text iff the delivery-note answer is empty |
| Invoice.NoteRoundTrip | invoices.py:86-87 | the delivery-note answer can be read back from the note, so distinct answers give distinct notes |
| Invoice.AppendBlock | invoices.py:100-112 | one pass of the outer loop appends the order's header and then one line per item of its group |
| Invoice.LayOutLines | invoices.py:99-112 | the nested loops produce the blocks of all groups, in key order |
| Invoice.CreateInvoiceData | invoices.py:80-115 | fails with EndOfInput when no digit answer is followed by a note answer, then with NoItems on an empty list; otherwise builds number, note, subject, issued_on from the first item, and the grouped lines |
| Invoice.InvoiceLinesLength | invoices.py:99-112 | the invoice has one line per item plus one header per distinct order number |
| Invoice.BlockLayout | invoices.py:99-105 | the header of the j-th order sits right after the earlier orders' blocks, with room for all of that order's items after it |
| Invoice.BlockItemAt | invoices.py:106-112 | the lines right after that header are the lines of that order's items, in input order, copying name, quantity and price |
| Invoice.InvoiceHeaders | invoices.py:100-105 | the header lines, in order, are one per group key, in first-occurrence order, and there are as many as there are distinct order numbers |
| Setup.CheckEnvironmentAsWritten | invoices.py:12-15 | the check over the names as listed (CLIENT_ID, CLIENT_SECRET, SLUG, USER_AGENT, SUBJECT_ID, INVOICE_FOLDER) passes iff all are set, and otherwise reports one of them that is absent or empty |
| Setup.FirstMissing | invoices.py:12-15 | reports the first listed name that is absent or empty, and nothing iff all are set |
| Setup.WrittenCheckPassesWithoutCredentials | invoices.py:12-20 | the check as written accepts an environment that lacks the FAKTUROID_CLIENT_ID the script reads |
| Setup.LoadConfig | invoices.py:12-25 | fails iff a variable that is read is unset; on success every read setting is non-empty and the token URL uses the default API URL when none is given |
| Setup.FindFile | invoices.py:147-155 | a missing folder fails; otherwise returns the first listed name ending in `.xlsx`, and fails iff there is none |
| Api.SendInvoice | invoices.py:39-72 | a token status other than 200 fails with the token body and never consults the invoice endpoint; then 201 yields the id and any other status fails with the invoice body |

## Findings

| source | as written | input that shows it | evidently intended | confidence | as-written member | corrected member |
|---|---|---|---|---|---|---|
| invoices.py:12-20 | the start-up check tests `CLIENT_ID`, `CLIENT_SECRET` and `SLUG`, but the script reads `FAKTUROID_CLIENT_ID`, `FAKTUROID_CLIENT_SECRET` and `FAKTUROID_SLUG` | the six checked names set and no `FAKTUROID_*` variable: the check passes and the credentials and slug are read as `None` | check the names that are read, so a missing credential fails at start-up | medium, not executed | Setup.WrittenCheckPassesWithoutCredentials | Setup.LoadConfig |

`Setup.CheckEnvironmentAsWritten` is the check as the script has it. `Setup.LoadConfig` checks
the names it reads (`Setup.CheckEnvironment`).

## Left out

- Spreadsheet reading (`pd.read_excel`, `pd.to_datetime`) and date formatting (`strftime`) are foreign library calls. A row's delivery date is a given, already-formatted string.
- Price rounding `round(float(...), 2)` is floating point. The price is an opaque, already-rounded string that is copied.
- Extraction.ToItem: the order number is taken as a string; `str()` of a spreadsheet cell of another type is not modelled.
- Types.Row: the quantity is an integer. A non-integer quantity cell is not modelled: pandas reads a column with a blank cell as float, `str()` then gives text such as `"5.0"`, and `int()` at invoices.py:128 raises, which fails the whole extraction.
- Decimal.ParseInt: models `int()` on an optional `-` and ASCII digits only. Python also accepts `+`, surrounding whitespace, underscores and non-ASCII digits. In the model the filter only parses `str()` of an integer, so within the model this does not change which items are kept.
- Decimal.IsDigitString: `str.isdigit` also accepts non-ASCII digit characters; the model accepts ASCII `0`-`9` only.
- Console `input()` is replaced by the sequence of answers. Running out of answers stands for `EOFError`.
- Network I/O, the OAuth request itself, its headers and the base64 encoding of the credentials are left out. Only the status-code rules remain. A response's JSON field (`access_token`, `id`) is given; a missing field, which Python reads as `None`, is not modelled.
- Error message texts and their wrapping prefixes are not modelled. The error constructors carry the raw response body where the script puts it into the message.
- `main`, `webbrowser.open_new_tab`, `time.sleep`, `sys.exit` and the invoice page URL are side effects and glue.
- `os.path.exists`, `os.makedirs` and `os.listdir` in `find_file` become a flag and a listing. The returned value is the file name; `os.path.join` is not modelled.
- Setup.LoadConfig: uses the corrected variable check (see Findings). The script's own check is `Setup.CheckEnvironmentAsWritten`.
