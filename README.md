# Event ticket system: a verified model

This project models the server core and the two import parsers of an event
ticketing web application. A buyer's ticket sits in a MongoDB `tickets`
collection. The admin imports tickets in one of two ways:
- a raw payment-gateway export, pasted as text;
- a five-column sheet.

A batch route encrypts a `{ticket_id, email, ts}` payload for every ticket
that has not been processed yet. It mails the payload as a QR code and
records each delivery in the `qr_processed` tracking collection. At the
gate, the verify route decrypts a scanned code and classifies the ticket as
valid, used or invalid. The mark-used route redeems a ticket. The admin page
shows a combined table with counters and status badges.

Modules, one per source file:
- `Wrappers`: Option and Result.
- `Text`: the JavaScript string built-ins the code relies on: `trim`,
  `split`, the column-splitting regular expression, `toLowerCase`,
  `includes`, `parseInt` and `String(n)`.
- `Types`: the JSON value, the record types and the `||` fallback.
- `Store`: the collections. `TicketCollection` and `TrackingCollection` are
  classes whose `docs` field the routes update. Each query is a first-match
  lookup.
- `Encryption`: `lib/encryption.ts`.
- `VerifyQr`, `MarkUsed`, `UploadRawData`, `UploadSheet`,
  `GenerateAndSend` and `FetchSheet`: the API routes.
- `QrGenerator`: the admin page's counters and badge.
- `RawDataImport` and `DataImport`: the parsers of the two import dialogs.

How the model is built:
- A route that writes to the store is a `method` on the collection objects.
  Its `ensures` ties the reply and the new documents to a pure `Outcome`
  function of the old documents.
- Each route loop is a `for` loop. Its invariant equals a fold over a
  prefix of the input: `Import`, `Upload`, `Send`, `Dedup` or `Collect`.
  The properties are lemmas about those folds.
- The two parsers are methods, each proved equal to a parse function.
- In the batch route, each pending ticket's attempt (encrypt, then mail)
  depends only on that ticket and its clock reading. `Attempts` lists
  them. The fold `Send` then writes a tracking record and a mail for every
  attempt that succeeded, and `ProcessTicket` is the loop body proved
  against one `Attempt`.

Outside inputs become parameters:
- `now`, a timestamp with one reading per request in the upload and
  mark-used routes.
- `today`, the ISO date string in the raw-data upload.
- `clock(i)`, the timestamp of the `i`-th pending ticket in the batch.
- `send`, the mail transport, which accepts a mail or throws.
- `Env`, for `ENCRYPTION_KEY` and `ENCRYPTION_IV`.
- `Cipher`, the AES, hex and JSON primitives. The laws the model relies on
  are the predicate `Lawful`, taken as a precondition:
  - decryption inverts encryption under valid key material;
  - bad key material makes both directions throw;
  - `JSON.parse` inverts `JSON.stringify`.

Behaviour of the code that the model keeps as written:
- Mark-used is keyed on `payment_id`, not `ticket_id`. It is a read, then a
  check, then an update, not an atomic conditional update.
- The upload-sheet route sets `used` back to `false` on a ticket it
  re-uploads. It leaves `used_at` in place. So `used` is not monotone, and
  "`used_at` is present iff `used`" does not hold (`UploadSheet.ReuploadUnredeems`).
- `isValidPayload` checks only that the three keys are present. It does not
  check that the values are non-empty strings
  (`Encryption.IsValidPayloadIff`).
- `decrypt` turns every failure into one error, "Invalid QR code data". A bad
  hex string, a bad key and bad JSON cannot be told apart.
- The raw-data upload does not use an atomic insert-if-absent. It looks up
  an existing document on either id, then inserts.

## Model

| member | source | states |
|---|---|---|
| Types.Or | pages/api/upload-raw-data.ts:75-90 | `v \|\| d` on a string: a non-empty value is kept and an empty one gives the default |
| Types.OptionOr | lib/encryption.ts:14-15 | `v \|\| d` on an optional string: unset and empty both give the default, any other value is kept |
| Text.TrimStart | components/DataImportModal.tsx:48 | the result is a suffix of the input; everything dropped is white space, and the result does not start with white space |
| Text.TrimEnd | components/DataImportModal.tsx:48 | the result is a prefix of the input; everything dropped is white space, and the result does not end with white space |
| Text.IsSpace | components/DataImportModal.tsx:48 | the white-space set of `trim` and `\s` holds space, tab, CR and LF, and no digit, ASCII letter or comma |
| Text.Trim | components/DataImportModal.tsx:39-41 | the result has no white space at either end, and it is empty exactly when the input is all white space; `TrimSlice` locates it in the input |
| Text.TrimSlice | components/DataImportModal.tsx:48 | what `trim` keeps is one slice of the input, with only white space before it and only white space after it |
| Text.IndexOf | components/DataImportModal.tsx:51-54 | gives the first index of a character that occurs in the string |
| Text.Split | components/DataImportModal.tsx:44 | `split` on one character: at least one part, no part contains the separator, and joining the parts with the separator gives back the input |
| Text.TabRunMaximal | components/RawDataImportModal.tsx:70 | the run counted from a position is all tabs, and no tab follows it: `\t+` matches greedily |
| Text.SpaceRunMaximal | components/RawDataImportModal.tsx:70 | the run counted from a position is all white space, and no white space follows it: `\s{2,}` matches greedily |
| Text.SepAtZero | components/RawDataImportModal.tsx:70 | a separator of `/\t+\|\s{2,}/` starts at a position exactly when there is a tab there or two white-space characters in a row |
| Text.FieldUnbroken | components/RawDataImportModal.tsx:70 | a field crossed without finding a separator contains no tab and no two adjacent white-space characters |
| Text.SplitFromUnbroken | components/RawDataImportModal.tsx:70 | from a field start where no separator has been crossed, every column the split loop cuts contains no separator |
| Text.SplitColumns | components/RawDataImportModal.tsx:70 | `split(/\t+\|\s{2,}/)` gives at least one column; `SplitColumnsSpans` ties every column to its slice of the line |
| Text.CutAtCons | components/RawDataImportModal.tsx:70 | a separator-free field, then a separator, then a valid cutting of the rest, is a valid cutting of the line |
| Text.SplitFromSpans | components/RawDataImportModal.tsx:70 | the columns the split loop produces from a field start are slices of the line, separator-free, each but the last followed by a greedy separator match that ends where the next column starts, the last ending at the end of the line |
| Text.SplitColumnsSpans | components/RawDataImportModal.tsx:70 | the columns of the split cut the whole line: the first starts at 0, the last ends at the end, every column is the slice between two greedy separator matches, and no separator starts inside a column |
| Text.SplitColumnsUnbroken | components/RawDataImportModal.tsx:70 | no column of the split contains a tab or two adjacent white-space characters |
| Text.Lower | components/RawDataImportModal.tsx:73-93 | same length as the input, with each character ASCII-lower-cased |
| Text.Contains | components/DataImportModal.tsx:57-59 | `includes`: the empty string is found in every string, and a string longer than the haystack is never found |
| Text.NatToString | components/RawDataImportModal.tsx:141 | decimal digits only, at least one digit, and no leading zero unless the number is 0 |
| Text.NatToStringValue | components/RawDataImportModal.tsx:141 | the digits of `String(n)` denote `n` |
| Text.ParseInt | components/RawDataImportModal.tsx:141 | `parseInt` gives a number only when the text holds a digit; otherwise it is `NaN` |
| Text.ParseIntDigits | components/RawDataImportModal.tsx:141 | `parseInt` of a run of decimal digits, leading zeros included, is the number they denote |
| Text.ParseIntNatToString | components/RawDataImportModal.tsx:141 | `parseInt(String(n))` is `n` |
| Store.FirstMatch | pages/api/mark-used.ts:37 | `findOne`: the index returned is the first document matching the filter, and `None` means no document matches |
| Store.ByPaymentId | pages/api/mark-used.ts:37 | the first ticket with this payment_id, or none with it |
| Store.ByTicketId | pages/api/verify-qr.ts:61-72 | the first ticket with this ticket_id, or none with it |
| Store.ByEitherId | pages/api/upload-raw-data.ts:61-66 | the `$or` filter: a ticket sharing either id, or no ticket sharing either |
| Store.TrackingByPaymentId | pages/api/generate-and-send.ts:111-124 | the first tracking record with this payment_id, or none with it |
| Store.UpsertTrackingUnique | pages/api/generate-and-send.ts:111-124 | an upsert keyed on payment_id keeps the tracking records' payment_ids distinct, and adds at most one record |
| Store.TicketCollection.UpdateOneByPaymentId | pages/api/mark-used.ts:55-63 | `updateOne`: only the first match changes, and `modifiedCount` is 1 exactly when the document differs afterwards |
| Store.TicketCollection.UpsertOneByPaymentId | pages/api/upload-sheet.ts:58-72 | `updateOne` with `upsert`: the first match is updated, or a document is appended; gives `upsertedCount` and `modifiedCount` |
| Store.TicketCollection.InsertOne | pages/api/upload-raw-data.ts:93-95 | `insertOne` appends the document |
| Store.TrackingCollection.UpsertByPaymentId | pages/api/generate-and-send.ts:111-124 | the tracking upsert: the new collection is `UpsertTracking` of the old one |
| Encryption.Zeros | lib/encryption.ts:18-19 | a run of `'0'` of the given length |
| Encryption.Coerce | lib/encryption.ts:18-19 | `padEnd(n, '0').slice(0, n)`: exactly `n` characters; a short value is padded with zeros and a long one is truncated |
| Encryption.CoerceIdempotent | lib/encryption.ts:18-19 | coercing twice is the same as coercing once |
| Encryption.GetEncryptionConfig | lib/encryption.ts:13-21 | the key is always 32 characters and the IV 16 |
| Encryption.DefaultConfig | lib/encryption.ts:14-19 | when the variables are unset or empty, the key is the default cut to 32 characters and the IV is the default padded to 16 |
| Encryption.Utf8Length | lib/encryption.ts:18-19 | `Buffer.from` is never shorter than the string in characters |
| Encryption.Utf8LengthAscii | lib/encryption.ts:18-19 | the UTF-8 byte count equals the character count exactly when the string is ASCII |
| Encryption.KeyMaterialAscii | lib/encryption.ts:18-19 | the derived key and IV have the byte lengths AES-256-CBC accepts exactly when both are ASCII |
| Encryption.Encrypt | lib/encryption.ts:45-60 | every failure is the single error "Encryption failed" |
| Encryption.Decrypt | lib/encryption.ts:26-40 | fails exactly when deciphering or JSON parsing fails, and every failure is "Invalid QR code data" |
| Encryption.DecryptEncrypt | lib/encryption.ts:26-60 | with valid key material, decrypting what `encrypt` produced gives back the data |
| Encryption.RefusedKeyMaterial | lib/encryption.ts:36-39 | with key material the cipher refuses, both directions fail with their fixed messages |
| Encryption.IsValidPayload | lib/encryption.ts:65-73 | on an object, the check holds exactly when the three keys are present, whatever their values; null and primitive values never pass |
| Encryption.IsValidPayloadIff | lib/encryption.ts:65-73 | a value passes exactly when it is an object that has `ticket_id`, `email` and `ts`; their values are not examined |
| Encryption.PayloadJsonRoundTrip | lib/encryption.ts:65-73 | every issued payload passes the check and reads back as the same payload |
| VerifyQr.FindTicket | pages/api/verify-qr.ts:61-72 | the first ticket whose ticket_id equals the payload's, or none with it |
| VerifyQr.Handler | pages/api/verify-qr.ts:15-99 | success iff 200 iff the status is valid or used; a ticket is returned exactly on success, it is in the store, and its `used` flag matches the status |
| VerifyQr.MissingDataIsError | pages/api/verify-qr.ts:27-33 | a missing, non-string or empty code gives the fixed 400 reply whatever the store and the key |
| VerifyQr.Classification | pages/api/verify-qr.ts:37-99 | the full decision table: decryption failure, bad format, not found (404), email mismatch, then used or valid by the ticket's flag |
| VerifyQr.MismatchBeforeUsed | pages/api/verify-qr.ts:75-91 | the email check comes before the used check: a used ticket with the wrong email is reported invalid |
| VerifyQr.VerifyIssuedCode | pages/api/verify-qr.ts:37-99 | a code encrypted from a stored ticket's payload verifies to that ticket, used or valid by its flag |
| MarkUsed.Outcome | pages/api/mark-used.ts:15-79 | the number of documents is unchanged; a failure leaves the store as it was and returns no ticket; a success returns a used ticket from the new store |
| MarkUsed.Handler | pages/api/mark-used.ts:15-79 | the reply and the new documents are `Outcome` of the old documents |
| MarkUsed.SuccessRedeemsFirstMatch | pages/api/mark-used.ts:37-79 | a success means the first document with the payment_id was unused and is now `used` with `used_at = now`; nothing else changes |
| MarkUsed.UsedNeverCleared | pages/api/mark-used.ts:47-63 | mark-used never clears a `used` flag |
| MarkUsed.AtMostOnce | pages/api/mark-used.ts:47-52 | two calls in a row never both succeed, and after a success the second call is "Ticket already marked as used" and changes nothing |
| MarkUsed.RedeemUnused | pages/api/mark-used.ts:37-79 | an unused ticket that is the first with its payment_id is redeemed: success, only that document changes, and it stays the first with its ticket_id |
| MarkUsed.RedeemKeepsTicketLookup | pages/api/mark-used.ts:55-63 | setting `used` and `used_at` on a document keeps it the first with its ticket_id |
| MarkUsed.VerifyRedeemVerify | pages/api/mark-used.ts:37-79 | an issued code verifies as valid, the ticket is redeemed, the same code then verifies as used, and a second redeem is refused |
| RawDataImport.TrimAll | components/RawDataImportModal.tsx:70 | `map(col => col.trim())` keeps the number of columns |
| RawDataImport.TrimAllAt | components/RawDataImportModal.tsx:70 | column `k` of the mapped list is part `k` trimmed |
| RawDataImport.Columns | components/RawDataImportModal.tsx:70 | the columns of the regex split, each trimmed |
| RawDataImport.ColumnsTrimmed | components/RawDataImportModal.tsx:70 | each column of a line is the matching field of its regex split, trimmed |
| RawDataImport.IsHeader | components/RawDataImportModal.tsx:73-93 | a line recognised as the header has at least fourteen columns, since columns 3, 11, 12 and 13 must each carry a header name |
| RawDataImport.RowOf | components/RawDataImportModal.tsx:101-117 | order_id, payment_id, name and email are taken from columns 3, 11, 12 and 13, the columns the header test reads |
| RawDataImport.LineRow | components/RawDataImportModal.tsx:66-123 | a row is produced only with a non-empty order id, payment id and email |
| RawDataImport.LineRows | components/RawDataImportModal.tsx:56-123 | one entry per line, each the row of that line |
| RawDataImport.DedupFacts | components/RawDataImportModal.tsx:126-132 | the kept rows are rows of earlier lines, in line order, with distinct order ids, and each order id is recorded as seen |
| RawDataImport.Dedup | components/RawDataImportModal.tsx:126-132 | the filter keeps no more rows than it has seen lines, with one recorded line per kept row |
| RawDataImport.Keep | components/RawDataImportModal.tsx:126-132 | one row leaves the filter as it was, or appends that row when its order_id was not seen; the seen set only grows |
| RawDataImport.ScannedIsDedup | components/RawDataImportModal.tsx:126-146 | the loop's seen set and tickets are the filter's seen set and the tickets of the rows it keeps |
| RawDataImport.Tickets | components/RawDataImportModal.tsx:135-146 | one ticket per kept row, in order |
| RawDataImport.TicketsSnoc | components/RawDataImportModal.tsx:135-146 | pushing a row pushes its ticket |
| RawDataImport.TicketsAt | components/RawDataImportModal.tsx:135-146 | ticket `k` is the ticket of kept row `k` |
| RawDataImport.TicketOf | components/RawDataImportModal.tsx:135-144 | the ticket_id is the order_id; payment_id and email are the row's; an empty name becomes "Unknown"; the row travels along as `raw_data` |
| RawDataImport.TicketType | components/RawDataImportModal.tsx:141 | the type starts with the item name and " - ", and ends in "s" exactly when the quantity parses above 1 |
| RawDataImport.Lines | components/RawDataImportModal.tsx:54 | the trimmed input split on newlines has at least one line |
| RawDataImport.ScanLine | components/RawDataImportModal.tsx:66-123 | the loop body gives the line's row, and a skipped header is line 0 and gives no row |
| RawDataImport.LineStep | components/RawDataImportModal.tsx:65-146 | one turn of the loop: a line's row is dropped when its order id was seen, and otherwise its order id is recorded and its ticket pushed |
| RawDataImport.ScanLines | components/RawDataImportModal.tsx:61-146 | the loop's tickets are those of the loop-state fold over the lines' rows |
| RawDataImport.ParseRawData | components/RawDataImportModal.tsx:51-159 | the method's result is the parse function of the raw text |
| RawDataImport.RawDataResult | components/RawDataImportModal.tsx:51-159 | the only error is "No valid ticket data found. Please check the format.", and a success holds at least one ticket |
| RawDataImport.LineRowIff | components/RawDataImportModal.tsx:66-123 | a line gives a row iff it is non-blank, is not a header on line 0, has at least 15 columns and has a non-empty order id, payment id and email |
| RawDataImport.SeenIsKept | components/RawDataImportModal.tsx:126-132 | every order id in the seen set belongs to a kept row |
| RawDataImport.DedupStep | components/RawDataImportModal.tsx:126-132 | one line either changes nothing or appends its row with a new order id |
| RawDataImport.FirstRowWins | components/RawDataImportModal.tsx:126-132 | every order id that occurs is seen, and the first line bearing it is the one kept |
| RawDataImport.DedupAtMostPresent | components/RawDataImportModal.tsx:126-132 | no more rows are kept than lines gave rows |
| RawDataImport.BlankLineNoRow | components/RawDataImportModal.tsx:66-67 | a blank line gives no row |
| RawDataImport.PresentAtMostNonBlank | components/RawDataImportModal.tsx:66-67 | no more lines give rows than there are non-blank lines |
| RawDataImport.LineRowsNonBlank | components/RawDataImportModal.tsx:66-67 | every line that gives a row is non-blank |
| RawDataImport.AtMostOnePerLine | components/RawDataImportModal.tsx:51-159 | there are no more tickets than non-blank lines |
| RawDataImport.BlankInputLines | components/RawDataImportModal.tsx:54 | input that is all white space splits into one empty line |
| RawDataImport.EmptyLineRows | components/RawDataImportModal.tsx:66-67 | the empty line gives no row |
| RawDataImport.BlankInputFails | components/RawDataImportModal.tsx:149-152 | input that is all white space is rejected with "No valid ticket data" |
| RawDataImport.TicketsOfKept | components/RawDataImportModal.tsx:135-146 | rows with the required fields and distinct order ids give tickets with distinct ticket ids; each copies its row and names a missing name "Unknown" |
| RawDataImport.KeptRows | components/RawDataImportModal.tsx:65-132 | each kept row is the row of its recorded line, and the recorded lines increase |
| RawDataImport.KeptFields | components/RawDataImportModal.tsx:66-132 | each kept row carries an order id, payment id and email, and has an order id no other kept row has |
| RawDataImport.ResultTickets | components/RawDataImportModal.tsx:135-152 | a successful parse yields the tickets of the rows the filter keeps |
| RawDataImport.ParsedTickets | components/RawDataImportModal.tsx:126-152 | a successful parse gives at least one ticket; ticket ids are distinct; each ticket copies its row's ids and email, which are non-empty; a missing name becomes "Unknown" |
| RawDataImport.PluralNatToString | components/RawDataImportModal.tsx:141 | a quantity printed from `n` takes the plural exactly when `n > 1` |
| RawDataImport.TicketTypePlural | components/RawDataImportModal.tsx:141 | the ticket type reads "unit" for a quantity of at most 1 and "units" above it |
| UploadRawData.TicketDoc | pages/api/upload-raw-data.ts:75-90 | the inserted document keeps the ticket's ids, email and name, is unused and never redeemed, is stamped with its clock reading, takes the date reading when the payment date is empty, and has non-empty event name, payment status and currency |
| UploadRawData.Step | pages/api/upload-raw-data.ts:58-102 | one ticket is counted once and logged once; it is inserted exactly when no document shares either id and it has raw data, and otherwise the store is unchanged |
| UploadRawData.Import | pages/api/upload-raw-data.ts:58-102 | after `n` tickets, inserted + skipped is `n`, there are `n` details, and the store grew by the inserted count |
| UploadRawData.SummaryReportsSkips | pages/api/upload-raw-data.ts:104-109 | the message mentions skipped tickets exactly when some were skipped |
| UploadRawData.Outcome | pages/api/upload-raw-data.ts:33-110 | success iff 200, and a refused request changes nothing; ticket `i` is written with its own clock reading `clock(i)` and date reading `today(i)` |
| UploadRawData.Handler | pages/api/upload-raw-data.ts:33-110 | the reply and the new documents are `Outcome` of the old documents, with ticket `i` read at `clock(i)` and `today(i)` |
| UploadRawData.ImportFacts | pages/api/upload-raw-data.ts:58-102 | inserted + skipped equals the tickets seen; the store grows by the inserted count and keeps its old documents; each new document is unused and has its defaults filled; a new document shares neither id with any earlier one |
| UploadRawData.InsertStamped | pages/api/upload-raw-data.ts:84-88 | the document inserted for ticket `i` carries `created_at = clock(i)` and, without a payment date, the date `today(i)` |
| UploadRawData.ImportExtends | pages/api/upload-raw-data.ts:58-102 | the loop only appends to the store |
| UploadRawData.BatchRepeatSkipped | pages/api/upload-raw-data.ts:68-72 | a later ticket in the same batch that shares an id with an inserted one is skipped |
| UploadRawData.UploadAccounts | pages/api/upload-raw-data.ts:33-110 | a non-empty batch gets 200 with counts that add up to the batch size, one detail per ticket, and the store grows by the inserted count |
| UploadRawData.EmptyRefused | pages/api/upload-raw-data.ts:43-48 | a missing or empty batch gives the fixed 400 reply and changes nothing |
| UploadRawData.DistinctPaymentIdsKept | pages/api/upload-raw-data.ts:58-102 | distinct payment_ids in the store stay distinct after an import |
| DataImport.Cells | components/DataImportModal.tsx:51-54 | a line has at least one cell |
| DataImport.RowOf | components/DataImportModal.tsx:64-73 | each of the five fields is trimmed (no white space at either end) and no longer than its cell |
| DataImport.LineRow | components/DataImportModal.tsx:48-73 | a line can only throw on line 0, and then with the missing-cell error |
| DataImport.LineRows | components/DataImportModal.tsx:46-73 | one entry per line, each the result of that line |
| DataImport.Collect | components/DataImportModal.tsx:46-74 | a successful scan has at most one row per line, and an error is the error of some line |
| DataImport.Conclude | components/DataImportModal.tsx:76-79 | a success is the collected rows and is never empty |
| DataImport.ScanLine | components/DataImportModal.tsx:48-73 | the loop body gives the line's result |
| DataImport.CollectLines | components/DataImportModal.tsx:46-73 | the loop gives the fold over the lines' results, stopping at the first throw |
| DataImport.ParseData | components/DataImportModal.tsx:35-85 | the method's result is the parse function of the text |
| DataImport.ParseDataResult | components/DataImportModal.tsx:35-85 | the parse fails only with "No valid data found ..." or with "Failed to parse data: " followed by the missing-cell error |
| DataImport.BlankClears | components/DataImportModal.tsx:39-41 | the parse gives the empty list exactly when the text is blank |
| DataImport.CellsSeparator | components/DataImportModal.tsx:51-54 | the cells are split on a tab when the line has one and on a comma otherwise; joined, they give back the line |
| DataImport.LineRowIff | components/DataImportModal.tsx:48-73 | after line 0, a line gives a row iff it is non-blank and has at least five cells, and the row is its first five cells |
| DataImport.HeaderSkipped | components/DataImportModal.tsx:56-62 | a first line whose cell 0 mentions "payment" or whose cell 1 mentions "name" is skipped |
| DataImport.ExtraCellsIgnored | components/DataImportModal.tsx:64-73 | cells after the fifth are ignored |
| DataImport.CollectStep | components/DataImportModal.tsx:46-73 | one successful line appends its row, if it has one |
| DataImport.CollectLength | components/DataImportModal.tsx:64-73 | the parse keeps exactly as many rows as the lines yielded |
| DataImport.RowAt | components/DataImportModal.tsx:64-73 | a line's row sits at its position among the rows yielded |
| DataImport.EveryRowKept | components/DataImportModal.tsx:46-73 | every row a line yields is kept, in line order, and nothing else is |
| DataImport.NoRowsError | components/DataImportModal.tsx:76-79 | non-blank text that yields no row gives "No valid data found" |
| DataImport.ErrorPersists | components/DataImportModal.tsx:82-84 | once a line throws, the rest of the loop is abandoned and the error is the result |
| DataImport.SingleCellThrows | components/DataImportModal.tsx:56-60 | a one-cell first line that does not mention "payment" throws |
| DataImport.SingleCellFirstLineFails | components/DataImportModal.tsx:56-60 | text whose first line is one cell without "payment" fails as a whole with "Failed to parse data: " and the error |
| DataImport.GuardedLineRow | components/DataImportModal.tsx:56-73 | the corrected line step never throws and agrees with the as-written step wherever that does not throw |
| DataImport.GuardedLineRows | components/DataImportModal.tsx:46-73 | one corrected entry per line |
| DataImport.CollectAllOk | components/DataImportModal.tsx:46-73 | a fold over lines that all succeed succeeds |
| DataImport.CollectAgree | components/DataImportModal.tsx:46-73 | two folds that agree on every line that succeeds give the same result |
| DataImport.GuardedNeverThrows | components/DataImportModal.tsx:35-85 | the corrected parse fails only with "No valid data found" |
| DataImport.GuardedAgrees | components/DataImportModal.tsx:35-85 | where the as-written parse succeeds, the corrected parse gives the same rows |
| DataImport.GuardedSingleCellSkipped | components/DataImportModal.tsx:56-62 | in the corrected parse a one-cell first line is skipped |
| UploadSheet.TicketIdOf | pages/api/upload-sheet.ts:56 | the ticket id is "TKT-" followed by the payment_id |
| UploadSheet.Assign | pages/api/upload-sheet.ts:60-70 | the `$set` writes the ids, name, email, type, `used = false` and `created_at`, and leaves every other field of the document as it was |
| UploadSheet.InsertDoc | pages/api/upload-sheet.ts:58-72 | a document created by the upsert carries the `$set` fields and nothing else |
| UploadSheet.Upload | pages/api/upload-sheet.ts:54-79 | after `n` rows, inserted + updated is at most `n` and the store grew by the inserted count |
| UploadSheet.Outcome | pages/api/upload-sheet.ts:30-86 | success iff 200 iff a POST carries a tickets array, and a refused request changes nothing; row `i` is written with its own clock reading `clock(i)` |
| UploadSheet.Handler | pages/api/upload-sheet.ts:30-86 | the reply and the new documents are `Outcome` of the old documents, with row `i` read at `clock(i)` |
| UploadSheet.UploadFacts | pages/api/upload-sheet.ts:54-79 | inserted + updated is at most the rows seen; the store grows by the inserted count; old documents keep their payment_id and `used_at` |
| UploadSheet.StepKeeps | pages/api/upload-sheet.ts:58-72 | a row leaves the first document for any other payment_id where it was |
| UploadSheet.StepWrites | pages/api/upload-sheet.ts:58-72 | after a row, the first document with its payment_id carries the row's fields, `used = false` and `created_at` set to that row's clock reading |
| UploadSheet.LastRowWins | pages/api/upload-sheet.ts:54-79 | with repeated payment_ids in a batch, the stored document carries the last such row |
| UploadSheet.EveryRowStored | pages/api/upload-sheet.ts:54-79 | after an upload, every row's payment_id has an unused document with ticket id "TKT-" followed by the payment_id |
| UploadSheet.LastWith | pages/api/upload-sheet.ts:54-79 | finds the last row of a batch that bears a payment_id |
| UploadSheet.OthersUntouched | pages/api/upload-sheet.ts:58-72 | a document no row addresses, or one behind an earlier document with the same payment_id, is unchanged |
| UploadSheet.StepUntouched | pages/api/upload-sheet.ts:58-72 | one row leaves such a document unchanged |
| UploadSheet.UnaddressedUntouched | pages/api/upload-sheet.ts:54-79 | a document whose payment_id no row carries is unchanged |
| UploadSheet.ShadowedUntouched | pages/api/upload-sheet.ts:54-79 | a document behind an earlier one with the same payment_id is unchanged |
| UploadSheet.PaymentIdKept | pages/api/upload-sheet.ts:54-79 | every stored document keeps its payment_id through the upload |
| UploadSheet.AmountIgnored | pages/api/upload-sheet.ts:58-72 | the reply and the store do not depend on the rows' amounts |
| UploadSheet.SameUpload | pages/api/upload-sheet.ts:54-79 | rows that differ only in amount give the same loop state |
| UploadSheet.PresentStays | pages/api/upload-sheet.ts:58-72 | a payment_id that has a document keeps one |
| UploadSheet.UploadStoresRow | pages/api/upload-sheet.ts:54-79 | after the loop, every row's payment_id is found on an unused document with ticket id "TKT-" followed by the payment_id |
| UploadSheet.SecondUploadInsertsNothing | pages/api/upload-sheet.ts:54-79 | uploading the same sheet again inserts nothing |
| UploadSheet.PresentInsertsNothing | pages/api/upload-sheet.ts:58-72 | rows whose payment_ids the store already holds insert nothing |
| UploadSheet.StepFoundInsertsNothing | pages/api/upload-sheet.ts:58-72 | a row whose payment_id is found updates in place: the inserted count and the store size stay |
| UploadSheet.RepeatedRowCounts | pages/api/upload-sheet.ts:54-79 | a new row sent twice in a row inserts once, and the repeat counts as updated exactly when the clock moved between the two rows |
| UploadSheet.ReuploadUnredeems | pages/api/upload-sheet.ts:58-72 | re-uploading a redeemed ticket sets it back to unused while it keeps its `used_at` |
| UploadSheet.MissingRefused | pages/api/upload-sheet.ts:40-45 | a missing tickets array gives the fixed 400 reply; an empty array gives 200 and changes nothing |
| GenerateAndSend.Pending | pages/api/generate-and-send.ts:47-49 | a ticket is pending iff it is in the store and its payment_id is not processed |
| GenerateAndSend.ProcessedIds | pages/api/generate-and-send.ts:40-44 | every record with both flags set puts its payment_id in the set, and the set holds only payment_ids of stored records |
| GenerateAndSend.Attempt | pages/api/generate-and-send.ts:72-135 | a delivery succeeds exactly when encryption succeeds and the transport accepts the mail carrying that code |
| GenerateAndSend.IssuedPayload | pages/api/generate-and-send.ts:74-78 | the payload carries the ticket's ticket_id and email, and its `ts` text parses back to the time it was issued at |
| GenerateAndSend.MailFor | pages/api/generate-and-send.ts:95-108 | the mail goes to the ticket's email, carries the code, and names its attachment `ticket-<payment_id>.png` |
| GenerateAndSend.Attempts | pages/api/generate-and-send.ts:71-108 | one attempt per pending ticket |
| GenerateAndSend.AttemptAt | pages/api/generate-and-send.ts:71-108 | attempt `i` of the batch is made for pending ticket `i` at `clock(i)`, whatever the loop did before |
| GenerateAndSend.SendStep | pages/api/generate-and-send.ts:71-136 | one more ticket: a failed attempt leaves the loop state as it was; a delivery upserts its record, counts one and mails one |
| GenerateAndSend.Send | pages/api/generate-and-send.ts:71-136 | the processed counter equals the number of mails sent and never exceeds the tickets tried |
| GenerateAndSend.Outcome | pages/api/generate-and-send.ts:23-142 | success iff 200, and a refused request touches neither the tracking collection nor the mail |
| GenerateAndSend.Handler | pages/api/generate-and-send.ts:23-142 | the ticket store is unchanged; the reply, the new tracking records and the mails sent are `Outcome` of the old state |
| GenerateAndSend.SendPending | pages/api/generate-and-send.ts:69-136 | the loop's counter, mails and tracking collection are those of the fold `Send` over the pending tickets |
| GenerateAndSend.ProcessTicket | pages/api/generate-and-send.ts:72-135 | the `try` block: a failed attempt writes nothing and mails nothing; a successful one mails the code and upserts the ticket's tracking record |
| GenerateAndSend.PendingIff | pages/api/generate-and-send.ts:40-49 | a ticket is pending iff no tracking record for its payment_id has both flags set |
| GenerateAndSend.NothingPendingIdle | pages/api/generate-and-send.ts:51-57 | with nothing pending, the fixed reply; nothing is written and nothing is mailed |
| GenerateAndSend.UpsertProcessed | pages/api/generate-and-send.ts:111-124 | a completed tracking upsert adds exactly its payment_id to the processed set |
| GenerateAndSend.SendFacts | pages/api/generate-and-send.ts:71-136 | the processed count is the number of deliveries and of mails sent, never exceeds the tickets tried, and the processed set grows by exactly the delivered payment_ids |
| GenerateAndSend.FailedUntracked | pages/api/generate-and-send.ts:132-135 | a ticket whose delivery failed leaves its tracking record as it was |
| GenerateAndSend.UpsertOtherId | pages/api/generate-and-send.ts:111-124 | an upsert for another payment_id leaves a record untouched |
| GenerateAndSend.SecondRunIdle | pages/api/generate-and-send.ts:40-57 | after a run with every delivery succeeding, the next run has nothing pending |
| GenerateAndSend.AllDelivered | pages/api/generate-and-send.ts:71-136 | when every attempt succeeds, every pending payment_id is delivered |
| GenerateAndSend.RefusedKeyDeliversNothing | pages/api/generate-and-send.ts:81 | with key material the cipher refuses, the run reports 0 processed and writes and mails nothing |
| GenerateAndSend.NoAttemptSucceeds | pages/api/generate-and-send.ts:71-136 | when every attempt fails, the loop writes nothing, counts nothing and mails nothing |
| GenerateAndSend.OutboxExtends | pages/api/generate-and-send.ts:71-136 | the mails sent after fewer tickets are a prefix of the mails sent after more |
| GenerateAndSend.DeliveredCodeVerifies | pages/api/generate-and-send.ts:74-108 | a delivered mail goes to the ticket's email, and its code verifies at the gate to that ticket |
| GenerateAndSend.MailedInOutbox | pages/api/generate-and-send.ts:95-108 | every successful attempt's mail is among the mails sent |
| FetchSheet.ProcessedMap | pages/api/fetch-sheet.ts:51-53 | every tracked payment_id is a key, bound to one of its records |
| FetchSheet.RowOf | pages/api/fetch-sheet.ts:56-66 | the row copies the ticket's fields; the type is the ticket's or "Standard"; the flags are its record's, or false when it has none |
| FetchSheet.Merge | pages/api/fetch-sheet.ts:56-66 | one row per ticket, in store order |
| FetchSheet.Handler | pages/api/fetch-sheet.ts:29-71 | success iff 200 iff GET, and the merged table is returned exactly on success |
| FetchSheet.LastRecordWins | pages/api/fetch-sheet.ts:51-53 | the map binds a payment_id to its last record |
| FetchSheet.UntrackedShowsFalse | pages/api/fetch-sheet.ts:63-64 | a ticket with no tracking record shows both flags false |
| FetchSheet.UniqueRecordFlags | pages/api/fetch-sheet.ts:51-64 | with distinct payment_ids among the records, a row shows its own record's flags |
| FetchSheet.EarlierRecordHidden | pages/api/fetch-sheet.ts:51-53 | a complete record followed by an incomplete one shows the ticket as not sent |
| QrGenerator.CountGenerated | pages/qr-generator.tsx:58 | at most the number of rows |
| QrGenerator.CountPending | pages/qr-generator.tsx:59 | at most the number of rows |
| QrGenerator.CalculateStats | pages/qr-generator.tsx:56-61 | the total is the row count, and generated + pending equals the total |
| QrGenerator.CountsPartition | pages/qr-generator.tsx:58-59 | each row counts as generated or pending, never both |
| QrGenerator.StatusBadge | pages/qr-generator.tsx:97-105 | Sent iff generated and sent; Generated iff generated and not sent; Pending iff not generated |
| QrGenerator.SentButNotGenerated | pages/qr-generator.tsx:97-105 | a row that is sent but not generated shows Pending |
| QrGenerator.RowDoneIff | pages/qr-generator.tsx:58 | with unique tracking records, a row counts as generated iff the batch treats its ticket as processed |
| QrGenerator.PendingCountMatchesBatch | pages/qr-generator.tsx:59 | with unique tracking records, the page's pending counter equals the length of the batch's pending list |
| QrGenerator.DuplicateRecordsDisagree | pages/qr-generator.tsx:56-61 | with a repeated payment_id in the tracking records, the page counts a ticket as pending that the batch skips |
| QrGenerator.SendKeepsUnique | pages/api/generate-and-send.ts:111-124 | the batch keeps the tracking records' payment_ids distinct |

## Left out

- Database and driver failures, and the 500 "Internal server error" replies that route `catch` blocks send. The store is assumed to answer.
- Concurrency: each request runs alone against the store. Two mark-used calls that interleave between the read and the update are not modelled.
- MarkUsed.Handler: the `modifiedCount === 0` reply (500 "Failed to update ticket") is unreachable in a sequential model, because the update always changes an unused ticket. The method keeps the branch, and its contract implies that the branch is never taken.
- AES-256-CBC, hex encoding, `JSON.stringify` and `JSON.parse`. They are the abstract `Cipher`, constrained only by the `Lawful` laws.
- QR image generation (`QRCode.toDataURL`), the base64 split, the HTML body (`generateEmailHTML`), the sender address and the 500 ms delay between mails. A mail is modelled as its recipient, subject, attachment name and code.
- GenerateAndSend.TrackFor: `sent_at` takes the same clock reading as the payload's `ts`, where the route reads the clock twice.
- The mail transport is the oracle `send`. Its configuration is not modelled.
- GenerateAndSend.Pending: only membership is stated, not that the pending list keeps store order.
- Floating point: upload-sheet's `amount` (`parseFloat(...) || 0`) is kept as trimmed text, and `AmountIgnored` proves the routes never read it. Price fields are text.
- `toLowerCase` is modelled on ASCII letters only. `trim` and `\s` use the JavaScript white-space set written out.
- Request bodies are assumed to have the field types the routes declare. Only the guards the routes actually write are modelled: the string check on `encryptedData` and `payment_id`, and the array check on `tickets`.
- The MongoDB `_id` field. Also `raw_payment_data`: the raw-data upload stores it on each new document, but `TicketRecord` has no such field and no route reads it.
- React state, loading flags and the dialogs' rendering. Only `parseRawData` and `parseData` are modelled, as functions returning a result instead of setting state.
- verify-admin, the scripts, the SharePoint and Microsoft Graph helper and the database connection module. They are not part of this model.
- Clocks are parameters. The upload-sheet route reads `new Date()` once per row, modelled as `clock(i)` for row `i`. The raw-data route reads it twice per inserted ticket: `created_at` is `clock(i)` and the fallback event date is the date text `today(i)`; the two readings are independent, and the date text is not derived from the instant. Mark-used reads it once, as `now`. The batch reads `Date.now()` once per pending ticket, as `clock(i)`.
- VerifyQr.FindTicket: MongoDB query operators are not modelled. A decrypted payload whose `ticket_id` is an object such as `{"$ne": ""}` would be read by the driver as a query operator and could match a ticket; in the model a non-string `ticket_id` finds nothing.
- DataImport.MissingCell and UploadRawData.MissingRawData are the TypeError messages of the V8 engine. Other engines word them differently (Firefox says "cells[1] is undefined"), and the model fixes the V8 text.

## Findings

| source | as written | input that shows it | evidently intended | confidence | as-written member | corrected member |
|---|---|---|---|---|---|---|
| components/DataImportModal.tsx:56-62 | On line 0 the header test reads `cells[1]` even when the line has only one cell. Unless cell 0 mentions "payment", `cells[1].toLowerCase()` throws. The `catch` then rejects the whole paste with "Failed to parse data: ...". | A paste whose first line is `Sheet1`, followed by valid five-column rows | A one-cell first line is not a header with a name column. It should be skipped like any short line, and the rows after it should be kept. | not executed | DataImport.SingleCellFirstLineFails | DataImport.GuardedNeverThrows |
