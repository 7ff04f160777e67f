# PDF → Excel → Tally pipeline: a Dafny model

This project models the data-shaping core of the QTT server (`server.js`):

- **Converting a PDF** (`/upload-pdf`): the rows the table extractor returns are appended to a
  fresh worksheet named "PDF Data" in extraction order, every column is then given a
  presentation width, and the result overwrites the single spreadsheet slot `output.xlsx`.
  A column's width starts at 10, is raised to the text length of every truthy cell in the column,
  and is stored plus 2.
- **Downloading the spreadsheet** (`/download-excel`): the file if the slot holds one, 404 otherwise.
- **Exporting to Tally** (`/export-tally`): with no spreadsheet the route answers 400 before any XML is
  built or sent. Otherwise the sheet is read back as records, an XML element tree is built with an
  xmlbuilder-style builder, the document is posted, and the reply is wrapped in a message.

Modules, one per part of the source:

- `Wrappers` (`wrappers.dfy`): `Option`.
- `Workbook` (`workbook.dfy`): cells and rows, the width rule as functions (`Longest`, `Width`,
  `ColumnWidths`), the per-column loop `MaxCellLength`, and the `Worksheet` class whose
  `AddRow` and `FitColumns` update its `rows` and `widths` fields.
- `TallyXml` (`tally_xml.dfy`): the element tree `Node`, and the `XmlBuilder` class. Its handles are
  paths from the root, `Ele` appends a child in place and `Up` gives the parent. It also holds the
  envelope builder (`StartEnvelope`, `BuildEnvelope`) and the declarative description of the
  document it must produce (`IsEnvelopeFor`).
- `Server` (`server.dfy`): class `App` holding the spreadsheet slot (`artifact: Option<Artifact>`)
  and the log of posted documents, with one method per route.

The chain on server.js:237-242 builds REQUESTDATA and then never uses it. Nothing rebinds `xml`, so it
still holds the ENVELOPE root. Each TALLYMESSAGE therefore lands under ENVELOPE after BODY, and
REQUESTDATA stays empty. `IsEnvelopeFor` states this nesting, and `TallyMessageCount` proves that
REQUESTDATA has no children.

A missing spreadsheet gets a different status on each route: 400 on export (server.js:228-229) and
404 on download (server.js:217-220).

Two failures are modelled as outcomes of their own:

- **Sheet with no cell.** `sheet.columns` is iterated inside the extractor's `async` callback
  (server.js:184, 195). A sheet in which no cell was ever created has no column list, so the
  iteration throws. The try/catch on server.js:176-211 has already returned by then. No response is
  sent and the spreadsheet slot keeps its old value. `UploadPdf` returns `None` for this case.
- **Field the XML builder refuses.** `ele` checks the element name and text when it creates the
  element (server.js:247). An upper-cased field name that is not an XML name, such as "INVOICE NO",
  makes it throw. So does a value holding a character XML forbids. The route then answers 500 and
  posts nothing (server.js:257-259).

## Model

| member | source | states |
|---|---|---|
| `Workbook.Truthy` | server.js:198 | a cell counts for the width exactly when it holds a non-empty string: an absent cell and "" are falsy |
| `Workbook.TextLength` | server.js:198 | a present cell's length is the length of its text, and an absent cell has length 0 |
| `Workbook.Longest` | server.js:196-199 | the result bounds the text length of every truthy cell of the column and is 0 or the length of one of them |
| `Workbook.Width` | server.js:195-201 | a column's width is at least 12, is at least every truthy cell's length plus 2, and is either 12 or some truthy cell's length plus 2, i.e. max(10, longest truthy cell) + 2 |
| `Workbook.ColumnCount` | server.js:192-195 | the sheet has as many columns as its longest row has cells |
| `Workbook.CellAt` | server.js:197 | a row has an empty cell in every column past its end, as `eachCell({ includeEmpty: true })` sees it |
| `Workbook.Column` | server.js:197 | column j is one cell per row, top to bottom, short rows giving empty cells |
| `Workbook.ColumnWidths` | server.js:195-201 | one width per column; each is at least 12, at least every truthy cell of that column plus 2, and either 12 or exactly some truthy cell of that column plus 2 |
| `Workbook.FalsyCellKeepsWidth` | server.js:198 | a falsy (empty or absent) cell anywhere in a column never changes the column's width |
| `Workbook.CellNeverShrinksWidth` | server.js:197-200 | inserting a cell anywhere in a column never makes the column narrower |
| `Workbook.AddedRowNeverShrinksWidths` | server.js:192-200 | appending a row removes no column and makes no column narrower |
| `Workbook.MaxCellLength` | server.js:196-199 | the loop's final `maxLength` is max(10, longest truthy cell), i.e. the column's `Width` minus 2 |
| `Workbook.Worksheet.constructor` | server.js:190-191 | a new sheet has the given name, no rows and no widths |
| `Workbook.Worksheet.AddRow` | server.js:192 | the row goes after every row added before it, cells unchanged |
| `Workbook.Worksheet.FitColumns` | server.js:195-201 | with at least one column, the widths become exactly `ColumnWidths(rows)`, one per column, left to right; with no column the pass fails and no width is set; the rows are untouched |
| `TallyXml.Up` | server.js:237 | `up()` gives the parent handle: the handle less its last step |
| `TallyXml.AppendAt` | server.js:237-247 | the tree an `ele` call leaves: the element at the handle gains the new element as its last child, and nothing else changes |
| `TallyXml.AppendAtSpec` | server.js:237-247 | appending below a handle keeps every existing handle valid and makes the new element reachable at the next child index |
| `TallyXml.XmlBuilder.constructor` | server.js:236 | `create` yields a document holding only an empty root with the given tag |
| `TallyXml.IsLegalElement` | server.js:237-247 | the builder accepts an element exactly when its tag is an XML 1.0 Name and its text, if any, holds only XML 1.0 Chars |
| `TallyXml.XmlBuilder.Ele` | server.js:237-247 | `ele` fails, leaving the tree as it was, exactly when the tag is not an XML name or the text holds a character XML forbids; otherwise it appends a childless element with that tag and text as the last child of the element at the handle and returns its handle; all other handles stay valid |
| `TallyXml.ToUpper` | server.js:247 | same length, no lower-case ASCII letter left, a-z mapped to A-Z and every other character kept |
| `TallyXml.FieldElem` | server.js:247 | a field becomes a childless element tagged with its upper-cased name and carrying its value as text |
| `TallyXml.StartEnvelope` | server.js:236-242 | the fixed chain leaves ENVELOPE with exactly the children HEADER(TALLYREQUEST "Import Data") and BODY(IMPORTDATA(REQUESTDESC(REPORTNAME "All Masters"), REQUESTDATA)), whatever the records |
| `TallyXml.BuildEnvelope` | server.js:236-248 | a document is produced exactly when every field's upper-cased name is an XML name and every value legal XML text. It is ENVELOPE with HEADER, BODY, then one TALLYMESSAGE per record in record order as ENVELOPE's own children. Each holds exactly one LEDGER whose children are one element per field, in field order, tagged with the upper-cased name and carrying the value as text |
| `TallyXml.EnvelopeDetermined` | server.js:236-248 | the envelope description fixes the document completely: nothing else is added |
| `TallyXml.TallyMessageCount` | server.js:242-246 | ENVELOPE has exactly as many TALLYMESSAGE children as there are records, and REQUESTDATA has no children |
| `Server.App.constructor` | server.js:182 | the server starts with whatever spreadsheet the slot already holds and nothing posted |
| `Server.App.UploadPdf` | server.js:175-207 | no file gives 400 and a failed extraction gives 500, both leaving the slot as it was. Extracted rows that create no cell get no response and leave the slot as it was. Otherwise the slot is overwritten wholesale with sheet "PDF Data" holding exactly the extracted rows in order and their `ColumnWidths`, and the answer names output.xlsx |
| `Server.App.DownloadExcel` | server.js:215-222 | the stored spreadsheet is served as output.xlsx when the slot holds one, otherwise 404 "File not found" |
| `Server.App.ExportTally` | server.js:225-260 | with no spreadsheet the answer is 400 "Excel file not found" and nothing is posted. A field the builder refuses gives 500 with nothing posted. Otherwise exactly one document, an envelope for the sheet's records, is posted; a reply is wrapped in the success text and a failed post gives 500. The slot is never changed |
| `Server.Exported` | server.js:256 | the success answer is status 200 with the reply text after "✅ Exported to Tally Prime! Response: " |

## Left out

- User signup, login, password reset and the SQLite store (server.js:55-172, db.js): account CRUD, hashing, tokens and mail. They do no data shaping.
- PDF table extraction (`pdf2table.parse`, server.js:184) is a library. `UploadPdf` takes it as the function parameter `parse`, and a `None` result is the extraction error.
- Reading the upload from disk, and the catch-all 500 "Conversion failed" it can raise (server.js:181, 208-211), are file I/O. The model receives the bytes, or `None` when the request carried no file.
- The spreadsheet file format, `writeFile`, `XLSX.readFile` and `sheet_to_json` (server.js:203, 232-234) are library behaviour. The model stores the sheet as a value. `ExportTally` takes the record reader as the function parameter `readRecords`, so no header or empty-cell convention is assumed.
- A failing `writeFile` (server.js:203) is not modelled. Its rejection would also go unhandled inside the `async` extractor callback, with the same effect on the process as described under Server.App.UploadPdf. Removing the uploaded temporary file (server.js:205) is not modelled either.
- XML rendering, escaping and pretty-printing (`xml.end`, server.js:250): the model stops at the element tree.
- The POST to localhost:9000 (server.js:252-256) is network I/O. `ExportTally` takes it as the function parameter `post`, which returns the reply text or `None` when the request fails. The posted tree is recorded in `App.posted`.
- Upload file naming with `Date.now()`, static file serving, Express routing, and races between concurrent requests on the one `output.xlsx` are clock, I/O and concurrency concerns.
- Workbook.TextLength: counts Unicode scalar values where JavaScript's `length` counts UTF-16 code units; they differ only for characters outside the Basic Multilingual Plane.
- Workbook.ColumnCount: takes the sheet's columns to be as many as its longest row has cells. How the spreadsheet library numbers columns is not part of this model, including a sheet with no rows and a row array whose first element is undefined.
- Workbook.Truthy: cells are strings or absent; numbers, dates and rich-text values, whose truthiness and `toString` differ, are not modelled.
- TallyXml.ToUpper: maps only the ASCII letters a-z. JavaScript's `toUpperCase` also maps other letters, for example "ß" to "SS".
- Server.App.ExportTally: the builder's checks follow the Char and Name productions of XML 1.0 (Fifth Edition), sections 2.2 and 2.3 (`IsLegalElement`). The exact rules of the xmlbuilder version in use are not part of this model. That includes any special meaning it gives to names that begin with "@" or "?".
- Server.App.UploadPdf: the no-response outcome for a sheet without cells rests on the spreadsheet library leaving `sheet.columns` unset until a cell exists. The library is not part of this model. A row holding only absent cells is counted as creating columns (see Workbook.ColumnCount).
- Server.App.UploadPdf: the exception at server.js:195 is thrown inside the `async` callback given to `pdf2table.parse` (server.js:184). Nothing handles the promise that callback returns, so the rejection is unhandled. Depending on the Node version, and by default since Node 15, that ends the whole server process. The model keeps the same `App` serving downloads and exports from the unchanged slot. Because the file on disk is unchanged too, this is the state a restart through `App(onDisk)` would give, but the process ending itself is not modelled.
