/**
 * The three routes that share the converted spreadsheet (server.js):
 * `/upload-pdf` writes it, `/download-excel` serves it and `/export-tally`
 * turns it into a Tally import document and posts that document on.
 * The spreadsheet on disk is one fixed slot, `uploads/output.xlsx`.
 */
module Server {
  import opened Wrappers
  import opened Workbook
  import opened TallyXml

  type Bytes = seq<bv8>

  /** The fixed file name of the converted spreadsheet. */
  const ArtifactName: string := "output.xlsx"
  /** The name of the single worksheet it holds. */
  const SheetName: string := "PDF Data"

  /** What the spreadsheet file holds: one named sheet, its rows and its column widths. */
  datatype Artifact = Artifact(sheet: string, rows: seq<Row>, widths: seq<nat>)

  /** A response body: a JSON object, plain text, or the spreadsheet file as a download. */
  datatype ResponseBody =
    | Json(success: Option<bool>, message: string, file: Option<string>)
    | Text(text: string)
    | Download(name: string, artifact: Artifact)

  datatype Response = Response(status: nat, body: ResponseBody)

  const NoFileUploaded := Response(400, Json(Some(false), "No file uploaded", None))
  const ExtractionFailed := Response(500, Json(Some(false), "Failed to extract tables", None))
  const Converted := Response(200, Json(Some(true), "Converted to Excel with structure", Some(ArtifactName)))
  const FileNotFound := Response(404, Json(None, "File not found", None))
  const ExcelNotFound := Response(400, Text("Excel file not found. Please upload PDF first."))
  const ExportFailed := Response(500, Text("\U{274C} Failed to export to Tally Prime"))

  function Exported(data: string): Response {
    Response(200, Text("\U{2705} Exported to Tally Prime! Response: " + data))
  }

  /**
   * The server's durable state: the spreadsheet slot, and the documents
   * posted to the Tally endpoint so far.
   */
  class App {
    var artifact: Option<Artifact>
    var posted: seq<Node>

    /** The server starts with whatever spreadsheet is already on disk, if any. */
    constructor (onDisk: Option<Artifact>)
      ensures artifact == onDisk && posted == []
    {
      artifact := onDisk;
      posted := [];
    }

    /**
     * `/upload-pdf`: `file` is the uploaded PDF, if the request carried one,
     * and `parse` stands for the table extractor. On success the rows go
     * into a fresh sheet in extraction order, the columns are fitted and the
     * slot is overwritten with the result; on failure the slot is untouched.
     * The result is None when no response is sent: fitting the columns of a
     * sheet without a single cell fails inside the extractor's callback,
     * which the route's try/catch no longer covers.
     */
    method UploadPdf(file: Option<Bytes>, parse: Bytes -> Option<seq<Row>>) returns (resp: Option<Response>)
      modifies this`artifact
      ensures file.None? ==> resp == Some(NoFileUploaded) && artifact == old(artifact)
      ensures file.Some? && parse(file.value).None? ==> resp == Some(ExtractionFailed) && artifact == old(artifact)
      ensures file.Some? && parse(file.value).Some? && ColumnCount(parse(file.value).value) == 0 ==>
        resp == None && artifact == old(artifact)
      ensures file.Some? && parse(file.value).Some? && ColumnCount(parse(file.value).value) > 0 ==>
        var rows := parse(file.value).value;
        resp == Some(Converted) && artifact == Some(Artifact(SheetName, rows, ColumnWidths(rows)))
    {
      if file.None? {
        return Some(NoFileUploaded);
      }
      var extracted := parse(file.value);
      if extracted.None? {
        return Some(ExtractionFailed);
      }
      var rows := extracted.value;
      var sheet := new Worksheet(SheetName);
      for i := 0 to |rows|
        invariant sheet.rows == rows[..i]
        invariant artifact == old(artifact)
      {
        assert rows[..i + 1] == rows[..i] + [rows[i]];
        sheet.AddRow(rows[i]);
      }
      assert rows[..|rows|] == rows;
      var fitted := sheet.FitColumns();
      if !fitted {
        return None;
      }
      artifact := Some(Artifact(sheet.name, sheet.rows, sheet.widths));
      resp := Some(Converted);
    }

    /** `/download-excel`: the spreadsheet if the slot holds one, 404 otherwise. */
    method DownloadExcel() returns (resp: Response)
      ensures artifact.Some? ==> resp == Response(200, Download(ArtifactName, artifact.value))
      ensures artifact.None? ==> resp == FileNotFound
    {
      if artifact.Some? {
        resp := Response(200, Download(ArtifactName, artifact.value));
      } else {
        resp := FileNotFound;
      }
    }

    /**
     * `/export-tally`: `readRecords` stands for reading the spreadsheet back
     * as records, `post` for sending the document and receiving the reply
     * (None when the request fails). With no spreadsheet nothing is built or
     * posted. A field the XML builder refuses ends the route with 500 and
     * nothing posted. Otherwise exactly one envelope for the records is posted.
     */
    method ExportTally(readRecords: Artifact -> seq<Record>, post: Node -> Option<string>) returns (resp: Response)
      modifies this`posted
      ensures artifact == old(artifact)
      ensures old(artifact).None? ==> resp == ExcelNotFound && posted == old(posted)
      ensures old(artifact).Some? && !FieldsLegal(readRecords(old(artifact).value)) ==>
        resp == ExportFailed && posted == old(posted)
      ensures old(artifact).Some? && FieldsLegal(readRecords(old(artifact).value)) ==>
        |posted| == |old(posted)| + 1 && posted[..|old(posted)|] == old(posted) &&
        var doc := posted[|old(posted)|];
        IsEnvelopeFor(doc, readRecords(old(artifact).value)) &&
        resp == (if post(doc).Some? then Exported(post(doc).value) else ExportFailed)
    {
      if artifact.None? {
        return ExcelNotFound;
      }
      var records := readRecords(artifact.value);
      var doc := BuildEnvelope(records);
      if doc.None? {
        return ExportFailed;
      }
      posted := posted + [doc.value];
      assert posted[..|old(posted)|] == old(posted);
      var reply := post(doc.value);
      if reply.Some? {
        resp := Exported(reply.value);
      } else {
        resp := ExportFailed;
      }
    }
  }
}
