/** The template store behind `/api/templates`: the `templates` table as a
    sequence of rows, the upload middleware's checks, and the four routes:
    list, get, upload and delete. The uploaded file is read and parsed by
    the oracles `read` and `parse`; the id of a new row is `newId`, drawn
    fresh by the caller (a uuid); `now` is the insert's timestamp. */
module Templates {
  import opened Wrappers
  import opened Strings
  import opened Errors
  import opened Ordering
  import opened PdfParser

  /** multer's limit on the size of an uploaded file, in bytes. */
  const MaxFileSize: nat := 5 * 1024 * 1024
  const PdfMimeType := "application/pdf"
  const PdfSuffix := ".pdf"

  const NotFound := "Template not found"
  const NoFile := "No file uploaded"
  const OnlyPdf := "Only PDF files are allowed"
  const NoText := "Could not extract text from PDF. The file may be scanned or corrupted."
  const DefaultUndeletable := "Cannot delete the default template"

  /** multer's own error for a file over the limit: it carries a `code`
      but no `statusCode`. */
  const FileTooLarge := Base("File too large", None, Some("LIMIT_FILE_SIZE"))

  /** A row of `templates`. `uploadedAt` is the `uploaded_at` timestamp as
      a number; `isDefault` is the `is_default` flag, 0 or 1. */
  datatype Template = Template(
    id: string,
    name: string,
    fileName: string,
    filePath: string,
    extractedText: string,
    uploadedAt: int,
    isDefault: int)

  /** `id` is the table's primary key. */
  predicate DistinctIds(rows: seq<Template>) {
    forall i, j :: 0 <= i < j < |rows| ==> rows[i].id != rows[j].id
  }

  predicate FlagsAreBits(rows: seq<Template>) {
    forall i :: 0 <= i < |rows| ==> 0 <= rows[i].isDefault <= 1
  }

  predicate HasId(rows: seq<Template>, id: string) {
    exists i :: 0 <= i < |rows| && rows[i].id == id
  }

  // ---------------------------------------------------------------------
  // Reading rows

  /** `SELECT … FROM templates WHERE id = ?`: the position of the first row
      with that id. */
  function FindById(rows: seq<Template>, id: string): (r: Option<nat>)
    ensures r.Some? ==> r.value < |rows| && rows[r.value].id == id
    ensures r.Some? ==> forall j :: 0 <= j < r.value ==> rows[j].id != id
    ensures r.None? <==> !HasId(rows, id)
    ensures r.Some? && DistinctIds(rows) ==> forall j :: 0 <= j < |rows| && rows[j].id == id ==> j == r.value
    decreases |rows|
  {
    if rows == [] then None
    else if rows[0].id == id then Some(0)
    else
      var rest := FindById(rows[1..], id);
      assert forall j :: 1 <= j < |rows| ==> rows[j] == rows[1..][j - 1];
      if rest.None? then None else Some(rest.value + 1)
  }

  /** A row as GET /:id returns it: the selected columns (every column but
      the file path) and, beside them, `extractedText` and `!!is_default`. */
  datatype TemplateDetail = TemplateDetail(
    id: string,
    name: string,
    fileName: string,
    extractedText: string,
    uploadedAt: int,
    isDefaultColumn: int,
    isDefault: bool)

  function DetailOf(t: Template): TemplateDetail {
    TemplateDetail(t.id, t.name, t.fileName, t.extractedText, t.uploadedAt, t.isDefault, t.isDefault != 0)
  }

  /** GET /:id. */
  function Lookup(rows: seq<Template>, id: string): (r: Result<TemplateDetail, AppError>)
    ensures r.Success? <==> HasId(rows, id)
    ensures r.Success? ==> exists i :: 0 <= i < |rows| && rows[i].id == id && r.value == DetailOf(rows[i])
    ensures r.Success? ==> r.value.id == id && (r.value.isDefault <==> r.value.isDefaultColumn != 0)
    ensures r.Failure? ==> r.error == TemplateError(NotFound)
  {
    match FindById(rows, id)
    case None => Failure(TemplateError(NotFound))
    case Some(i) => Success(DetailOf(rows[i]))
  }

  /** A row as the list returns it: the selected columns (no text and no
      path) and `!!is_default`. */
  datatype TemplateSummary = TemplateSummary(
    id: string,
    name: string,
    fileName: string,
    uploadedAt: int,
    isDefaultColumn: int,
    isDefault: bool)

  function SummaryOf(t: Template): TemplateSummary {
    TemplateSummary(t.id, t.name, t.fileName, t.uploadedAt, t.isDefault, t.isDefault != 0)
  }

  function Summaries(rows: seq<Template>): (r: seq<TemplateSummary>)
    ensures |r| == |rows|
    ensures forall i :: 0 <= i < |rows| ==> r[i] == SummaryOf(rows[i])
  {
    seq(|rows|, i requires 0 <= i < |rows| => SummaryOf(rows[i]))
  }

  /** `ORDER BY is_default DESC, uploaded_at DESC`. */
  function ListRank(t: Template): Rank { Rank(t.isDefault, t.uploadedAt) }

  /** The rows in list order: the table's rows, each once, sorted by the
      flag and then by upload time, both descending. */
  function ListOrder(rows: seq<Template>): (r: seq<Template>)
    ensures multiset(r) == multiset(rows) && |r| == |rows|
    ensures forall i, j :: 0 <= i < j < |r| ==>
      r[i].isDefault > r[j].isDefault || (r[i].isDefault == r[j].isDefault && r[i].uploadedAt >= r[j].uploadedAt)
  {
    var r := SortDesc(rows, ListRank);
    assert |multiset(r)| == |multiset(rows)|;
    assert forall i, j :: 0 <= i < j < |r| ==> AtLeast(ListRank(r[i]), ListRank(r[j]));
    r
  }

  /** GET /: what the list route returns, the summaries of the rows in
      list order. */
  function Listing(rows: seq<Template>): (r: seq<TemplateSummary>)
    ensures |r| == |rows|
    ensures exists order :: multiset(order) == multiset(rows) && r == Summaries(order)
    ensures forall i :: 0 <= i < |r| ==> (r[i].isDefault <==> r[i].isDefaultColumn != 0)
    ensures forall i, j :: 0 <= i < j < |r| ==>
      r[i].isDefaultColumn > r[j].isDefaultColumn
      || (r[i].isDefaultColumn == r[j].isDefaultColumn && r[i].uploadedAt >= r[j].uploadedAt)
  {
    var order := ListOrder(rows);
    assert multiset(order) == multiset(rows) && Summaries(order) == Summaries(order);
    Summaries(order)
  }

  /** Default templates list before all others; among templates with the
      same flag, the newer upload comes first. */
  lemma DefaultsListFirst(rows: seq<Template>)
    requires FlagsAreBits(rows)
    ensures var r := Listing(rows);
      forall i, j :: 0 <= i < j < |r| ==>
        (r[j].isDefault ==> r[i].isDefault)
        && (r[i].isDefault == r[j].isDefault ==> r[i].uploadedAt >= r[j].uploadedAt)
  {
    var sorted := ListOrder(rows);
    var r := Listing(rows);
    forall i | 0 <= i < |r| ensures 0 <= r[i].isDefaultColumn <= 1 {
      assert sorted[i] in multiset(rows);
      var k :| 0 <= k < |rows| && rows[k] == sorted[i];
    }
  }

  // ---------------------------------------------------------------------
  // POST /upload

  /** The file multer hands to the route. */
  datatype UploadedFile = UploadedFile(originalName: string, mimeType: string, path: string, size: nat)

  /** The `fileFilter` of the upload middleware. */
  function FilterFile(mimeType: string): (r: Outcome<AppError>)
    ensures r.Pass? <==> mimeType == PdfMimeType
    ensures r.Fail? ==> r.error == ValidationError(OnlyPdf) && Respond(r.error).status == 400
  {
    if mimeType == PdfMimeType then Pass else Fail(ValidationError(OnlyPdf))
  }

  /** What the middleware lets through to the route: the type filter when
      the file part arrives, then the size cap while its bytes are stored.
      A request without a file part reaches the route with no file. */
  function Admit(file: Option<UploadedFile>): (r: Outcome<AppError>)
    ensures r.Pass? <==> file.None? || (file.value.mimeType == PdfMimeType && file.value.size <= MaxFileSize)
    ensures file.Some? && file.value.mimeType != PdfMimeType ==> r == Fail(ValidationError(OnlyPdf))
    ensures file.Some? && file.value.mimeType == PdfMimeType && file.value.size > MaxFileSize ==>
      r == Fail(FileTooLarge) && Respond(r.error).status == 500
  {
    if file.None? then Pass
    else if FilterFile(file.value.mimeType).Fail? then FilterFile(file.value.mimeType)
    else if file.value.size > MaxFileSize then Fail(FileTooLarge)
    else Pass
  }

  /** `name || originalname.replace('.pdf', '')`. */
  function TemplateName(name: Option<string>, originalName: string): (r: string)
    ensures name.Some? && name.value != "" ==> r == name.value
    ensures (name.None? || name.value == "") && !Contains(originalName, PdfSuffix) ==> r == originalName
    ensures (name.None? || name.value == "") && Contains(originalName, PdfSuffix) ==> |r| == |originalName| - |PdfSuffix|
  {
    OrElse(name, ReplaceFirst(originalName, PdfSuffix, ""))
  }

  /** Without a name, the first `.pdf` of the file name is cut out, and
      only that one: `plan.pdf.pdf` is named `plan.pdf`. */
  lemma StripsFirstPdf(base: string, rest: string)
    requires !Contains(base, PdfSuffix)
    ensures TemplateName(None, base + PdfSuffix + rest) == base + rest
    ensures TemplateName(Some(""), base + PdfSuffix + rest) == base + rest
  {
    var s := base + PdfSuffix + rest;
    var n := |base|;
    assert PdfSuffix == ['.', 'p', 'd', 'f'];
    assert s[n..n + 4] == PdfSuffix;
    assert OccursAt(s, PdfSuffix, n);
    ContainsIff(base, PdfSuffix);
    forall j | 0 <= j < n ensures !OccursAt(s, PdfSuffix, j) {
      if j + 4 <= n {
        assert !OccursAt(base, PdfSuffix, j);
        assert base[j..j + 4] == s[j..j + 4];
      } else {
        assert s[j..j + 4][n - j] == s[n] == '.';
        assert PdfSuffix[n - j] != '.';
      }
    }
    assert ReplaceFirst(s, PdfSuffix, "") == s[..n] + s[n + 4..];
    assert s[..n] == base;
    assert s[n + 4..] == rest;
  }

  /** `!parsed.text || parsed.text.trim().length === 0`. */
  predicate NoTextExtracted(text: string) {
    text == "" || |Trim(text)| == 0
  }

  /** The row a successful upload inserts, or the error the upload raises,
      in the order the middleware and the route check: the type and size of
      the file, its presence, the parse, then the extracted text. */
  function NewRow(file: Option<UploadedFile>, name: Option<string>,
                  read: string -> Result<Bytes, Thrown>, parse: Bytes -> Result<ParsedPdf, Thrown>,
                  newId: string, now: int): (r: Result<Template, AppError>)
    ensures r.Success? <==>
      && file.Some? && file.value.mimeType == PdfMimeType && file.value.size <= MaxFileSize
      && ParseFile(file.value.path, read, parse).Success?
      && !AllWhite(ParseFile(file.value.path, read, parse).value.text)
    ensures r.Success? ==>
      var f := file.value;
      r.value == Template(newId, TemplateName(name, f.originalName), f.originalName, f.path,
                          ParseFile(f.path, read, parse).value.text, now, 0)
    ensures file.None? ==> r == Failure(ValidationError(NoFile))
    ensures Admit(file).Fail? ==> r == Failure(Admit(file).error)
    ensures Admit(file).Pass? && file.Some? && ParseFile(file.value.path, read, parse).Failure? ==>
      r == Failure(ParseFile(file.value.path, read, parse).error)
    ensures r.Failure? ==> r.error.ValidationError? || r.error.TemplateError? || r.error == FileTooLarge
  {
    if Admit(file).Fail? then Failure(Admit(file).error)
    else if file.None? then Failure(ValidationError(NoFile))
    else
      var f := file.value;
      var templateName := TemplateName(name, f.originalName);
      match ParseFile(f.path, read, parse)
      case Failure(e) => Failure(e)
      case Success(parsed) =>
        TrimEmptyIffAllWhite(parsed.text);
        if NoTextExtracted(parsed.text) then Failure(TemplateError(NoText))
        else Success(Template(newId, templateName, f.originalName, f.path, parsed.text, now, 0))
  }

  /** A whitespace-only extraction is refused whatever the file's name. */
  lemma BlankTextRefused(f: UploadedFile, name: Option<string>,
                         read: string -> Result<Bytes, Thrown>, parse: Bytes -> Result<ParsedPdf, Thrown>,
                         newId: string, now: int)
    requires f.mimeType == PdfMimeType && f.size <= MaxFileSize
    requires ParseFile(f.path, read, parse).Success?
    requires AllWhite(ParseFile(f.path, read, parse).value.text)
    ensures NewRow(Some(f), name, read, parse, newId, now) == Failure(TemplateError(NoText))
  {
    TrimEmptyIffAllWhite(ParseFile(f.path, read, parse).value.text);
  }

  /** The answer of a successful upload. */
  datatype UploadedTemplate = UploadedTemplate(id: string, name: string, fileName: string, extractedText: string)

  /** Once uploaded, a template is found by its id, with its text, and it
      is not a default template. */
  lemma UploadThenGet(rows: seq<Template>, t: Template)
    requires !HasId(rows, t.id)
    requires t.isDefault == 0
    ensures Lookup(rows + [t], t.id) == Success(DetailOf(t))
    ensures !Lookup(rows + [t], t.id).value.isDefault
    ensures |Listing(rows + [t])| == |rows| + 1
  {
    var r := rows + [t];
    assert r[|rows|].id == t.id;
    assert forall j :: 0 <= j < |rows| ==> r[j] == rows[j];
  }

  // ---------------------------------------------------------------------
  // DELETE /:id

  /** The guard of the delete route: the row must exist and must not be a
      default template. */
  function CheckDelete(rows: seq<Template>, id: string): (r: Outcome<AppError>)
    ensures !HasId(rows, id) ==> r == Fail(TemplateError(NotFound))
    ensures DistinctIds(rows) ==> forall i :: 0 <= i < |rows| && rows[i].id == id ==>
      r == (if rows[i].isDefault != 0 then Fail(TemplateError(DefaultUndeletable)) else Pass)
  {
    match FindById(rows, id)
    case None => Fail(TemplateError(NotFound))
    case Some(i) => if rows[i].isDefault != 0 then Fail(TemplateError(DefaultUndeletable)) else Pass
  }

  /** `DELETE FROM templates WHERE id = ?`. */
  function RemoveId(rows: seq<Template>, id: string): (r: seq<Template>)
    ensures |r| <= |rows|
    ensures forall j :: 0 <= j < |r| ==> r[j].id != id
    decreases |rows|
  {
    if rows == [] then []
    else if rows[0].id == id then RemoveId(rows[1..], id)
    else [rows[0]] + RemoveId(rows[1..], id)
  }

  /** Deleting a template takes out its row and nothing else: the other
      rows stay, in their order. */
  lemma RemoveIdSplices(rows: seq<Template>, i: nat)
    requires DistinctIds(rows) && i < |rows|
    ensures RemoveId(rows, rows[i].id) == rows[..i] + rows[i + 1..]
  {
    OthersLackId(rows, i);
    RemoveOnly(rows[..i], rows[i], rows[i + 1..]);
    assert rows == rows[..i] + [rows[i]] + rows[i + 1..];
  }

  lemma OthersLackId(rows: seq<Template>, i: nat)
    requires DistinctIds(rows) && i < |rows|
    ensures !HasId(rows[..i], rows[i].id) && !HasId(rows[i + 1..], rows[i].id)
  {
    var id := rows[i].id;
    forall j | 0 <= j < i ensures rows[..i][j].id != id {
      assert rows[..i][j] == rows[j];
    }
    var tail := rows[i + 1..];
    forall j | 0 <= j < |tail| ensures tail[j].id != id {
      assert tail[j] == rows[i + 1 + j];
    }
  }

  /** Removing the id of the one row that has it. */
  lemma RemoveOnly(head: seq<Template>, x: Template, tail: seq<Template>)
    requires !HasId(head, x.id) && !HasId(tail, x.id)
    ensures RemoveId(head + [x] + tail, x.id) == head + tail
  {
    var middle := [x] + tail;
    assert head + [x] + tail == head + middle;
    RemoveIdAppend(head, middle, x.id);
    RemoveIdAbsent(head, x.id);
    RemoveIdAbsent(tail, x.id);
    assert middle[1..] == tail;
  }

  lemma {:induction false} RemoveIdAppend(a: seq<Template>, b: seq<Template>, id: string)
    ensures RemoveId(a + b, id) == RemoveId(a, id) + RemoveId(b, id)
    decreases |a|
  {
    if a != [] {
      assert (a + b)[1..] == a[1..] + b;
      RemoveIdAppend(a[1..], b, id);
    } else {
      assert a + b == b;
    }
  }

  lemma {:induction false} RemoveIdAbsent(rows: seq<Template>, id: string)
    requires !HasId(rows, id)
    ensures RemoveId(rows, id) == rows
    decreases |rows|
  {
    if rows != [] {
      assert !HasId(rows[1..], id) by {
        forall j | 0 <= j < |rows[1..]| ensures rows[1..][j].id != id {
          assert rows[1..][j] == rows[j + 1];
        }
      }
      RemoveIdAbsent(rows[1..], id);
      assert rows == [rows[0]] + rows[1..];
    }
  }

  /** The rows after the delete route: unchanged when the guard fails. */
  function DeleteRows(rows: seq<Template>, id: string): seq<Template> {
    if CheckDelete(rows, id).Pass? then RemoveId(rows, id) else rows
  }

  /** A delete that passes the guard leaves exactly the other rows, in
      order, so no delete ever removes a default template. */
  lemma DeleteKeepsOthers(rows: seq<Template>, id: string)
    requires DistinctIds(rows)
    ensures CheckDelete(rows, id).Pass? ==>
      exists i :: 0 <= i < |rows| && rows[i].id == id && rows[i].isDefault == 0
        && DeleteRows(rows, id) == rows[..i] + rows[i + 1..]
    ensures forall k :: 0 <= k < |rows| && rows[k].isDefault != 0 ==> rows[k] in DeleteRows(rows, id)
  {
    var found := FindById(rows, id);
    if CheckDelete(rows, id).Pass? {
      var i := found.value;
      RemoveIdSplices(rows, i);
      forall k | 0 <= k < |rows| && rows[k].isDefault != 0 ensures rows[k] in DeleteRows(rows, id) {
        if k < i {
          assert (rows[..i] + rows[i + 1..])[k] == rows[k];
        } else {
          assert k != i;
          assert (rows[..i] + rows[i + 1..])[k - 1] == rows[k];
        }
      }
    }
  }

  lemma SpliceKeepsValid(rows: seq<Template>, i: nat)
    requires DistinctIds(rows) && FlagsAreBits(rows) && i < |rows|
    ensures DistinctIds(rows[..i] + rows[i + 1..]) && FlagsAreBits(rows[..i] + rows[i + 1..])
  {
    var r := rows[..i] + rows[i + 1..];
    assert forall j :: 0 <= j < |r| ==> r[j] == rows[if j < i then j else j + 1];
  }

  // ---------------------------------------------------------------------
  // The table

  class TemplateStore {
    var rows: seq<Template>

    predicate Valid()
      reads this
    {
      DistinctIds(rows) && FlagsAreBits(rows)
    }

    constructor (initial: seq<Template>)
      requires DistinctIds(initial) && FlagsAreBits(initial)
      ensures rows == initial && Valid()
    {
      rows := initial;
    }

    /** GET /. */
    function List(): (r: seq<TemplateSummary>)
      reads this
      requires Valid()
      ensures |r| == |rows|
      ensures exists order :: multiset(order) == multiset(rows) && r == Summaries(order)
      ensures forall i, j :: 0 <= i < j < |r| ==> (r[j].isDefault ==> r[i].isDefault)
    {
      DefaultsListFirst(rows);
      Listing(rows)
    }

    /** GET /:id. */
    function Get(id: string): (r: Result<TemplateDetail, AppError>)
      reads this
      ensures r.Success? <==> HasId(rows, id)
      ensures r.Failure? ==> r.error == TemplateError(NotFound)
    {
      Lookup(rows, id)
    }

    /** POST /upload: on success exactly one row is added, a non-default
        one under the fresh id; on any failure the table is unchanged. */
    method Upload(file: Option<UploadedFile>, name: Option<string>,
                  read: string -> Result<Bytes, Thrown>, parse: Bytes -> Result<ParsedPdf, Thrown>,
                  newId: string, now: int)
      returns (r: Result<UploadedTemplate, AppError>)
      requires Valid()
      requires !HasId(rows, newId)
      modifies this
      ensures Valid()
      ensures var row := NewRow(file, name, read, parse, newId, now);
        && (r.Success? <==> row.Success?)
        && (row.Success? ==>
              rows == old(rows) + [row.value]
              && r.value == UploadedTemplate(newId, row.value.name, row.value.fileName, row.value.extractedText))
        && (row.Failure? ==> rows == old(rows) && r.error == row.error)
    {
      var admitted := Admit(file);
      if admitted.Fail? {
        return Failure(admitted.error);
      }
      if file.None? {
        return Failure(ValidationError(NoFile));
      }
      var f := file.value;
      var templateName := TemplateName(name, f.originalName);
      var parsed := ParseFile(f.path, read, parse);
      if parsed.Failure? {
        return Failure(parsed.error);
      }
      if NoTextExtracted(parsed.value.text) {
        return Failure(TemplateError(NoText));
      }
      var row := Template(newId, templateName, f.originalName, f.path, parsed.value.text, now, 0);
      rows := rows + [row];
      r := Success(UploadedTemplate(newId, templateName, f.originalName, parsed.value.text));
    }

    /** DELETE /:id. */
    method Delete(id: string) returns (r: Outcome<AppError>)
      requires Valid()
      modifies this
      ensures Valid()
      ensures r == CheckDelete(old(rows), id)
      ensures rows == DeleteRows(old(rows), id)
    {
      var found := FindById(rows, id);
      if found.None? {
        return Fail(TemplateError(NotFound));
      }
      var i := found.value;
      if rows[i].isDefault != 0 {
        return Fail(TemplateError(DefaultUndeletable));
      }
      RemoveIdSplices(rows, i);
      SpliceKeepsValid(rows, i);
      rows := RemoveId(rows, id);
      r := Pass;
    }
  }
}
