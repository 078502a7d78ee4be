/** The Sheets client (`GoogleSheet`): which spreadsheet an instance
    targets, the value matrix and range that `write_sheet` sends, and the
    "create an empty file, rebind, then fill it" sequence of
    `create_sheet_file`. The Sheets and Drive services are abstract: what
    the client sends is returned, and what the service answers is a
    parameter. */
module Sheets {
  import opened Wrappers
  import opened Auth
  import opened Drive
  import opened A1Notation

  const SheetsScope := "https://www.googleapis.com/auth/spreadsheets"
  const DocsHost := "https://docs.google.com"
  const SheetUrlPrefix := "https://docs.google.com/spreadsheets/d/"
  const ValueInputOption := "USER_ENTERED"
  const DefaultSheetTitle := "Sheet1"
  const SpreadsheetFileType := "spreadsheet"

  /** A data frame: the column labels and the rows, a missing cell (NaN)
      being `None`. */
  datatype DataFrame = DataFrame(columns: seq<string>, rows: seq<seq<Option<string>>>)

  /** The arguments of one `spreadsheets().values().update` call. */
  datatype ValuesUpdate = ValuesUpdate(spreadsheetId: string, range: string,
                                       valueInputOption: string, values: seq<seq<string>>)

  /** What the values service answers: the result, or the `HttpError`,
      which `write_sheet` returns as its result. */
  datatype UpdateReply = Updated(updatedCells: nat) | UpdateFailed(message: string)

  /** The arguments `create_sheet_file` passes to `create_file`. */
  datatype FileCreation = FileCreation(folderId: string, fileName: string, fileType: string)

  // ---------------------------------------------------------------------
  // Which spreadsheet

  /** `s.split('/')[-1]`: the text after the last `/`, or all of `s`. */
  function LastSegment(s: string): (seg: string)
    ensures EndsWith(s, seg) && '/' !in seg
    ensures seg == s || s[|s| - |seg| - 1] == '/'
  {
    if s == [] then ""
    else if s[|s| - 1] == '/' then ""
    else LastSegment(s[..|s| - 1]) + [s[|s| - 1]]
  }

  /** After a `/`, a segment without `/` is the last segment. */
  lemma {:induction false} LastSegmentAfterSlash(prefix: string, id: string)
    requires EndsWith(prefix, "/") && '/' !in id
    ensures LastSegment(prefix + id) == id
    decreases |id|
  {
    var s := prefix + id;
    if id == [] {
      assert s == prefix;
    } else {
      var init := id[..|id| - 1];
      assert s[..|s| - 1] == prefix + init;
      LastSegmentAfterSlash(prefix, init);
      assert init + [id[|id| - 1]] == id;
    }
  }

  /** The `(sheet_id, sheet_url)` an instance targets, from a spreadsheet URL
      or a bare id: a URL on the docs host is kept and its last segment is
      the id; anything else is the id, and the URL is built from it. */
  function Locate(urlOrId: string): (loc: (string, string))
    ensures StartsWith(loc.1, DocsHost)
    ensures EndsWith(loc.1, loc.0)
    ensures StartsWith(urlOrId, DocsHost) ==> loc.1 == urlOrId && '/' !in loc.0
    ensures StartsWith(urlOrId, DocsHost) ==> loc.0 == LastSegment(urlOrId)
    ensures !StartsWith(urlOrId, DocsHost) ==> loc.0 == urlOrId && loc.1 == SheetUrlPrefix + urlOrId
  {
    if StartsWith(urlOrId, DocsHost) then
      (LastSegment(urlOrId), urlOrId)
    else
      var url := SheetUrlPrefix + urlOrId;
      assert url[..|DocsHost|] == DocsHost;
      assert url[|url| - |urlOrId|..] == urlOrId;
      (urlOrId, url)
  }

  /** A bare id without `/` gives a URL that is located back to the same id
      and URL. */
  lemma LocateRoundTrip(id: string)
    requires '/' !in id
    ensures Locate(id) == (id, SheetUrlPrefix + id)
    ensures Locate(Locate(id).1) == Locate(id)
  {
    assert DocsHost[6] == '/';
    var url := SheetUrlPrefix + id;
    assert url[..|DocsHost|] == DocsHost;
    LastSegmentAfterSlash(SheetUrlPrefix, id);
  }

  // ---------------------------------------------------------------------
  // What write_sheet sends

  /** `df.fillna('')` on the rows, as lists of cells. */
  function FillMissing(rows: seq<seq<Option<string>>>): (filled: seq<seq<string>>)
    ensures |filled| == |rows|
    ensures forall i :: 0 <= i < |rows| ==> |filled[i]| == |rows[i]|
    ensures forall i, j :: 0 <= i < |rows| && 0 <= j < |rows[i]| ==>
      (rows[i][j].Some? ==> filled[i][j] == rows[i][j].value) && (rows[i][j].None? ==> filled[i][j] == "")
  {
    seq(|rows|, i requires 0 <= i < |rows| =>
      seq(|rows[i]|, j requires 0 <= j < |rows[i]| => rows[i][j].GetOr("")))
  }

  /** The matrix `write_sheet` sends: the header row, then every data row in
      order, each missing cell written as the empty string. */
  function SheetValues(df: DataFrame): (values: seq<seq<string>>)
    ensures |values| == |df.rows| + 1 && values[0] == df.columns
    ensures forall i :: 0 <= i < |df.rows| ==> |values[i + 1]| == |df.rows[i]|
    ensures forall i, j :: 0 <= i < |df.rows| && 0 <= j < |df.rows[i]| ==>
      values[i + 1][j] == (if df.rows[i][j].Some? then df.rows[i][j].value else "")
  {
    [df.columns] + FillMissing(df.rows)
  }

  /** A frame whose every row has one cell per column. */
  predicate Rectangular(df: DataFrame) {
    forall i :: 0 <= i < |df.rows| ==> |df.rows[i]| == |df.columns|
  }

  /** The update `write_sheet` makes on spreadsheet `sheetId`, or the
      exception building its range raises. */
  function UpdateRequest(sheetId: string, title: string, df: DataFrame): (u: Outcome<ValuesUpdate>)
    ensures u.Raised? <==> EndColumn(|df.columns|).Raised?
    ensures u.Raised? ==> u.error == EndColumn(|df.columns|).error
    ensures u.Returned? ==>
      u.value.spreadsheetId == sheetId && u.value.valueInputOption == ValueInputOption &&
      u.value.values == SheetValues(df) && u.value.range == RangeName(title, |df.columns|, |df.rows|).value
  {
    match RangeName(title, |df.columns|, |df.rows|)
    case Raised(e) => Raised(e)
    case Returned(range) => Returned(ValuesUpdate(sheetId, range, ValueInputOption, SheetValues(df)))
  }

  /** For 1 to 26 columns the range is exactly as large as the matrix: its
      rows are the header and the data rows, its columns are the frame's
      columns; a rectangular frame fills it completely. */
  lemma WriteRangeFitsValues(sheetId: string, title: string, df: DataFrame)
    requires 1 <= |df.columns| <= 26
    ensures UpdateRequest(sheetId, title, df).Returned?
    ensures ParseRange(UpdateRequest(sheetId, title, df).value.range) ==
      Some(A1Range(title, 1, 1, |UpdateRequest(sheetId, title, df).value.values[0]|,
                   |UpdateRequest(sheetId, title, df).value.values|))
    ensures Rectangular(df) ==> forall i :: 0 <= i < |UpdateRequest(sheetId, title, df).value.values| ==>
      |UpdateRequest(sheetId, title, df).value.values[i]| == |df.columns|
  {
    RangeRoundTrip(title, |df.columns|, |df.rows|);
    var u := UpdateRequest(sheetId, title, df).value;
    if Rectangular(df) {
      forall i | 0 <= i < |u.values| ensures |u.values[i]| == |df.columns| {
        if i > 0 { assert |u.values[i]| == |df.rows[i - 1]|; }
      }
    }
  }

  /** Three columns and two data rows under `Sheet1` give `Sheet1!A1:C3`. */
  lemma RangeForThreeByTwo()
    ensures RangeName(DefaultSheetTitle, 3, 2) == Returned("Sheet1!A1:C3")
  {
    assert EndColumn(3) == Returned('C');
    assert Decimal(3) == "3";
    assert DefaultSheetTitle + "!" + "A" + "1" + ":" + ['C'] + "3" == "Sheet1!A1:C3";
  }

  /** `create_sheet_file` uses the Drive paths only when both are given,
      and otherwise both of the instance's own paths: never a mix. */
  function DriveCredentialPaths(driveTokenPath: string, driveClientSecretPath: string,
                                ownTokenPath: string, ownClientSecretPath: string): (paths: (string, string))
    ensures paths == (driveTokenPath, driveClientSecretPath) || paths == (ownTokenPath, ownClientSecretPath)
    ensures paths == (driveTokenPath, driveClientSecretPath) <==>
      (driveTokenPath != "" && driveClientSecretPath != "") ||
      (driveTokenPath == ownTokenPath && driveClientSecretPath == ownClientSecretPath)
  {
    if driveTokenPath != "" && driveClientSecretPath != "" then
      (driveTokenPath, driveClientSecretPath)
    else
      (ownTokenPath, ownClientSecretPath)
  }

  /** The token files after a Drive client is built from `paths`. */
  function DriveTokensAfter(tokens: map<string, Credential>, server: AuthServer,
                            paths: (string, string)): map<string, Credential>
  {
    TokensAfter(tokens, paths.0,
      Acquire(paths.0, paths.1, [DriveScope], LoadToken(StoredToken(tokens, paths.0), [DriveScope]), server))
  }

  class GoogleSheet {
    const auth: GsuiteBase
    var sheetId: string
    var sheetUrl: string

    /** A Sheets client for the spreadsheet given by URL or id; its
        credential is acquired for the Sheets scope. */
    constructor (tokenPath: string, clientSecretPath: string, urlOrId: string,
                 files: TokenFiles, server: AuthServer)
      modifies files
      ensures fresh(auth)
      ensures auth.tokenPath == tokenPath && auth.clientSecretPath == clientSecretPath
      ensures auth.creds == auth.AcquireFrom(old(files.tokens), [SheetsScope], server).creds
      ensures files.tokens == TokensAfter(old(files.tokens), tokenPath, auth.AcquireFrom(old(files.tokens), [SheetsScope], server))
      ensures (sheetId, sheetUrl) == Locate(urlOrId)
    {
      auth := new GsuiteBase(tokenPath, clientSecretPath, [SheetsScope], files, server);
      if StartsWith(urlOrId, DocsHost) {
        sheetUrl := urlOrId;
        sheetId := LastSegment(urlOrId);
      } else {
        sheetId := urlOrId;
        sheetUrl := SheetUrlPrefix + sheetId;
      }
    }

    /** `write_sheet`: write the frame, header first, into `title` of the
        targeted spreadsheet; the service's answer, result or error object,
        is what it returns. */
    method WriteSheet(title: string, df: DataFrame, reply: UpdateReply)
      returns (r: Outcome<UpdateReply>, sent: Option<ValuesUpdate>)
      ensures UpdateRequest(sheetId, title, df).Raised? ==>
        r == Raised(UpdateRequest(sheetId, title, df).error) && sent.None?
      ensures UpdateRequest(sheetId, title, df).Returned? ==>
        sent == Some(UpdateRequest(sheetId, title, df).value) && r == Returned(reply)
    {
      var values := [df.columns];
      values := values + FillMissing(df.rows);
      var rangeName := RangeName(title, |df.columns|, |df.rows|);
      if rangeName.Raised? {
        return Raised(rangeName.error), None;
      }
      sent := Some(ValuesUpdate(sheetId, rangeName.value, ValueInputOption, values));
      r := Returned(reply);
    }

    /** `create_sheet_file`: acquire a Drive credential, create an empty
        spreadsheet in the folder, make it this instance's target, then
        write the frame into it. `created` is the new file's id, or `None`
        when the creation failed, in which case `"..." + None` raises. */
    method CreateSheetFile(sheetName: string, df: DataFrame, folderId: string, sheetTitle: string,
                           driveTokenPath: string, driveClientSecretPath: string,
                           files: TokenFiles, server: AuthServer,
                           created: Option<string>, reply: UpdateReply)
      returns (r: Outcome<UpdateReply>, creation: FileCreation, sent: Option<ValuesUpdate>)
      modifies this, files
      ensures files.tokens == DriveTokensAfter(old(files.tokens), server,
        DriveCredentialPaths(driveTokenPath, driveClientSecretPath, auth.tokenPath, auth.clientSecretPath))
      ensures creation == FileCreation(folderId, sheetName, SpreadsheetFileType)
      ensures created.None? ==>
        r == Raised(TypeError) && sent.None? && sheetId == old(sheetId) && sheetUrl == old(sheetUrl)
      ensures created.Some? ==>
        sheetId == created.value && sheetUrl == SheetUrlPrefix + created.value
      ensures created.Some? && UpdateRequest(created.value, sheetTitle, df).Raised? ==>
        r == Raised(UpdateRequest(created.value, sheetTitle, df).error) && sent.None?
      ensures created.Some? && UpdateRequest(created.value, sheetTitle, df).Returned? ==>
        sent == Some(UpdateRequest(created.value, sheetTitle, df).value) && r == Returned(reply)
    {
      var paths := DriveCredentialPaths(driveTokenPath, driveClientSecretPath,
                                        auth.tokenPath, auth.clientSecretPath);
      var drive := new GoogleDrive(paths.0, paths.1, files, server);
      creation := FileCreation(folderId, sheetName, SpreadsheetFileType);
      if created.None? {
        return Raised(TypeError), creation, None;
      }
      sheetId := created.value;
      sheetUrl := SheetUrlPrefix + created.value;
      r, sent := WriteSheet(sheetTitle, df, reply);
    }
  }
}
