# gworkspace-client core, modelled in Dafny

`gworkspace-client` wraps the Google Drive v3 and Sheets v4 client
libraries. Most of its methods build one request and hand it to the library.
This project models the parts that hold logic of their own, and proves what
they do:

- **Credential bootstrap** (`GsuiteBase`, module `Auth`). The client loads
  a saved token if the token file exists. If there is no valid credential,
  it refreshes the token (when the credential is expired and has a refresh
  token) or runs the interactive consent flow. It saves the token file only
  in that case. The token files are a class (`TokenFiles`) that
  `GetToken` updates. The authorization server is a pair of opaque
  functions (refresh, consent flow).
- **Paginated listing** (`GoogleDrive`, module `Drive`). This covers the
  search query for a folder's children and the page-token loop of
  `list_files` and `list_folders`. It also covers the two lookups built on
  both listings, `file_exists` and `get_file_ids`. The remote `files().list`
  is a sequence of responses: the k-th request gets the k-th response. Each
  listing method returns the requests it sent, so the token chaining is
  stated too.
- **Sheet addressing** (`GoogleSheet`, modules `Sheets` and `A1Notation`).
  This covers how a URL or a bare id turns into `(sheet_id, sheet_url)`, the
  value matrix and the A1 range that `write_sheet` sends, and how
  `create_sheet_file` picks its credential paths and retargets the instance.
  A reader for A1 ranges (`ParseRange`) is defined next to the writer.
  Lemmas prove that, for 1 to 26 columns, the range written spans exactly
  the rows and the header width of the matrix sent, and that a rectangular
  frame fills it.

Python exceptions that escape to the caller are modelled with the
`Outcome` type (`Returned` or `Raised`). Calls that end in a caught
`HttpError` return `None` (`Option`) or the error object, as the source
does.

Where the code differs from what its names or docstrings suggest, the model
follows the code:

- The listing query has no blank before the appended `and`.
- `file_exists` and `get_file_ids` raise, rather than return, when a listing
  failed: `files.extend` runs on `None`.
- `chr(65 + ncols - 1)` is not limited to letters. Zero columns give `@`.
- `exists_ok` of `create_folder` is never read.

## Model

| member | source | states |
|---|---|---|
| `Auth.LoadToken` | gworkspace_client/GsuiteBase.py:24-25 | A credential is loaded exactly when the token file exists. It carries the scopes asked for, and the stored token, validity, expiry and refresh-token flag unchanged. |
| `Auth.Acquire` | gworkspace_client/GsuiteBase.py:15-36 | A valid loaded credential is returned as it is, with no refresh, no flow and no write. With no token file, the consent flow gives the credential, which is then saved. An invalid loaded credential that is expired and has a refresh token is replaced by its refresh; any other invalid one is replaced by the consent flow's credential. Each branch's full step list (load, refresh or flow, save) is stated. Refresh is chosen exactly when the loaded credential is invalid, expired and has a refresh token. The flow runs in every other absent or invalid case. The final credential is saved, as the last step, exactly when the loaded one was absent or invalid. The loader and the flow both receive the caller's scopes. |
| `Auth.TokensAfter` | gworkspace_client/GsuiteBase.py:33-35 | After an acquisition that saved, the token path holds the final credential; otherwise the files are unchanged. Every other path keeps its presence and its content. |
| `Auth.GsuiteBase.GetToken` | gworkspace_client/GsuiteBase.py:21-36 | The imperative branches return the credential and steps that `Acquire` gives for the token file's content. The token file at `token_path` is overwritten with the credential exactly when it was renewed. Other files are untouched. |
| `Auth.GsuiteBase.constructor` | gworkspace_client/GsuiteBase.py:10-13 | Stores both paths, then sets `creds` to the credential acquired with the given scopes from those paths. |
| `Drive.ChildQuery` | gworkspace_client/GoogleDrive.py:38-40 | The query starts with the parent id in single quotes. With no name query it ends with the quoted folder MIME type. Otherwise it is the clause followed directly by `and <name query>`: it ends with `'and <name query>`, with no blank between the quote and `and`, and is exactly four characters plus the name query longer than the clause. |
| `Drive.FilesQuery` | gworkspace_client/GoogleDrive.py:38-40 | The `list_files` query selects the children of the folder whose MIME type is not the folder type. Without a name query it is exactly that clause; with one it is that clause followed directly by `and <name query>`. |
| `Drive.FoldersQuery` | gworkspace_client/GoogleDrive.py:75-77 | The `list_folders` query selects the children of the parent whose MIME type is the folder type. Without a name query it is exactly that clause; with one it is that clause followed directly by `and <name query>`. |
| `Drive.QueryParentRoundTrip` | gworkspace_client/GoogleDrive.py:75-77 | The parent id can be read back from both the `list_files` query and the `list_folders` query, whenever it holds no quote. |
| `Drive.StopIndex` | gworkspace_client/GoogleDrive.py:51-54 | The loop's last response is the first one that is an error or has no `nextPageToken`. Every earlier response carried a token. |
| `Drive.CollectedIsFlatten` | gworkspace_client/GoogleDrive.py:48-49 | Appending page by page, as the loop does, gives the pages' entries concatenated in page order. |
| `Drive.CollectedMembers` | gworkspace_client/GoogleDrive.py:84-85 | An entry is collected exactly when some page read holds a file with that name and id. A page without a `files` key contributes nothing. |
| `Drive.ListingFailsOnError` | gworkspace_client/GoogleDrive.py:56-60 | A listing is `None` exactly when an `HttpError` answers a request in the chain. It is never a partial list. |
| `Drive.Listing` | gworkspace_client/GoogleDrive.py:36-60 | What a listing returns: `None` exactly when the response that ends the chain is an `HttpError`; otherwise the concatenation, in page order, of every page read up to that one. |
| `Drive.GoogleDrive.ListPaged` | gworkspace_client/GoogleDrive.py:36-54 | Returns the specified listing. The number of requests is the length of the token chain. The first request has no page token and each later one carries the previous response's token. Every request uses the same query, the `nextPageToken, files(id, name)` fields and page size 100. |
| `Drive.GoogleDrive.ListFiles` | gworkspace_client/GoogleDrive.py:25-60 | Applies the paged listing with the non-folder query of the folder. |
| `Drive.GoogleDrive.ListFolders` | gworkspace_client/GoogleDrive.py:62-96 | Applies the paged listing with the folder query of the parent. |
| `Drive.GoogleDrive.Union` | gworkspace_client/GoogleDrive.py:106-109 | Both listings run, on the given parent with the empty name query: the file requests carry the non-folder query and the folder requests the folder query, each chained by page token. The result is files then folders. If the file listing is `None` it raises `AttributeError`. If the folder listing is `None` it raises `TypeError`. |
| `Drive.Joined` | gworkspace_client/GoogleDrive.py:109 | `files.extend(folders)`: it raises `AttributeError` on a `None` file listing and `TypeError` on a `None` folder listing. Otherwise the result starts with the files and ends with the folders. |
| `Drive.GoogleDrive.FileExists` | gworkspace_client/GoogleDrive.py:98-116 | Both listings are requested for `parent_id` with the empty name query. Returns true iff some entry of files-then-folders has the argument as its id or its name, so false when both listings are empty. Raises when a listing failed. |
| `Drive.MentionsAppend` | gworkspace_client/GoogleDrive.py:109-114 | A key is found in files-then-folders exactly when it is the id or the name of a listed file or of a listed folder. |
| `Drive.GoogleDrive.GetFileIds` | gworkspace_client/GoogleDrive.py:118-138 | Both listings are requested for `folder_id` with the empty name query. Returns the name lookup over files-then-folders, as `(id, name)` pairs. Raises when a listing failed. |
| `Drive.NamedIds` | gworkspace_client/GoogleDrive.py:132-136 | The lookup is no longer than the listing, and every pair it gives carries the searched name second. |
| `Drive.NamedIdsMembers` | gworkspace_client/GoogleDrive.py:132-136 | A pair is returned iff its second part is the name searched and the swapped pair `(name, id)` is listed. |
| `Drive.NamedIdsAppend` | gworkspace_client/GoogleDrive.py:130-136 | The lookup keeps listing order: on files followed by folders it gives the file matches, then the folder matches. |
| `Drive.GoogleDrive.constructor` | gworkspace_client/GoogleDrive.py:16-20 | The Drive client's credential is acquired for the Drive scope from its two paths. |
| `Sheets.LastSegment` | gworkspace_client/GoogleSheet.py:21 | `split('/')[-1]`: the result is a suffix without `/`. It is the whole text, or it follows a `/`. |
| `Sheets.Locate` | gworkspace_client/GoogleSheet.py:19-24 | A docs URL is kept as the URL and its last segment (`LastSegment`, the text after the last `/`) is the id. Any other input is the id, and the URL is the spreadsheet prefix followed by it. The URL always starts with the docs host and always ends with the id. |
| `Sheets.LocateRoundTrip` | gworkspace_client/GoogleSheet.py:21-24 | For a bare id without `/`, the URL built is `https://docs.google.com/spreadsheets/d/<id>`. Locating that URL again gives back the same id and URL. |
| `Sheets.FillMissing` | gworkspace_client/GoogleSheet.py:105 | `fillna('')`: same shape as the rows, a present cell kept and a missing one written as `''`. |
| `Sheets.SheetValues` | gworkspace_client/GoogleSheet.py:105-107 | The matrix has `rows + 1` rows. The first row is the header. Row `i + 1` holds data row `i` cell by cell, with a missing cell written as `''`. |
| `Sheets.UpdateRequest` | gworkspace_client/GoogleSheet.py:101-120 | The update raises exactly when the end column raises, with the same error. Otherwise it targets `sheet_id`, uses `USER_ENTERED`, sends the header-then-rows matrix and the range built for the frame's column and row counts. |
| `Sheets.WriteRangeFitsValues` | gworkspace_client/GoogleSheet.py:113-116 | For 1 to 26 columns the range reads back as sheet `title` from A1. Its row span equals the number of value rows and its column span equals the number of columns. A rectangular frame fills it. |
| `Sheets.RangeForThreeByTwo` | gworkspace_client/GoogleSheet.py:113-116 | Three columns and two data rows under `Sheet1` give `Sheet1!A1:C3`. |
| `Sheets.DriveCredentialPaths` | gworkspace_client/GoogleSheet.py:74-79 | The Drive token and secret paths are used, together, when both are non-empty. Otherwise the instance's own two paths are used, never a mix. |
| `Sheets.GoogleSheet.constructor` | gworkspace_client/GoogleSheet.py:15-25 | The credential is acquired for the Sheets scope, and `(sheet_id, sheet_url)` is the located pair of the input. |
| `Sheets.GoogleSheet.WriteSheet` | gworkspace_client/GoogleSheet.py:92-125 | Sends the values update for the targeted sheet and returns the service's answer, result or error object. It raises, sending nothing, when the end column cannot be built. |
| `Sheets.GoogleSheet.CreateSheetFile` | gworkspace_client/GoogleSheet.py:56-90 | Acquires the Drive credential from the chosen paths and asks for a spreadsheet file in the folder. If that fails it raises `TypeError`. Otherwise it sets `sheet_id` to the new id and `sheet_url` to the docs prefix plus that id, then writes the frame to the new file. |
| `A1Notation.EndColumn` | gworkspace_client/GoogleSheet.py:114 | `chr(65 + ncols - 1)` is an upper-case letter exactly for 1 to 26 columns, and then its place in the alphabet is `ncols`. Zero columns give `@`. Any returned character has code point `64 + ncols`. It raises `ValueError` above U+10FFFF and `UnicodeEncodeError` for a surrogate code point, and returns in every other case, 27 or more columns included. |
| `A1Notation.RangeName` | gworkspace_client/GoogleSheet.py:113-116 | The range raises exactly when the end column raises. Otherwise it is the title, then `!A1:`, then the end column, then the decimal digits of `rows + 1`. |
| `A1Notation.Decimal` | gworkspace_client/GoogleSheet.py:115-116 | `str(n)` is a non-empty string of digits with no leading zero. |
| `A1Notation.DecimalRoundTrip` | gworkspace_client/GoogleSheet.py:115-116 | Reading `str(n)` back gives `n`. |
| `A1Notation.RangeRoundTrip` | gworkspace_client/GoogleSheet.py:113-116 | For 1 to 26 columns, the range string reads back as the block from column 1, row 1 to column `ncols`, row `rows + 1` of sheet `title`. |
| `A1Notation.RangeUnreadableOutsideAlphabet` | gworkspace_client/GoogleSheet.py:114 | With zero or more than 26 columns the code does not guard the count. The string it builds is not an A1 range. |

## Left out

- The Google client libraries are not modelled, only the values they are
  given and answer: `build`, every `files()`, `permissions()` and
  `spreadsheets()` request, and `.execute()`. Logging by `print` is left
  out.
- `grant_permission` and its batch callback, `create_folder` (whose
  `exists_ok` is never read), `copy_file`, `move_file_to_folder`,
  `upload_file`, `download_file` and `export_file` are left out. Each is one
  fixed request passed to the library, or file I/O and chunked media
  streaming with float progress.
- `create_file` is represented only by the id it answers inside
  `create_sheet_file`: `created` is `Some(id)`, or `None` after a caught
  `HttpError`.
- On the Sheets side, `read_single_sheet`, `get_sheet_titles`,
  `resize_cells`, `add_sheet` (with its float tab colour),
  `update_values` and `append_values` are left out. Each is a fixed request
  passed to one call.
- Drive.GoogleDrive.ListPaged: requires that the token chain ends within
  the given responses. A server whose tokens never run out makes the
  source loop forever, and that case is not modelled. The same holds for
  `ListFiles`, `ListFolders`, `Union`, `FileExists` and `GetFileIds`.
- A listed file always has a name and an id here. The source's
  `file.get('name')` could also yield `None`, which is not modelled.
- Credential contents, the token file's JSON form, the clock that decides
  `valid` and `expired`, and the local consent listener are abstract.
  Failures of refresh or of the consent flow raise in the source and abort
  construction. They are not modelled.
- The `url_or_id` default of `None`, which raises on `startswith`, is not
  modelled. The input is always a string.
- Sheets.GoogleSheet.CreateSheetFile: when the file creation fails, the
  source sets `sheet_id` to `None` and then raises at the URL
  concatenation. The model raises and leaves both fields unchanged.
- The surrogate case of `EndColumn` is modelled as raising where the range
  is computed. In the source the error comes from the request encoding.
- pandas is reduced to column labels and rows of optional string cells.
  Non-string cell values and `fillna` beyond filling missing cells are not
  modelled.
- `files.extend(folders)` mutates the list the file listing returned.
  Nothing else holds that list, so the model concatenates values.
