/** The listing core of the Drive client (`GoogleDrive`): the search query
    for the children of a folder, the page-token loop that gathers every page
    of a `files().list` answer, and the two lookups built on both listings.

    The remote `files().list` is a sequence of responses: the k-th request of
    one listing is answered by the k-th response. The requests the client
    sends are returned beside the result, so that the token chaining is part
    of what is proved. */
module Drive {
  import opened Wrappers
  import opened Auth

  const DriveScope := "https://www.googleapis.com/auth/drive"
  const FolderMimeType := "application/vnd.google-apps.folder"
  const ListFields := "nextPageToken, files(id, name)"
  const PageSize := 100

  /** A file resource as a listing returns it (the `id, name` projection). */
  datatype FileResource = FileResource(name: string, id: string)

  /** One answer of `files().list`: a page, whose `files` key and
      `nextPageToken` key may each be missing, or an `HttpError`. */
  datatype ListResponse =
    | Page(files: Option<seq<FileResource>>, nextPageToken: Option<string>)
    | HttpError(message: string)

  /** The arguments of one `files().list` call. */
  datatype ListRequest = ListRequest(q: string, fields: string, pageSize: nat, pageToken: Option<string>)

  /** A listing entry, `(name, id)` as the source builds it. */
  type Entry = (string, string)

  // ---------------------------------------------------------------------
  // The search query

  predicate StartsWith(s: string, prefix: string) {
    |prefix| <= |s| && s[..|prefix|] == prefix
  }

  predicate EndsWith(s: string, suffix: string) {
    |suffix| <= |s| && s[|s| - |suffix|..] == suffix
  }

  /** `'<parent>' in parents and mimeType<test>'<folder type>'`, followed by
      `and <name query>` when a name query is given. Note that no blank is
      put between the closing quote and `and`. */
  function ChildQuery(parentId: string, mimeTest: string, nameQuery: string): (q: string)
    ensures StartsWith(q, "'" + parentId + "'")
    ensures StartsWith(q, "'" + parentId + "' in parents and mimeType" + mimeTest + "'" + FolderMimeType + "'")
    ensures |nameQuery| == 0 ==> EndsWith(q, "'" + FolderMimeType + "'")
    ensures |nameQuery| > 0 ==> EndsWith(q, "'and " + nameQuery)
    // nothing lies between the clause and the appended name query
    ensures |nameQuery| == 0 ==> |q| == |"'" + parentId + "' in parents and mimeType" + mimeTest + "'" + FolderMimeType + "'"|
    ensures |nameQuery| > 0 ==>
      |q| == |"'" + parentId + "' in parents and mimeType" + mimeTest + "'" + FolderMimeType + "'"| + 4 + |nameQuery|
  {
    var base := "'" + parentId + "' in parents and mimeType" + mimeTest + "'" + FolderMimeType + "'";
    assert StartsWith(base, "'" + parentId + "'") by {
      assert base[..|parentId| + 2] == "'" + parentId + "'";
    }
    assert EndsWith(base, "'" + FolderMimeType + "'");
    if |nameQuery| > 0 then
      var q := base + "and " + nameQuery;
      PrefixOfAppend(base, "and " + nameQuery);
      PrefixTrans(q, base, "'" + parentId + "'");
      assert q[|q| - |"'and " + nameQuery|..] == "'and " + nameQuery by {
        assert q == base[..|base| - 1] + "'and " + nameQuery;
      }
      q
    else
      PrefixOfAppend(base, "");
      base
  }

  lemma PrefixOfAppend(a: string, b: string)
    ensures StartsWith(a + b, a)
  {
    assert (a + b)[..|a|] == a;
  }

  lemma PrefixTrans(s: string, p: string, r: string)
    requires StartsWith(s, p) && StartsWith(p, r)
    ensures StartsWith(s, r)
  {
    assert s[..|r|] == s[..|p|][..|r|];
  }

  /** The query of `list_files`: children that are not folders. */
  function FilesQuery(folderId: string, nameQuery: string): (q: string)
    ensures StartsWith(q, "'" + folderId + "' in parents and mimeType!='" + FolderMimeType + "'")
    ensures |nameQuery| == 0 ==> q == "'" + folderId + "' in parents and mimeType!='" + FolderMimeType + "'"
    ensures |nameQuery| > 0 ==> EndsWith(q, "'and " + nameQuery)
    ensures |nameQuery| > 0 ==>
      |q| == |"'" + folderId + "' in parents and mimeType!='" + FolderMimeType + "'"| + 4 + |nameQuery|
  {
    ChildQuery(folderId, "!=", nameQuery)
  }

  /** The query of `list_folders`: children that are folders. */
  function FoldersQuery(parentId: string, nameQuery: string): (q: string)
    ensures StartsWith(q, "'" + parentId + "' in parents and mimeType='" + FolderMimeType + "'")
    ensures |nameQuery| == 0 ==> q == "'" + parentId + "' in parents and mimeType='" + FolderMimeType + "'"
    ensures |nameQuery| > 0 ==> EndsWith(q, "'and " + nameQuery)
    ensures |nameQuery| > 0 ==>
      |q| == |"'" + parentId + "' in parents and mimeType='" + FolderMimeType + "'"| + 4 + |nameQuery|
  {
    ChildQuery(parentId, "=", nameQuery)
  }

  /** The quoted parent id at the head of a query, read back: the text
      between the opening quote and the next quote. */
  function QueryParent(q: string): Option<string> {
    if |q| == 0 || q[0] != '\'' then None else UpToQuote(q[1..])
  }

  function UpToQuote(s: string): (r: Option<string>)
    ensures r.Some? ==> |r.value| < |s| && s[..|r.value|] == r.value && s[|r.value|] == '\'' && '\'' !in r.value
    ensures r.None? ==> '\'' !in s
  {
    if |s| == 0 then None
    else if s[0] == '\'' then Some("")
    else match UpToQuote(s[1..])
      case None => None
      case Some(rest) => Some([s[0]] + rest)
  }

  /** A quote-free id followed by a quote is read back whole. */
  lemma {:induction false} UpToQuoteReadsId(id: string, rest: string)
    requires '\'' !in id
    ensures UpToQuote(id + "'" + rest) == Some(id)
  {
    if id != [] {
      assert (id + "'" + rest)[1..] == id[1..] + "'" + rest;
      UpToQuoteReadsId(id[1..], rest);
      assert [id[0]] + id[1..] == id;
    }
  }

  /** A query headed by a quoted, quote-free id reads back that id. */
  lemma QueryParentOfQuoted(q: string, id: string)
    requires '\'' !in id && StartsWith(q, "'" + id + "'")
    ensures QueryParent(q) == Some(id)
  {
    var rest := q[|id| + 2..];
    assert q[1..] == id + "'" + rest by {
      assert q == q[..|id| + 2] + rest;
    }
    UpToQuoteReadsId(id, rest);
  }

  /** The parent id can be read back from both queries when it holds no quote. */
  lemma QueryParentRoundTrip(parentId: string, nameQuery: string)
    requires '\'' !in parentId
    ensures QueryParent(FilesQuery(parentId, nameQuery)) == Some(parentId)
    ensures QueryParent(FoldersQuery(parentId, nameQuery)) == Some(parentId)
  {
    QueryParentOfQuoted(FilesQuery(parentId, nameQuery), parentId);
    QueryParentOfQuoted(FoldersQuery(parentId, nameQuery), parentId);
  }

  // ---------------------------------------------------------------------
  // Pagination

  /** A response after which the loop makes no further request. */
  predicate Stops(r: ListResponse) {
    r.HttpError? || r.nextPageToken.None?
  }

  /** The token chain ends within the given responses. */
  predicate ChainEnds(pages: seq<ListResponse>) {
    exists k :: 0 <= k < |pages| && Stops(pages[k])
  }

  /** The index of the last response a listing reads: the first that stops. */
  ghost function StopIndex(pages: seq<ListResponse>): (k: nat)
    requires ChainEnds(pages)
    ensures k < |pages| && Stops(pages[k])
    ensures forall j :: 0 <= j < k ==> !Stops(pages[j])
    decreases |pages|
  {
    if Stops(pages[0]) then 0
    else
      var k :| 0 <= k < |pages| && Stops(pages[k]);
      assert Stops(pages[1..][k - 1]);
      1 + StopIndex(pages[1..])
  }

  /** The entries one response contributes, `(name, id)` per file, in order;
      a page without a `files` key contributes none. */
  function PageEntries(r: ListResponse): (e: seq<Entry>)
    ensures |e| == |FilesOf(r)|
  {
    var files := FilesOf(r);
    seq(|files|, i requires 0 <= i < |files| => (files[i].name, files[i].id))
  }

  /** `response.get('files', [])` */
  function FilesOf(r: ListResponse): seq<FileResource> {
    if r.Page? then r.files.GetOr([]) else []
  }

  /** The entries of the first `n` responses, accumulated page after page. */
  function Collected(pages: seq<ListResponse>, n: nat): seq<Entry>
    requires n <= |pages|
  {
    if n == 0 then [] else Collected(pages, n - 1) + PageEntries(pages[n - 1])
  }

  /** What a listing returns: `None` when the chain ends in an error, else
      every entry of every page read. */
  ghost function Listing(pages: seq<ListResponse>): (r: Option<seq<Entry>>)
    requires ChainEnds(pages)
    ensures r.None? <==> pages[StopIndex(pages)].HttpError?
    ensures r.Some? ==> r.value == Flatten(pages[..StopIndex(pages) + 1])
  {
    var k := StopIndex(pages);
    CollectedIsFlatten(pages, k + 1);
    if pages[k].HttpError? then None else Some(Collected(pages, k + 1))
  }

  /** The requests of one listing with query `q`: one per response read, the
      first without a page token and each later one with the token of the
      response before it. */
  ghost predicate RequestLog(requests: seq<ListRequest>, q: string, pages: seq<ListResponse>)
    requires ChainEnds(pages)
  {
    |requests| == StopIndex(pages) + 1 &&
    forall k :: 0 <= k < |requests| ==>
      requests[k] == ListRequest(q, ListFields, PageSize, TokenSent(pages, k))
  }

  /** The page token sent with the k-th request of a listing. */
  function TokenSent(pages: seq<ListResponse>, k: nat): Option<string>
    requires k <= |pages|
  {
    if k == 0 || pages[k - 1].HttpError? then None else pages[k - 1].nextPageToken
  }

  /** An independent statement of the accumulation: the entries of the
      pages, concatenated front to back. */
  function Flatten(pages: seq<ListResponse>): seq<Entry> {
    if pages == [] then [] else PageEntries(pages[0]) + Flatten(pages[1..])
  }

  lemma {:induction false} FlattenAppend(pages: seq<ListResponse>, r: ListResponse)
    ensures Flatten(pages + [r]) == Flatten(pages) + PageEntries(r)
    decreases |pages|
  {
    if pages == [] {
      assert [] + [r] == [r];
      assert Flatten([r]) == PageEntries(r) + Flatten([]);
    } else {
      assert (pages + [r])[1..] == pages[1..] + [r];
      FlattenAppend(pages[1..], r);
    }
  }

  /** The loop's left-to-right accumulation is the concatenation of the pages
      in page order. */
  lemma {:induction false} CollectedIsFlatten(pages: seq<ListResponse>, n: nat)
    requires n <= |pages|
    ensures Collected(pages, n) == Flatten(pages[..n])
  {
    if n == 0 {
      assert pages[..0] == [];
    } else {
      CollectedIsFlatten(pages, n - 1);
      assert pages[..n] == pages[..n - 1] + [pages[n - 1]];
      FlattenAppend(pages[..n - 1], pages[n - 1]);
    }
  }

  /** An entry is collected exactly when some page read holds a file with that
      name and id; a page without `files` contributes nothing. */
  lemma {:induction false} CollectedMembers(pages: seq<ListResponse>, n: nat, e: Entry)
    requires n <= |pages|
    ensures e in Collected(pages, n) <==>
      exists k, f :: 0 <= k < n && pages[k].Page? && pages[k].files.Some? &&
        f in pages[k].files.value && e == (f.name, f.id)
  {
    if n > 0 {
      CollectedMembers(pages, n - 1, e);
      var r := pages[n - 1];
      if e in PageEntries(r) {
        var i :| 0 <= i < |PageEntries(r)| && PageEntries(r)[i] == e;
        assert r.files.value[i] in r.files.value;
      }
      if r.Page? && r.files.Some? {
        forall f | f in r.files.value && e == (f.name, f.id) ensures e in PageEntries(r) {
          var i :| 0 <= i < |r.files.value| && r.files.value[i] == f;
          assert PageEntries(r)[i] == e;
        }
      }
    }
  }

  /** A failed request anywhere in the chain turns the whole listing into
      `None`: a listing is never a partial list. */
  lemma ListingFailsOnError(pages: seq<ListResponse>)
    requires ChainEnds(pages)
    ensures Listing(pages).None? <==>
      exists k :: 0 <= k < |pages| && pages[k].HttpError? &&
        forall j :: 0 <= j < k ==> pages[j].Page? && pages[j].nextPageToken.Some?
  {
  }

  class GoogleDrive {
    const auth: GsuiteBase

    /** A Drive client: its credential is acquired for the Drive scope. */
    constructor (tokenPath: string, clientSecretPath: string, files: TokenFiles, server: AuthServer)
      modifies files
      ensures fresh(auth)
      ensures auth.tokenPath == tokenPath && auth.clientSecretPath == clientSecretPath
      ensures auth.creds == auth.AcquireFrom(old(files.tokens), [DriveScope], server).creds
      ensures files.tokens == TokensAfter(old(files.tokens), tokenPath, auth.AcquireFrom(old(files.tokens), [DriveScope], server))
    {
      auth := new GsuiteBase(tokenPath, clientSecretPath, [DriveScope], files, server);
    }

    /** The page-token loop shared by `list_files` and `list_folders`: one
        request per response until a response stops the chain; the first
        request carries no token, each later one the previous response's. */
    method ListPaged(query: string, pages: seq<ListResponse>)
      returns (result: Option<seq<Entry>>, requests: seq<ListRequest>)
      requires ChainEnds(pages)
      ensures result == Listing(pages)
      ensures |requests| == StopIndex(pages) + 1
      ensures forall k :: 0 <= k < |requests| ==>
        requests[k] == ListRequest(query, ListFields, PageSize, TokenSent(pages, k))
      ensures requests[0].pageToken.None?
      ensures forall k :: 0 < k < |requests| ==> requests[k].pageToken.Some?
    {
      ghost var stop := StopIndex(pages);
      var entries: seq<Entry> := [];
      var pageToken: Option<string> := None;
      var i := 0;
      requests := [];
      while true
        invariant 0 <= i <= stop
        invariant entries == Collected(pages, i)
        invariant pageToken == TokenSent(pages, i)
        invariant i > 0 ==> pageToken.Some?
        invariant |requests| == i
        invariant forall k :: 0 <= k < i ==>
          requests[k] == ListRequest(query, ListFields, PageSize, TokenSent(pages, k))
        decreases stop - i
      {
        requests := requests + [ListRequest(query, ListFields, PageSize, pageToken)];
        var response := pages[i];
        if response.HttpError? {
          result := None;
          return;
        }
        var files := response.files.GetOr([]);
        assert files == FilesOf(response);
        ghost var added := PageEntries(response);
        var j := 0;
        while j < |files|
          invariant 0 <= j <= |files|
          invariant entries == Collected(pages, i) + added[..j]
        {
          assert added[..j + 1] == added[..j] + [(files[j].name, files[j].id)];
          entries := entries + [(files[j].name, files[j].id)];
          j := j + 1;
        }
        assert added[..|files|] == added;
        assert entries == Collected(pages, i + 1);
        pageToken := response.nextPageToken;
        if pageToken.None? {
          result := Some(entries);
          return;
        }
        i := i + 1;
      }
    }

    /** `list_files`: the `(name, id)` of every non-folder child of a folder,
        or `None` when a request fails. */
    method ListFiles(folderId: string, nameQuery: string, pages: seq<ListResponse>)
      returns (result: Option<seq<Entry>>, requests: seq<ListRequest>)
      requires ChainEnds(pages)
      ensures result == Listing(pages)
      ensures |requests| == StopIndex(pages) + 1
      ensures forall k :: 0 <= k < |requests| ==>
        requests[k] == ListRequest(FilesQuery(folderId, nameQuery), ListFields, PageSize, TokenSent(pages, k))
    {
      result, requests := ListPaged(FilesQuery(folderId, nameQuery), pages);
    }

    /** `list_folders`: the `(name, id)` of every sub-folder, or `None` when a
        request fails. */
    method ListFolders(parentId: string, nameQuery: string, pages: seq<ListResponse>)
      returns (result: Option<seq<Entry>>, requests: seq<ListRequest>)
      requires ChainEnds(pages)
      ensures result == Listing(pages)
      ensures |requests| == StopIndex(pages) + 1
      ensures forall k :: 0 <= k < |requests| ==>
        requests[k] == ListRequest(FoldersQuery(parentId, nameQuery), ListFields, PageSize, TokenSent(pages, k))
    {
      result, requests := ListPaged(FoldersQuery(parentId, nameQuery), pages);
    }

    /** `files.extend(folders)`: raises when either listing failed. */
    method Union(parentId: string, filePages: seq<ListResponse>, folderPages: seq<ListResponse>)
      returns (r: Outcome<seq<Entry>>, fileRequests: seq<ListRequest>, folderRequests: seq<ListRequest>)
      requires ChainEnds(filePages) && ChainEnds(folderPages)
      ensures r == Joined(Listing(filePages), Listing(folderPages))
      ensures RequestLog(fileRequests, FilesQuery(parentId, ""), filePages)
      ensures RequestLog(folderRequests, FoldersQuery(parentId, ""), folderPages)
    {
      var files, folders;
      files, fileRequests := ListFiles(parentId, "", filePages);
      folders, folderRequests := ListFolders(parentId, "", folderPages);
      if files.None? {
        r := Raised(AttributeError);
      } else if folders.None? {
        r := Raised(TypeError);
      } else {
        r := Returned(files.value + folders.value);
      }
    }

    /** `file_exists`: whether some file or folder under the parent has the
        given id or name. */
    method FileExists(parentId: string, fileIdOrName: string,
                      filePages: seq<ListResponse>, folderPages: seq<ListResponse>)
      returns (r: Outcome<bool>, fileRequests: seq<ListRequest>, folderRequests: seq<ListRequest>)
      requires ChainEnds(filePages) && ChainEnds(folderPages)
      ensures RequestLog(fileRequests, FilesQuery(parentId, ""), filePages)
      ensures RequestLog(folderRequests, FoldersQuery(parentId, ""), folderPages)
      ensures Joined(Listing(filePages), Listing(folderPages)).Raised? ==>
        r == Raised(Joined(Listing(filePages), Listing(folderPages)).error)
      ensures Joined(Listing(filePages), Listing(folderPages)).Returned? ==>
        r.Returned? && (r.value <==> Mentions(Joined(Listing(filePages), Listing(folderPages)).value, fileIdOrName))
    {
      var joined;
      joined, fileRequests, folderRequests := Union(parentId, filePages, folderPages);
      if joined.Raised? {
        return Raised(joined.error), fileRequests, folderRequests;
      }
      var entries := joined.value;
      var i := 0;
      while i < |entries|
        invariant 0 <= i <= |entries|
        invariant forall j :: 0 <= j < i ==> entries[j].1 != fileIdOrName && entries[j].0 != fileIdOrName
      {
        var (fileName, fileId) := entries[i];
        if fileId == fileIdOrName || fileName == fileIdOrName {
          return Returned(true), fileRequests, folderRequests;
        }
        i := i + 1;
      }
      return Returned(false), fileRequests, folderRequests;
    }

    /** `get_file_ids`: every file or folder under the parent with exactly
        the given name, as `(id, name)`, in listing order. */
    method GetFileIds(folderId: string, fileName: string,
                      filePages: seq<ListResponse>, folderPages: seq<ListResponse>)
      returns (r: Outcome<seq<Entry>>, fileRequests: seq<ListRequest>, folderRequests: seq<ListRequest>)
      requires ChainEnds(filePages) && ChainEnds(folderPages)
      ensures RequestLog(fileRequests, FilesQuery(folderId, ""), filePages)
      ensures RequestLog(folderRequests, FoldersQuery(folderId, ""), folderPages)
      ensures Joined(Listing(filePages), Listing(folderPages)).Raised? ==>
        r == Raised(Joined(Listing(filePages), Listing(folderPages)).error)
      ensures Joined(Listing(filePages), Listing(folderPages)).Returned? ==>
        r == Returned(NamedIds(Joined(Listing(filePages), Listing(folderPages)).value, fileName))
    {
      var joined;
      joined, fileRequests, folderRequests := Union(folderId, filePages, folderPages);
      if joined.Raised? {
        return Raised(joined.error), fileRequests, folderRequests;
      }
      var entries := joined.value;
      var ids: seq<Entry> := [];
      var i := 0;
      while i < |entries|
        invariant 0 <= i <= |entries|
        invariant ids == NamedIds(entries[..i], fileName)
      {
        var (name, id) := entries[i];
        if name == fileName {
          ids := ids + [(id, name)];
        }
        assert entries[..i + 1][..i] == entries[..i];
        i := i + 1;
      }
      assert entries[..|entries|] == entries;
      return Returned(ids), fileRequests, folderRequests;
    }
  }

  /** Files then folders, or the exception `files.extend(folders)` raises:
      `AttributeError` on a `None` file listing, `TypeError` on a `None`
      folder listing. */
  function Joined(files: Option<seq<Entry>>, folders: Option<seq<Entry>>): (r: Outcome<seq<Entry>>)
    ensures files.None? ==> r == Raised(AttributeError)
    ensures files.Some? && folders.None? ==> r == Raised(TypeError)
    ensures r.Returned? <==> files.Some? && folders.Some?
    ensures r.Returned? ==> |r.value| == |files.value| + |folders.value|
    ensures r.Returned? ==> r.value[..|files.value|] == files.value
    ensures r.Returned? ==> r.value[|files.value|..] == folders.value
  {
    if files.None? then Raised(AttributeError)
    else if folders.None? then Raised(TypeError)
    else Returned(files.value + folders.value)
  }

  /** Some entry has `key` as its id or as its name. */
  predicate Mentions(entries: seq<Entry>, key: string) {
    exists i :: 0 <= i < |entries| && (entries[i].1 == key || entries[i].0 == key)
  }

  /** Looking in files-then-folders is looking in the files, then in the
      folders. */
  lemma MentionsAppend(a: seq<Entry>, b: seq<Entry>, key: string)
    ensures Mentions(a + b, key) <==> Mentions(a, key) || Mentions(b, key)
  {
    if Mentions(a + b, key) {
      var i :| 0 <= i < |a + b| && ((a + b)[i].1 == key || (a + b)[i].0 == key);
      if i >= |a| { assert (a + b)[i] == b[i - |a|]; }
    }
    if Mentions(a, key) {
      var i :| 0 <= i < |a| && (a[i].1 == key || a[i].0 == key);
      assert (a + b)[i] == a[i];
    }
    if Mentions(b, key) {
      var i :| 0 <= i < |b| && (b[i].1 == key || b[i].0 == key);
      assert (a + b)[|a| + i] == b[i];
    }
  }

  /** The `(id, name)` of the entries named `name`, in order. */
  function NamedIds(entries: seq<Entry>, name: string): (ids: seq<Entry>)
    ensures |ids| <= |entries|
    ensures forall i :: 0 <= i < |ids| ==> ids[i].1 == name
  {
    if entries == [] then []
    else
      var last := entries[|entries| - 1];
      NamedIds(entries[..|entries| - 1], name) + (if last.0 == name then [(last.1, last.0)] else [])
  }

  /** The lookup keeps exactly the entries with that name, swapped to
      `(id, name)`, and nothing else. */
  lemma {:induction false} NamedIdsMembers(entries: seq<Entry>, name: string, p: Entry)
    ensures p in NamedIds(entries, name) <==> p.1 == name && (p.1, p.0) in entries
    decreases |entries|
  {
    if entries != [] {
      var init := entries[..|entries| - 1];
      NamedIdsMembers(init, name, p);
      assert entries == init + [entries[|entries| - 1]];
    }
  }

  /** The lookup preserves listing order: looking up in a concatenation is
      looking up in each part. */
  lemma {:induction false} NamedIdsAppend(a: seq<Entry>, b: seq<Entry>, name: string)
    ensures NamedIds(a + b, name) == NamedIds(a, name) + NamedIds(b, name)
    decreases |b|
  {
    if b == [] {
      assert a + b == a;
    } else {
      var init := b[..|b| - 1];
      NamedIdsAppend(a, init, name);
      assert (a + b)[..|a + b| - 1] == a + init;
    }
  }
}
