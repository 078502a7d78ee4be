/** The credential bootstrap shared by the Drive and Sheets clients
    (`GsuiteBase`): load a saved token, refresh it or log in again, and save
    the result when it had to be renewed. The OAuth library's own work
    (parsing the token file, talking to the authorization server, the local
    consent listener) is abstract: only the branch taken and the values that
    flow between the steps are modelled. */
module Auth {
  import opened Wrappers

  /** A credential as the OAuth library exposes it. `valid` and `expired`
      describe it at the moment it is looked at; the token text is opaque. */
  datatype Credential = Credential(
    token: string,
    scopes: seq<string>,
    valid: bool,
    expired: bool,
    hasRefreshToken: bool)

  /** The authorization server's answers: what refreshing a credential
      yields, and what the interactive consent flow started from a
      client-secret file with some scopes yields. */
  datatype AuthServer = AuthServer(
    refresh: Credential -> Credential,
    authorize: (string, seq<string>) -> Credential)

  /** The observable steps of one token acquisition, in order. */
  datatype AuthStep =
    | LoadFile(path: string, scopes: seq<string>)
    | RefreshToken
    | RunFlow(secretPath: string, scopes: seq<string>)
    | SaveFile(path: string, saved: Credential)

  datatype Acquisition = Acquisition(creds: Credential, steps: seq<AuthStep>)

  /** The local token files, by path. Saving a credential and loading it back
      is taken to give the same credential. */
  class TokenFiles {
    var tokens: map<string, Credential>

    constructor (tokens: map<string, Credential>)
      ensures this.tokens == tokens
    {
      this.tokens := tokens;
    }
  }

  /** The token stored at `path`, if that file exists. */
  function StoredToken(tokens: map<string, Credential>, path: string): Option<Credential> {
    if path in tokens then Some(tokens[path]) else None
  }

  /** Loading a token file with some scopes gives the stored credential bound
      to those scopes; with no file there is no credential. */
  function LoadToken(stored: Option<Credential>, scopes: seq<string>): (loaded: Option<Credential>)
    ensures loaded.Some? <==> stored.Some?
    ensures loaded.Some? ==> loaded.value.scopes == scopes
    // everything else is read from the file as it was saved
    ensures loaded.Some? ==>
      loaded.value.token == stored.value.token && loaded.value.valid == stored.value.valid &&
      loaded.value.expired == stored.value.expired && loaded.value.hasRefreshToken == stored.value.hasRefreshToken
  {
    if stored.Some? then Some(stored.value.(scopes := scopes)) else None
  }

  /** "no credential, or not a valid one" */
  predicate NeedsLogin(creds: Option<Credential>) {
    creds.None? || !creds.value.valid
  }

  /** "a credential that is expired and carries a refresh token" */
  predicate CanRefresh(creds: Option<Credential>) {
    creds.Some? && creds.value.expired && creds.value.hasRefreshToken
  }

  /** The whole decision of one token acquisition: which steps run and which
      credential comes out, given the credential loaded from the token file
      (`None` when there is no file). */
  function Acquire(tokenPath: string, secretPath: string, scopes: seq<string>,
                   loaded: Option<Credential>, server: AuthServer): (a: Acquisition)
    // a valid loaded credential is returned as it is: no refresh, no flow, no write
    ensures !NeedsLogin(loaded) ==> a == Acquisition(loaded.value, [LoadFile(tokenPath, scopes)])
    // with no token file the interactive flow produces the credential, which is saved
    ensures loaded.None? ==>
      a.creds == server.authorize(secretPath, scopes) &&
      a.steps == [RunFlow(secretPath, scopes), SaveFile(tokenPath, a.creds)]
    // a loaded credential that is invalid but refreshable is refreshed and saved
    ensures NeedsLogin(loaded) && CanRefresh(loaded) ==>
      a.creds == server.refresh(loaded.value) &&
      a.steps == [LoadFile(tokenPath, scopes), RefreshToken, SaveFile(tokenPath, a.creds)]
    // a loaded credential that is invalid and not refreshable is replaced by the flow's, which is saved
    ensures loaded.Some? && NeedsLogin(loaded) && !CanRefresh(loaded) ==>
      a.creds == server.authorize(secretPath, scopes) &&
      a.steps == [LoadFile(tokenPath, scopes), RunFlow(secretPath, scopes), SaveFile(tokenPath, a.creds)]
    // refresh is chosen exactly for an invalid, expired credential with a refresh token
    ensures (RefreshToken in a.steps) <==> NeedsLogin(loaded) && CanRefresh(loaded)
    ensures RefreshToken in a.steps ==> a.creds == server.refresh(loaded.value)
    // every other absent or invalid case runs the interactive flow
    ensures (RunFlow(secretPath, scopes) in a.steps) <==> NeedsLogin(loaded) && !CanRefresh(loaded)
    // the token file is overwritten with the final credential exactly when it had to be renewed
    ensures (SaveFile(tokenPath, a.creds) in a.steps) <==> NeedsLogin(loaded)
    ensures forall i :: 0 <= i < |a.steps| && a.steps[i].SaveFile? ==>
      i == |a.steps| - 1 && a.steps[i] == SaveFile(tokenPath, a.creds)
    // the loader and the flow see the caller's scopes
    ensures forall s :: s in a.steps && (s.LoadFile? || s.RunFlow?) ==> s.scopes == scopes
  {
    var load := if loaded.Some? then [LoadFile(tokenPath, scopes)] else [];
    if !NeedsLogin(loaded) then
      Acquisition(loaded.value, load)
    else if CanRefresh(loaded) then
      var c := server.refresh(loaded.value);
      Acquisition(c, load + [RefreshToken, SaveFile(tokenPath, c)])
    else
      var c := server.authorize(secretPath, scopes);
      Acquisition(c, load + [RunFlow(secretPath, scopes), SaveFile(tokenPath, c)])
  }

  /** The token files after an acquisition: its saved credential, if any,
      replaces whatever was stored at the token path. */
  function TokensAfter(tokens: map<string, Credential>, tokenPath: string, a: Acquisition): (after: map<string, Credential>)
    ensures SaveFile(tokenPath, a.creds) in a.steps ==> tokenPath in after && after[tokenPath] == a.creds
    ensures SaveFile(tokenPath, a.creds) !in a.steps ==> after == tokens
    ensures forall p :: p != tokenPath ==> (p in after <==> p in tokens)
    ensures forall p :: p != tokenPath && p in tokens ==> after[p] == tokens[p]
  {
    if SaveFile(tokenPath, a.creds) in a.steps then tokens[tokenPath := a.creds] else tokens
  }

  class GsuiteBase {
    const clientSecretPath: string
    const tokenPath: string
    var creds: Credential

    /** The acquisition this instance's paths lead to, given the token files. */
    function AcquireFrom(tokens: map<string, Credential>, scopes: seq<string>, server: AuthServer): Acquisition
      reads this
    {
      Acquire(tokenPath, clientSecretPath, scopes, LoadToken(StoredToken(tokens, tokenPath), scopes), server)
    }

    /** Stores both paths, then acquires the credential for `scopes`. */
    constructor (tokenPath: string, clientSecretPath: string, scopes: seq<string>,
                 files: TokenFiles, server: AuthServer)
      modifies files
      ensures this.tokenPath == tokenPath && this.clientSecretPath == clientSecretPath
      ensures creds == AcquireFrom(old(files.tokens), scopes, server).creds
      ensures files.tokens == TokensAfter(old(files.tokens), tokenPath, AcquireFrom(old(files.tokens), scopes, server))
    {
      this.clientSecretPath := clientSecretPath;
      this.tokenPath := tokenPath;
      new;
      var c, _ := GetToken(scopes, files, server);
      creds := c;
    }

    /** Load the token file if it exists; when there is no valid credential,
        refresh it or run the consent flow, and save the result. */
    method GetToken(scopes: seq<string>, files: TokenFiles, server: AuthServer)
      returns (creds: Credential, steps: seq<AuthStep>)
      modifies files
      ensures Acquisition(creds, steps) == AcquireFrom(old(files.tokens), scopes, server)
      ensures files.tokens == TokensAfter(old(files.tokens), tokenPath, Acquisition(creds, steps))
    {
      var current: Option<Credential> := None;
      steps := [];
      if tokenPath in files.tokens {
        current := Some(files.tokens[tokenPath].(scopes := scopes));
        steps := [LoadFile(tokenPath, scopes)];
      }
      if current.None? || !current.value.valid {
        if current.Some? && current.value.expired && current.value.hasRefreshToken {
          current := Some(server.refresh(current.value));
          steps := steps + [RefreshToken];
        } else {
          current := Some(server.authorize(clientSecretPath, scopes));
          steps := steps + [RunFlow(clientSecretPath, scopes)];
        }
        files.tokens := files.tokens[tokenPath := current.value];
        steps := steps + [SaveFile(tokenPath, current.value)];
      }
      creds := current.value;
    }
  }
}
