/** The OAuth credential store (src/auth/AuthStore.ts). Every server url owns a
    directory named by the md5 hex digest of the url, holding up to three files:
    `client.json`, `tokens.json` and `verifier.txt`. The file system is a map from
    (directory, file) to what the file holds, and the digest is the uninterpreted
    function `keyOf` fixed when the store is created. */
module AuthStore {
  import opened Wrappers

  /** `PersistenceFileKind` (src/auth/types.ts): `callback-port` is declared there, but
      the store handles only the other three. */
  datatype Kind = Client | Tokens | Verifier | CallbackPort

  /** A TCP port number. */
  type Port = p: nat | p <= 65535

  datatype ClientInformation = ClientInformation(clientId: string, redirectUris: seq<string>, clientSecret: Option<string>)

  datatype OAuthTokens = OAuthTokens(accessToken: string, tokenType: string, refreshToken: Option<string>)

  /** `PersistenceFileContent[kind]` */
  datatype Artifact =
    | ClientFile(client: ClientInformation)
    | TokensFile(tokens: OAuthTokens)
    | VerifierFile(verifier: string)
    | PortFile(port: Port)

  function KindOf(a: Artifact): Kind {
    match a
    case ClientFile(_) => Client
    case TokensFile(_) => Tokens
    case VerifierFile(_) => Verifier
    case PortFile(_) => CallbackPort
  }

  /** The files of a server directory. `PortTxt` is written only by the corrected port
      persistence below (`SaveCallbackPort`); the store as written has no file for
      `callback-port`. */
  datatype FileName = ClientJson | TokensJson | VerifierTxt | PortTxt

  /** The file a kind is kept in; None for the kind the store does not handle. */
  function FileOf(kind: Kind): (f: Option<FileName>)
    ensures f.None? <==> kind == CallbackPort
  {
    match kind
    case Client => Some(ClientJson)
    case Tokens => Some(TokensJson)
    case Verifier => Some(VerifierTxt)
    case CallbackPort => None
  }

  /** What a file holds: content as the store wrote it, or bytes that do not read back
      (a file that cannot be read, or JSON the schema rejects). */
  datatype FileContent = Written(artifact: Artifact) | Unreadable

  type Files = map<(string, FileName), FileContent>

  datatype StoreError = InvalidKind(kind: Kind) | NoSuchFile(dir: string, file: FileName)

  /** `getPersistenceFile` over the files: a missing file, a file that does not parse as
      the requested kind, and the unhandled kind all read as absent; nothing raises. */
  function ReadFile(files: Files, dir: string, kind: Kind): (r: Option<Artifact>)
    ensures r.Some? ==> KindOf(r.value) == kind && kind != CallbackPort
    ensures r.Some? ==> (dir, FileOf(kind).value) in files && files[(dir, FileOf(kind).value)] == Written(r.value)
  {
    match FileOf(kind)
    case None => None
    case Some(f) =>
      if (dir, f) in files && files[(dir, f)].Written? && KindOf(files[(dir, f)].artifact) == kind
      then Some(files[(dir, f)].artifact)
      else None
  }

  /** The files after a successful save of `content` under `dir`. */
  function Saved(files: Files, dir: string, content: Artifact): Files
    requires KindOf(content) != CallbackPort
  {
    files[(dir, FileOf(KindOf(content)).value) := Written(content)]
  }

  /** The files after a successful delete of `kind` under `dir`. */
  function Deleted(files: Files, dir: string, kind: Kind): Files
    requires kind != CallbackPort
  {
    files - {(dir, FileOf(kind).value)}
  }

  /** Saving kind K, then reading kind K in the same directory, gives back the content;
      every other (directory, kind) reads as before. */
  lemma SaveThenRead(files: Files, dir: string, content: Artifact, dir': string, kind': Kind)
    requires KindOf(content) != CallbackPort
    ensures ReadFile(Saved(files, dir, content), dir, KindOf(content)) == Some(content)
    ensures dir' != dir || kind' != KindOf(content) ==>
      ReadFile(Saved(files, dir, content), dir', kind') == ReadFile(files, dir', kind')
  {
  }

  /** A save overwrites the whole file: the last save wins. */
  lemma LastSaveWins(files: Files, dir: string, first: Artifact, second: Artifact)
    requires KindOf(first) == KindOf(second) != CallbackPort
    ensures Saved(Saved(files, dir, first), dir, second) == Saved(files, dir, second)
  {
  }

  /** Deleting removes only the named kind's file in that directory. */
  lemma DeleteThenRead(files: Files, dir: string, kind: Kind, dir': string, kind': Kind)
    requires kind != CallbackPort
    ensures ReadFile(Deleted(files, dir, kind), dir, kind) == None
    ensures dir' != dir || kind' != kind ==>
      ReadFile(Deleted(files, dir, kind), dir', kind') == ReadFile(files, dir', kind')
  {
  }

  /** The unhandled kind reads as absent whatever is on disk. */
  lemma CallbackPortNeverRead(files: Files, dir: string)
    ensures ReadFile(files, dir, CallbackPort) == None
  {
  }

  /** The port the corrected store keeps for `dir`, if its port file reads back as one. */
  function StoredPort(files: Files, dir: string): (p: Option<Port>)
    ensures p.Some? ==> (dir, PortTxt) in files && files[(dir, PortTxt)] == Written(PortFile(p.value))
  {
    if (dir, PortTxt) in files && files[(dir, PortTxt)].Written? && files[(dir, PortTxt)].artifact.PortFile?
    then Some(files[(dir, PortTxt)].artifact.port)
    else None
  }

  /** Saving a port into the port file, then reading it, gives the port back; the
      other files are untouched. */
  lemma SavePortThenRead(files: Files, dir: string, port: Port)
    ensures StoredPort(files[(dir, PortTxt) := Written(PortFile(port))], dir) == Some(port)
    ensures forall k :: k != CallbackPort ==>
      ReadFile(files[(dir, PortTxt) := Written(PortFile(port))], dir, k) == ReadFile(files, dir, k)
  {
  }

  class Store {
    /** md5 hex digest of a url string: equal urls give equal keys, and that is all the
        model knows about it. */
    const keyOf: string -> string
    /** Directories under the `oauth-servers` directory. */
    var dirs: set<string>
    var files: Files

    constructor(keyOf: string -> string, dirs: set<string>, files: Files)
      ensures this.keyOf == keyOf && this.dirs == dirs && this.files == files
    {
      this.keyOf := keyOf;
      this.dirs := dirs;
      this.files := files;
    }

    /** Every file lies in a directory that exists: a save creates the directory first
        and a delete leaves it in place. */
    predicate Valid()
      reads this
    {
      forall loc :: loc in files ==> loc.0 in dirs
    }

    /** What `getPersistenceFile(url, kind)` returns in the current state. */
    function Stored(url: string, kind: Kind): Option<Artifact>
      reads this
    {
      ReadFile(files, keyOf(url), kind)
    }

    /** The location depends only on the url's digest, so equal urls share files. */
    lemma SameKeySameFiles(url: string, url': string, kind: Kind)
      requires keyOf(url) == keyOf(url')
      ensures Stored(url, kind) == Stored(url', kind)
    {
    }

    method GetPersistenceFile(url: string, kind: Kind) returns (r: Option<Artifact>)
      ensures r == ReadFile(files, keyOf(url), kind)
    {
      var dir := keyOf(url);
      var f := FileOf(kind);
      if f.None? {
        // `Invalid kind` is raised inside the try block and caught.
        return None;
      }
      if (dir, f.value) !in files {
        return None;
      }
      var content := files[(dir, f.value)];
      if content.Unreadable? || KindOf(content.artifact) != kind {
        return None;
      }
      return Some(content.artifact);
    }

    /** `savePersistenceFile`: creates the url's directory if missing, then writes the
        file for the kind; the unhandled kind raises after the directory exists. */
    method SavePersistenceFile(url: string, kind: Kind, content: Artifact) returns (r: Outcome<StoreError>)
      requires KindOf(content) == kind
      modifies this
      ensures dirs == old(dirs) + {keyOf(url)}
      ensures kind == CallbackPort ==> r == Fail(InvalidKind(kind)) && files == old(files)
      ensures old(Valid()) ==> Valid()
      ensures kind != CallbackPort ==> r == Pass && files == Saved(old(files), keyOf(url), content)
    {
      var dir := keyOf(url);
      if dir !in dirs {
        dirs := dirs + {dir};
      }
      var f := FileOf(kind);
      if f.None? {
        return Fail(InvalidKind(kind));
      }
      files := files[(dir, f.value) := Written(content)];
      return Pass;
    }

    /** The corrected read of `callback-port`: the port file of the url's directory. */
    method GetCallbackPort(url: string) returns (p: Option<Port>)
      ensures p == StoredPort(files, keyOf(url))
    {
      var dir := keyOf(url);
      if (dir, PortTxt) in files && files[(dir, PortTxt)].Written? && files[(dir, PortTxt)].artifact.PortFile? {
        return Some(files[(dir, PortTxt)].artifact.port);
      }
      return None;
    }

    /** The corrected save of `callback-port`: creates the directory if missing and
        writes the port file. */
    method SaveCallbackPort(url: string, port: Port)
      modifies this
      ensures dirs == old(dirs) + {keyOf(url)}
      ensures files == old(files)[(keyOf(url), PortTxt) := Written(PortFile(port))]
      ensures old(Valid()) ==> Valid()
    {
      var dir := keyOf(url);
      if dir !in dirs {
        dirs := dirs + {dir};
      }
      files := files[(dir, PortTxt) := Written(PortFile(port))];
    }

    /** `deletePersistenceFile`: `rm` without `force`, so a missing file raises; the
        unhandled kind raises too. The directory stays. */
    method DeletePersistenceFile(url: string, kind: Kind) returns (r: Outcome<StoreError>)
      modifies this
      ensures dirs == old(dirs)
      ensures kind == CallbackPort ==> r == Fail(InvalidKind(kind)) && files == old(files)
      ensures old(Valid()) ==> Valid()
      ensures kind != CallbackPort && (keyOf(url), FileOf(kind).value) !in old(files) ==>
        r == Fail(NoSuchFile(keyOf(url), FileOf(kind).value)) && files == old(files)
      ensures kind != CallbackPort && (keyOf(url), FileOf(kind).value) in old(files) ==>
        r == Pass && files == Deleted(old(files), keyOf(url), kind)
    {
      var dir := keyOf(url);
      var f := FileOf(kind);
      if f.None? {
        return Fail(InvalidKind(kind));
      }
      if (dir, f.value) !in files {
        return Fail(NoSuchFile(dir, f.value));
      }
      files := files - {(dir, f.value)};
      return Pass;
    }
  }
}
