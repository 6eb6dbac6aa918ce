/**
 * The GitHub contents-API client (services/github/client.py): listing the
 * category folders, and creating or updating one site's config file. The
 * HTTP exchange is a parameter: `get(url, ref)` and `put(url, body)` are the
 * replies the API gives.
 */
module GitHub {
  import opened Wrappers
  import opened PyStr
  import opened Exceptions
  import Json
  import Base64
  import Schemas

  const BaseUrl := "https://api.github.com"
  const ConfigDir := "config"
  const DirType := "dir"

  /** An HTTP reply with its decoded body, or an `httpx.HTTPError` from the transport. */
  datatype Reply<T> = Reply(status: int, payload: T) | Transport(message: string)

  predicate IsSuccess<T>(reply: Reply<T>) {
    reply.Reply? && 200 <= reply.status < 300
  }

  /**
   * A stand-in for the text of the `httpx.HTTPError` a failed exchange
   * raises: a transport error's own message, or the status code alone for the
   * `HTTPStatusError` of `raise_for_status` (whose real text also names the
   * reason phrase and the URL).
   */
  function FailureText<T>(reply: Reply<T>): string {
    match reply
    case Transport(m) => m
    case Reply(status, _) => "HTTP status " + IntToString(status)
  }

  /** One item of the `config/` directory listing. */
  datatype Entry = Entry(name: string, kind: string)

  /** `client.get(url, params={"ref": ref})` of the listing. */
  type ListGet = (string, string) -> Reply<seq<Entry>>
  /** `client.get(url, params={"ref": ref})` of a file; the payload is `response.json().get("sha")`. */
  type FileGet = (string, string) -> Reply<Option<string>>

  /** The `sha` member of the PUT body: not sent, sent as `null`, or sent with a value. */
  datatype ShaField = Absent | Null | Present(sha: string)

  /** The JSON body of the PUT. */
  datatype PutBody = PutBody(message: string, content: string, branch: string, sha: ShaField)

  /** `content.html_url` and `commit.sha` of a successful PUT. */
  datatype Written = Written(htmlUrl: string, commitSha: string)

  type Put = (string, PutBody) -> Reply<Written>

  // ------------------------------------------------------------- the listing

  /** The names of the folders, in listing order. */
  function DirNames(entries: seq<Entry>): (names: seq<string>)
    ensures |names| <= |entries|
  {
    if entries == [] then []
    else if entries[0].kind == DirType then [entries[0].name] + DirNames(entries[1..])
    else DirNames(entries[1..])
  }

  /** A name is listed exactly when some folder has it. */
  lemma {:induction false} DirNamesMembers(entries: seq<Entry>, name: string)
    ensures name in DirNames(entries) <==> exists i :: 0 <= i < |entries| && entries[i].kind == DirType && entries[i].name == name
    decreases |entries|
  {
    if entries != [] {
      DirNamesMembers(entries[1..], name);
      if exists i :: 1 <= i < |entries| && entries[i].kind == DirType && entries[i].name == name {
        var i :| 1 <= i < |entries| && entries[i].kind == DirType && entries[i].name == name;
        assert entries[1..][i - 1] == entries[i];
      }
      if exists i :: 0 <= i < |entries[1..]| && entries[1..][i].kind == DirType && entries[1..][i].name == name {
        var i :| 0 <= i < |entries[1..]| && entries[1..][i].kind == DirType && entries[1..][i].name == name;
        assert entries[i + 1] == entries[1..][i];
      }
    }
  }

  /** Listing order is kept: the folders of a concatenation are those of each part, in turn. */
  lemma {:induction false} DirNamesConcat(a: seq<Entry>, b: seq<Entry>)
    ensures DirNames(a + b) == DirNames(a) + DirNames(b)
    decreases |a|
  {
    if a != [] {
      DirNamesConcat(a[1..], b);
      assert (a + b)[1..] == a[1..] + b;
    } else {
      assert a + b == b;
    }
  }

  /** A listing with only files gives no category. */
  lemma {:induction false} FilesOnly(entries: seq<Entry>)
    requires forall i :: 0 <= i < |entries| ==> entries[i].kind != DirType
    ensures DirNames(entries) == []
    decreases |entries|
  {
    if entries != [] {
      FilesOnly(entries[1..]);
    }
  }

  const FileType := "file"

  /** Two folders and a file list as the two folder names, in order. */
  lemma ListingExample(games: string, social: string, readme: string)
    ensures DirNames([Entry(games, DirType), Entry(social, DirType), Entry(readme, FileType)]) == [games, social]
  {
    var es := [Entry(games, DirType), Entry(social, DirType), Entry(readme, FileType)];
    assert FileType[0] != DirType[0];
    assert es[1..] == [Entry(social, DirType), Entry(readme, FileType)];
    assert es[1..][1..] == [Entry(readme, FileType)];
    assert DirNames([Entry(readme, FileType)]) == [];
  }

  // ---------------------------------------------------------------- the file

  function ContentsUrl(repo: string, path: string): string {
    BaseUrl + "/repos/" + repo + "/contents/" + path
  }

  /** `config/{category}/{domain}.json`. */
  function FilePath(category: string, domain: string): (p: string)
    ensures |p| == |ConfigDir| + 1 + |category| + 1 + |domain| + 5
    ensures StartsWith(p, ConfigDir + "/") && EndsWith(p, ".json")
  {
    var p := ConfigDir + "/" + category + "/" + domain + ".json";
    assert p[..|ConfigDir| + 1] == ConfigDir + "/";
    assert p[|p| - 5..] == ".json";
    p
  }

  /** One file per site: a category without `/` and the domain are recovered from the path. */
  lemma FilePathInjective(c1: string, d1: string, c2: string, d2: string)
    requires '/' !in c1 && '/' !in c2
    requires FilePath(c1, d1) == FilePath(c2, d2)
    ensures c1 == c2 && d1 == d2
  {
    var p, q := FilePath(c1, d1), FilePath(c2, d2);
    var n := |ConfigDir| + 1;
    assert forall k :: 0 <= k < |c1| ==> p[n + k] == c1[k];
    assert forall k :: 0 <= k < |c2| ==> q[n + k] == c2[k];
    assert p[n + |c1|] == '/' && q[n + |c2|] == '/';
    assert |c1| == |c2|;
    assert c1 == p[n..n + |c1|] == c2;
    assert d1 == p[n + |c1| + 1..|p| - 5] == d2;
  }

  function AddMessage(category: string, domain: string): string {
    "feat(" + category + "): add " + domain
  }

  function UpdateMessage(category: string, domain: string): string {
    "fix(" + category + "): update " + domain
  }

  /** The text of the config is printable ASCII and newlines, so its UTF-8 bytes are its codes. */
  lemma SpacedIsAscii(s: string)
    requires Json.SpacedAscii(s)
    ensures Base64.IsAsciiText(s)
  {
  }

  /** `base64.b64encode(config.to_json().encode()).decode()`. */
  function Content(config: Schemas.SiteConfig): (c: string)
    ensures forall i :: 0 <= i < |c| ==> Base64.InAlphabet(c[i])
  {
    var text := Schemas.ToJson(config);
    SpacedIsAscii(text);
    Base64.Encode(Base64.AsciiBytes(text))
  }

  /** Decoding the content gives back the JSON text of the config. */
  lemma ContentDecodes(config: Schemas.SiteConfig)
    ensures Base64.Decode(Content(config)).Some?
    ensures var b := Base64.Decode(Content(config)).value;
      (forall i :: 0 <= i < |b| ==> b[i] < 128) && Base64.AsciiText(b) == Schemas.ToJson(config)
  {
    var text := Schemas.ToJson(config);
    SpacedIsAscii(text);
    Base64.ContentRoundTrip(text);
  }

  /** The GET that finds the file: a reply with status 200 (a transport error is ignored). */
  predicate FileExists(existing: Reply<Option<string>>) {
    existing.Reply? && existing.status == 200
  }

  function ShaOf(found: Option<string>): (f: ShaField)
    ensures f != Absent
    ensures f.Present? <==> found.Some?
  {
    if found.Some? then Present(found.value) else Null
  }

  class GitHubClient {
    const token: string
    const repo: string
    const branch: string

    constructor (token: string, repo: string, branch: string)
      ensures this.token == token && this.repo == repo && this.branch == branch
    {
      this.token := token;
      this.repo := repo;
      this.branch := branch;
    }

    /** The request headers: bearer token and the v3 media type. */
    function Headers(): (h: map<string, string>)
      ensures h.Keys == {"Authorization", "Accept"}
      ensures h["Authorization"] == "Bearer " + token
    {
      map["Authorization" := "Bearer " + token, "Accept" := "application/vnd.github.v3+json"]
    }

    /** `get_categories`: the folder names of `config/` on the branch. */
    method GetCategories(get: ListGet) returns (r: Result<seq<string>, Error>)
      ensures var reply := get(ContentsUrl(repo, ConfigDir), branch);
        && (r.Ok? <==> IsSuccess(reply))
        && (r.Ok? ==> r.value == DirNames(reply.payload))
        && (r.Err? ==> r.error == GitHubAPIError("Failed to get categories: " + FailureText(reply)))
    {
      var reply := get(ContentsUrl(repo, ConfigDir), branch);
      if !IsSuccess(reply) {
        return Err(GitHubAPIError("Failed to get categories: " + FailureText(reply)));
      }
      r := Ok(DirNames(reply.payload));
    }

    /**
     * `create_file`: the PUT body starts as a creation; a GET that finds the
     * file turns it into an update carrying the file's sha. `sent` is the
     * body the PUT carries.
     */
    method CreateFile(category: string, domain: string, config: Schemas.SiteConfig, get: FileGet, put: Put)
      returns (r: Result<(string, string), Error>, sent: PutBody)
      ensures var url := ContentsUrl(repo, FilePath(category, domain));
        && sent.content == Content(config) && sent.branch == branch
        && (FileExists(get(url, branch)) ==>
              sent.message == UpdateMessage(category, domain) && sent.sha == ShaOf(get(url, branch).payload))
        && (!FileExists(get(url, branch)) ==> sent.message == AddMessage(category, domain) && sent.sha == Absent)
        && (r.Ok? <==> IsSuccess(put(url, sent)))
        && (r.Ok? ==> r.value == (put(url, sent).payload.htmlUrl, put(url, sent).payload.commitSha))
        && (r.Err? ==> r.error == GitHubAPIError("Failed to create file: " + FailureText(put(url, sent))))
    {
      var url := ContentsUrl(repo, FilePath(category, domain));
      var message := AddMessage(category, domain);
      var sha := Absent;
      var existing := get(url, branch);
      if existing.Reply? && existing.status == 200 {
        sha := ShaOf(existing.payload);
        message := UpdateMessage(category, domain);
      }
      sent := PutBody(message, Content(config), branch, sha);
      var reply := put(url, sent);
      if !IsSuccess(reply) {
        return Err(GitHubAPIError("Failed to create file: " + FailureText(reply))), sent;
      }
      r := Ok((reply.payload.htmlUrl, reply.payload.commitSha));
    }
  }
}
