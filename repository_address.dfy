/**
 * The wagon's private GoogleRepository: the (project, repository) identity
 * read from the configured repository locator, and the request URL built
 * from it for one artifact.
 */
module RepositoryAddress {
  import opened Outcomes
  import opened JavaText

  /**
   * The two parts of the configured locator that the wagon reads: Maven has
   * already cut `buildartifacts://projects/P/repositories/R` into the host
   * (`projects`) and the base directory (`/P/repositories/R`).
   */
  datatype Locator = Locator(host: string, basedir: string)

  /** The identity of one remote repository. */
  datatype GoogleRepository = GoogleRepository(projectId: string, repositoryId: string)

  /** A ConnectionException; the wagon raises it with one fixed message. */
  datatype ConnectionError = ConnectionError(message: string)

  const INVALID_FORMAT_MESSAGE: string :=
    "The repository URL must be formatted as buildartifacts://projects/<project_id>/repositories/<repository_id>"

  /** The URL of one request: scheme, host and the list of path parts. */
  datatype Url = Url(scheme: string, host: string, pathParts: seq<string>)

  /**
   * GoogleRepository.parse. The split is Java's, so trailing slashes after
   * the repository id are tolerated and a repository id is never empty,
   * while an empty project id (`//repositories/R`) gets through.
   */
  function Parse(repo: Locator): (r: Result<GoogleRepository, ConnectionError>)
    ensures var parts := JavaSplit(repo.basedir, '/');
      r.Success? <==>
        repo.host == "projects" && |parts| == 4 && parts[2] == "repositories" && parts[0] == ""
    ensures var parts := JavaSplit(repo.basedir, '/');
      r.Success? ==> r.value == GoogleRepository(parts[1], parts[3])
    ensures r.Failure? ==> r.error == ConnectionError(INVALID_FORMAT_MESSAGE)
    ensures r.Success? ==>
      '/' !in r.value.projectId && '/' !in r.value.repositoryId && r.value.repositoryId != []
  {
    if repo.host != "projects" then Failure(ConnectionError(INVALID_FORMAT_MESSAGE))
    else
      var parts := JavaSplit(repo.basedir, '/');
      if |parts| != 4 then Failure(ConnectionError(INVALID_FORMAT_MESSAGE))
      else if parts[2] != "repositories" || parts[0] != "" then Failure(ConnectionError(INVALID_FORMAT_MESSAGE))
      else Success(GoogleRepository(parts[1], parts[3]))
  }

  /** The base directory of the locator that names `p` and `r` with nothing extra. */
  function CanonicalBasedir(p: string, r: string): string
  {
    "/" + p + "/repositories/" + r
  }

  /** The canonical base directory is the join of its four pieces. */
  lemma CanonicalBasedirIsJoin(p: string, r: string, k: nat)
    ensures CanonicalBasedir(p, r) + Repeat('/', k) == Join(["", p, "repositories", r] + Empties(k), '/')
  {
    var parts: seq<string> := ["", p, "repositories", r];
    JoinEmpties(parts, k, '/');
    assert Join(parts[3..], '/') == r;
    assert Join(parts[2..], '/') == "repositories" + "/" + r;
    assert Join(parts[1..], '/') == p + "/" + ("repositories" + "/" + r);
    assert Join(parts, '/') == "" + "/" + (p + "/" + ("repositories" + "/" + r));
  }

  /**
   * Round trip: a well-formed locator, with any number of trailing slashes,
   * parses to the project and repository ids it names.
   */
  lemma ParseCanonical(p: string, r: string, k: nat)
    requires '/' !in p && '/' !in r && r != []
    ensures Parse(Locator("projects", CanonicalBasedir(p, r) + Repeat('/', k))) == Success(GoogleRepository(p, r))
  {
    var parts: seq<string> := ["", p, "repositories", r];
    var basedir := CanonicalBasedir(p, r) + Repeat('/', k);
    CanonicalBasedirIsJoin(p, r, k);
    assert basedir[0] == '/';
    PiecesJoin(parts + Empties(k), '/');
    DropTrailingEmptyAfter(parts, k);
  }

  /**
   * Only well-formed locators parse: a successful parse means the host is
   * `projects` and the base directory is `/P/repositories/R` followed by
   * nothing but slashes, with slash-free ids and a non-empty repository id.
   */
  lemma ParseOnlyCanonical(repo: Locator, p: string, r: string) returns (k: nat)
    requires Parse(repo) == Success(GoogleRepository(p, r))
    ensures repo.host == "projects" && '/' !in p && '/' !in r && r != []
    ensures repo.basedir == CanonicalBasedir(p, r) + Repeat('/', k)
  {
    var parts := JavaSplit(repo.basedir, '/');
    assert '/' in repo.basedir;
    var pieces := Pieces(repo.basedir, '/');
    assert parts == DropTrailingEmpty(pieces);
    k := |pieces| - 4;
    assert pieces == parts + Empties(k);
    assert parts == ["", p, "repositories", r];
    JoinPieces(repo.basedir, '/');
    CanonicalBasedirIsJoin(p, r, k);
  }

  /** Parse accepts exactly the well-formed locators, and returns the ids they name. */
  lemma ParseExactly(repo: Locator, p: string, r: string)
    ensures Parse(repo) == Success(GoogleRepository(p, r)) <==>
      repo.host == "projects" && '/' !in p && '/' !in r && r != [] &&
      exists k: nat :: repo.basedir == CanonicalBasedir(p, r) + Repeat('/', k)
  {
    if Parse(repo) == Success(GoogleRepository(p, r)) {
      var k := ParseOnlyCanonical(repo, p, r);
    }
    if repo.host == "projects" && '/' !in p && '/' !in r && r != [] &&
       exists k: nat :: repo.basedir == CanonicalBasedir(p, r) + Repeat('/', k) {
      var k: nat :| repo.basedir == CanonicalBasedir(p, r) + Repeat('/', k);
      ParseCanonical(p, r, k);
    }
  }

  /** A doubled leading slash adds an empty piece in front, and the locator is rejected. */
  lemma DoubledLeadingSlashRejected(p: string, r: string)
    requires '/' !in p && '/' !in r && r != []
    ensures Parse(Locator("projects", "/" + CanonicalBasedir(p, r))) == Failure(ConnectionError(INVALID_FORMAT_MESSAGE))
  {
    var parts: seq<string> := ["", "", p, "repositories", r];
    CanonicalBasedirIsJoin(p, r, 0);
    assert ["", p, "repositories", r] + Empties(0) == parts[1..];
    assert CanonicalBasedir(p, r) + Repeat('/', 0) == CanonicalBasedir(p, r);
    assert Join(parts, '/') == "/" + CanonicalBasedir(p, r);
    JavaSplitOfJoin(parts, '/');
  }

  /**
   * GoogleRepository.constructURL: https, the host with a slash appended, and
   * the path parts project id, repository id, then the artifact path split
   * on slashes the Java way.
   */
  function ConstructUrl(repo: GoogleRepository, host: string, artifactPath: string): (u: Url)
    ensures u.scheme == "https" && u.host == host + "/"
    ensures |u.pathParts| >= 2 && u.pathParts[..2] == [repo.projectId, repo.repositoryId]
    ensures forall i :: 2 <= i < |u.pathParts| ==> '/' !in u.pathParts[i]
  {
    Url("https", host + "/", [repo.projectId, repo.repositoryId] + JavaSplit(artifactPath, '/'))
  }

  /**
   * For an artifact path that does not end with a slash, the parts after the
   * identity pair are at least one and join back to the artifact path.
   */
  lemma ConstructUrlKeepsArtifactPath(repo: GoogleRepository, host: string, artifactPath: string)
    requires artifactPath == [] || artifactPath[|artifactPath| - 1] != '/'
    ensures var u := ConstructUrl(repo, host, artifactPath);
      |u.pathParts| >= 3 && Join(u.pathParts[2..], '/') == artifactPath
  {
    JavaSplitJoin(artifactPath, '/');
    var u := ConstructUrl(repo, host, artifactPath);
    assert u.pathParts[2..] == JavaSplit(artifactPath, '/');
  }

  /**
   * For every artifact path, the parts after the identity pair are all the
   * slash-separated pieces of the path except the empty ones at its end:
   * only trailing slashes are lost.
   */
  lemma ConstructUrlPiecesOfArtifactPath(repo: GoogleRepository, host: string, artifactPath: string)
    ensures var u := ConstructUrl(repo, host, artifactPath);
      exists k: nat :: Pieces(artifactPath, '/') == u.pathParts[2..] + Empties(k)
  {
    var u := ConstructUrl(repo, host, artifactPath);
    assert u.pathParts[2..] == JavaSplit(artifactPath, '/');
    if '/' in artifactPath {
      JavaSplitTrailing(artifactPath, '/');
    } else {
      PiecesPrefix(artifactPath, [], '/');
      assert artifactPath + [] == artifactPath;
      assert Pieces(artifactPath, '/') == u.pathParts[2..] + Empties(0);
    }
  }

  /** A path made of one slash contributes no part at all: the URL names the repository only. */
  lemma ConstructUrlOfSlash(repo: GoogleRepository, host: string)
    ensures ConstructUrl(repo, host, "/").pathParts == [repo.projectId, repo.repositoryId]
  {
  }

  /** An example locator parses to its two ids. */
  lemma ExampleLocator(basedir: string)
    requires basedir == "/my-proj/repositories/my-repo"
    ensures Parse(Locator("projects", basedir)) == Success(GoogleRepository("my-proj", "my-repo"))
  {
    var p, r := "my-proj", "my-repo";
    assert basedir == CanonicalBasedir(p, r) + Repeat('/', 0) by {
      assert Repeat('/', 0) == [];
      assert CanonicalBasedir(p, r) == basedir;
    }
    ParseCanonical(p, r, 0);
  }

  /** Java splits an example Maven artifact path into its directories and its file name. */
  lemma ArtifactPathSplit(path: string)
    requires path == "com/acme/lib/1.0/lib-1.0.jar"
    ensures JavaSplit(path, '/') == ["com", "acme", "lib", "1.0", "lib-1.0.jar"]
  {
    var segments: seq<string> := ["com", "acme", "lib", "1.0", "lib-1.0.jar"];
    var j3, j2, j1 := Join(segments[3..], '/'), Join(segments[2..], '/'), Join(segments[1..], '/');
    assert Join(segments[4..], '/') == "lib-1.0.jar";
    assert j3 == "1.0" + "/" + "lib-1.0.jar";
    assert j2 == "lib" + "/" + j3;
    assert j1 == "acme" + "/" + j2;
    assert Join(segments, '/') == "com" + "/" + j1;
    assert "com" + "/" + ("acme" + "/" + ("lib" + "/" + ("1.0" + "/" + "lib-1.0.jar"))) == path;
    JavaSplitOfJoin(segments, '/');
  }

  /** A Maven artifact path becomes one URL part per directory and one for the file, after the identity pair. */
  lemma ExampleArtifactPath(repo: GoogleRepository, host: string, path: string)
    requires path == "com/acme/lib/1.0/lib-1.0.jar"
    ensures ConstructUrl(repo, host, path).pathParts
      == [repo.projectId, repo.repositoryId, "com", "acme", "lib", "1.0", "lib-1.0.jar"]
  {
    var segments := JavaSplit(path, '/');
    ArtifactPathSplit(path);
    assert ConstructUrl(repo, host, path).pathParts == [repo.projectId, repo.repositoryId] + segments;
  }
}
