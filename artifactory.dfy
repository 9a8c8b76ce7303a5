/** The Artifactory backend of coon/pac_cache/artifactory_cache.py: validation of
    its configuration, credential selection, the layout of the remote store, and
    publishing a package to it and fetching a package from it.

    The Artifactory HTTP client is replaced by an in-memory repository: a set of
    folder paths and a map from file path to content. The local file system the
    backend reads packages from and writes fetched packages to is a map from path
    to content as well. Paths are strings, built the way `os.path.join` builds
    them. */
module ArtifactoryBackend {
  import opened Wrappers

  type Bytes = seq<bv8>

  /** What the backend reads from a package: its name, its version tag (absent
      for a package without a detected tag) and the directory holding its
      `<name>.cp` archive. */
  datatype Package = Package(name: string, gitVsn: Option<string>, path: string)

  /** The exceptions the backend raises, as values. */
  datatype CacheError =
    | KeyMissing(key: string)           // KeyError: a required key is absent
    | UsernameRequired(cache: string)   // SyntaxError naming the cache: no usable username
    | CredentialRequired(cache: string) // SyntaxError naming the cache: neither credential usable
    | NoVersionTag                      // TypeError: joining a path with no version tag
    | NoErlangVersion                   // TypeError: joining a path with no detected release
    | NotFound(remote: string)          // opening a remote file that is not there
    | NoSuchFile(local: string)         // deploying a local file that is not there

  // ---------------------------------------------------------------------------
  // Strings and paths.

  predicate StartsWith(s: string, prefix: string)
  {
    |prefix| <= |s| && s[..|prefix|] == prefix
  }

  /** Python truthiness of an optional string: present and not empty. */
  predicate Truthy(o: Option<string>)
  {
    o.Some? && o.value != ""
  }

  /** `dict.get(key, None)`. */
  function Lookup(conf: map<string, string>, key: string): (r: Option<string>)
    ensures r.Some? <==> key in conf
    ensures r.Some? ==> r.value == conf[key]
  {
    if key in conf then Some(conf[key]) else None
  }

  /** `posixpath.join(a, b)`: an absolute `b` replaces `a`; otherwise `b` is
      appended, after a separator unless `a` is empty or already ends with one. */
  function Join(a: string, b: string): (r: string)
    ensures |b| <= |r| && r[|r| - |b|..] == b
    ensures !StartsWith(b, "/") ==> StartsWith(r, a)
  {
    if StartsWith(b, "/") then b
    else if a == [] || a[|a| - 1] == '/' then a + b
    else a + "/" + b
  }

  /** `os.path.basename`: what follows the last separator. */
  function Basename(s: string): (r: string)
    ensures '/' !in r
    ensures |r| <= |s| && r == s[|s| - |r|..]
    decreases |s|
  {
    if s == [] || s[|s| - 1] == '/' then [] else Basename(s[..|s| - 1]) + [s[|s| - 1]]
  }

  lemma {:induction false} BasenameAfterSeparator(a: string, n: string)
    requires a == [] || a[|a| - 1] == '/'
    requires '/' !in n
    ensures Basename(a + n) == n
    decreases |n|
  {
    if n == [] {
      assert a + n == a;
    } else {
      assert (a + n)[..|a + n| - 1] == a + n[..|n| - 1];
      BasenameAfterSeparator(a, n[..|n| - 1]);
    }
  }

  /** Joining a name without separators, the base name is that name. */
  lemma BasenameOfJoin(a: string, n: string)
    requires '/' !in n
    ensures Basename(Join(a, n)) == n
  {
    if n != [] && n[0] == '/' {
      assert false;
    }
    assert !StartsWith(n, "/");
    if a == [] || a[|a| - 1] == '/' {
      BasenameAfterSeparator(a, n);
    } else {
      assert a + "/" + n == (a + "/") + n;
      BasenameAfterSeparator(a + "/", n);
    }
  }

  /** A path component as the layout expects one: not empty, no separator. */
  predicate Segment(s: string)
  {
    s != [] && '/' !in s
  }

  /** The package path: user, package name, version tag and release, joined
      in that order. */
  function CachePath(user: string, name: string, vsn: string, erl: string): string
  {
    Join(Join(Join(user, name), vsn), erl)
  }

  lemma JoinSegment(a: string, b: string)
    requires a != [] && a[|a| - 1] != '/' && Segment(b)
    ensures Join(a, b) == a + "/" + b
  {
    assert b[0] != '/';
  }

  /** With proper components, the path is the four components separated by
      single slashes. */
  lemma CachePathShape(user: string, name: string, vsn: string, erl: string)
    requires Segment(user) && Segment(name) && Segment(vsn) && Segment(erl)
    ensures CachePath(user, name, vsn, erl) == user + "/" + name + "/" + vsn + "/" + erl
  {
    JoinSegment(user, name);
    JoinSegment(user + "/" + name, vsn);
    JoinSegment(user + "/" + name + "/" + vsn, erl);
  }

  lemma CachePathShapeWhen(user: string, name: string, vsn: string, erl: string)
    ensures Segment(user) && Segment(name) && Segment(vsn) && Segment(erl) ==>
              CachePath(user, name, vsn, erl) == user + "/" + name + "/" + vsn + "/" + erl
  {
    if Segment(user) && Segment(name) && Segment(vsn) && Segment(erl) {
      CachePathShape(user, name, vsn, erl);
    }
  }

  /** Splitting at the last separator is unique. */
  lemma SplitAtLastSlash(x: string, y: string, x': string, y': string)
    requires '/' !in y && '/' !in y'
    requires x + "/" + y == x' + "/" + y'
    ensures x == x' && y == y'
  {
    var s, s' := x + "/" + y, x' + "/" + y';
    assert s[|x|] == '/' && s'[|x'|] == '/';
    assert forall i :: |x| < i < |s| ==> s[i] == y[i - |x| - 1];
    assert forall i :: |x'| < i < |s'| ==> s'[i] == y'[i - |x'| - 1];
    assert |y| == |y'|;
    assert x == s[..|x|] && x' == s'[..|x'|];
    assert y == s[|x| + 1..] && y' == s'[|x'| + 1..];
  }

  /** With proper components, two packages share a path exactly when they agree
      on user, name, version and release. */
  lemma CachePathInjective(u: string, n: string, v: string, e: string,
                           u': string, n': string, v': string, e': string)
    requires Segment(u) && Segment(n) && Segment(v) && Segment(e)
    requires Segment(u') && Segment(n') && Segment(v') && Segment(e')
    ensures CachePath(u, n, v, e) == CachePath(u', n', v', e') <==> u == u' && n == n' && v == v' && e == e'
  {
    if CachePath(u, n, v, e) == CachePath(u', n', v', e') {
      CachePathShape(u, n, v, e);
      CachePathShape(u', n', v', e');
      var a, b := u + "/" + n, u' + "/" + n';
      var ab, ab' := a + "/" + v, b + "/" + v';
      SplitAtLastSlash(ab, e, ab', e');
      SplitAtLastSlash(a, v, b, v');
      SplitAtLastSlash(u, n, u', n');
    }
  }

  /** Without that condition the layout is ambiguous: an empty name and an empty
      version give the same path. */
  lemma EmptyComponentCollides()
    ensures CachePath("u", "", "n", "e") == CachePath("u", "n", "", "e") == "u/n/e"
  {
    assert Join("u", "") == "u/";
    assert Join("u/", "n") == "u/n";
    assert Join("u/n", "e") == "u/n/e";
    assert Join("u", "n") == "u/n";
    assert Join("u/n", "") == "u/n/";
    assert Join("u/n/", "e") == "u/n/e";
  }

  // ---------------------------------------------------------------------------
  // Configuration.

  /** The validated configuration of one Artifactory cache. */
  datatype Settings = Settings(url: string, name: string, username: string,
                               password: Option<string>, apiKey: Option<string>, ssl: bool)
  {
    /** A username, at least one credential, and the SSL flag taken from the
        url. */
    predicate Valid()
    {
      username != "" && (Truthy(password) || Truthy(apiKey)) && (ssl <==> StartsWith(url, "https"))
    }
  }

  /** The checks of `ArtifactoryCache.__init__`, in their order: `url` and `name`
      must be present, `username` must be non-empty, and at least one of
      `password` and `api_key` must be non-empty. */
  function ParseConf(conf: map<string, string>): (r: Result<Settings, CacheError>)
    ensures "url" !in conf ==> r == Failure(KeyMissing("url"))
    ensures "url" in conf && "name" !in conf ==> r == Failure(KeyMissing("name"))
    ensures "url" in conf && "name" in conf && !Truthy(Lookup(conf, "username")) ==>
              r == Failure(UsernameRequired(conf["name"]))
    ensures "url" in conf && "name" in conf && Truthy(Lookup(conf, "username"))
            && !Truthy(Lookup(conf, "password")) && !Truthy(Lookup(conf, "api_key")) ==>
              r == Failure(CredentialRequired(conf["name"]))
    ensures r.Success? <==>
              "url" in conf && "name" in conf && Truthy(Lookup(conf, "username"))
              && (Truthy(Lookup(conf, "password")) || Truthy(Lookup(conf, "api_key")))
    ensures r.Success? ==>
              && r.value.Valid()
              && r.value.url == conf["url"] && r.value.name == conf["name"]
              && r.value.username == conf["username"]
              && r.value.password == Lookup(conf, "password") && r.value.apiKey == Lookup(conf, "api_key")
  {
    if "url" !in conf then Failure(KeyMissing("url"))
    else if "name" !in conf then Failure(KeyMissing("name"))
    else
      var username := Lookup(conf, "username");
      var password, apiKey := Lookup(conf, "password"), Lookup(conf, "api_key");
      if !Truthy(username) then Failure(UsernameRequired(conf["name"]))
      else if !Truthy(password) && !Truthy(apiKey) then Failure(CredentialRequired(conf["name"]))
      else Success(Settings(conf["url"], conf["name"], username.value, password, apiKey,
                            StartsWith(conf["url"], "https")))
  }

  /** Either credential alone is enough, whatever the other one is. */
  lemma EitherCredentialSuffices(url: string, name: string, user: string, secret: string, other: Option<string>)
    requires user != "" && secret != ""
    ensures ParseConf(map["url" := url, "name" := name, "username" := user, "password" := secret]).Success?
    ensures ParseConf(map["url" := url, "name" := name, "username" := user, "api_key" := secret]).Success?
  {
    var m1 := map["url" := url, "name" := name, "username" := user, "password" := secret];
    var m2 := map["url" := url, "name" := name, "username" := user, "api_key" := secret];
    assert Lookup(m1, "password") == Some(secret) && Lookup(m1, "username") == Some(user);
    assert Lookup(m2, "api_key") == Some(secret) && Lookup(m2, "username") == Some(user);
  }

  // ---------------------------------------------------------------------------
  // The remote store and the local files.

  /** The content of the remote repository. */
  datatype Store = Store(folders: set<string>, files: map<string, Bytes>)
  {
    /** `ArtifactoryPath(path).exists()`. */
    predicate Present(path: string)
    {
      path in folders || path in files
    }
  }

  class Repository {
    var folders: set<string>
    var files: map<string, Bytes>

    constructor (folders: set<string>, files: map<string, Bytes>)
      ensures this.folders == folders && this.files == files
    {
      this.folders := folders;
      this.files := files;
    }

    function State(): Store
      reads this
    {
      Store(folders, files)
    }
  }

  class LocalFiles {
    var files: map<string, Bytes>

    constructor (files: map<string, Bytes>)
      ensures this.files == files
    {
      this.files := files;
    }
  }

  /** The result of `add_package` and the store after it. */
  datatype Published = Published(result: Result<bool, CacheError>, store: Store)

  /** The outcome of `fetch_package` and the local files after it. */
  datatype Fetched = Fetched(outcome: Outcome<CacheError>, local: map<string, Bytes>)

  /** `<dir>/<name>.cp`. */
  function ArchiveIn(dir: string, name: string): string
  {
    Join(dir, name + ".cp")
  }

  /** The archive name `<name>.cp` has a separator only if the name has one. */
  lemma ArchiveNameNoSeparator(n: string)
    requires '/' !in n
    ensures '/' !in n + ".cp"
  {
    var f := n + ".cp";
    forall i | 0 <= i < |f|
      ensures f[i] != '/'
    {
      if i < |n| {
        assert f[i] == n[i];
      } else {
        assert f[i] == ".cp"[i - |n|];
      }
    }
  }

  /** Publishing into folder `dir` of store `s`: unless it skips because the
      folder exists and `rewrite` is false, the folder is created when absent
      and the local file `archive` is uploaded as `target`; a missing local file
      fails after the folder was created. The result is always true. */
  function PublishAt(s: Store, local: map<string, Bytes>, dir: string, archive: string, target: string,
                     rewrite: bool): (r: Published)
    ensures r.result.Success? ==> r.result.value
    ensures !rewrite && s.Present(dir) ==> r == Published(Success(true), s)
    ensures rewrite || !s.Present(dir) ==>
              && r.store.Present(dir)
              && (r.store.folders == if s.Present(dir) then s.folders else s.folders + {dir})
              && (archive !in local ==> r.result == Failure(NoSuchFile(archive)) && r.store.files == s.files)
              && (archive in local ==> r.result == Success(true) && r.store.files == s.files[target := local[archive]])
  {
    if !rewrite && s.Present(dir) then Published(Success(true), s)
    else
      var folders := if s.Present(dir) then s.folders else s.folders + {dir};
      if archive !in local then Published(Failure(NoSuchFile(archive)), Store(folders, s.files))
      else Published(Success(true), Store(folders, s.files[target := local[archive]]))
  }

  /** Publishing twice leaves the store as publishing once. (The results can
      differ: a failed upload without `rewrite` is skipped the second time.) */
  lemma PublishAtIdempotent(s: Store, local: map<string, Bytes>, dir: string, archive: string, target: string,
                            rewrite: bool)
    ensures var once := PublishAt(s, local, dir, archive, target, rewrite);
      PublishAt(once.store, local, dir, archive, target, rewrite).store == once.store
  {
    var once := PublishAt(s, local, dir, archive, target, rewrite);
    if rewrite || !s.Present(dir) {
      assert once.store.Present(dir);
      if archive in local {
        assert once.store.files[target := local[archive]] == once.store.files;
      }
    }
  }

  /** Fetching the remote file `remote` of store `s` to the local path `dest`:
      its bytes are written there, or, when it is missing, nothing changes. */
  function FetchFrom(s: Store, local: map<string, Bytes>, remote: string, dest: string): (r: Fetched)
    ensures remote !in s.files ==> r == Fetched(Fail(NotFound(remote)), local)
    ensures remote in s.files ==> r == Fetched(Pass, local[dest := s.files[remote]])
  {
    if remote !in s.files then Fetched(Fail(NotFound(remote)), local)
    else Fetched(Pass, local[dest := s.files[remote]])
  }

  class ArtifactoryCache {
    const name: string
    const tempDir: string
    /** The repository url. */
    const path: string
    const erlangVersion: Option<string>
    const username: string
    const password: Option<string>
    const apiKey: Option<string>
    const ssl: bool
    const repo: Repository
    const fs: LocalFiles

    ghost predicate Valid()
    {
      Config().Valid()
    }

    constructor (tempDir: string, s: Settings, erlangVersion: Option<string>, repo: Repository, fs: LocalFiles)
      requires s.Valid()
      ensures Valid()
      ensures this.tempDir == tempDir && this.erlangVersion == erlangVersion && this.repo == repo && this.fs == fs
      ensures Config() == s
    {
      this.name := s.name;
      this.tempDir := tempDir;
      this.path := s.url;
      this.erlangVersion := erlangVersion;
      this.username := s.username;
      this.password := s.password;
      this.apiKey := s.apiKey;
      this.ssl := s.ssl;
      this.repo := repo;
      this.fs := fs;
    }

    /** `ArtifactoryCache(temp_dir, conf)`: the checks of `ParseConf`, made in
        the same order, then the fields. The release string the base class
        detects is given as `erlangVersion`. */
    static method Create(tempDir: string, conf: map<string, string>, erlangVersion: Option<string>,
                         repo: Repository, fs: LocalFiles)
      returns (r: Result<ArtifactoryCache, CacheError>)
      ensures ParseConf(conf).Failure? ==> r == Failure(ParseConf(conf).error)
      ensures ParseConf(conf).Success? ==>
                && r.Success? && fresh(r.value) && r.value.Valid()
                && r.value.Config() == ParseConf(conf).value
                && r.value.tempDir == tempDir && r.value.erlangVersion == erlangVersion
                && r.value.repo == repo && r.value.fs == fs
    {
      if "url" !in conf {
        return Failure(KeyMissing("url"));
      }
      var url := conf["url"];
      if "name" !in conf {
        return Failure(KeyMissing("name"));
      }
      var name := conf["name"];
      var username := Lookup(conf, "username");
      if !Truthy(username) {
        return Failure(UsernameRequired(name));
      }
      var password := Lookup(conf, "password");
      var apiKey := Lookup(conf, "api_key");
      var ssl := StartsWith(url, "https");
      if !Truthy(password) && !Truthy(apiKey) {
        return Failure(CredentialRequired(name));
      }
      var c := new ArtifactoryCache(tempDir, Settings(url, name, username.value, password, apiKey, ssl),
                                    erlangVersion, repo, fs);
      return Success(c);
    }

    /** The configuration the cache was built from. */
    function Config(): Settings
    {
      Settings(path, name, username, password, apiKey, ssl)
    }

    /** The `password` property: the password when it is set and not empty,
        otherwise the API key; a valid cache always has a non-empty one. */
    function Password(): (r: string)
      requires Valid()
      ensures r != ""
      ensures Truthy(password) ==> Some(r) == password
      ensures !Truthy(password) ==> Some(r) == apiKey
    {
      if Truthy(password) then password.value else apiKey.value
    }

    /** `get_package_path(package)`; the join fails on a missing version tag or
        a missing release, the tag being checked first as it comes first. */
    function PackagePath(p: Package): (r: Result<string, CacheError>)
      ensures r.Failure? <==> p.gitVsn.None? || erlangVersion.None?
      ensures p.gitVsn.None? ==> r == Failure(NoVersionTag)
      ensures p.gitVsn.Some? && erlangVersion.None? ==> r == Failure(NoErlangVersion)
      ensures r.Success? && Segment(username) && Segment(p.name) && Segment(p.gitVsn.value)
              && Segment(erlangVersion.value) ==>
                r.value == username + "/" + p.name + "/" + p.gitVsn.value + "/" + erlangVersion.value
    {
      match (p.gitVsn, erlangVersion)
      case (None, _) => Failure(NoVersionTag)
      case (Some(_), None) => Failure(NoErlangVersion)
      case (Some(vsn), Some(erl)) =>
        CachePathShapeWhen(username, p.name, vsn, erl);
        Success(CachePath(username, p.name, vsn, erl))
    }

    /** The remote folder of a package: the package path under the repository
        url. */
    function PackageDir(p: Package): (r: Result<string, CacheError>)
      ensures r.Failure? <==> PackagePath(p).Failure?
      ensures r.Success? ==> r.value == Join(path, PackagePath(p).value)
    {
      match PackagePath(p)
      case Success(rel) => Success(Join(path, rel))
      case Failure(err) => Failure(err)
    }

    /** `exists(package)`: whether the package's remote folder is there. */
    function Exists(s: Store, p: Package): (r: Result<bool, CacheError>)
      ensures r.Failure? <==> p.gitVsn.None? || erlangVersion.None?
      ensures r.Failure? ==> r.error == PackagePath(p).error
      ensures r.Success? ==> (r.value <==> s.Present(PackageDir(p).value))
    {
      match PackageDir(p)
      case Success(dir) => Success(s.Present(dir))
      case Failure(err) => Failure(err)
    }

    /** The archive `add_package` uploads: `<name>.cp` inside the package's
        own directory. */
    function LocalArchive(p: Package): string
    {
      ArchiveIn(p.path, p.name)
    }

    /** `add_package(package, rewrite)` on store `s` with local files `local`:
        the package folder is the one `exists` checks, and the local archive is
        uploaded under its base name. */
    function Publish(s: Store, local: map<string, Bytes>, p: Package, rewrite: bool): (r: Published)
      ensures PackageDir(p).Failure? ==> r == Published(Failure(PackagePath(p).error), s)
      ensures PackageDir(p).Success? ==>
                r == PublishAt(s, local, PackageDir(p).value, LocalArchive(p), UploadTarget(p), rewrite)
    {
      match PackageDir(p)
      case Failure(err) => Published(Failure(err), s)
      case Success(dir) => PublishAt(s, local, dir, LocalArchive(p), UploadTarget(p), rewrite)
    }

    /** Where `deploy_file` puts the local archive: its base name inside the
        package folder. */
    function UploadTarget(p: Package): string
      requires PackageDir(p).Success?
    {
      Join(PackageDir(p).value, Basename(LocalArchive(p)))
    }

    /** `fetch_package(dep)` from store `s`: the remote `<name>.cp` in the
        package folder is copied to `<temp_dir>/<name>.cp`. */
    function Fetch(s: Store, local: map<string, Bytes>, d: Package): (r: Fetched)
      ensures PackageDir(d).Failure? ==> r == Fetched(Fail(PackagePath(d).error), local)
      ensures PackageDir(d).Success? ==>
                r == FetchFrom(s, local, ArchiveIn(PackageDir(d).value, d.name), ArchiveIn(tempDir, d.name))
    {
      match PackageDir(d)
      case Failure(err) => Fetched(Fail(err), local)
      case Success(dir) => FetchFrom(s, local, ArchiveIn(dir, d.name), ArchiveIn(tempDir, d.name))
    }

    /** `exists` only reads the store. */
    method ExistsNow(p: Package) returns (r: Result<bool, CacheError>)
      ensures r == Exists(repo.State(), p)
    {
      var dir := PackageDir(p);
      if dir.Failure? {
        return Failure(dir.error);
      }
      r := Success(dir.value in repo.folders || dir.value in repo.files);
    }

    /** `add_package(package, rewrite)` on the repository. */
    method AddPackage(p: Package, rewrite: bool) returns (r: Result<bool, CacheError>)
      modifies repo
      ensures Published(r, repo.State()) == Publish(old(repo.State()), fs.files, p, rewrite)
    {
      var dir := PackageDir(p);
      if dir.Failure? {
        return Failure(dir.error);
      }
      if !rewrite && (dir.value in repo.folders || dir.value in repo.files) {
        return Success(true);
      }
      if !(dir.value in repo.folders || dir.value in repo.files) {
        repo.folders := repo.folders + {dir.value};
      }
      var archive := LocalArchive(p);
      if archive !in fs.files {
        return Failure(NoSuchFile(archive));
      }
      repo.files := repo.files[UploadTarget(p) := fs.files[archive]];
      return Success(true);
    }

    /** `fetch_package(dep)` into the local files. */
    method FetchPackage(d: Package) returns (r: Outcome<CacheError>)
      modifies fs
      ensures Fetched(r, fs.files) == Fetch(repo.State(), old(fs.files), d)
    {
      var dir := PackageDir(d);
      if dir.Failure? {
        return Fail(dir.error);
      }
      var remote := ArchiveIn(dir.value, d.name);
      if remote !in repo.files {
        return Fail(NotFound(remote));
      }
      fs.files := fs.files[ArchiveIn(tempDir, d.name) := repo.files[remote]];
      r := Pass;
    }

    // -------------------------------------------------------------------------
    // What publishing and fetching promise.

    /** Publishing leaves the package existing, even when the upload itself
        fails after the folder was created. */
    lemma PublishedExists(s: Store, local: map<string, Bytes>, p: Package, rewrite: bool)
      requires p.gitVsn.Some? && erlangVersion.Some?
      ensures Exists(Publish(s, local, p, rewrite).store, p) == Success(true)
    {
    }

    /** A package whose archive is missing locally still exists afterwards, so a
        later `add_package(package, rewrite=False)` skips it. */
    lemma FailedUploadIsSkippedLater(s: Store, local: map<string, Bytes>, p: Package)
      requires p.gitVsn.Some? && erlangVersion.Some? && LocalArchive(p) !in local
      ensures var first := Publish(s, local, p, true);
        && first.result == Failure(NoSuchFile(LocalArchive(p)))
        && Publish(first.store, local, p, false) == Published(Success(true), first.store)
    {
    }

    /** Publishing twice is publishing once: the second call leaves the store as
        the first left it. */
    lemma PublishIdempotent(s: Store, local: map<string, Bytes>, p: Package, rewrite: bool)
      ensures var once := Publish(s, local, p, rewrite);
        Publish(once.store, local, p, rewrite).store == once.store
    {
      if PackageDir(p).Success? {
        PublishAtIdempotent(s, local, PackageDir(p).value, LocalArchive(p), UploadTarget(p), rewrite);
      }
    }

    /** The archive of a package whose name has no separator is uploaded to
        exactly the remote file that fetching the package reads. */
    lemma UploadTargetIsFetchSource(p: Package)
      requires PackageDir(p).Success? && '/' !in p.name
      ensures UploadTarget(p) == ArchiveIn(PackageDir(p).value, p.name)
    {
      var dir, file := PackageDir(p).value, p.name + ".cp";
      ArchiveNameNoSeparator(p.name);
      BasenameOfJoin(p.path, file);
      assert Basename(LocalArchive(p)) == file;
      assert UploadTarget(p) == Join(dir, file);
    }

    /** Publishing a package, with `rewrite` or into a store where its folder is
        absent, and fetching it back writes the local archive's bytes to
        `<temp_dir>/<name>.cp`. */
    lemma PublishThenFetch(s: Store, local: map<string, Bytes>, p: Package, rewrite: bool)
      requires p.gitVsn.Some? && erlangVersion.Some? && '/' !in p.name && LocalArchive(p) in local
      requires rewrite || !s.Present(PackageDir(p).value)
      ensures var pub := Publish(s, local, p, rewrite);
        && pub.result == Success(true)
        && Fetch(pub.store, local, p) == Fetched(Pass, local[ArchiveIn(tempDir, p.name) := local[LocalArchive(p)]])
    {
      UploadTargetIsFetchSource(p);
    }
  }

  /** The round trip as the client sees it: a package uploaded with
      `add_package`, then fetched with `fetch_package`, lands in the temp
      directory with the bytes it was uploaded from. Without `rewrite` this
      needs the package's folder to be absent beforehand, as it is in a store
      emptied between runs; otherwise the upload is skipped. */
  method PublishAndFetch(c: ArtifactoryCache, p: Package, rewrite: bool)
    returns (added: Result<bool, CacheError>, fetched: Outcome<CacheError>)
    requires p.gitVsn.Some? && c.erlangVersion.Some? && '/' !in p.name && c.LocalArchive(p) in c.fs.files
    requires rewrite || !c.repo.State().Present(c.PackageDir(p).value)
    modifies c.repo, c.fs
    ensures added == Success(true) && fetched == Pass
    ensures c.fs.files == old(c.fs.files)[ArchiveIn(c.tempDir, p.name) := old(c.fs.files)[c.LocalArchive(p)]]
  {
    added := c.AddPackage(p, rewrite);
    c.PublishThenFetch(old(c.repo.State()), c.fs.files, p, rewrite);
    fetched := c.FetchPackage(p);
  }
}
