# walrus / coon package manager core, in Dafny

This project models the core of the walrus/coon Erlang package manager. Those
are four Python files:

- **The cache base** (`walrus/pac_cache/cache.py`): the three kinds of cache
  backend, the abstract backend contract, and how the Erlang/OTP release
  reported by `erl` is normalised into the tag that keys cached artifacts.
  Module `CacheBase`, file `cache.dfy`.
- **The builder** (`walrus/packages/package_builder.py`): `populate` walks the
  dependency tree, getting each dependency from the cache or fetching it.
  `build_tree` is the recursive, memoised, post-order build. A dependency that
  is not cached is built first, then every dependency is linked into the
  package's build directory. The package is then compiled and, on success,
  added to the cache. Module `PackageBuilder`, file `builder.dfy`.
- **The Artifactory backend** (`coon/pac_cache/artifactory_cache.py`):
  - configuration checks and credential choice;
  - the `user/name/version/release` layout of the remote store;
  - `exists`, `add_package` (publish) and `fetch_package`.
  
  Module `ArtifactoryBackend`, file `artifactory.dfy`.
- **The coon package configuration** (`coon/packages/config/coon.py`): turning
  a decoded `coonfig.json` object into the package's attributes. Module
  `CoonConfigModel`, file `coon.dfy`.

`wrappers.dfy` (module `Wrappers`) holds `Option`, `Result` and `Outcome` and
one lemma about regrouping concatenations. Python exceptions become error values
of these types.

The builder's collaborators are abstract:
- **The cache** is `CacheBase.Cache`. Its state is the set of package names it
  holds.
- **The compiler** is an oracle `string -> bool`.
- **The packages** form a static graph. It maps a name to its ordered
  dependency names and its build directory.

The builder records every call it makes to these collaborators in its
`trace` field. `BuildTree` and `PopulateDeps` are proved against ghost
specification functions (`Build`, `DepsLoop`, `Populated`), and the lemmas
state what `build_tree` and `populate` promise about those functions.

The Artifactory HTTP client becomes an in-memory `Repository`, holding a set of
folders and a map from file path to bytes. The local file system becomes
`LocalFiles`. Each method on these objects is tied to a pure function on their
contents (`Exists`, `Publish`, `Fetch`), and the round trip and idempotence
lemmas are about those functions.

Four behaviours of the code deserve a note, because a reader might expect
otherwise:
- **Credentials.** The Artifactory configuration is accepted when `username`
  is non-empty and at least one of `password` and `api_key` is non-empty.
  Either one alone is enough, and `password` is preferred when both are set
  (`ParseConf`, `EitherCredentialSuffices`, `ArtifactoryCache.Password`).
- **Population.** `populate` visits every occurrence of a dependency in the
  tree, in pre-order, with no deduplication (`PopulateVisitsPreorder`). Under
  the model's assumption that getting and fetching leave the cache's contents
  unchanged, a dependency shared by two packages is therefore fetched twice
  (`SharedDependencyVisitedTwice`). A cache whose fetch makes the package exist
  would answer the second visit with a get instead.
- **Cycles.** `populate` and `build_tree` recurse without any guard. On a
  dependency cycle they recurse until Python's recursion limit raises
  `RecursionError`. The model excludes cycles by requiring a ranked, acyclic
  graph (`Env.Valid`), and its theorems hold on such graphs.
- **Publishing.** `add_package` creates the folder that `exists` checks before
  it uploads the archive. An upload whose local archive is missing therefore
  fails but still makes the package exist, and a later
  `add_package(p, rewrite=False)` skips it (`PublishedExists`,
  `FailedUploadIsSkippedLater`).

## Model

| member | source | states |
|---|---|---|
| CacheBase.CacheType.Value | walrus/pac_cache/cache.py:9-12 | each backend kind has one of the three configuration strings `local`, `artifactory`, `s3` |
| CacheBase.CacheTypeOf | walrus/pac_cache/cache.py:9-12 | `CacheType(s)` succeeds exactly for the three strings, and the kind found has `s` as its value; any other string is refused |
| CacheBase.CacheTypeRoundTrip | walrus/pac_cache/cache.py:9-12 | from a kind to its string and back gives the same kind |
| CacheBase.CacheTypeValuesDistinct | walrus/pac_cache/cache.py:9-12 | different kinds have different strings |
| CacheBase.StripLeading | walrus/pac_cache/cache.py:50 | the result is a suffix of the input, what it drops is all whitespace, and it does not start with whitespace |
| CacheBase.StripTrailing | walrus/pac_cache/cache.py:50 | the result is a prefix of the input, what it drops is all whitespace, and it does not end with whitespace |
| CacheBase.Strip | walrus/pac_cache/cache.py:50 | `strip()` never lengthens, and its result neither starts nor ends with whitespace |
| CacheBase.StripUnique | walrus/pac_cache/cache.py:50 | any whitespace around a text that neither starts nor ends with whitespace is exactly what `strip()` removes |
| CacheBase.DeleteQuotes | walrus/pac_cache/cache.py:51 | `translate` leaves no double quote, shortens the text by exactly its number of quotes (so it deletes them, not replaces them), and changes nothing in a text without quotes |
| CacheBase.DeleteQuotesAppend | walrus/pac_cache/cache.py:51 | deleting quotes works piecewise over a concatenation |
| CacheBase.ErlangVersion | walrus/pac_cache/cache.py:44-54 | the release is None exactly when `erl` exits non-zero; otherwise it contains no double quote |
| CacheBase.DisplayedRelease | walrus/pac_cache/cache.py:46-51 | for `erl`'s output of a quoted release surrounded by any whitespace, the detected version is exactly the text between the quotes |
| CacheBase.UnquoteQuoted | walrus/pac_cache/cache.py:51 | deleting the quotes around a text without quotes gives back exactly that text |
| CacheBase.NormalisationNotIdempotent | walrus/pac_cache/cache.py:50-51 | the strip happens before quotes are deleted, so whitespace inside the quotes survives, and normalising the result again changes it |
| CacheBase.Cache.constructor | walrus/pac_cache/cache.py:20-23 | the release is detected from the `erl` query, and the temp dir and path are stored |
| CacheBase.Cache.Exists | walrus/pac_cache/cache.py:25-27 | `exists` answers whether the backend holds the package |
| CacheBase.Cache.FetchPackage | walrus/pac_cache/cache.py:29-31 | fetching leaves the backend's contents unchanged (an assumption of the model, see "Left out") |
| CacheBase.Cache.GetPackage | walrus/pac_cache/cache.py:33-35 | getting leaves the backend's contents unchanged (an assumption of the model, see "Left out") |
| CacheBase.Cache.AddPackage | walrus/pac_cache/cache.py:37-39 | adding a package makes it exist and adds nothing else |
| CacheBase.Cache.LinkPackage | walrus/pac_cache/cache.py:41-42 | the default `link_package` changes nothing |
| PackageBuilder.Build | walrus/packages/package_builder.py:41-55 | reference definition of `build_tree`: memoised return, the dependency loop, then compile and add on success; its properties are the lemmas below, and `Builder.BuildTree` is proved equal to it |
| PackageBuilder.DepsLoop | walrus/packages/package_builder.py:45-50 | reference definition of the dependency loop over the first `k` dependencies, stopping at the first raise |
| PackageBuilder.Sub | walrus/packages/package_builder.py:47-48 | a dependency that is cached is left alone; otherwise it is built |
| PackageBuilder.Step | walrus/packages/package_builder.py:47-50 | one loop iteration: a false build raises naming the dependency, a raise propagates, otherwise the dependency is linked |
| PackageBuilder.CompileTail | walrus/packages/package_builder.py:51-55 | the compile call, followed by the add call exactly when the compiler succeeds |
| PackageBuilder.RaisedSticks | walrus/packages/package_builder.py:47-49 | once the dependency loop has raised, later dependencies change nothing |
| PackageBuilder.LoopRaises | walrus/packages/package_builder.py:45-49 | a dependency build that does not return true ends the whole build: it raises naming that dependency, or propagates the raise |
| PackageBuilder.LoopLinks | walrus/packages/package_builder.py:45-50 | a dependency that is cached or builds successfully is linked into the package's build directory next |
| PackageBuilder.BuildCompiles | walrus/packages/package_builder.py:51-55 | after a loop that runs through, the package is compiled once and added exactly when it compiles |
| PackageBuilder.TailFacts | walrus/packages/package_builder.py:51-55 | the compile-then-add tail adds the package exactly when it compiles, and is well ordered |
| PackageBuilder.LinkFacts | walrus/packages/package_builder.py:50 | a link of a cached dependency adds nothing and keeps the trace well ordered |
| PackageBuilder.BuildTracked | walrus/packages/package_builder.py:41-55 | the cache grows by exactly what the build adds; the result is true exactly when the package is cached afterwards; a raise or a false result ends with the failed compile |
| PackageBuilder.DepsTracked | walrus/packages/package_builder.py:45-50 | the same bookkeeping for the dependency loop, which either runs through or raises |
| PackageBuilder.SubTracked | walrus/packages/package_builder.py:47-48 | the same bookkeeping for one dependency, whether it was cached or is built |
| PackageBuilder.StepTracked | walrus/packages/package_builder.py:46-50 | one iteration of the loop keeps the bookkeeping |
| PackageBuilder.BuildOrdered | walrus/packages/package_builder.py:41-55 | in the build's calls every linked dependency is cached when linked, no package is compiled while cached, every add directly follows its package's successful compile and every successful compile is directly followed by its add, a failed compile ends the run, and a true result has no failed compile |
| PackageBuilder.DepsOrdered | walrus/packages/package_builder.py:45-50 | the same ordering for the dependency loop |
| PackageBuilder.SubOrdered | walrus/packages/package_builder.py:47-48 | the same ordering for one dependency |
| PackageBuilder.StepOrdered | walrus/packages/package_builder.py:46-50 | one iteration of the loop keeps the ordering |
| PackageBuilder.BuildFacts | walrus/packages/package_builder.py:41-55 | the bookkeeping and the ordering together, for a whole build |
| PackageBuilder.DepsFacts | walrus/packages/package_builder.py:45-50 | the bookkeeping and the ordering together, for the dependency loop |
| PackageBuilder.BuildMemoised | walrus/packages/package_builder.py:43-44 | a package already cached returns true with no call to compiler or cache |
| PackageBuilder.BuildResultMeansCached | walrus/packages/package_builder.py:41-55 | the result is true exactly when the package is cached afterwards; the cache only grows, by exactly the packages added, each right after its own successful compile |
| PackageBuilder.CompiledAtMostOnce | walrus/packages/package_builder.py:41-55 | within one top-level build no package is compiled twice, and none cached at the start is compiled |
| PackageBuilder.LinkedAfterBuilt | walrus/packages/package_builder.py:45-50 | every link is of a dependency that was cached at the start or compiled and added earlier in the same build |
| PackageBuilder.LinkedInOrder | walrus/packages/package_builder.py:45-50 | a loop that runs through links each dependency into the package's directory, in declaration order |
| PackageBuilder.BuildUncached | walrus/packages/package_builder.py:45-55 | for an uncached package, a raise means no compile and no add; otherwise every dependency is linked, in order, before the single compile, and the result is the compiler's verdict |
| PackageBuilder.Visit | walrus/packages/package_builder.py:34-37 | a cached dependency is got, any other one is fetched |
| PackageBuilder.Populated | walrus/packages/package_builder.py:30-38 | reference definition of the calls of `__populate_deps`: per dependency in order, its get-or-fetch, then the recursion into its dependencies, with the cache's contents fixed (the model's assumption on get and fetch); `Builder.PopulateDeps` is proved equal to it |
| PackageBuilder.Preorder | walrus/packages/package_builder.py:30-38 | independent reference: the dependency occurrences in pre-order, every occurrence kept, which `PopulateVisitsPreorder` relates to `Populated` |
| PackageBuilder.PopulatedStep | walrus/packages/package_builder.py:31-38 | one more dependency extends the calls by its get-or-fetch and the recursion into its own dependencies |
| PackageBuilder.PopulateVisitsPreorder | walrus/packages/package_builder.py:30-38 | population visits every dependency occurrence in pre-order and declaration order, without deduplication; it calls `get_package` exactly for the ones cached before population and `fetch_package` for the rest (under the model's assumption that get and fetch keep the cache's contents) |
| PackageBuilder.SharedDependencyVisitedTwice | walrus/packages/package_builder.py:30-38 | with an empty cache that fetching does not fill, a dependency shared by two packages is fetched twice |
| PackageBuilder.Builder.constructor | walrus/packages/package_builder.py:13-16 | the builder keeps its path and its collaborators and starts with no calls made |
| PackageBuilder.Builder.BuildTree | walrus/packages/package_builder.py:41-55 | `build_tree` returns, leaves the cache and issues the calls exactly as the specification `Build` says, so every lemma above holds of it |
| PackageBuilder.Builder.PopulateDeps | walrus/packages/package_builder.py:30-38 | `__populate_deps` issues exactly the calls of `Populated`, leaving the cache as it was (given the model's assumption on get and fetch) |
| PackageBuilder.Builder.Populate | walrus/packages/package_builder.py:25-28 | `populate` returns the top-level package after populating its dependencies |
| ArtifactoryBackend.Lookup | coon/pac_cache/artifactory_cache.py:13-17 | `conf.get(key, None)` is present exactly when the key is, with the key's value |
| ArtifactoryBackend.Join | coon/pac_cache/artifactory_cache.py:44 | a join ends with its last component, and starts with its first unless the last is absolute |
| ArtifactoryBackend.Basename | coon/pac_cache/artifactory_cache.py:55 | the base name that `deploy_file` uploads under is the suffix after the last separator |
| ArtifactoryBackend.BasenameAfterSeparator | coon/pac_cache/artifactory_cache.py:55 | a name after a separator is its own base name |
| ArtifactoryBackend.BasenameOfJoin | coon/pac_cache/artifactory_cache.py:54-55 | the archive `<dir>/<name>.cp` is uploaded under `<name>.cp` |
| ArtifactoryBackend.CachePath | coon/pac_cache/artifactory_cache.py:43-44 | the package path: user, name, version tag and release joined in order; `CachePathShape` and `CachePathInjective` are about it |
| ArtifactoryBackend.JoinSegment | coon/pac_cache/artifactory_cache.py:44 | joining a proper component inserts exactly one separator |
| ArtifactoryBackend.CachePathShape | coon/pac_cache/artifactory_cache.py:43-44 | with proper components the package path is `user/name/version/release` |
| ArtifactoryBackend.CachePathShapeWhen | coon/pac_cache/artifactory_cache.py:43-44 | the same, as an implication for all components |
| ArtifactoryBackend.SplitAtLastSlash | coon/pac_cache/artifactory_cache.py:43-44 | a path splits at its last separator in one way only |
| ArtifactoryBackend.CachePathInjective | coon/pac_cache/artifactory_cache.py:43-44 | with proper components, two packages share a path if and only if they agree on user, name, version and release |
| ArtifactoryBackend.EmptyComponentCollides | coon/pac_cache/artifactory_cache.py:43-44 | with an empty component the layout is ambiguous: two different packages share a path |
| ArtifactoryBackend.ParseConf | coon/pac_cache/artifactory_cache.py:10-20 | `url` and `name` must be present, `username` non-empty, and one of `password`/`api_key` non-empty, checked in that order with the source's errors; success carries the fields, with SSL exactly when the url starts with `https` |
| ArtifactoryBackend.EitherCredentialSuffices | coon/pac_cache/artifactory_cache.py:16-20 | a password alone or an API key alone is accepted |
| ArtifactoryBackend.Store.Present | coon/pac_cache/artifactory_cache.py:41 | a remote path exists when it is a folder or a file of the store |
| ArtifactoryBackend.Repository.constructor | coon/pac_cache/artifactory_cache.py:39-41 | the in-memory repository starts with the given folders and files |
| ArtifactoryBackend.LocalFiles.constructor | coon/pac_cache/artifactory_cache.py:61-64 | the local file system starts with the given files |
| ArtifactoryBackend.ArchiveIn | coon/pac_cache/artifactory_cache.py:54 | the archive path `<dir>/<name>.cp` |
| ArtifactoryBackend.ArchiveNameNoSeparator | coon/pac_cache/artifactory_cache.py:54 | an archive name `<name>.cp` contains a separator only when the package name does |
| ArtifactoryBackend.PublishAt | coon/pac_cache/artifactory_cache.py:46-56 | publishing skips when the folder exists and rewrite is off; otherwise it creates the folder if absent and uploads the archive, failing after the folder is created when the archive is missing; a success is always true |
| ArtifactoryBackend.PublishAtIdempotent | coon/pac_cache/artifactory_cache.py:46-56 | publishing twice leaves the store as publishing once |
| ArtifactoryBackend.FetchFrom | coon/pac_cache/artifactory_cache.py:62-64 | the remote file's bytes are written to the local path, or, when it is missing, nothing changes and the fetch fails |
| ArtifactoryBackend.ArtifactoryCache.constructor | coon/pac_cache/artifactory_cache.py:18-21 | the cache keeps the validated settings, the temp dir and the detected release |
| ArtifactoryBackend.ArtifactoryCache.Create | coon/pac_cache/artifactory_cache.py:10-21 | `ArtifactoryCache(temp_dir, conf)` fails with `ParseConf`'s error, or builds a valid cache from exactly its settings |
| ArtifactoryBackend.ArtifactoryCache.Password | coon/pac_cache/artifactory_cache.py:27-32 | the secret is the password when it is set and non-empty, otherwise the API key, and never empty |
| ArtifactoryBackend.ArtifactoryCache.PackagePath | coon/pac_cache/artifactory_cache.py:43-44 | the package path fails with a `TypeError` exactly when the package has no version tag or no release was detected, the tag being checked first; otherwise it is `user/name/version/release` for proper components |
| ArtifactoryBackend.ArtifactoryCache.PackageDir | coon/pac_cache/artifactory_cache.py:39 | the package folder is the package path joined under the repository url |
| ArtifactoryBackend.ArtifactoryCache.Exists | coon/pac_cache/artifactory_cache.py:38-41 | `exists` is true exactly when the package folder is present, and fails, with the package path's error, exactly when the package has no version tag or no release was detected |
| ArtifactoryBackend.ArtifactoryCache.Publish | coon/pac_cache/artifactory_cache.py:46-56 | `add_package` publishes into the folder `exists` checks, uploading the local `<path>/<name>.cp` |
| ArtifactoryBackend.ArtifactoryCache.LocalArchive | coon/pac_cache/artifactory_cache.py:54 | the archive `add_package` uploads: `<name>.cp` in the package's directory |
| ArtifactoryBackend.ArtifactoryCache.UploadTarget | coon/pac_cache/artifactory_cache.py:55 | where the upload lands: the archive's base name inside the package folder; `UploadTargetIsFetchSource` relates it to the fetch source |
| ArtifactoryBackend.ArtifactoryCache.Fetch | coon/pac_cache/artifactory_cache.py:58-64 | `fetch_package` copies the remote `<name>.cp` from the package folder to `<temp_dir>/<name>.cp` |
| ArtifactoryBackend.ArtifactoryCache.ExistsNow | coon/pac_cache/artifactory_cache.py:38-41 | `exists` answers as `Exists` on the current store and changes nothing |
| ArtifactoryBackend.ArtifactoryCache.AddPackage | coon/pac_cache/artifactory_cache.py:46-56 | the result and the new store are those of `Publish` on the old store |
| ArtifactoryBackend.ArtifactoryCache.FetchPackage | coon/pac_cache/artifactory_cache.py:58-64 | the outcome and the new local files are those of `Fetch` on the old files |
| ArtifactoryBackend.ArtifactoryCache.PublishedExists | coon/pac_cache/artifactory_cache.py:46-56 | after publishing, the package exists, even when the upload itself failed |
| ArtifactoryBackend.ArtifactoryCache.FailedUploadIsSkippedLater | coon/pac_cache/artifactory_cache.py:47-55 | an upload whose local archive is missing fails, and a later publish without rewrite then skips the package |
| ArtifactoryBackend.ArtifactoryCache.PublishIdempotent | coon/pac_cache/artifactory_cache.py:46-56 | publishing a package twice leaves the store as publishing it once |
| ArtifactoryBackend.ArtifactoryCache.UploadTargetIsFetchSource | coon/pac_cache/artifactory_cache.py:54-60 | for a name without separators, the uploaded file is exactly the remote file `fetch_package` reads |
| ArtifactoryBackend.ArtifactoryCache.PublishThenFetch | coon/pac_cache/artifactory_cache.py:46-64 | publishing, with rewrite or into a store without the package's folder, and then fetching writes the local archive's bytes to `<temp_dir>/<name>.cp` |
| ArtifactoryBackend.PublishAndFetch | test/test_artifactory_cache.py:83-95 | an upload with or without `rewrite` into a store without the package's folder (the test's store is emptied by its tear-down), followed by a download, succeeds and leaves exactly the uploaded bytes in the temp directory |
| CoonConfigModel.Get | coon/packages/config/coon.py:16-23 | `dict.get(key, default)` is the key's value when present and the default otherwise |
| CoonConfigModel.DepEntries | coon/packages/config/coon.py:43 | iterating the declared deps yields a list's items, nothing for an empty string or object, and fails otherwise |
| CoonConfigModel.DepEntry | coon/packages/config/coon.py:44-45 | an entry succeeds exactly when it is an object with `name`, `url` and `tag` and a hashable name; the keys are looked up in that order, with the source's errors |
| CoonConfigModel.InsertDeps | coon/packages/config/coon.py:42-45 | reference definition of the dependency loop: entries inserted in order, stopping at the first malformed one; the `InsertDeps*` lemmas state its properties |
| CoonConfigModel.InsertDepsSucceeds | coon/packages/config/coon.py:42-45 | the table is built exactly when every entry is well formed |
| CoonConfigModel.InsertDepsFirstError | coon/packages/config/coon.py:42-45 | a failure reports the error of the first malformed entry |
| CoonConfigModel.InsertDepsKeys | coon/packages/config/coon.py:42-45 | the table's keys are exactly the earlier keys and the entries' names |
| CoonConfigModel.InsertDepsLastWins | coon/packages/config/coon.py:45 | each name maps to the `(url, tag)` of its last entry |
| CoonConfigModel.InsertDepsKeepsOthers | coon/packages/config/coon.py:42-45 | a key no entry names keeps its value |
| CoonConfigModel.InsertDepsFailureSticks | coon/packages/config/coon.py:42-45 | after a failed entry, later entries change nothing |
| CoonConfigModel.LaterEntryOverwrites | coon/packages/config/coon.py:45 | two entries with the same name leave the second in the table |
| CoonConfigModel.PrebuildSteps | coon/packages/config/coon.py:48 | iterating `prebuild` yields a list's items, nothing for an empty string or object, and fails otherwise with the source's errors |
| CoonConfigModel.SingleKey | coon/packages/config/coon.py:49 | a one-key object has one key |
| CoonConfigModel.TheKey | coon/packages/config/coon.py:49 | the key unpacked from a one-key object is its only key |
| CoonConfigModel.StepAction | coon/packages/config/coon.py:49-50 | a step gives an action exactly when it is an object with one key; the action is that key and its parameters |
| CoonConfigModel.Actions | coon/packages/config/coon.py:47-50 | reference definition of the prebuild loop: one action per step in order, stopping at the first malformed step; `ActionsPerStep` states its properties |
| CoonConfigModel.ActionsPerStep | coon/packages/config/coon.py:47-50 | success means every step is well formed, and then there is one action per step, in step order; a failure carries the first bad step's error |
| CoonConfigModel.ActionsFailureSticks | coon/packages/config/coon.py:47-50 | after a failed step, later steps change nothing |
| CoonConfigModel.Prebuild | coon/packages/config/coon.py:48 | without `prebuild` there are no actions |
| CoonConfigModel.DepTable | coon/packages/config/coon.py:20 | without `deps` the table is empty |
| CoonConfigModel.UrlArg | coon/packages/config/coon.py:23 | the `url` argument, None when it is not given |
| CoonConfigModel.Declared | coon/packages/config/coon.py:20 | the table built from the declared dependencies, or the error iterating or inserting them |
| CoonConfigModel.Parse | coon/packages/config/coon.py:13-23 | `name` is required; errors come in the order name, prebuild, deps; the flags default to true, the build variables to empty lists and the versions to None; the configuration's `url` overrides the argument |
| CoonConfigModel.ParseSucceeds | coon/packages/config/coon.py:13-23 | with a name, prebuild actions and a table, the configuration is exactly those plus the defaults |
| CoonConfigModel.NameOnly | coon/packages/config/coon.py:13-23 | a configuration with only a name gets every default |
| CoonConfigModel.DepsFromList | coon/packages/config/coon.py:20 | for a list of entries, parsing succeeds exactly when all are well formed; the table's keys are exactly their names, each with its last entry's `(url, tag)` |
| CoonConfigModel.PrebuildFromList | coon/packages/config/coon.py:18 | for a list of steps, parsing succeeds exactly when all are well formed, with one action per step in order |
| CoonConfigModel.CoonConfig.constructor | coon/packages/config/coon.py:14 | the base initialiser starts with no dependencies and no prebuild actions |
| CoonConfigModel.CoonConfig.FromDict | coon/packages/config/coon.py:13-23 | `CoonConfig(config, url)` fails with `Parse`'s error or has exactly `Parse`'s attributes |
| CoonConfigModel.CoonConfig.Init | coon/packages/config/coon.py:13-23 | the attributes are set step by step, failing where `Parse` fails with the same error, and otherwise ending as `Parse` says |
| CoonConfigModel.CoonConfig.InitHead | coon/packages/config/coon.py:15-18 | the name and the two flags are set, then the prebuild actions |
| CoonConfigModel.CoonConfig.InitTail | coon/packages/config/coon.py:19-23 | the build variables are set, then the dependency table, the two versions and the url |
| CoonConfigModel.CoonConfig.ParsePrebuild | coon/packages/config/coon.py:47-50 | one action is appended per step, in step order, or the first bad step's error is raised |
| CoonConfigModel.CoonConfig.ParseBuildVars | coon/packages/config/coon.py:52-54 | both build-variable lists are read, defaulting to empty |
| CoonConfigModel.CoonConfig.ParseDeps | coon/packages/config/coon.py:42-45 | entries are inserted into the table in order, or the first bad entry's error is raised |
| CoonConfigModel.CoonConfig.NeedCoonsify | coon/packages/config/coon.py:36-37 | a coon configuration never needs conversion |
| CoonConfigModel.CoonConfig.GetCompiler | coon/packages/config/coon.py:39-40 | the compiler is always the coon compiler |

## Left out

- **`Cache.get_erlang_version`'s subprocess.** The `erl` call is replaced by its
  exit code and its standard output, which become parameters. The output is
  taken as already decoded, so UTF-8 decoding is not modelled. The failure
  message print is dropped.
- **Artifactory HTTP client.** `ArtifactoryPath` (HTTP existence, mkdir, deploy,
  open) is replaced by the in-memory `Repository`:
  - authentication is not modelled;
  - parent folders are not created implicitly;
  - network failures are not modelled.
- **Local file system.** It is a map from path to bytes (`LocalFiles`).
- **`fetch_package`'s last step.** The call to `dep.update_from_package(write_path)`
  is not modelled. `Package` is not part of this model.
- **Base class of the Artifactory backend.** `coon/pac_cache/cache.py` is not part
  of this model. The model assumes its three-argument initialiser stores the
  name, temp dir and url as plain fields, and that it detects the release as
  `walrus/pac_cache/cache.py` does. The detected release is passed in.
- **`username` and `ssl` properties.** Both are modelled as the stored fields
  they return.
- **Configuration values.** They are strings only; a non-string value's
  truthiness is not modelled.
- **Walrus conversion.** `Builder.walrusify`, `read_project` and
  `WalrusGlobalProperties` are outside the core. The builder is given its cache,
  its compiler and its package graph directly.
- **`Builder.packages`.** It is only read, to decide whether to print
  `new dep`, and never written. The print and the check are dropped.
- **Prints.** All prints are dropped.
- **Concurrency.** The parallelisation the source leaves as a TODO is not
  modelled.
- **Dependency cycles.** The source has no cycle guard. On a cycle its
  recursion goes on until Python's recursion limit raises `RecursionError`. The
  model excludes cycles by requiring an acyclic graph, ranked so that every
  dependency is below its dependent (`Env.Valid`), and does not model the
  `RecursionError`.
- **Package loading and the compiler.** `Package.frompath`, `Package.list_deps`,
  `package.deps` and `get_compiler`/`compile` are not part of this model.
  - The package graph gives each package's dependencies in declaration order.
  - The compiler is an oracle.
  - `populate` and `build_tree` read the same dependency order.
- **Reading the configuration.** `CoonConfig.from_path` and
  `CoonConfig.from_package` read files, tar archives and JSON text, and are not
  modelled. The model starts from the decoded object.
- **Decoded JSON values.**
  - JSON object key order is not modelled; objects are maps.
  - Python's key equality across types (`True == 1 == 1.0`) is not modelled.
  - `dict` iteration order over the declared deps is not modelled.
- **Prebuild actions.** `action_factory.get_action` is not modelled. An action is
  the `(type, params)` pair it is given.
- **`ConfigFile` and `set_url`.** `ConfigFile` is not part of this model. Its
  initialiser is assumed to set `deps = {}` and `prebuild = []`, and `set_url`
  to store its argument.
- **Get and fetch keep the cache's contents.** The abstract base class makes no
  promise here. The model assumes that `get_package` and `fetch_package` never
  change what `exists` reports (`CacheBase.Cache.GetPackage`,
  `CacheBase.Cache.FetchPackage`), and `populate`'s lemmas rely on this. The
  builder's cache is the system cache, a chain of tiers whose fetch is not
  modelled. That fetch may make a fetched package exist in the local tier, so
  `PopulateVisitsPreorder`, `Populated`, `Builder.PopulateDeps` and
  `SharedDependencyVisitedTwice` hold only under this assumption.
- PublishAtIdempotent: states idempotence of the store only. The results of the
  two calls can differ: a failed upload with `rewrite=False` is reported as a
  success the second time.
- PublishIdempotent: states idempotence of the store only, for the same reason.
