/** The cache base of walrus/pac_cache/cache.py: the kinds of backend, the
    abstract backend contract, and the normalisation of the Erlang/OTP release
    string that every backend keys its artifacts by. */
module CacheBase {
  import opened Wrappers

  /** The three kinds of cache backend, each with the string used for it in the
      global configuration. */
  datatype CacheType = Local | Artifactory | S3 {
    function Value(): (s: string)
      ensures s == "local" || s == "artifactory" || s == "s3"
    {
      match this
      case Local => "local"
      case Artifactory => "artifactory"
      case S3 => "s3"
    }
  }

  /** `CacheType(s)`: the kind whose value is `s`; Python raises ValueError for
      any other string, modelled as None. */
  function CacheTypeOf(s: string): (r: Option<CacheType>)
    ensures r.Some? <==> s == "local" || s == "artifactory" || s == "s3"
    ensures r.Some? ==> r.value.Value() == s
  {
    if s == "local" then Some(Local)
    else if s == "artifactory" then Some(Artifactory)
    else if s == "s3" then Some(S3)
    else None
  }

  /** From a kind to its string and back. */
  lemma CacheTypeRoundTrip(t: CacheType)
    ensures CacheTypeOf(t.Value()) == Some(t)
  {
  }

  /** Different kinds have different strings. */
  lemma CacheTypeValuesDistinct(t: CacheType, u: CacheType)
    requires t != u
    ensures t.Value() != u.Value()
  {
  }

  // ---------------------------------------------------------------------------
  // The release string: the decoded output of the query, stripped of
  // surrounding whitespace, then with every double quote deleted.

  /** The characters Python's `str.isspace` accepts, which `str.strip()`
      removes. */
  predicate IsSpace(c: char)
  {
    c == ' ' || c == '\t' || c == '\n' || c == '\r' || c == '\U{0B}' || c == '\U{0C}'
    || ('\U{1C}' <= c <= '\U{1F}') || c == '\U{85}' || c == '\U{A0}' || c == '\U{1680}'
    || ('\U{2000}' <= c <= '\U{200A}') || c == '\U{2028}' || c == '\U{2029}'
    || c == '\U{202F}' || c == '\U{205F}' || c == '\U{3000}'
  }

  predicate AllSpace(s: string)
  {
    forall i :: 0 <= i < |s| ==> IsSpace(s[i])
  }

  /** `s` with its leading whitespace removed: a suffix of `s` whose dropped
      prefix is all whitespace and which does not itself start with whitespace. */
  function StripLeading(s: string): (r: string)
    ensures |r| <= |s| && r == s[|s| - |r|..]
    ensures AllSpace(s[..|s| - |r|])
    ensures r == [] || !IsSpace(r[0])
    decreases |s|
  {
    if s != [] && IsSpace(s[0]) then StripLeading(s[1..]) else s
  }

  /** `s` with its trailing whitespace removed: a prefix of `s` whose dropped
      suffix is all whitespace and which does not itself end with whitespace. */
  function StripTrailing(s: string): (r: string)
    ensures |r| <= |s| && r == s[..|r|]
    ensures AllSpace(s[|r|..])
    ensures r == [] || !IsSpace(r[|r| - 1])
    decreases |s|
  {
    if s != [] && IsSpace(s[|s| - 1]) then
      var r := StripTrailing(s[..|s| - 1]);
      assert s[|r|..] == s[..|s| - 1][|r|..] + [s[|s| - 1]];
      r
    else s
  }

  /** Python's `str.strip()` without arguments. */
  function Strip(s: string): (r: string)
    ensures |r| <= |s|
    ensures r == [] || (!IsSpace(r[0]) && !IsSpace(r[|r| - 1]))
  {
    StripTrailing(StripLeading(s))
  }

  lemma {:induction false} StripLeadingOf(w: string, u: string)
    requires AllSpace(w)
    requires u == [] || !IsSpace(u[0])
    ensures StripLeading(w + u) == u
    decreases |w|
  {
    if w != [] {
      assert (w + u)[0] == w[0];
      assert (w + u)[1..] == w[1..] + u;
      StripLeadingOf(w[1..], u);
    } else {
      assert w + u == u;
    }
  }

  lemma {:induction false} StripTrailingOf(u: string, w: string)
    requires AllSpace(w)
    requires u == [] || !IsSpace(u[|u| - 1])
    ensures StripTrailing(u + w) == u
    decreases |w|
  {
    if w != [] {
      assert (u + w)[|u + w| - 1] == w[|w| - 1];
      assert (u + w)[..|u + w| - 1] == u + w[..|w| - 1];
      StripTrailingOf(u, w[..|w| - 1]);
    } else {
      assert u + w == u;
    }
  }

  /** `strip()` removes exactly the surrounding whitespace: whatever whitespace
      surrounds a text that neither starts nor ends with whitespace, stripping
      gives back that text. */
  lemma StripUnique(w1: string, t: string, w2: string)
    requires AllSpace(w1) && AllSpace(w2)
    requires t == [] || (!IsSpace(t[0]) && !IsSpace(t[|t| - 1]))
    ensures Strip(w1 + t + w2) == t
  {
    if t == [] {
      assert w1 + t + w2 == w1 + w2;
      assert AllSpace(w1 + w2);
    } else {
      assert w1 + t + w2 == w1 + (t + w2);
      StripLeadingOf(w1, t + w2);
      StripTrailingOf(t, w2);
    }
  }

  /** The translation that deletes every double quote. */
  function DeleteQuotes(s: string): (r: string)
    ensures |r| <= |s|
    ensures |r| == |s| - multiset(s)['\"']
    ensures '\"' !in r
    ensures '\"' !in s ==> r == s
    decreases |s|
  {
    if s == [] then []
    else
      assert multiset(s) == multiset([s[0]]) + multiset(s[1..]) by { assert s == [s[0]] + s[1..]; }
      (if s[0] == '\"' then [] else [s[0]]) + DeleteQuotes(s[1..])
  }

  /** Deleting quotes works piecewise, so every other character keeps its
      place relative to the others. */
  lemma {:induction false} DeleteQuotesAppend(a: string, b: string)
    ensures DeleteQuotes(a + b) == DeleteQuotes(a) + DeleteQuotes(b)
    decreases |a|
  {
    if a == [] {
      assert a + b == b;
    } else {
      assert (a + b)[0] == a[0];
      assert (a + b)[1..] == a[1..] + b;
      DeleteQuotesAppend(a[1..], b);
    }
  }

  /** `Cache.get_erlang_version()` given the exit code and the decoded standard
      output of the `erl` query: None when the query fails, otherwise a release
      string without double quotes. */
  function ErlangVersion(returnCode: int, stdout: string): (r: Option<string>)
    ensures r.None? <==> returnCode != 0
    ensures r.Some? ==> '\"' !in r.value
  {
    if returnCode == 0 then Some(DeleteQuotes(Strip(stdout))) else None
  }

  /** `erlang:display` prints the release as a quoted string and a newline:
      whatever whitespace surrounds the quoted release, the detected version is
      the text between the quotes, inner whitespace included. */
  lemma DisplayedRelease(w1: string, v: string, w2: string)
    requires AllSpace(w1) && AllSpace(w2)
    requires '\"' !in v
    ensures ErlangVersion(0, w1 + "\"" + v + "\"" + w2) == Some(v)
  {
    var q := "\"";
    var t := q + v + q;
    assert w1 + q + v + q + w2 == w1 + t + w2;
    assert t[0] == '\"' && t[|t| - 1] == '\"';
    StripUnique(w1, t, w2);
    UnquoteQuoted(v);
  }

  /** Deleting the quotes around a text without quotes gives back the text. */
  lemma UnquoteQuoted(v: string)
    requires '\"' !in v
    ensures DeleteQuotes("\"" + v + "\"") == v
  {
    var q := "\"";
    assert DeleteQuotes(q) == [];
    DeleteQuotesAppend(q + v, q);
    DeleteQuotesAppend(q, v);
  }

  /** Stripping happens before the quotes are deleted, so whitespace inside the
      quotes survives: a release displayed with leading whitespace inside its
      quotes is detected with that whitespace, and normalising the detected
      release a second time changes it. */
  lemma NormalisationNotIdempotent(w1: string, v: string, w2: string)
    requires AllSpace(w1) && AllSpace(w2)
    requires v != [] && IsSpace(v[0]) && '\"' !in v
    ensures ErlangVersion(0, w1 + "\"" + v + "\"" + w2) == Some(v)
    ensures ErlangVersion(0, v) != Some(v)
  {
    DisplayedRelease(w1, v, w2);
    var r := StripLeading(v);
    assert r == StripLeading(v[1..]);
    assert |DeleteQuotes(Strip(v))| <= |Strip(v)| <= |r|;
  }

  // ---------------------------------------------------------------------------
  // The backend contract.

  /** The state every cache backend shares, and the contract the model gives
      its abstract operations. The backend's content is abstracted to the set of
      package identities for which `exists` answers true. Adding a package makes
      it exist, and linking is the base class's default, which does nothing.
      Fetching and getting are assumed to leave the content unchanged: the base
      class declares them without promising that, and the cache the builder
      uses, the system cache (a chain of tiers, not part of this model), may
      well make a fetched package exist in its local tier. */
  class Cache {
    const tempDir: string
    const path: string
    const erlangVersion: Option<string>
    var cached: set<string>

    /** `Cache.__init__(temp_dir, path)`, with the `erl` query's exit code and
        output as inputs and the identities the backend already holds. */
    constructor (tempDir: string, path: string, returnCode: int, stdout: string, contents: set<string>)
      ensures this.tempDir == tempDir && this.path == path
      ensures erlangVersion == ErlangVersion(returnCode, stdout)
      ensures cached == contents
    {
      this.erlangVersion := ErlangVersion(returnCode, stdout);
      this.tempDir := tempDir;
      this.path := path;
      cached := contents;
    }

    predicate Exists(p: string)
      reads this
    {
      p in cached
    }

    method FetchPackage(p: string)
      ensures unchanged(this)
    {
    }

    method GetPackage(p: string)
      ensures unchanged(this)
    {
    }

    method AddPackage(p: string, rewrite: bool)
      modifies this
      ensures cached == old(cached) + {p}
    {
      cached := cached + {p};
    }

    /** The default `link_package`: nothing changes. */
    method LinkPackage(p: string, dir: string)
      ensures unchanged(this)
    {
    }
  }
}
