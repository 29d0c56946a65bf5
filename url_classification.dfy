/**
 * URL classification: `classify_url` maps a URL to MODEL, DATASET, CODE or UNKNOWN
 * from its network location and its lower-cased path, and the evaluator groups a
 * batch of URLs into one ordered bucket per type.
 */
module UrlClassification {
  import opened Text

  datatype UrlType = MODEL | DATASET | CODE | UNKNOWN

  /** Every type; the grouping always has a bucket for each. */
  const AllTypes: set<UrlType> := {MODEL, DATASET, CODE, UNKNOWN}

  /** The model and dataset registry's domain. */
  const HubDomain: string := "huggingface.co"

  /** The code host's domain. */
  const CodeDomain: string := "github.com"

  /** The path prefix that marks a dataset on the registry. */
  const DatasetsPrefix: string := "/datasets/"

  /**
   * `classify_url` on a URL already split: the host test is a case-sensitive
   * substring test on `netloc`, the path test a prefix test on the lower-cased path,
   * and the registry domain is checked before the code host.
   */
  function Classify(netloc: string, path: string): UrlType
  {
    var lowered := Lower(path);
    if Contains(netloc, HubDomain) then
      if StartsWith(lowered, DatasetsPrefix) then DATASET else MODEL
    else if Contains(netloc, CodeDomain) then CODE
    else UNKNOWN
  }

  // ---------------------------------------------------------------------------
  // Splitting a URL into network location and path (`urllib.parse.urlparse`)
  // ---------------------------------------------------------------------------

  predicate IsAsciiLetter(c: char)
  {
    'a' <= c <= 'z' || 'A' <= c <= 'Z'
  }

  /** The characters `urllib.parse` accepts in a scheme. */
  predicate IsSchemeChar(c: char)
  {
    IsAsciiLetter(c) || '0' <= c <= '9' || c == '+' || c == '-' || c == '.'
  }

  /** The characters that end the network location. */
  const NetlocStops: set<char> := {'/', '?', '#'}

  /** The characters that end the path: the start of the query or of the fragment. */
  const PathStops: set<char> := {'?', '#'}

  /**
   * The URL without its scheme: the part after the first `:` when everything before
   * it is a non-empty scheme starting with a letter, and the whole URL otherwise.
   */
  function AfterScheme(url: string): string
  {
    var i := Find(url, {':'});
    if 0 < i < |url| && IsAsciiLetter(url[0]) && forall k :: 0 <= k < i ==> IsSchemeChar(url[k])
    then url[i + 1..]
    else url
  }

  /**
   * `_splitnetloc`: after a leading `//`, the network location runs up to the first
   * `/`, `?` or `#`; without `//` there is no network location.
   */
  function SplitAuthority(rest: string): (string, string)
  {
    if StartsWith(rest, "//") then
      var d := 2 + Find(rest[2..], NetlocStops);
      (rest[2..d], rest[d..])
    else ("", rest)
  }

  /** `(parsed.netloc, parsed.path)`: the path stops at the query or the fragment. */
  function SplitUrl(url: string): (string, string)
  {
    var (netloc, tail) := SplitAuthority(AfterScheme(url));
    (netloc, tail[..Find(tail, PathStops)])
  }

  /** `classify_url(url)` */
  function ClassifyUrl(url: string): UrlType
  {
    var (netloc, path) := SplitUrl(url);
    Classify(netloc, path)
  }

  // ---------------------------------------------------------------------------
  // Grouping a batch of URLs by type
  // ---------------------------------------------------------------------------

  /** The URLs of `urls` to which `classify` gives type `t`, in their input order. */
  function Bucket(urls: seq<string>, t: UrlType, classify: string -> UrlType): seq<string>
  {
    if urls == [] then []
    else
      var last := urls[|urls| - 1];
      Bucket(urls[..|urls| - 1], t, classify) + (if classify(last) == t then [last] else [])
  }

  /** `group_urls_by_type(urls)`: one bucket per type, present even when empty. */
  function GroupByType(urls: seq<string>): map<UrlType, seq<string>>
  {
    map t | t in AllTypes :: Bucket(urls, t, ClassifyUrl)
  }

  // ---------------------------------------------------------------------------
  // Properties of classification
  // ---------------------------------------------------------------------------

  /**
   * The whole decision table: DATASET exactly for a registry host with a dataset
   * path, MODEL for a registry host with any other path, CODE for a code-host host
   * without the registry domain, UNKNOWN otherwise.
   */
  lemma ClassifyTable(netloc: string, path: string)
    ensures Classify(netloc, path) == DATASET <==>
              Contains(netloc, HubDomain) && StartsWith(Lower(path), DatasetsPrefix)
    ensures Classify(netloc, path) == MODEL <==>
              Contains(netloc, HubDomain) && !StartsWith(Lower(path), DatasetsPrefix)
    ensures Classify(netloc, path) == CODE <==>
              !Contains(netloc, HubDomain) && Contains(netloc, CodeDomain)
    ensures Classify(netloc, path) == UNKNOWN <==>
              !Contains(netloc, HubDomain) && !Contains(netloc, CodeDomain)
  {
  }

  /** A registry host never yields CODE, even when the code host's domain occurs too. */
  lemma RegistryWinsOverCodeHost(netloc: string, path: string)
    requires Contains(netloc, HubDomain) && Contains(netloc, CodeDomain)
    ensures Classify(netloc, path) in {MODEL, DATASET}
  {
  }

  /** The path test ignores letter case: lower-casing the path first changes nothing. */
  lemma {:induction false} PathIsCaseInsensitive(netloc: string, path: string)
    ensures Classify(netloc, Lower(path)) == Classify(netloc, path)
  {
    LowerIdempotent(path);
  }

  /** Lower-casing a string that starts with an already lower-case prefix keeps that prefix. */
  lemma LoweredKeepsLowerPrefix(prefix: string, rest: string)
    requires Lower(prefix) == prefix
    ensures StartsWith(Lower(prefix + rest), prefix)
  {
    var s := prefix + rest;
    forall i | 0 <= i < |prefix| ensures Lower(s)[i] == prefix[i] {
      assert s[i] == prefix[i];
      assert Lower(prefix)[i] == LowerChar(prefix[i]);
    }
    assert Lower(s)[..|prefix|] == prefix;
  }

  /** The registry's own host name contains the registry domain. */
  lemma RegistryHostIsRegistry()
    ensures Contains("huggingface.co", HubDomain)
  {
    assert OccursAt("huggingface.co", HubDomain, 0);
  }

  /** The code host's own host name contains the code-host domain and not the registry's. */
  lemma CodeHostIsCodeHost()
    ensures Contains("github.com", CodeDomain)
    ensures !Contains("github.com", HubDomain)
  {
    assert OccursAt("github.com", CodeDomain, 0);
  }

  /** `/datasets` without its slash does not carry the dataset prefix. */
  lemma ShortDatasetsPathIsNotPrefixed()
    ensures !StartsWith(Lower("/datasets"), DatasetsPrefix)
  {
  }

  /** An upper-case dataset path carries the prefix once lower-cased. */
  lemma UpperDatasetsPathIsPrefixed()
    ensures StartsWith(Lower("/DATASETS/org/name"), DatasetsPrefix)
  {
  }

  /** The prefix needs its trailing slash: `/datasets` alone is a model path; the prefix test ignores case. */
  lemma DatasetsWithoutSlashIsModel()
    ensures Classify("huggingface.co", "/datasets") == MODEL
    ensures Classify("huggingface.co", "/DATASETS/org/name") == DATASET
  {
    RegistryHostIsRegistry();
    ShortDatasetsPathIsNotPrefixed();
    UpperDatasetsPathIsPrefixed();
  }

  /** A capitalised registry host contains neither domain. */
  lemma CapitalisedHostIsForeign()
    ensures !Contains("HuggingFace.co", HubDomain)
    ensures !Contains("HuggingFace.co", CodeDomain)
  {
    var host := "HuggingFace.co";
    assert !OccursAt(host, HubDomain, 0) by { assert host[0] != HubDomain[0]; }
    forall i | 0 <= i <= |host| - |CodeDomain|
      ensures !OccursAt(host, CodeDomain, i)
    {
      assert host[i + 6] != CodeDomain[6];
    }
  }

  /** The host test is case-sensitive: an upper-case registry host is not recognised. */
  lemma HostIsCaseSensitive()
    ensures Classify("HuggingFace.co", "/google/gemma-3-270m") == UNKNOWN
  {
    CapitalisedHostIsForeign();
  }

  /** No character of `s` is one of `stops`. */
  predicate Avoids(s: string, stops: set<char>)
  {
    forall k :: 0 <= k < |s| ==> s[k] !in stops
  }

  /** `Find` returns the one index that satisfies its contract. */
  lemma FindExact(s: string, stops: set<char>, k: nat)
    requires k <= |s| && (k < |s| ==> s[k] in stops)
    requires forall j :: 0 <= j < k ==> s[j] !in stops
    ensures Find(s, stops) == k
  {
  }

  /** A well-formed scheme and its colon are removed and nothing else is. */
  lemma AfterSchemeOf(scheme: string, rest: string)
    requires 0 < |scheme| && IsAsciiLetter(scheme[0])
    requires forall k :: 0 <= k < |scheme| ==> IsSchemeChar(scheme[k])
    ensures AfterScheme(scheme + ":" + rest) == rest
  {
    var url := scheme + ":" + rest;
    forall j | 0 <= j < |scheme| ensures url[j] == scheme[j] && url[j] !in {':'} { }
    FindExact(url, {':'}, |scheme|);
    assert url[|scheme| + 1..] == rest;
  }

  /** After `//`, the host runs up to the `/` that starts the path. */
  lemma SplitAuthorityOf(host: string, path: string)
    requires Avoids(host, NetlocStops)
    requires path == [] || path[0] == '/'
    ensures SplitAuthority("//" + host + path) == (host, path)
  {
    var rest := "//" + host + path;
    assert StartsWith(rest, "//");
    assert rest[2..] == host + path;
    forall j | 0 <= j < |host| ensures (host + path)[j] !in NetlocStops {
      assert (host + path)[j] == host[j];
    }
    FindExact(host + path, NetlocStops, |host|);
    assert rest[2..2 + |host|] == host;
    assert rest[2 + |host|..] == path;
  }

  /**
   * For a URL of the usual shape `scheme://host/path`, where neither the host nor the
   * path carries a query or a fragment, the split gives back the host and the path.
   */
  lemma SplitWellFormedUrl(scheme: string, host: string, path: string)
    requires 0 < |scheme| && IsAsciiLetter(scheme[0])
    requires forall k :: 0 <= k < |scheme| ==> IsSchemeChar(scheme[k])
    requires Avoids(host, NetlocStops)
    requires path == [] || path[0] == '/'
    requires Avoids(path, PathStops)
    ensures SplitUrl(scheme + "://" + host + path) == (host, path)
  {
    var url := scheme + "://" + host + path;
    var rest := "//" + host + path;
    assert url == scheme + ":" + rest;
    AfterSchemeOf(scheme, rest);
    SplitAuthorityOf(host, path);
    FindExact(path, PathStops, |path|);
    assert path[..|path|] == path;
  }

  /** An `https` URL of the test suite is split at its host. */
  lemma SplitHttpsUrl(url: string, host: string, path: string)
    requires url == "https" + "://" + host + path
    requires Avoids(host, NetlocStops)
    requires path != [] && path[0] == '/' && Avoids(path, PathStops)
    ensures SplitUrl(url) == (host, path)
  {
    SplitWellFormedUrl("https", host, path);
  }

  /** The model path of the test suite does not carry the dataset prefix. */
  lemma ModelPathIsNotPrefixed()
    ensures !StartsWith(Lower("/google/gemma-3-270m"), DatasetsPrefix)
  {
    assert Lower("/google/gemma-3-270m")[1] == LowerChar('g');
  }

  /** The dataset path of the test suite carries the dataset prefix. */
  lemma DatasetPathIsPrefixed()
    ensures StartsWith(Lower("/datasets/xlangai/AgentNet"), DatasetsPrefix)
  {
    assert Lower(DatasetsPrefix) == DatasetsPrefix;
    assert "/datasets/xlangai/AgentNet" == DatasetsPrefix + "xlangai/AgentNet";
    LoweredKeepsLowerPrefix(DatasetsPrefix, "xlangai/AgentNet");
  }

  /** `example.com` contains neither domain. */
  lemma OtherHostIsForeign()
    ensures !Contains("example.com", HubDomain)
    ensures !Contains("example.com", CodeDomain)
  {
    var host := "example.com";
    forall i | 0 <= i <= |host| - |CodeDomain|
      ensures !OccursAt(host, CodeDomain, i)
    {
      assert host[i] != CodeDomain[0];
    }
  }

  /** The four classifications the test suite checks, on its four URLs written as scheme, `://`, host and path. */
  lemma TestSuiteClassifications(model: string, dataset: string, code: string, other: string)
    requires model == "https" + "://" + "huggingface.co" + "/google/gemma-3-270m"
    requires dataset == "https" + "://" + "huggingface.co" + "/datasets/xlangai/AgentNet"
    requires code == "https" + "://" + "github.com" + "/SkyworkAI/Matrix-Game"
    requires other == "https" + "://" + "example.com" + "/some/path"
    ensures ClassifyUrl(model) == MODEL
    ensures ClassifyUrl(dataset) == DATASET
    ensures ClassifyUrl(code) == CODE
    ensures ClassifyUrl(other) == UNKNOWN
  {
    RegistryHostIsRegistry();
    CodeHostIsCodeHost();
    OtherHostIsForeign();
    assert Avoids("huggingface.co", NetlocStops) && Avoids("github.com", NetlocStops);
    assert Avoids("example.com", NetlocStops);
    assert Avoids("/google/gemma-3-270m", PathStops) && Avoids("/datasets/xlangai/AgentNet", PathStops);
    assert Avoids("/SkyworkAI/Matrix-Game", PathStops) && Avoids("/some/path", PathStops);
    SplitHttpsUrl(model, "huggingface.co", "/google/gemma-3-270m");
    ModelPathIsNotPrefixed();
    SplitHttpsUrl(dataset, "huggingface.co", "/datasets/xlangai/AgentNet");
    DatasetPathIsPrefixed();
    SplitHttpsUrl(code, "github.com", "/SkyworkAI/Matrix-Game");
    SplitHttpsUrl(other, "example.com", "/some/path");
  }

  // ---------------------------------------------------------------------------
  // Properties of grouping
  // ---------------------------------------------------------------------------

  /** Bucketing distributes over concatenation: each bucket keeps the input order. */
  lemma {:induction false} BucketAppend(a: seq<string>, b: seq<string>, t: UrlType, classify: string -> UrlType)
    ensures Bucket(a + b, t, classify) == Bucket(a, t, classify) + Bucket(b, t, classify)
    decreases |b|
  {
    if b == [] {
      assert a + b == a;
    } else {
      var front := b[..|b| - 1];
      assert (a + b)[..|a + b| - 1] == a + front;
      BucketAppend(a, front, t, classify);
    }
  }

  /** A bucket holds exactly the URLs of its type and nothing else. */
  lemma {:induction false} BucketMembers(urls: seq<string>, t: UrlType, classify: string -> UrlType)
    ensures forall u :: u in Bucket(urls, t, classify) <==> u in urls && classify(u) == t
  {
    if urls != [] {
      var front := urls[..|urls| - 1];
      BucketMembers(front, t, classify);
      assert urls == front + [urls[|urls| - 1]];
    }
  }

  /** The bucket of a single URL: the URL itself when it has the bucket's type, else nothing. */
  lemma BucketOne(u: string, t: UrlType, classify: string -> UrlType)
    ensures Bucket([u], t, classify) == if classify(u) == t then [u] else []
  {
    assert [u][..0] == [];
  }

  /** The four buckets together hold every URL exactly as many times as the input does. */
  lemma {:induction false} BucketsPartition(urls: seq<string>, classify: string -> UrlType)
    ensures multiset(Bucket(urls, MODEL, classify)) + multiset(Bucket(urls, DATASET, classify))
            + multiset(Bucket(urls, CODE, classify)) + multiset(Bucket(urls, UNKNOWN, classify))
            == multiset(urls)
  {
    if urls != [] {
      var front := urls[..|urls| - 1];
      var last := urls[|urls| - 1];
      assert urls == front + [last];
      BucketsPartition(front, classify);
      var m, d, c, u := Bucket(front, MODEL, classify), Bucket(front, DATASET, classify),
                        Bucket(front, CODE, classify), Bucket(front, UNKNOWN, classify);
      match classify(last)
      case MODEL =>
        assert Bucket(urls, MODEL, classify) == m + [last];
        assert multiset(m + [last]) == multiset(m) + multiset{last};
      case DATASET =>
        assert Bucket(urls, DATASET, classify) == d + [last];
        assert multiset(d + [last]) == multiset(d) + multiset{last};
      case CODE =>
        assert Bucket(urls, CODE, classify) == c + [last];
        assert multiset(c + [last]) == multiset(c) + multiset{last};
      case UNKNOWN =>
        assert Bucket(urls, UNKNOWN, classify) == u + [last];
        assert multiset(u + [last]) == multiset(u) + multiset{last};
    }
  }

  /**
   * The grouping partitions the batch: all four buckets are present, each holds
   * exactly the URLs of its type, and together they hold every URL as often as the
   * batch does, so their sizes add up to the batch size.
   */
  lemma GroupByTypePartitions(urls: seq<string>)
    ensures GroupByType(urls).Keys == AllTypes
    ensures forall t, u :: t in AllTypes ==>
              (u in GroupByType(urls)[t] <==> u in urls && ClassifyUrl(u) == t)
    ensures multiset(GroupByType(urls)[MODEL]) + multiset(GroupByType(urls)[DATASET])
            + multiset(GroupByType(urls)[CODE]) + multiset(GroupByType(urls)[UNKNOWN])
            == multiset(urls)
    ensures |GroupByType(urls)[MODEL]| + |GroupByType(urls)[DATASET]|
            + |GroupByType(urls)[CODE]| + |GroupByType(urls)[UNKNOWN]| == |urls|
  {
    var g := GroupByType(urls);
    forall t | t in AllTypes
      ensures forall u :: u in g[t] <==> u in urls && ClassifyUrl(u) == t
    {
      BucketMembers(urls, t, ClassifyUrl);
    }
    BucketsPartition(urls, ClassifyUrl);
    assert |multiset(urls)| == |urls|;
  }

  /** Grouping a longer batch appends the new URLs' buckets after the old ones: order is kept. */
  lemma GroupByTypeAppend(a: seq<string>, b: seq<string>, t: UrlType)
    requires t in AllTypes
    ensures GroupByType(a + b)[t] == GroupByType(a)[t] + GroupByType(b)[t]
  {
    BucketAppend(a, b, t, ClassifyUrl);
  }

  /** Three URLs of three different known types fill one bucket each and leave the unknown one empty. */
  lemma BucketsOfThree(m: string, d: string, c: string, classify: string -> UrlType)
    requires classify(m) == MODEL && classify(d) == DATASET && classify(c) == CODE
    ensures forall t :: |Bucket([m, d, c], t, classify)| == if t == UNKNOWN then 0 else 1
  {
    var urls := [m, d, c];
    assert urls == [m] + [d] + [c];
    forall t
      ensures |Bucket(urls, t, classify)| == if t == UNKNOWN then 0 else 1
    {
      BucketAppend([m], [d], t, classify);
      BucketAppend([m] + [d], [c], t, classify);
      BucketOne(m, t, classify);
      BucketOne(d, t, classify);
      BucketOne(c, t, classify);
    }
  }

  /** The grouping the test suite checks: one URL of each known type and none unknown. */
  lemma TestSuiteGrouping(model: string, dataset: string, code: string)
    requires model == "https" + "://" + "huggingface.co" + "/google/gemma-3-270m"
    requires dataset == "https" + "://" + "huggingface.co" + "/datasets/xlangai/AgentNet"
    requires code == "https" + "://" + "github.com" + "/SkyworkAI/Matrix-Game"
    ensures var g := GroupByType([model, dataset, code]);
            |g[MODEL]| == 1 && |g[DATASET]| == 1 && |g[CODE]| == 1 && |g[UNKNOWN]| == 0
  {
    TestSuiteClassifications(model, dataset, code, "https" + "://" + "example.com" + "/some/path");
    BucketsOfThree(model, dataset, code, ClassifyUrl);
  }
}
