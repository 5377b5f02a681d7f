/**
 * The tech-stack analyzer's coordinator: which repositories are analysed,
 * how the five detectors' results are tagged and counted, how the profile is
 * assembled, and the three-tier read path (memory cache, stored profile,
 * fresh analysis) with its forced refresh.
 *
 * GitHub is a value of functions (what each API call returns); the clock is
 * an `int` number of seconds passed in by the caller.
 */
module TechStackAnalysis {
  import opened Wrappers
  import opened Text
  import opened TechModel
  import opened Sorting
  import opened Extraction
  import opened Mappings
  import opened Detectors
  import opened ReadmeDetector
  import opened Aggregation
  import opened Categorized
  import opened TechStackProfiles
  import opened GitHubModels

  const Hour := 3600
  /** How long a profile stays in the memory cache. */
  const CacheTtl := 6 * Hour
  /** A stored profile at least this old is analysed again. */
  const StalenessThreshold := 24 * Hour
  const CacheKeyPrefix := "techStack"
  const MaxReposToAnalyze: nat := 100

  /** What the GitHub service answers. */
  datatype GitHub = GitHub(
    /** `GetUserRepositoriesAsync`; `None` when it throws, which fails the analysis. */
    repositories: Option<seq<Repository>>,
    /** `GetRepositoryLanguagesAsync(owner, repo)`: the language names, largest
        first; `None` when it throws, which the analyzer catches. */
    languages: (string, string) -> Option<seq<string>>,
    /** `GetRepoFileTreeAsync(owner, repo)`: the repository's file paths;
        `None` when it throws, which the analyzer catches. */
    fileTree: (string, string) -> Option<seq<string>>,
    /** `GetFileContentAsync(owner, repo, path)`; `None` is the service's
        documented null, for a missing file or one over 1 MB. A fetch that
        throws is not caught by the analyzer and is not modelled. */
    fileContent: (string, string, string) -> Option<string>)

  // ----- Repository selection -----

  /** `Where(r => !r.IsFork)`. */
  function NonForks(repos: seq<Repository>): (r: seq<Repository>)
    ensures |r| <= |repos|
    decreases |repos|
  {
    if |repos| == 0 then []
    else if repos[|repos| - 1].isFork then NonForks(repos[..|repos| - 1])
    else NonForks(repos[..|repos| - 1]) + [repos[|repos| - 1]]
  }

  /** A fork is dropped; any other repository is kept as often as it occurs. */
  lemma {:induction false} NonForksCount(repos: seq<Repository>, x: Repository)
    ensures multiset(NonForks(repos))[x] == if x.isFork then 0 else multiset(repos)[x]
    decreases |repos|
  {
    if |repos| > 0 {
      var init := repos[..|repos| - 1];
      NonForksCount(init, x);
      assert repos == init + [repos[|repos| - 1]];
    }
  }

  /** `DateTime?` descending: a later push first, and a missing push time after
      every present one (the nullable comparer puts null lowest). */
  predicate PushedLater(a: Option<int>, b: Option<int>) {
    a.Some? && (b.None? || a.value > b.value)
  }

  /** `OrderByDescending(r => r.Size).ThenByDescending(r => r.PushedAt)`. */
  predicate RepoBefore(a: Repository, b: Repository) {
    a.size > b.size || (a.size == b.size && PushedLater(a.pushedAt, b.pushedAt))
  }

  function RepoOrder(): (Repository, Repository) -> bool {
    (a, b) => RepoBefore(a, b)
  }

  lemma RepoOrderIsStrictWeakOrder()
    ensures StrictWeakOrder(RepoOrder())
  {
    var before := RepoOrder();
    forall a, b, c | before(a, c) ensures before(a, b) || before(b, c) {
      if !before(a, b) && a.size == b.size && b.size == c.size {
        assert PushedLater(a.pushedAt, c.pushedAt);
      }
    }
  }

  /** The repositories analysed: non-forks, largest and then most recently
      pushed first, at most `MaxReposToAnalyze` of them. */
  function SelectRepos(repos: seq<Repository>): seq<Repository> {
    Take(SortBy(NonForks(repos), RepoOrder()), MaxReposToAnalyze)
  }

  /** The selection holds only non-fork repositories of the input, in size and
      then push-time order, and as many as there are non-forks up to the cap. */
  lemma SelectReposShape(repos: seq<Repository>)
    ensures var r := SelectRepos(repos);
      && |r| == (if |NonForks(repos)| < MaxReposToAnalyze then |NonForks(repos)| else MaxReposToAnalyze)
      && (forall i :: 0 <= i < |r| ==> !r[i].isFork && r[i] in repos)
      && (forall i, j :: 0 <= i < j < |r| ==> !RepoBefore(r[j], r[i]))
  {
    var s := SortBy(NonForks(repos), RepoOrder());
    RepoOrderIsStrictWeakOrder();
    SortByCorrect(NonForks(repos), RepoOrder());
    var r := SelectRepos(repos);
    assert r == s[..|r|];
    forall i | 0 <= i < |r| ensures !r[i].isFork && r[i] in repos {
      assert r[i] == s[i];
      assert r[i] in multiset(NonForks(repos));
      NonForksCount(repos, r[i]);
    }
    forall i, j | 0 <= i < j < |r| ensures !RepoBefore(r[j], r[i]) {
      assert r[i] == s[i] && r[j] == s[j];
      assert !RepoOrder()(s[j], s[i]);
    }
  }

  /** A non-fork repository left out of the selection was crowded out by a
      full selection of repositories none of which it comes before. */
  lemma SelectReposKeepsLargest(repos: seq<Repository>, x: Repository)
    requires x in repos && !x.isFork
    ensures var r := SelectRepos(repos);
      x in r || (|r| == MaxReposToAnalyze && forall y :: y in r ==> !RepoBefore(x, y))
  {
    var s := SortBy(NonForks(repos), RepoOrder());
    RepoOrderIsStrictWeakOrder();
    SortByCorrect(NonForks(repos), RepoOrder());
    NonForksCount(repos, x);
    assert x in multiset(s);
    var p :| 0 <= p < |s| && s[p] == x;
    TakeOrOutranked(s, MaxReposToAnalyze, RepoOrder(), p);
    var r := SelectRepos(repos);
    if p < |r| {
      assert r[p] == x;
    }
  }

  /** `FullName.Split('/')[0]`: the text before the first slash. */
  function Owner(fullName: string): (r: string)
    ensures '/' !in r && r <= fullName
    ensures |r| < |fullName| ==> fullName[|r|] == '/'
  {
    Split(fullName, '/')[0]
  }

  // ----- Detections of one repository -----

  /** The detector results, each tagged with its signal. */
  function Tag(ts: seq<Tech>, s: Signal): (r: seq<Detection>)
    ensures |r| == |ts| && forall i :: 0 <= i < |ts| ==> r[i] == Detection(ts[i], s)
  {
    seq(|ts|, i requires 0 <= i < |ts| => Detection(ts[i], s))
  }

  /** A file reader for one repository. */
  function ContentOf(gh: GitHub, owner: string, name: string): string -> Option<string> {
    path => gh.fileContent(owner, name, path)
  }

  /** What signal `s` reports for `repo`. The four signals after the first run
      only when the file tree was fetched. */
  function SignalOutput(t: Tables, l: Lookups, ex: Extractors, gh: GitHub, repo: Repository, s: Signal): seq<Tech> {
    var owner := Owner(repo.fullName);
    var tree := gh.fileTree(owner, repo.name);
    var fetch := ContentOf(gh, owner, repo.name);
    match s
    case Languages => LanguageDetections(gh.languages(owner, repo.name))
    case Dependencies => if tree.None? then [] else DependencyDetections(t, ex, tree.value, fetch)
    case FilePresence => if tree.None? then [] else FilePresenceDetections(t.filePresence, tree.value)
    case Readme => if tree.None? then [] else ReadmeDetections(l, ex, tree.value, fetch)
    case Topics => if tree.None? then [] else TopicDetections(t.topicMappings, repo.topics)
  }

  /** The body of the per-repository loop: the five signals' results in order. */
  function RepoDetections(t: Tables, l: Lookups, ex: Extractors, gh: GitHub, repo: Repository): seq<Detection> {
    Tag(SignalOutput(t, l, ex, gh, repo, Languages), Languages)
    + Tag(SignalOutput(t, l, ex, gh, repo, Dependencies), Dependencies)
    + Tag(SignalOutput(t, l, ex, gh, repo, FilePresence), FilePresence)
    + Tag(SignalOutput(t, l, ex, gh, repo, Readme), Readme)
    + Tag(SignalOutput(t, l, ex, gh, repo, Topics), Topics)
  }

  /** All detections, repository by repository. */
  function AllDetections(t: Tables, l: Lookups, ex: Extractors, gh: GitHub, repos: seq<Repository>): seq<Detection>
    decreases |repos|
  {
    if |repos| == 0 then []
    else AllDetections(t, l, ex, gh, repos[..|repos| - 1]) + RepoDetections(t, l, ex, gh, repos[|repos| - 1])
  }

  // ----- Signal summary -----

  /** `detectionsList.Count(d => d.Signal == s)`. */
  function CountSignal(ds: seq<Detection>, s: Signal): (n: nat)
    ensures n <= |ds|
    decreases |ds|
  {
    if |ds| == 0 then 0
    else CountSignal(ds[..|ds| - 1], s) + if ds[|ds| - 1].signal == s then 1 else 0
  }

  lemma {:induction false} CountSignalAppend(a: seq<Detection>, b: seq<Detection>, s: Signal)
    ensures CountSignal(a + b, s) == CountSignal(a, s) + CountSignal(b, s)
    decreases |b|
  {
    if |b| > 0 {
      var init := b[..|b| - 1];
      CountSignalAppend(a, init, s);
      assert (a + b)[..|a + b| - 1] == a + init;
      assert (a + b)[|a + b| - 1] == b[|b| - 1];
    } else {
      assert a + b == a;
    }
  }

  /** Tagged results count for their own signal and for no other. */
  lemma {:induction false} CountSignalTag(ts: seq<Tech>, tag: Signal, s: Signal)
    ensures CountSignal(Tag(ts, tag), s) == if tag == s then |ts| else 0
    decreases |ts|
  {
    if |ts| > 0 {
      var init := ts[..|ts| - 1];
      CountSignalTag(init, tag, s);
      assert Tag(ts, tag)[..|ts| - 1] == Tag(init, tag);
    }
  }

  /** Every detection carries exactly one of the five signals. */
  lemma {:induction false} SignalCountsPartition(ds: seq<Detection>)
    ensures CountSignal(ds, Languages) + CountSignal(ds, Dependencies) + CountSignal(ds, FilePresence)
            + CountSignal(ds, Readme) + CountSignal(ds, Topics) == |ds|
    decreases |ds|
  {
    if |ds| > 0 {
      SignalCountsPartition(ds[..|ds| - 1]);
    }
  }

  /** The diagnostic summary: the total and one count per signal tag. */
  function SignalSummary(ds: seq<Detection>): map<string, int> {
    map[
      "total_detections" := |ds|,
      Languages.Key() := CountSignal(ds, Languages),
      Dependencies.Key() := CountSignal(ds, Dependencies),
      FilePresence.Key() := CountSignal(ds, FilePresence),
      Readme.Key() := CountSignal(ds, Readme),
      Topics.Key() := CountSignal(ds, Topics)]
  }

  /** A signal summary holding the total and the five per-signal counts, whose
      total is the sum of those counts. */
  predicate SummaryAddsUp(m: map<string, int>) {
    && "total_detections" in m && "languages" in m && "dependencies" in m
    && "file_presence" in m && "readme" in m && "topics" in m
    && m["total_detections"] == m["languages"] + m["dependencies"] + m["file_presence"] + m["readme"] + m["topics"]
  }

  /** The total equals the sum of the five per-signal counts. */
  lemma SignalSummaryTotal(ds: seq<Detection>)
    ensures SummaryAddsUp(SignalSummary(ds))
  {
    SignalCountsPartition(ds);
  }

  /** In one repository, a signal's count is the size of what its detector reported. */
  lemma RepoSignalCount(t: Tables, l: Lookups, ex: Extractors, gh: GitHub, repo: Repository, s: Signal)
    ensures CountSignal(RepoDetections(t, l, ex, gh, repo), s) == |SignalOutput(t, l, ex, gh, repo, s)|
  {
    var a := Tag(SignalOutput(t, l, ex, gh, repo, Languages), Languages);
    var b := Tag(SignalOutput(t, l, ex, gh, repo, Dependencies), Dependencies);
    var c := Tag(SignalOutput(t, l, ex, gh, repo, FilePresence), FilePresence);
    var d := Tag(SignalOutput(t, l, ex, gh, repo, Readme), Readme);
    var e := Tag(SignalOutput(t, l, ex, gh, repo, Topics), Topics);
    CountSignalAppend(a, b, s);
    CountSignalAppend(a + b, c, s);
    CountSignalAppend(a + b + c, d, s);
    CountSignalAppend(a + b + c + d, e, s);
    CountSignalTag(SignalOutput(t, l, ex, gh, repo, Languages), Languages, s);
    CountSignalTag(SignalOutput(t, l, ex, gh, repo, Dependencies), Dependencies, s);
    CountSignalTag(SignalOutput(t, l, ex, gh, repo, FilePresence), FilePresence, s);
    CountSignalTag(SignalOutput(t, l, ex, gh, repo, Readme), Readme, s);
    CountSignalTag(SignalOutput(t, l, ex, gh, repo, Topics), Topics, s);
  }

  /** A repository whose file tree cannot be fetched contributes only its languages. */
  lemma NoTreeOnlyLanguages(t: Tables, l: Lookups, ex: Extractors, gh: GitHub, repo: Repository, s: Signal)
    requires gh.fileTree(Owner(repo.fullName), repo.name).None? && s != Languages
    ensures CountSignal(RepoDetections(t, l, ex, gh, repo), s) == 0
  {
    RepoSignalCount(t, l, ex, gh, repo, s);
  }

  /** The total output size of signal `s` over `repos`. */
  function SignalTotal(t: Tables, l: Lookups, ex: Extractors, gh: GitHub, repos: seq<Repository>, s: Signal): nat
    decreases |repos|
  {
    if |repos| == 0 then 0
    else SignalTotal(t, l, ex, gh, repos[..|repos| - 1], s) + |SignalOutput(t, l, ex, gh, repos[|repos| - 1], s)|
  }

  /** Each summary count is the number of technologies its detector reported,
      summed over the analysed repositories. */
  lemma {:induction false} SummaryCountsDetectorOutput(t: Tables, l: Lookups, ex: Extractors, gh: GitHub, repos: seq<Repository>, s: Signal)
    ensures CountSignal(AllDetections(t, l, ex, gh, repos), s) == SignalTotal(t, l, ex, gh, repos, s)
    decreases |repos|
  {
    if |repos| > 0 {
      var init := repos[..|repos| - 1];
      SummaryCountsDetectorOutput(t, l, ex, gh, init, s);
      CountSignalAppend(AllDetections(t, l, ex, gh, init), RepoDetections(t, l, ex, gh, repos[|repos| - 1]), s);
      RepoSignalCount(t, l, ex, gh, repos[|repos| - 1], s);
    }
  }

  // ----- The profile -----

  /** `detectionsList.Select(d => (d.Name, d.Category, d.Icon))`. */
  function Flat(ds: seq<Detection>): (r: seq<Tech>)
    ensures |r| == |ds| && forall i :: 0 <= i < |ds| ==> r[i] == ds[i].tech
  {
    seq(|ds|, i requires 0 <= i < |ds| => ds[i].tech)
  }

  /** The user's new profile document over the detections of `repoCount`
      repositories: the aggregated technologies by category and the signal summary. */
  function BuildProfile(userId: string, now: int, repoCount: nat, ds: seq<Detection>): TechStackProfile {
    CreateForUser(userId, now).(
      categorized := FromFlat(Aggregate(Flat(ds))),
      analyzedRepoCount := repoCount,
      signalSummary := SignalSummary(ds))
  }

  /** The built profile is the user's document, stamped `now`, with at most
      `MaxTechnologies` entries and a summary whose total is the sum of its
      signal counts. */
  lemma BuildProfileShape(userId: string, now: int, repoCount: nat, ds: seq<Detection>)
    ensures var p := BuildProfile(userId, now, repoCount, ds);
      && p.id == ProfileId(userId) && p.userId == userId && p.analyzedAt == now
      && p.analyzedRepoCount == repoCount
      && p.categorized.Total() <= MaxTechnologies
      && SummaryAddsUp(p.signalSummary)
  {
    SignalSummaryTotal(ds);
    AggregateShape(Flat(ds));
  }

  /** The profile `AnalyzeAndPersistAsync` builds, or `None` when the repository
      list cannot be fetched. */
  function Analysis(userId: string, now: int, t: Tables, l: Lookups, ex: Extractors, gh: GitHub): Option<TechStackProfile> {
    if gh.repositories.None? then None
    else
      var targets := SelectRepos(gh.repositories.value);
      Some(BuildProfile(userId, now, |targets|, AllDetections(t, l, ex, gh, targets)))
  }

  /** An analysed profile is the user's document, stamped `now`, over at most
      `MaxReposToAnalyze` repositories, with at most `MaxTechnologies` entries
      and a summary whose total is the sum of its signal counts. */
  lemma AnalysisProfile(userId: string, now: int, t: Tables, l: Lookups, ex: Extractors, gh: GitHub)
    requires gh.repositories.Some?
    ensures var p := Analysis(userId, now, t, l, ex, gh);
      && p.Some?
      && p.value.id == ProfileId(userId) && p.value.userId == userId && p.value.analyzedAt == now
      && 0 <= p.value.analyzedRepoCount <= MaxReposToAnalyze
      && p.value.categorized.Total() <= MaxTechnologies
      && SummaryAddsUp(p.value.signalSummary)
  {
    var targets := SelectRepos(gh.repositories.value);
    SelectReposShape(gh.repositories.value);
    BuildProfileShape(userId, now, |targets|, AllDetections(t, l, ex, gh, targets));
  }

  // ----- The coordinator -----

  /** A memory-cache entry and the instant it expires. */
  datatype CacheEntry = CacheEntry(profile: TechStackProfile, expiresAt: int)

  /** The cache key `"{CacheKeyPrefix}_{userId}"`. */
  function CacheKey(userId: string): (r: string)
    ensures |r| == |CacheKeyPrefix| + 1 + |userId|
    ensures r[..|CacheKeyPrefix| + 1] == CacheKeyPrefix + "_" && r[|CacheKeyPrefix| + 1..] == userId
  {
    CacheKeyPrefix + "_" + userId
  }

  lemma CacheKeyInjective(u: string, v: string)
    requires CacheKey(u) == CacheKey(v)
    ensures u == v
  {
    assert u == CacheKey(u)[|CacheKeyPrefix| + 1..];
  }

  /** `_cache.TryGetValue`: the entry under the user's key, unless it has expired. */
  function Cached(cache: map<string, CacheEntry>, userId: string, now: int): Option<TechStackProfile> {
    var key := CacheKey(userId);
    if key in cache && now < cache[key].expiresAt then Some(cache[key].profile) else None
  }

  /** The user's stored profile when it is younger than `StalenessThreshold`. */
  function FreshStored(store: map<(string, string), TechStackProfile>, userId: string, now: int): Option<TechStackProfile> {
    var key := (ProfileId(userId), userId);
    if key in store && now - store[key].analyzedAt < StalenessThreshold then Some(store[key]) else None
  }

  class TechStackAnalyzer {
    const mappings: FrameworkMappings
    const extractors: Extractors
    /** The memory cache's profile entries. */
    var cache: map<string, CacheEntry>
    /** The profile documents of the container, by (id, partition key). */
    var store: map<(string, string), TechStackProfile>

    /** Every cached or stored profile sits under its own user's key. */
    ghost predicate Valid()
      reads this
    {
      && (forall key :: key in cache ==>
            key == CacheKey(cache[key].profile.userId) && cache[key].profile.id == ProfileId(cache[key].profile.userId))
      && (forall key :: key in store ==>
            key == (store[key].id, store[key].userId) && store[key].id == ProfileId(store[key].userId))
    }

    constructor (mappings: FrameworkMappings, extractors: Extractors)
      ensures this.mappings == mappings && this.extractors == extractors
      ensures cache == map[] && store == map[]
      ensures Valid()
    {
      this.mappings := mappings;
      this.extractors := extractors;
      cache := map[];
      store := map[];
    }

    /** The per-repository loop, run one repository after another. */
    method CollectDetections(gh: GitHub, targets: seq<Repository>) returns (all: seq<Detection>)
      ensures all == AllDetections(mappings.tables, mappings.Indexes(), extractors, gh, targets)
    {
      all := [];
      var i := 0;
      while i < |targets|
        invariant 0 <= i <= |targets|
        invariant all == AllDetections(mappings.tables, mappings.Indexes(), extractors, gh, targets[..i])
      {
        var found := AnalyzeRepo(gh, targets[i]);
        all := all + found;
        PrefixStep(targets, i);
        i := i + 1;
      }
      assert targets[..i] == targets;
    }

    /** One repository: languages, and when the file tree is available the
        dependency, file-presence, README and topic signals. */
    method AnalyzeRepo(gh: GitHub, repo: Repository) returns (found: seq<Detection>)
      ensures found == RepoDetections(mappings.tables, mappings.Indexes(), extractors, gh, repo)
    {
      var t := mappings.tables;
      var l := mappings.Indexes();
      var owner := Owner(repo.fullName);
      var languages := DetectFromLanguages(gh.languages(owner, repo.name));
      found := Tag(languages, Languages);
      var tree := gh.fileTree(owner, repo.name);
      if tree.None? {
        assert Tag([], Dependencies) == Tag([], FilePresence) == Tag([], Readme) == Tag([], Topics) == [];
        return;
      }
      var fetch := ContentOf(gh, owner, repo.name);
      var dependencies := DetectFromDependencies(t, extractors, tree.value, fetch);
      var files := DetectFromFilePresence(t.filePresence, tree.value);
      var readme := DetectFromReadme(l, extractors, tree.value, fetch);
      var topics := DetectFromTopics(t.topicMappings, repo.topics);
      found := found + Tag(dependencies, Dependencies) + Tag(files, FilePresence)
        + Tag(readme, Readme) + Tag(topics, Topics);
    }

    /** `AnalyzeAndPersistAsync`: analyse, upsert the profile and cache it. */
    method AnalyzeAndPersist(userId: string, gh: GitHub, now: int) returns (r: Option<TechStackProfile>)
      requires Valid()
      modifies this
      ensures Valid()
      ensures r == Analysis(userId, now, mappings.tables, mappings.Indexes(), extractors, gh)
      ensures r.Some? ==> r.value.userId == userId && r.value.id == ProfileId(userId)
      ensures r.None? ==> cache == old(cache) && store == old(store)
      ensures r.Some? ==> store == old(store)[(ProfileId(userId), userId) := r.value]
      ensures r.Some? ==> cache == old(cache)[CacheKey(userId) := CacheEntry(r.value, now + CacheTtl)]
    {
      if gh.repositories.None? {
        return None;
      }
      var targets := SelectRepos(gh.repositories.value);
      var all := CollectDetections(gh, targets);
      var profile := BuildProfile(userId, now, |targets|, all);
      BuildProfileShape(userId, now, |targets|, all);
      StoreProfile(userId, profile);
      CacheProfile(userId, profile, now);
      r := Some(profile);
    }

    /** `UpsertItemAsync` on the profile container: the profile replaces the
        document under its id and partition key, and the cache is left alone. */
    method StoreProfile(userId: string, profile: TechStackProfile)
      requires Valid()
      requires profile.userId == userId && profile.id == ProfileId(userId)
      modifies this
      ensures Valid()
      ensures store == old(store)[(ProfileId(userId), userId) := profile]
      ensures cache == old(cache)
    {
      store := store[(profile.id, profile.userId) := profile];
    }

    /** `_cache.Set` with the `CacheTtl` expiry: the profile is cached under its
        user's key until `now + CacheTtl`, and the store is left alone. */
    method CacheProfile(userId: string, profile: TechStackProfile, now: int)
      requires Valid()
      requires profile.userId == userId && profile.id == ProfileId(userId)
      modifies this
      ensures Valid()
      ensures cache == old(cache)[CacheKey(userId) := CacheEntry(profile, now + CacheTtl)]
      ensures store == old(store)
      ensures Cached(cache, userId, now) == Some(profile)
    {
      cache := cache[CacheKey(userId) := CacheEntry(profile, now + CacheTtl)];
    }

    /** `GetTechStackAsync`: the cached profile, else a stored one younger than
        `StalenessThreshold` (cached again), else a fresh analysis. `source` is
        the value written to the `techStack.source` event field. */
    method GetTechStack(userId: string, gh: GitHub, now: int) returns (r: Option<TechStackProfile>, source: string)
      requires Valid()
      modifies this
      ensures Valid()
      ensures Cached(old(cache), userId, now).Some? ==>
        source == "cache" && r == Cached(old(cache), userId, now) && cache == old(cache) && store == old(store)
      ensures Cached(old(cache), userId, now).None? && FreshStored(old(store), userId, now).Some? ==>
        && source == "database" && r == FreshStored(old(store), userId, now) && store == old(store)
        && cache == old(cache)[CacheKey(userId) := CacheEntry(r.value, now + CacheTtl)]
      ensures Cached(old(cache), userId, now).None? && FreshStored(old(store), userId, now).None? ==>
        && source == "fresh_analysis"
        && r == Analysis(userId, now, mappings.tables, mappings.Indexes(), extractors, gh)
        && (r.None? ==> cache == old(cache) && store == old(store))
        && (r.Some? ==> store == old(store)[(ProfileId(userId), userId) := r.value])
        && (r.Some? ==> cache == old(cache)[CacheKey(userId) := CacheEntry(r.value, now + CacheTtl)])
      ensures r.Some? ==> r.value.userId == userId && r.value.id == ProfileId(userId)
      ensures r.Some? ==> Cached(cache, userId, now) == r
    {
      var key := CacheKey(userId);
      if key in cache && now < cache[key].expiresAt {
        CacheKeyInjective(cache[key].profile.userId, userId);
        return Some(cache[key].profile), "cache";
      }
      assert Cached(cache, userId, now).None?;
      var docId := ProfileId(userId);
      if (docId, userId) in store && now - store[(docId, userId)].analyzedAt < StalenessThreshold {
        var stored := store[(docId, userId)];
        assert FreshStored(store, userId, now) == Some(stored);
        CacheProfile(userId, stored, now);
        return Some(stored), "database";
      }
      assert FreshStored(store, userId, now).None?;
      source := "fresh_analysis";
      r := AnalyzeAndPersist(userId, gh, now);
    }

    /** `RefreshTechStackAsync`: evict the cached profile, then analyse. The
        eviction stands even when the analysis fails. */
    method RefreshTechStack(userId: string, gh: GitHub, now: int) returns (r: Option<TechStackProfile>, source: string)
      requires Valid()
      modifies this
      ensures Valid()
      ensures source == "forced_refresh"
      ensures r == Analysis(userId, now, mappings.tables, mappings.Indexes(), extractors, gh)
      ensures r.None? ==> cache == old(cache) - {CacheKey(userId)} && store == old(store)
      ensures r.Some? ==> store == old(store)[(ProfileId(userId), userId) := r.value]
      ensures r.Some? ==> cache == (old(cache) - {CacheKey(userId)})[CacheKey(userId) := CacheEntry(r.value, now + CacheTtl)]
    {
      source := "forced_refresh";
      cache := cache - {CacheKey(userId)};
      r := AnalyzeAndPersist(userId, gh, now);
    }
  }
}
