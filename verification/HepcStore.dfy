/** The database index: a timed cache over a fetched list, used by a partitioning query and by a lookup. */
module HepcStore {
  import opened Common
  import Text

  datatype HepcResult = HepcResult(projname: string, resultUrl: string)

  type Index = seq<HepcResult>

  // Times and durations are nanoseconds; differences saturate at the largest 64-bit value.
  const MAX_DURATION: int := 0x7fff_ffff_ffff_ffff
  const MINUTE: int := 60_000_000_000

  // The zero time, January 1 of year 1, counted from 1970.
  const ZERO_TIME: int := -62_135_596_800 * 1_000_000_000

  function Since(now: int, t: int): int {
    if now - t > MAX_DURATION then MAX_DURATION else now - t
  }

  /** The configured duration in minutes, multiplied in 64-bit arithmetic; 60 when absent or unreadable. */
  function CacheDuration(minutes: Option<int>): int {
    var product := MINUTE * (if minutes.Some? then minutes.value else 60);
    (product + 0x8000_0000_0000_0000) % 0x1_0000_0000_0000_0000 - 0x8000_0000_0000_0000
  }

  /** An initial cache therefore always counts as expired. */
  lemma CacheDurationBelowMax(minutes: Option<int>)
    ensures -0x8000_0000_0000_0000 <= CacheDuration(minutes) < MAX_DURATION
  {
    var m := if minutes.Some? then minutes.value else 60;
    var shifted := MINUTE * m + 0x8000_0000_0000_0000;
    var q := shifted / 0x1_0000_0000_0000_0000;
    assert CacheDuration(minutes) == 2 * (30_000_000_000 * m - 0x8000_0000_0000_0000 * q);
  }

  datatype Cache = Cache(index: Index, lastUpdated: int)

  const EMPTY := Cache([], ZERO_TIME)

  /** What the world does during one call: when the age is checked, what a fetch would return, and when it ends. */
  datatype Attempt = Attempt(checked: int, fetched: Option<Index>, stamped: int)

  predicate Expired(c: Cache, duration: int, checked: int) {
    Since(checked, c.lastUpdated) > duration
  }

  function Refresh(c: Cache, duration: int, a: Attempt): Cache {
    if Expired(c, duration, a.checked) && a.fetched.Some? then Cache(a.fetched.value, a.stamped) else c
  }

  /** The index a call goes on to use; None when the cache was expired and the fetch failed. */
  function Used(c: Cache, duration: int, a: Attempt): Option<Index> {
    if Expired(c, duration, a.checked) then a.fetched else Some(c.index)
  }

  function After(duration: int, calls: seq<Attempt>): Cache {
    if calls == [] then EMPTY else Refresh(After(duration, calls[..|calls| - 1]), duration, calls[|calls| - 1])
  }

  predicate Refetches(duration: int, calls: seq<Attempt>, k: int) {
    0 <= k < |calls| && Expired(After(duration, calls[..k]), duration, calls[k].checked) && calls[k].fetched.Some?
  }

  /** The clock moves on and is past 1970. */
  ghost predicate Timely(calls: seq<Attempt>) {
    && (forall i :: 0 <= i < |calls| ==> 0 <= calls[i].checked <= calls[i].stamped)
    && (forall i, j :: 0 <= i < j < |calls| ==> calls[i].stamped <= calls[j].checked)
  }

  /** The fetch whose index is in the cache after the calls: the last successful one. */
  ghost predicate LastFetch(duration: int, calls: seq<Attempt>, k: int) {
    && Refetches(duration, calls, k)
    && After(duration, calls) == Cache(calls[k].fetched.value, calls[k].stamped)
    && forall m :: k < m < |calls| ==> !Refetches(duration, calls, m)
  }

  lemma {:induction false} CacheOrigin(duration: int, calls: seq<Attempt>)
    ensures After(duration, calls) == EMPTY || exists k :: LastFetch(duration, calls, k)
  {
    if calls != [] {
      var n := |calls| - 1;
      CacheOrigin(duration, calls[..n]);
      assert forall k :: 0 <= k <= n ==> calls[..n][..k] == calls[..k];
      assert forall k :: 0 <= k < n ==> (Refetches(duration, calls[..n], k) <==> Refetches(duration, calls, k));
      if Refetches(duration, calls, n) {
        assert LastFetch(duration, calls, n);
      } else if k :| LastFetch(duration, calls[..n], k) {
        assert LastFetch(duration, calls, k);
      }
    }
  }

  /**
   * Every call that gets an index gets the one of the latest successful fetch, and that fetch was stamped at
   * most the cache duration before the call checked its age.
   */
  lemma FreshIndex(duration: int, calls: seq<Attempt>, i: nat)
    requires 0 <= duration < MAX_DURATION && Timely(calls) && i < |calls|
    requires Used(After(duration, calls[..i]), duration, calls[i]).Some?
    ensures exists k :: 0 <= k <= i
              && LastFetch(duration, calls[..i + 1], k)
              && Used(After(duration, calls[..i]), duration, calls[i]) == Some(calls[k].fetched.value)
              && calls[i].checked - calls[k].stamped <= duration
  {
    var upTo := calls[..i + 1];
    assert upTo[..i] == calls[..i];
    CacheOrigin(duration, upTo);
    assert After(duration, upTo) == Refresh(After(duration, calls[..i]), duration, calls[i]);
    var k :| LastFetch(duration, upTo, k);
    assert upTo[k] == calls[k];
    if k < i {
      assert !Refetches(duration, upTo, i);
      assert After(duration, upTo) == After(duration, calls[..i]);
    }
  }

  /** A failed refresh changes nothing, so the next call finds the cache expired and fetches again. */
  lemma FailureRetries(duration: int, calls: seq<Attempt>, i: nat)
    requires Timely(calls) && i + 1 < |calls|
    requires Used(After(duration, calls[..i]), duration, calls[i]) == None
    ensures After(duration, calls[..i + 1]) == After(duration, calls[..i])
    ensures Expired(After(duration, calls[..i + 1]), duration, calls[i + 1].checked)
  {
    assert calls[..i + 1][..i] == calls[..i];
    assert calls[i].stamped <= calls[i + 1].checked;
  }

  /** The call goes on with what its fetch brings, and keeps it. */
  ghost predicate Fetches(c: Cache, duration: int, a: Attempt) {
    && Used(c, duration, a) == a.fetched
    && Refresh(c, duration, a) == (if a.fetched.Some? then Cache(a.fetched.value, a.stamped) else c)
  }

  /** The call goes on with the index in the cache, whatever its fetch would bring. */
  ghost predicate Reuses(c: Cache, duration: int, a: Attempt) {
    Used(c, duration, a) == Some(c.index) && Refresh(c, duration, a) == c
  }

  /**
   * After a successful fetch a call up to the cache duration later uses the index of that fetch and leaves the cache
   * as it is, and a later call fetches.
   */
  lemma CacheIsUsedIff(duration: int, calls: seq<Attempt>, i: nat, k: nat)
    requires duration < MAX_DURATION && i < |calls| && LastFetch(duration, calls[..i], k)
    ensures After(duration, calls[..i]).index == calls[k].fetched.value
    ensures if calls[i].checked - calls[k].stamped <= duration
            then Reuses(After(duration, calls[..i]), duration, calls[i])
                 && Used(After(duration, calls[..i]), duration, calls[i]) == Some(calls[k].fetched.value)
                 && After(duration, calls[..i + 1]) == After(duration, calls[..i])
            else Fetches(After(duration, calls[..i]), duration, calls[i])
  {
    assert calls[..i][k] == calls[k];
    assert calls[..i + 1][..i] == calls[..i];
  }

  /** Before the first successful fetch every call fetches. */
  lemma FirstCallsFetch(duration: int, calls: seq<Attempt>, i: nat)
    requires duration < MAX_DURATION && i < |calls| && 0 <= calls[i].checked
    requires forall k :: !LastFetch(duration, calls[..i], k)
    ensures After(duration, calls[..i]) == EMPTY && Fetches(EMPTY, duration, calls[i])
  {
    CacheOrigin(duration, calls[..i]);
  }

  /** A duration of up to some hundred and fifty million minutes is not cut by the 64-bit product; the default is 60. */
  lemma CacheDurationExact(minutes: Option<int>)
    requires minutes.Some? ==> -153_722_867 <= minutes.value <= 153_722_867
    ensures CacheDuration(minutes) == 60 * 1_000_000_000 * (if minutes.Some? then minutes.value else 60)
  {
  }

  // ----- The partitioning query

  function RepoKey(n: NameWithOwner): string {
    n.owner + "/" + n.repo
  }

  function Names(index: Index): set<string> {
    set r | r in index :: r.projname
  }

  predicate Kept(n: NameWithOwner, names: set<string>, wanted: bool) {
    (RepoKey(n) in names) == wanted
  }

  /** The requested repositories whose key is, or is not, among the names; in request order. */
  function Select(request: seq<NameWithOwner>, names: set<string>, wanted: bool): seq<NameWithOwner> {
    if request == [] then [] else
      var n := |request| - 1;
      Select(request[..n], names, wanted) + if Kept(request[n], names, wanted) then [request[n]] else []
  }

  function Found(request: seq<NameWithOwner>, names: set<string>): seq<NameWithOwner> {
    Select(request, names, true)
  }

  function NotFound(request: seq<NameWithOwner>, names: set<string>): seq<NameWithOwner> {
    Select(request, names, false)
  }

  /** `positions` picks `part` out of `whole`, in order. */
  ghost predicate PickedBy(positions: seq<int>, part: seq<NameWithOwner>, whole: seq<NameWithOwner>) {
    && |positions| == |part|
    && (forall i :: 0 <= i < |positions| ==> 0 <= positions[i] < |whole| && whole[positions[i]] == part[i])
    && (forall i, j :: 0 <= i < j < |positions| ==> positions[i] < positions[j])
  }

  lemma PickOneMore(positions: seq<int>, part: seq<NameWithOwner>, whole: seq<NameWithOwner>, n: NameWithOwner)
    requires PickedBy(positions, part, whole)
    ensures PickedBy(positions, part, whole + [n])
    ensures PickedBy(positions + [|whole|], part + [n], whole + [n])
  {
  }

  ghost function Positions(request: seq<NameWithOwner>, names: set<string>, wanted: bool): seq<int> {
    if request == [] then [] else
      var n := |request| - 1;
      Positions(request[..n], names, wanted) + if Kept(request[n], names, wanted) then [n] else []
  }

  lemma {:induction false} SelectMeaning(request: seq<NameWithOwner>, names: set<string>, wanted: bool)
    ensures PickedBy(Positions(request, names, wanted), Select(request, names, wanted), request)
    ensures forall i :: i in Positions(request, names, wanted)
                   <==> 0 <= i < |request| && Kept(request[i], names, wanted)
  {
    if request != [] {
      var n := |request| - 1;
      SelectMeaning(request[..n], names, wanted);
      assert request == request[..n] + [request[n]];
      var before := request[..n];
      PickOneMore(Positions(before, names, wanted), Select(before, names, wanted), before, request[n]);
    }
  }

  /** The query splits the request at every position, in order, by membership in the index. */
  lemma PartitionMeaning(request: seq<NameWithOwner>, names: set<string>) returns (yes: seq<int>, no: seq<int>)
    ensures PickedBy(yes, Found(request, names), request) && PickedBy(no, NotFound(request, names), request)
    ensures forall i :: 0 <= i < |request| ==>
              (i in yes <==> RepoKey(request[i]) in names) && (i in no <==> i !in yes)
  {
    yes, no := Positions(request, names, true), Positions(request, names, false);
    SelectMeaning(request, names, true);
    SelectMeaning(request, names, false);
  }

  // ----- The lookup

  /** The URL of the first record with the name, empty when there is no such record. */
  function FirstUrl(index: Index, key: string): string {
    if index == [] then "" else if index[0].projname == key then index[0].resultUrl else FirstUrl(index[1..], key)
  }

  ghost predicate IsFirstRecord(index: Index, key: string, i: int) {
    0 <= i < |index| && index[i].projname == key && forall j :: 0 <= j < i ==> index[j].projname != key
  }

  lemma {:induction false} FirstUrlMeaning(index: Index, key: string)
    ensures FirstUrl(index, key) != ""
       <==> exists i :: IsFirstRecord(index, key, i) && index[i].resultUrl != ""
    ensures forall i :: IsFirstRecord(index, key, i) ==> FirstUrl(index, key) == index[i].resultUrl
    ensures key !in Names(index) ==> FirstUrl(index, key) == ""
  {
    if index != [] {
      var rest := index[1..];
      FirstUrlMeaning(rest, key);
      if index[0].projname == key {
        assert IsFirstRecord(index, key, 0);
      } else {
        forall i ensures IsFirstRecord(index, key, i) <==> IsFirstRecord(rest, key, i - 1) {
          assert forall j :: 0 < j < |index| ==> index[j] == rest[j - 1];
          if IsFirstRecord(rest, key, i - 1) {
            assert forall j :: 0 < j < i ==> index[j].projname != key;
          }
          if IsFirstRecord(index, key, i) {
            assert forall j :: 0 <= j < i - 1 ==> rest[j] == index[j + 1];
          }
        }
        if FirstUrl(rest, key) != "" {
          var i :| IsFirstRecord(rest, key, i) && rest[i].resultUrl != "";
          assert IsFirstRecord(index, key, i + 1);
        }
      }
    }
  }

  /**
   * On one index, the lookup finds a URL exactly for the repositories the query put in `found` whose first
   * record carries one.
   */
  lemma LookupAgreesWithQuery(index: Index, request: seq<NameWithOwner>, n: NameWithOwner)
    requires n in request
    ensures FirstUrl(index, RepoKey(n)) != "" <==>
              n in Found(request, Names(index))
              && exists i :: IsFirstRecord(index, RepoKey(n), i) && index[i].resultUrl != ""
  {
    FirstUrlMeaning(index, RepoKey(n));
    var yes, no := PartitionMeaning(request, Names(index));
    var p :| 0 <= p < |request| && request[p] == n;
    if RepoKey(n) in Names(index) {
      assert p in yes;
    }
  }

  /** A request entry with exactly one slash is split into the repository whose key is the entry itself. */
  lemma EntryRoundTrip(entry: string)
    requires |Text.Split(entry, "/")| == 2
    ensures var t := Text.Split(entry, "/"); RepoKey(NameWithOwner(t[0], t[1])) == entry
  {
    Text.JoinSplit(entry, "/");
    var t := Text.Split(entry, "/");
    assert Text.Join(t[1..], "/") == t[1];
  }

  class HepcStore {
    var metadataCache: Index
    var cacheLastUpdated: int
    const cacheDuration: int

    ghost function Data(): Cache
      reads this
    {
      Cache(metadataCache, cacheLastUpdated)
    }

    constructor (minutes: Option<int>)
      ensures Data() == EMPTY && cacheDuration == CacheDuration(minutes)
    {
      metadataCache, cacheLastUpdated, cacheDuration := [], ZERO_TIME, CacheDuration(minutes);
    }

    /** `world` says when this call looks at the clock and what its fetch would bring. */
    method FindAvailableDBs(request: seq<NameWithOwner>, world: Attempt)
      returns (notFoundRepos: seq<NameWithOwner>, foundRepos: seq<NameWithOwner>)
      modifies this
      ensures Data() == Refresh(old(Data()), cacheDuration, world)
      ensures match Used(old(Data()), cacheDuration, world)
              case None => notFoundRepos == request && foundRepos == []
              case Some(index) =>
                notFoundRepos == NotFound(request, Names(index)) && foundRepos == Found(request, Names(index))
    {
      notFoundRepos, foundRepos := [], [];
      if Since(world.checked, cacheLastUpdated) > cacheDuration {
        if world.fetched.None? { return request, []; }
        metadataCache := world.fetched.value;
        cacheLastUpdated := world.stamped;
      }
      var repoSet := {};
      for i := 0 to |metadataCache|
        invariant repoSet == Names(metadataCache[..i])
      {
        assert metadataCache[..i + 1] == metadataCache[..i] + [metadataCache[i]];
        repoSet := repoSet + {metadataCache[i].projname};
      }
      assert metadataCache[..|metadataCache|] == metadataCache;
      for i := 0 to |request|
        invariant foundRepos == Found(request[..i], repoSet) && notFoundRepos == NotFound(request[..i], repoSet)
      {
        assert request[..i + 1][..i] == request[..i];
        if RepoKey(request[i]) in repoSet {
          foundRepos := foundRepos + [request[i]];
        } else {
          notFoundRepos := notFoundRepos + [request[i]];
        }
      }
      assert request[..|request|] == request;
    }

    /** The part of GetDatabase before the download: the URL to fetch, or None for its error returns. */
    method LocateDatabase(location: NameWithOwner, world: Attempt) returns (url: Option<string>)
      modifies this
      ensures Data() == Refresh(old(Data()), cacheDuration, world)
      ensures match Used(old(Data()), cacheDuration, world)
              case None => url == None
              case Some(index) =>
                var first := FirstUrl(index, RepoKey(location));
                url == if first == "" then None else Some(first)
    {
      if Since(world.checked, cacheLastUpdated) > cacheDuration {
        if world.fetched.None? { return None; }
        metadataCache := world.fetched.value;
        cacheLastUpdated := world.stamped;
      }
      var resultUrl := "";
      var i := 0;
      while i < |metadataCache|
        invariant 0 <= i <= |metadataCache|
        invariant resultUrl == ""
        invariant FirstUrl(metadataCache, RepoKey(location)) == FirstUrl(metadataCache[i..], RepoKey(location))
      {
        if metadataCache[i].projname == RepoKey(location) {
          resultUrl := metadataCache[i].resultUrl;
          break;
        }
        i := i + 1;
      }
      if resultUrl == "" { return None; }
      return Some(resultUrl);
    }
  }
}
