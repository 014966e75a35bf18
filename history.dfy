/**
 * The bookkeeping of a history resubmission. A resubmission sends recent
 * history to the interest worker in chunks: each chunk queries Places for
 * visits newer than the largest id seen so far, posts one request per visit
 * to the worker and counts the posts; each "resubmit" result the worker
 * sends back counts one down, and the next chunk starts when the count
 * reaches zero. A chunk whose query finds nothing ends the resubmission and
 * resolves its promise.
 *
 * The worker, the Places query, URI parsing, the eTLD service, the observer
 * notifications, the timer and the clock are outside the model: their
 * results are parameters, and what is sent to them is returned.
 */
module History {
  import opened Values

  const MS_PER_DAY := 86400000
  const DEFAULT_DAYS_BACK := 120
  const DEFAULT_CHUNK_SIZE := 1000
  const RESUBMIT := "resubmit"
  const WWW := "www."

  // --- Pure helpers -------------------------------------------------------------

  /** `host.replace(/^www\./, "")`: one leading "www." comes off, nothing else changes. */
  function NormalizeHostName(host: string): (r: string)
    ensures |r| <= |host| && host[|host| - |r|..] == r
    ensures host[..|host| - |r|] == WWW <==> WWW <= host
    ensures !(WWW <= host) ==> r == host
  {
    if WWW <= host then host[|WWW|..] else host
  }

  /** Only the first "www." is stripped, even when the rest starts with another. */
  lemma NormalizeStripsOnce(rest: string)
    ensures NormalizeHostName(WWW + rest) == rest
  {
    assert WWW <= WWW + rest;
    assert (WWW + rest)[|WWW|..] == rest;
  }

  /**
   * `Math.floor((time || Date.now()) / MS_PER_DAY)`: a visit time, null or
   * missing (`None`) or zero, falls back to the current time `now`.
   */
  function ConvertDateToDays(time: Option<int>, now: int): (days: int)
    ensures var t := if time.None? || time.value == 0 then now else time.value;
            days * MS_PER_DAY <= t < (days + 1) * MS_PER_DAY
  {
    var t := if time.None? || time.value == 0 then now else time.value;
    t / MS_PER_DAY
  }

  /** The days of a visit time are those of the current time exactly when the time is falsy. */
  lemma FalsyTimeIsNow(time: Option<int>, now: int)
    requires time.None? || time == Some(0)
    ensures ConvertDateToDays(time, now) == ConvertDateToDays(Some(now), now)
  {
  }

  /** `options[key] || fallback`. */
  function OptionOr(options: map<string, Value>, key: string, fallback: Value): (r: Value)
    ensures Truthy(fallback) ==> Truthy(r)
    ensures key in options && Truthy(options[key]) ==> r == options[key]
    ensures !(key in options && Truthy(options[key])) ==> r == fallback
  {
    if key in options && Truthy(options[key]) then options[key] else fallback
  }

  // --- The resubmission state ---------------------------------------------------

  /** A visit as the Places query hands it over. */
  datatype PlaceItem = PlaceItem(url: string, id: int, visitDate: Option<int>)

  /** What `NetUtil.newURI` makes of a URL; `host` is `None` where reading it throws. */
  datatype Uri = Uri(host: Option<string>, path: string)

  /** The request posted to the worker for one visit. */
  datatype WorkerRequest = WorkerRequest(
    message: string, url: string, id: int, host: string, path: string, tld: string,
    language: string, messageId: string, visitDate: int)

  /** The arguments of one Places query. */
  datatype Query = Query(daysBack: Value, chunkSize: Value, lastPlacesId: int)

  /**
   * The resubmission fields of a reader. `deferred` is the promise of the
   * resubmission in progress (promises are numbered in the order they are
   * made, `made` of them so far), `resolved` lists the promises resolved, in
   * order. `urlCount` is `None` while it is not a number (before the first
   * chunk, `undefined` counted down stays `NaN`). Before the first
   * resubmission `largestId`, `daysBack` and `chunkSize` are never read.
   */
  datatype Resubmit = Resubmit(
    deferred: Option<nat>, made: nat, resolved: seq<nat>,
    urlCount: Option<int>, largestId: int, daysBack: Value, chunkSize: Value)

  /** A reader that has not resubmitted anything. */
  function Fresh(): Resubmit {
    Resubmit(None, 0, [], None, 0, Null, Null)
  }

  /**
   * Every promise made is resolved at most once, only after it was made, and
   * the one in progress is the latest and not yet resolved.
   */
  ghost predicate Consistent(s: Resubmit) {
    && (forall i | 0 <= i < |s.resolved| :: s.resolved[i] < s.made)
    && (forall i, j | 0 <= i < j < |s.resolved| :: s.resolved[i] != s.resolved[j])
    && (s.deferred.Some? ==> s.deferred.value == s.made - 1 && s.deferred.value !in s.resolved)
  }

  /** `a` and `b` agree on everything but the count and the largest id. */
  predicate SameRun(a: Resubmit, b: Resubmit) {
    a.deferred == b.deferred && a.made == b.made && a.resolved == b.resolved
    && a.daysBack == b.daysBack && a.chunkSize == b.chunkSize
  }

  /** `_resolveResubmitHistoryPromise()`. */
  function ResolveStep(s: Resubmit): (r: Resubmit)
    ensures r.deferred.None?
    ensures s.deferred.Some? ==> r.resolved == s.resolved + [s.deferred.value]
    ensures s.deferred.None? ==> r == s
    ensures r.urlCount == s.urlCount && r.largestId == s.largestId && r.made == s.made
  {
    if s.deferred.Some? then s.(resolved := s.resolved + [s.deferred.value], deferred := None) else s
  }

  /** A second resolution does nothing. */
  lemma ResolveIdempotent(s: Resubmit)
    ensures ResolveStep(ResolveStep(s)) == ResolveStep(s)
  {
  }

  /**
   * `_resubmitRecentHistoryChunk()`, up to the query: the count restarts at
   * zero and Places is asked for visits after the largest id seen.
   */
  function ChunkStep(s: Resubmit): (r: (Resubmit, Query))
    ensures r.0.urlCount == Some(0)
    ensures r.1 == Query(s.daysBack, s.chunkSize, s.largestId)
    ensures SameRun(r.0, s) && r.0.largestId == s.largestId
  {
    (s.(urlCount := Some(0)), Query(s.daysBack, s.chunkSize, s.largestId))
  }

  /**
   * `_resubmitRecentHistory(daysBack, chunkSize)`, with `chunkSize` `None`
   * when it is not passed: while a resubmission is in progress its promise
   * is returned and nothing changes; otherwise a new promise is made, the
   * largest id restarts at zero, the two settings are recorded and the first
   * chunk is queried at once.
   */
  function StartStep(s: Resubmit, daysBack: Value, chunkSize: Option<Value>): (r: (Resubmit, nat, Option<Query>))
    ensures s.deferred.Some? ==> r == (s, s.deferred.value, None)
    ensures s.deferred.None? ==>
              && r.1 == s.made && r.0.made == s.made + 1 && r.0.deferred == Some(r.1)
              && r.0.resolved == s.resolved
              && r.0.largestId == 0 && r.0.urlCount == Some(0) && r.0.daysBack == daysBack
              && r.0.chunkSize == (if chunkSize.None? then Num(DEFAULT_CHUNK_SIZE) else chunkSize.value)
              && r.2 == Some(Query(daysBack, r.0.chunkSize, 0))
  {
    if s.deferred.Some? then (s, s.deferred.value, None)
    else
      var size := if chunkSize.None? then Num(DEFAULT_CHUNK_SIZE) else chunkSize.value;
      var started := s.(deferred := Some(s.made), made := s.made + 1, largestId := 0,
                        daysBack := daysBack, chunkSize := size);
      var chunk := ChunkStep(started);
      (chunk.0, s.made, Some(chunk.1))
  }

  /** `resubmitHistory(options)`: `daysBack` and `chunkSize` default to 120 and 1000 when missing or falsy. */
  function ResubmitHistoryStep(s: Resubmit, options: map<string, Value>): (r: (Resubmit, nat, Option<Query>))
    ensures s.deferred.None? ==>
              && Truthy(r.0.daysBack) && Truthy(r.0.chunkSize)
              && r.2 == Some(Query(OptionOr(options, "daysBack", Num(DEFAULT_DAYS_BACK)),
                                   OptionOr(options, "chunkSize", Num(DEFAULT_CHUNK_SIZE)), 0))
    ensures s.deferred.Some? ==> r == (s, s.deferred.value, None)
  {
    StartStep(s, OptionOr(options, "daysBack", Num(DEFAULT_DAYS_BACK)),
              Some(OptionOr(options, "chunkSize", Num(DEFAULT_CHUNK_SIZE))))
  }

  /** The request a visit becomes. */
  function Request(item: PlaceItem, uri: Uri, tld: string, now: int): WorkerRequest {
    WorkerRequest("getInterestsForDocument", item.url, item.id,
                  if uri.host.Some? then NormalizeHostName(uri.host.value) else "",
                  uri.path, tld, "en", RESUBMIT, ConvertDateToDays(item.visitDate, now))
  }

  /** `undefined++` and `NaN++` are `NaN`. */
  function Inc(c: Option<int>): Option<int> {
    if c.Some? then Some(c.value + 1) else None
  }

  /** `undefined--` and `NaN--` are `NaN`. */
  function Dec(c: Option<int>): Option<int> {
    if c.Some? then Some(c.value - 1) else None
  }

  /**
   * The per-visit callback of a chunk. `uri` is `None` when the URL does not
   * parse, which throws before anything is posted or counted; otherwise the
   * request goes to the worker, the count goes up by one and the largest id
   * follows the visit's id. `tld` is what the eTLD service answers for the
   * host (or "" when it throws) and `now` the current time.
   */
  function ItemStep(s: Resubmit, item: PlaceItem, uri: Option<Uri>, tld: string, now: int)
    : (r: (Resubmit, Option<WorkerRequest>))
    ensures uri.None? ==> r == (s, None)
    ensures uri.Some? ==>
              && r.1 == Some(Request(item, uri.value, tld, now))
              && r.0.urlCount == Inc(s.urlCount)
              && r.0.largestId >= s.largestId && r.0.largestId >= item.id
              && (r.0.largestId == s.largestId || r.0.largestId == item.id)
              && SameRun(r.0, s)
  {
    if uri.None? then (s, None)
    else
      (s.(urlCount := Inc(s.urlCount), largestId := if s.largestId < item.id then item.id else s.largestId),
       Some(Request(item, uri.value, tld, now)))
  }

  /**
   * The end of a chunk's query: when a resubmission is in progress and the
   * chunk posted nothing still outstanding, its promise is resolved.
   */
  function ChunkDoneStep(s: Resubmit): (r: Resubmit)
    ensures s.deferred.Some? && s.urlCount == Some(0) ==> r == ResolveStep(s)
    ensures !(s.deferred.Some? && s.urlCount == Some(0)) ==> r == s
  {
    if s.deferred.Some? && s.urlCount == Some(0) then ResolveStep(s) else s
  }

  /**
   * `_handleInterestsResults(data)` with `data.messageId == messageId`: a
   * "resubmit" result counts one down, and the next chunk is scheduled
   * (`true`) exactly when that brings the count to zero.
   */
  function ResultStep(s: Resubmit, messageId: string): (r: (Resubmit, bool))
    ensures messageId != RESUBMIT ==> r == (s, false)
    ensures messageId == RESUBMIT ==>
              r.0 == s.(urlCount := Dec(s.urlCount)) && (r.1 <==> s.urlCount == Some(1))
  {
    if messageId == RESUBMIT then
      var c := Dec(s.urlCount);
      (s.(urlCount := c), c == Some(0))
    else (s, false)
  }

  // --- Runs of events -----------------------------------------------------------

  /** A visit of a chunk, with what the foreign services make of it. */
  datatype Visit = Visit(item: PlaceItem, uri: Option<Uri>, tld: string)

  /** The callback applied to each visit of `vs` in turn. */
  function Items(s: Resubmit, vs: seq<Visit>, now: int): Resubmit {
    if vs == [] then s
    else ItemStep(Items(s, vs[..|vs| - 1], now), vs[|vs| - 1].item, vs[|vs| - 1].uri, vs[|vs| - 1].tld, now).0
  }

  /** The number of visits of `vs` whose URL parses. */
  function Parsed(vs: seq<Visit>): nat {
    if vs == [] then 0 else Parsed(vs[..|vs| - 1]) + (if vs[|vs| - 1].uri.Some? then 1 else 0)
  }

  /** The largest of `m` and the ids of the visits of `vs` whose URL parses. */
  function MaxId(m: int, vs: seq<Visit>): (r: int)
    ensures r >= m
    ensures forall i | 0 <= i < |vs| && vs[i].uri.Some? :: r >= vs[i].item.id
    ensures r == m || exists i | 0 <= i < |vs| :: vs[i].uri.Some? && r == vs[i].item.id
  {
    if vs == [] then m
    else
      var prefix := vs[..|vs| - 1];
      var last := vs[|vs| - 1];
      var rest := MaxId(m, prefix);
      assert forall i | 0 <= i < |prefix| :: prefix[i] == vs[i];
      if last.uri.Some? && rest < last.item.id then last.item.id else rest
  }

  /**
   * Over a chunk, the count is the number of visits that parsed and the
   * largest id is the largest of those visits' ids and the one before;
   * nothing else changes.
   */
  lemma {:induction false} ItemsCount(s: Resubmit, vs: seq<Visit>, now: int, n: int)
    requires s.urlCount == Some(n)
    ensures Items(s, vs, now).urlCount == Some(n + Parsed(vs))
    ensures Items(s, vs, now).largestId == MaxId(s.largestId, vs)
    ensures SameRun(Items(s, vs, now), s)
  {
    if vs != [] {
      ItemsCount(s, vs[..|vs| - 1], now, n);
    }
  }

  /**
   * A chunk counts exactly the visits whose URL parses, and the largest id
   * follows the largest of their ids.
   */
  lemma ChunkCounts(s: Resubmit, vs: seq<Visit>, now: int)
    ensures Items(ChunkStep(s).0, vs, now).urlCount == Some(Parsed(vs))
    ensures Items(ChunkStep(s).0, vs, now).largestId == MaxId(s.largestId, vs)
  {
    ItemsCount(ChunkStep(s).0, vs, now, 0);
  }

  /** The worker's results, one after another; the schedule flag of each. */
  function Results(s: Resubmit, ids: seq<string>): (r: (Resubmit, seq<bool>))
    ensures |r.1| == |ids|
  {
    if ids == [] then (s, [])
    else
      var before := Results(s, ids[..|ids| - 1]);
      var step := ResultStep(before.0, ids[|ids| - 1]);
      (step.0, before.1 + [step.1])
  }

  /** The number of "resubmit" results among `ids`. */
  function Resubmits(ids: seq<string>): nat {
    if ids == [] then 0 else Resubmits(ids[..|ids| - 1]) + (if ids[|ids| - 1] == RESUBMIT then 1 else 0)
  }

  /**
   * After a chunk that posted `n` requests, the results `ids` leave `n`
   * minus the number of "resubmit" results outstanding, and a result
   * schedules the next chunk exactly when it is the "resubmit" result that
   * brings that number to `n`; nothing else changes.
   */
  lemma {:induction false} ResultsCountDown(s: Resubmit, ids: seq<string>, n: int)
    requires s.urlCount == Some(n)
    ensures Results(s, ids).0 == s.(urlCount := Some(n - Resubmits(ids)))
    ensures forall i | 0 <= i < |ids| ::
              Results(s, ids).1[i] <==> ids[i] == RESUBMIT && Resubmits(ids[..i + 1]) == n
  {
    if ids != [] {
      var prefix := ids[..|ids| - 1];
      ResultsCountDown(s, prefix, n);
      forall j | 0 < j <= |prefix|
        ensures Resubmits(prefix[..j]) == Resubmits(ids[..j])
      {
        assert prefix[..j] == ids[..j];
      }
      assert ids[..|ids|] == ids;
    }
  }

  /** Counting over a longer prefix counts at least as many, and one more past a "resubmit". */
  lemma {:induction false} ResubmitsGrow(ids: seq<string>, i: nat, j: nat)
    requires i < j <= |ids|
    ensures Resubmits(ids[..j]) >= Resubmits(ids[..i]) + (if ids[i] == RESUBMIT then 1 else 0)
    decreases j
  {
    assert ids[..j][..j - 1] == ids[..j - 1];
    if i < j - 1 {
      ResubmitsGrow(ids, i, j - 1);
    } else {
      assert ids[..j][j - 1] == ids[i];
    }
  }

  /** The count of "resubmit" results passes through every value up to the total, at a "resubmit". */
  lemma {:induction false} ResubmitsReach(ids: seq<string>, n: nat)
    requires 0 < n <= Resubmits(ids)
    ensures exists i | 0 <= i < |ids| :: ids[i] == RESUBMIT && Resubmits(ids[..i + 1]) == n
  {
    var prefix := ids[..|ids| - 1];
    if Resubmits(prefix) >= n {
      ResubmitsReach(prefix, n);
      var i :| 0 <= i < |prefix| && prefix[i] == RESUBMIT && Resubmits(prefix[..i + 1]) == n;
      assert prefix[..i + 1] == ids[..i + 1];
    } else {
      assert ids[..|ids|] == ids;
    }
  }

  /**
   * With `n > 0` requests outstanding, results that include `n` "resubmit"
   * ones schedule the next chunk exactly once and leave nothing outstanding.
   */
  lemma ResultsScheduleOnce(s: Resubmit, ids: seq<string>, n: int)
    requires s.urlCount == Some(n) && 0 < n == Resubmits(ids)
    ensures Results(s, ids).0.urlCount == Some(0)
    ensures exists i | 0 <= i < |ids| :: Results(s, ids).1[i]
    ensures forall i, j | 0 <= i < j < |ids| :: !(Results(s, ids).1[i] && Results(s, ids).1[j])
  {
    ResultsCountDown(s, ids, n);
    ResubmitsReach(ids, n);
    var flags := Results(s, ids).1;
    forall i, j | 0 <= i < j < |ids|
      ensures !(flags[i] && flags[j])
    {
      if flags[i] && flags[j] {
        ResubmitsGrow(ids, j, j + 1);
        if i + 1 < j {
          ResubmitsGrow(ids, i + 1, j);
        }
      }
    }
  }

  /**
   * A chunk in which some visits parse, followed by as many "resubmit"
   * results, schedules the next chunk exactly once.
   */
  lemma ChunkSchedulesNextOnce(s: Resubmit, vs: seq<Visit>, now: int, ids: seq<string>)
    requires Parsed(vs) > 0 && Resubmits(ids) == Parsed(vs)
    ensures var r := Results(Items(ChunkStep(s).0, vs, now), ids);
            && r.0.urlCount == Some(0)
            && (exists i | 0 <= i < |ids| :: r.1[i])
            && forall i, j | 0 <= i < j < |ids| :: !(r.1[i] && r.1[j])
  {
    ChunkCounts(s, vs, now);
    ResultsScheduleOnce(Items(ChunkStep(s).0, vs, now), ids, Parsed(vs));
  }

  /**
   * A chunk that finds nothing ends the resubmission: its promise is
   * resolved and the next call starts a new one.
   */
  lemma EmptyChunkResolves(s: Resubmit, now: int)
    requires s.deferred.Some?
    ensures var after := ChunkDoneStep(Items(ChunkStep(s).0, [], now));
            after.deferred.None? && after.resolved == s.resolved + [s.deferred.value]
  {
  }

  /** Every step keeps each promise resolved at most once. */
  lemma {:induction false} StepsKeepConsistent(s: Resubmit, daysBack: Value, chunkSize: Option<Value>,
                                               vs: seq<Visit>, now: int, ids: seq<string>)
    requires Consistent(s)
    ensures Consistent(StartStep(s, daysBack, chunkSize).0)
    ensures Consistent(ChunkStep(s).0)
    ensures Consistent(Items(s, vs, now))
    ensures Consistent(Results(s, ids).0)
    ensures Consistent(ChunkDoneStep(s))
    ensures Consistent(ResolveStep(s))
  {
    ResolveKeepsConsistent(s);
    ItemsKeepConsistent(s, vs, now);
    ResultsKeepConsistent(s, ids);
  }

  lemma ResolveKeepsConsistent(s: Resubmit)
    requires Consistent(s)
    ensures Consistent(ResolveStep(s))
  {
    if s.deferred.Some? {
      var r := ResolveStep(s);
      assert r.resolved == s.resolved + [s.deferred.value];
      assert forall i | 0 <= i < |s.resolved| :: r.resolved[i] == s.resolved[i];
    }
  }

  lemma {:induction false} ItemsKeepConsistent(s: Resubmit, vs: seq<Visit>, now: int)
    requires Consistent(s)
    ensures Consistent(Items(s, vs, now))
  {
    if vs != [] {
      ItemsKeepConsistent(s, vs[..|vs| - 1], now);
    }
  }

  lemma {:induction false} ResultsKeepConsistent(s: Resubmit, ids: seq<string>)
    requires Consistent(s)
    ensures Consistent(Results(s, ids).0)
  {
    if ids != [] {
      ResultsKeepConsistent(s, ids[..|ids| - 1]);
    }
  }

  // --- The reader as an object --------------------------------------------------

  /** The resubmission fields of a history reader, updated in place by its methods. */
  class HistoryReader {
    var deferred: Option<nat>
    var made: nat
    ghost var resolved: seq<nat>
    var urlCount: Option<int>
    var largestId: int
    var daysBack: Value
    var chunkSize: Value

    ghost function Snapshot(): Resubmit
      reads this
    {
      Resubmit(deferred, made, resolved, urlCount, largestId, daysBack, chunkSize)
    }

    ghost predicate Valid()
      reads this
    {
      Consistent(Snapshot())
    }

    constructor ()
      ensures Snapshot() == Fresh() && Valid()
    {
      deferred, made := None, 0;
      resolved := [];
      urlCount, largestId, daysBack, chunkSize := None, 0, Null, Null;
    }

    /** `resubmitHistory(options)`: the promise of the resubmission, and the query it starts, if any. */
    method ResubmitHistory(options: map<string, Value>) returns (promise: nat, query: Option<Query>)
      requires Valid()
      modifies this
      ensures Valid()
      ensures (Snapshot(), promise, query) == ResubmitHistoryStep(old(Snapshot()), options)
    {
      var d := OptionOr(options, "daysBack", Num(DEFAULT_DAYS_BACK));
      var c := OptionOr(options, "chunkSize", Num(DEFAULT_CHUNK_SIZE));
      promise, query := ResubmitRecentHistory(d, Some(c));
    }

    /** `_resubmitRecentHistory(daysBack, chunkSize)`. */
    method ResubmitRecentHistory(daysBack: Value, chunkSize: Option<Value>) returns (promise: nat, query: Option<Query>)
      requires Valid()
      modifies this
      ensures Valid()
      ensures (Snapshot(), promise, query) == StartStep(old(Snapshot()), daysBack, chunkSize)
    {
      if deferred.Some? {
        return deferred.value, None;
      }
      deferred := Some(made);
      promise := made;
      made := made + 1;
      largestId := 0;
      this.daysBack := daysBack;
      this.chunkSize := if chunkSize.None? then Num(DEFAULT_CHUNK_SIZE) else chunkSize.value;
      var q := ResubmitRecentHistoryChunk();
      query := Some(q);
    }

    /** `_resubmitRecentHistoryChunk()`, up to the query it sends to Places. */
    method ResubmitRecentHistoryChunk() returns (query: Query)
      requires Valid()
      modifies this
      ensures Valid()
      ensures (Snapshot(), query) == ChunkStep(old(Snapshot()))
    {
      urlCount := Some(0);
      query := Query(daysBack, chunkSize, largestId);
    }

    /** The per-visit callback of a chunk; the request posted to the worker, if any. */
    method OnHistoryItem(item: PlaceItem, uri: Option<Uri>, tld: string, now: int)
      returns (request: Option<WorkerRequest>)
      requires Valid()
      modifies this
      ensures Valid()
      ensures (Snapshot(), request) == ItemStep(old(Snapshot()), item, uri, tld, now)
    {
      if uri.None? {
        return None;
      }
      request := Some(Request(item, uri.value, tld, now));
      urlCount := Inc(urlCount);
      if largestId < item.id {
        largestId := item.id;
      }
    }

    /** The end of a chunk's query. */
    method OnChunkComplete()
      requires Valid()
      modifies this
      ensures Valid()
      ensures Snapshot() == ChunkDoneStep(old(Snapshot()))
    {
      if deferred.Some? && urlCount == Some(0) {
        ResolveResubmitHistoryPromise();
      }
    }

    /** `_handleInterestsResults(data)`: whether the next chunk is scheduled. */
    method HandleInterestsResults(messageId: string) returns (scheduleNext: bool)
      requires Valid()
      modifies this
      ensures Valid()
      ensures (Snapshot(), scheduleNext) == ResultStep(old(Snapshot()), messageId)
    {
      scheduleNext := false;
      if messageId == RESUBMIT {
        urlCount := Dec(urlCount);
        if urlCount == Some(0) {
          scheduleNext := true;
        }
      }
    }

    /** `_resolveResubmitHistoryPromise()`. */
    method ResolveResubmitHistoryPromise()
      requires Valid()
      modifies this
      ensures Valid()
      ensures Snapshot() == ResolveStep(old(Snapshot()))
    {
      if deferred.Some? {
        ResolveKeepsConsistent(Snapshot());
        resolved := resolved + [deferred.value];
        deferred := None;
      }
    }
  }
}
