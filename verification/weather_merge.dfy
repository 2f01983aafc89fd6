/**
  Daily weather records and the two ways incoming records are combined with
  the cache: the additive local-store merge and the replacing server merge.
 */
module WeatherMerge {

  datatype Option<T> = None | Some(value: T)

  /** A day's weather, keyed by the day-start timestamp; the rest of the record is opaque here. */
  datatype DayWeather = DayWeather(timestamp: int, details: string)

  /** The cache: timestamp to record. */
  type Cache = map<int, DayWeather>

  /** Every entry is stored under its own record's timestamp. */
  predicate KeyedByTimestamp(cache: Cache)
  {
    forall k :: k in cache ==> cache[k].timestamp == k
  }

  /** The timestamps carried by a list of records. */
  function TimestampsOf(recs: seq<DayWeather>): set<int>
  {
    set r | r in recs :: r.timestamp
  }

  /** No two records of the list share a timestamp. */
  predicate DistinctTimestamps(recs: seq<DayWeather>)
  {
    forall i, j :: 0 <= i < j < |recs| ==> recs[i].timestamp != recs[j].timestamp
  }

  /**
    Stores each record of recs, in order, under its timestamp; a later record
    for the same timestamp replaces an earlier one.
   */
  function InsertAll(cache: Cache, recs: seq<DayWeather>): (r: Cache)
    ensures r.Keys == cache.Keys + TimestampsOf(recs)
    ensures forall k :: k in cache && k !in TimestampsOf(recs) ==> r[k] == cache[k]
    ensures forall k :: k in TimestampsOf(recs) ==> r[k] in recs && r[k].timestamp == k
    decreases |recs|
  {
    if |recs| == 0 then cache
    else
      var last := recs[|recs| - 1];
      assert recs == recs[..|recs| - 1] + [last];
      InsertAll(cache, recs[..|recs| - 1])[last.timestamp := last]
  }

  /** With distinct timestamps, each record ends up stored under its timestamp. */
  lemma InsertAllDistinct(cache: Cache, recs: seq<DayWeather>, i: int)
    requires DistinctTimestamps(recs)
    requires 0 <= i < |recs|
    ensures InsertAll(cache, recs)[recs[i].timestamp] == recs[i]
  {
  }

  /**
    In-order insertion: a record that no later record shares a timestamp with
    is the one stored under that timestamp, whatever came before it.
   */
  lemma {:induction false} InsertAllLastWins(cache: Cache, recs: seq<DayWeather>, i: int)
    requires 0 <= i < |recs|
    requires forall j :: i < j < |recs| ==> recs[j].timestamp != recs[i].timestamp
    ensures InsertAll(cache, recs)[recs[i].timestamp] == recs[i]
    decreases |recs|
  {
    if i < |recs| - 1 {
      InsertAllLastWins(cache, recs[..|recs| - 1], i);
    }
  }

  /**
    The local-store filter: the records whose timestamp is in the window and
    not yet a key of the cache, in their original order.
   */
  function StoreAdditions(records: seq<DayWeather>, window: seq<int>, cache: Cache): (added: seq<DayWeather>)
    ensures |added| <= |records|
    ensures forall r :: r in added <==> r in records && r.timestamp in window && r.timestamp !in cache
  {
    if |records| == 0 then []
    else
      var rest := StoreAdditions(records[1..], window, cache);
      assert forall r :: r in records <==> r == records[0] || r in records[1..];
      if records[0].timestamp in window && records[0].timestamp !in cache then [records[0]] + rest
      else rest
  }

  /**
    The result of a local-store read merged into the cache: records in the
    window whose day is missing are added, nothing present is replaced.
   */
  function LocalMerge(cache: Cache, window: seq<int>, records: seq<DayWeather>): (r: Cache)
    ensures forall k :: k in cache ==> k in r && r[k] == cache[k]
    ensures forall k :: k in r && k !in cache ==> k in window && r[k] in records && r[k].timestamp == k
    ensures forall d :: d in records && d.timestamp in window ==> d.timestamp in r
    ensures forall k :: k in r ==> k in cache || k in TimestampsOf(records)
  {
    var added := StoreAdditions(records, window, cache);
    var merged := InsertAll(cache, added);
    assert forall d :: d in records && d.timestamp in window && d.timestamp !in cache ==> d in added;
    assert forall k :: k in TimestampsOf(added) ==> k in TimestampsOf(records);
    merged
  }

  /**
    Two store records for the same missing window day both pass the filter,
    and the later one is the record cached.
   */
  lemma StoreLaterRecordWins(cache: Cache, window: seq<int>, a: DayWeather, b: DayWeather)
    requires a.timestamp == b.timestamp && a.timestamp in window && a.timestamp !in cache
    ensures StoreAdditions([a, b], window, cache) == [a, b]
    ensures LocalMerge(cache, window, [a, b])[a.timestamp] == b
  {
  }

  /** The records present in the server's optional-slot payload, in order (`compactMap`). */
  function PresentRecords(days: seq<Option<DayWeather>>): (recs: seq<DayWeather>)
    ensures |recs| <= |days|
    ensures forall d :: d in recs <==> Some(d) in days
  {
    if |days| == 0 then []
    else
      var rest := PresentRecords(days[1..]);
      assert forall o :: o in days <==> o == days[0] || o in days[1..];
      match days[0]
      case Some(d) => [d] + rest
      case None => rest
  }

  /** The server's records whose timestamp is in the window, in order. */
  function InWindow(days: seq<Option<DayWeather>>, window: seq<int>): (recs: seq<DayWeather>)
    ensures forall d :: d in recs <==> Some(d) in days && d.timestamp in window
  {
    if |days| == 0 then []
    else
      var rest := InWindow(days[1..], window);
      assert forall o :: o in days <==> o == days[0] || o in days[1..];
      if days[0].Some? && days[0].value.timestamp in window then [days[0].value] + rest
      else rest
  }

  /** No two present records of the payload share a timestamp. */
  predicate DistinctDays(days: seq<Option<DayWeather>>)
  {
    forall i, j :: 0 <= i < j < |days| && days[i].Some? && days[j].Some? ==>
      days[i].value.timestamp != days[j].value.timestamp
  }

  /**
    The cache that replaces the old one after a successful server fetch:
    exactly the server's records inside the window, keyed by timestamp.
   */
  function ServerMerge(window: seq<int>, days: seq<Option<DayWeather>>): (r: Cache)
    ensures forall k :: k in r ==> k in window && Some(r[k]) in days && r[k].timestamp == k
    ensures forall d :: Some(d) in days && d.timestamp in window ==> d.timestamp in r
  {
    var recs := InWindow(days, window);
    var m := InsertAll(map[], recs);
    assert forall d :: Some(d) in days && d.timestamp in window ==> d in recs;
    m
  }


  /**
    Merge policy: a server record for a day in the window replaces whatever
    the cache held for that day (given the payload has one record per day).
   */
  lemma ServerRecordWins(window: seq<int>, days: seq<Option<DayWeather>>, d: DayWeather)
    requires DistinctDays(days)
    requires Some(d) in days && d.timestamp in window
    ensures d.timestamp in ServerMerge(window, days)
    ensures ServerMerge(window, days)[d.timestamp] == d
  {
  }

  /**
    Merge policy: after a local merge, a day already cached keeps its record
    even when the store returned another record for that day.
   */
  lemma LocalRecordNeverOverrides(cache: Cache, window: seq<int>, records: seq<DayWeather>, d: DayWeather)
    requires d in records && d.timestamp in cache
    ensures LocalMerge(cache, window, records)[d.timestamp] == cache[d.timestamp]
  {
  }

  /** A list of timestamps has at most as many distinct values as entries. */
  lemma {:induction false} DistinctValuesBound(window: seq<int>)
    ensures |set k | k in window| <= |window|
  {
    if |window| > 0 {
      DistinctValuesBound(window[1..]);
      assert (set k | k in window) == (set k | k in window[1..]) + {window[0]};
    }
  }

  /** A cache whose keys all lie in the window holds at most one entry per window entry. */
  lemma CacheWithinWindow(cache: Cache, window: seq<int>)
    requires forall k :: k in cache ==> k in window
    ensures |cache| <= |window|
  {
    DistinctValuesBound(window);
    var inWindow := set k | k in window;
    assert forall k :: k in cache.Keys ==> k in inWindow;
    SubsetSize(cache.Keys, inWindow);
  }

  /** A subset is no larger than its superset. */
  lemma SubsetSize(a: set<int>, b: set<int>)
    requires a <= b
    ensures |a| <= |b|
  {
    assert b == a + (b - a);
    assert a * (b - a) == {};
  }

  /** Both merges keep the cache keyed by timestamp and inside the window. */
  lemma MergesStayInWindow(cache: Cache, window: seq<int>, records: seq<DayWeather>, days: seq<Option<DayWeather>>)
    requires KeyedByTimestamp(cache) && forall k :: k in cache ==> k in window
    ensures var l := LocalMerge(cache, window, records);
      KeyedByTimestamp(l) && forall k :: k in l ==> k in window
    ensures var s := ServerMerge(window, days);
      KeyedByTimestamp(s) && forall k :: k in s ==> k in window
  {
  }
}
