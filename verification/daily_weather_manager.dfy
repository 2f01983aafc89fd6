/**
  The daily weather manager: a cache of one week of daily weather for one
  (location, time zone) context, filled from the local store and the remote
  service.

  The store read and the server call are asynchronous in the application;
  here issuing one appends a request to a log field (`storeReads`,
  `serverCalls`), and its completion is a separate method that receives the
  context captured when the request was issued, together with the result.
  The current time is a parameter `now` (whole seconds since the epoch), and
  the listener fan-out is the counter `notifications`.
 */
module DailyWeatherManager {
  import opened Calendar
  import opened WeatherWindow
  import opened WeatherMerge

  /** Coordinates of the forecast location (fixed-point degrees). */
  datatype Location = Location(latitude: int, longitude: int)

  /** The fencing token of every asynchronous request (`DailyWeatherContext`). */
  datatype Context = Context(location: Location, timezone: TimeZone)

  /** A read issued to the local store: the captured context and the window asked for. */
  datatype StoreRead = StoreRead(context: Context, timestamps: seq<int>)

  /** A save handed to the local store after a successful server fetch. */
  datatype SaveRequest = SaveRequest(location: Location, records: seq<DayWeather>, fetchDate: int)

  /** The outcome of a server call: one optional record per slot, or an error. */
  datatype ServerResult = Success(days: seq<Option<DayWeather>>) | Failure(error: string)

  class DailyWeatherDataManager {
    var context: Context
    var timestamps: seq<int>
    var dailyWeather: Cache
    var lastFetchDate: int
    const fetchInterval: int

    /** Number of calls to `notifyDailyWeatherChanged` so far (not deliveries to listeners). */
    var notifications: nat
    /** Reads issued to the local store, oldest first. */
    var storeReads: seq<StoreRead>
    /** Server calls issued, each with the context it was issued for, oldest first. */
    var serverCalls: seq<Context>
    /** Saves handed to the local store, oldest first. */
    var saves: seq<SaveRequest>

    /**
      The object invariant: a well-formed week window in the context's time
      zone, and a cache holding only days of that window, each under its own
      timestamp. A valid manager has seven timestamps.
     */
    ghost predicate Valid(): (valid: bool)
      reads this
      ensures valid ==> |timestamps| == DaysPerWeek
    {
      && fetchInterval > 0
      && IsWeekWindow(timestamps, context.timezone)
      && KeyedByTimestamp(dailyWeather)
      && forall k :: k in dailyWeather ==> k in timestamps
    }

    /** A valid manager caches at most one record per window day, so at most seven. */
    lemma CacheAtMostAWeek()
      requires Valid()
      ensures |dailyWeather| <= |timestamps| == DaysPerWeek
    {
      CacheWithinWindow(dailyWeather, timestamps);
    }

    /** Whether the data is stale at instant `now` (`needsToRefetchData`). */
    predicate NeedsToRefetchData(now: int): (stale: bool)
      reads this
      ensures stale <==> now - lastFetchDate >= fetchInterval
                         || MidnightTimestamp(now, context.timezone) != MidnightTimestamp(lastFetchDate, context.timezone)
    {
      NeedsRefetch(now, lastFetchDate, context.timezone, fetchInterval)
    }

    /** The cached record of a day (`getDayWeather`). */
    function GetDayWeather(timestamp: int): (r: Option<DayWeather>)
      reads this
      requires Valid()
      ensures r.Some? <==> timestamp in dailyWeather
      ensures r.Some? ==> r.value == dailyWeather[timestamp]
      ensures r.Some? ==> timestamp in timestamps && r.value.timestamp == timestamp
    {
      if timestamp in dailyWeather then Some(dailyWeather[timestamp]) else None
    }

    /** `init`: the window of today, then a reload. */
    constructor (context: Context, fetchInterval: int, now: int)
      requires fetchInterval > 0
      ensures Valid()
      ensures this.context == context && this.fetchInterval == fetchInterval
      ensures timestamps == GenerateWeekTimestamps(now, context.timezone)
      ensures dailyWeather == map[] && lastFetchDate == now
      ensures notifications == 1
      ensures storeReads == [StoreRead(context, timestamps)]
      ensures serverCalls == [] && saves == []
    {
      this.context := context;
      this.fetchInterval := fetchInterval;
      timestamps := GenerateWeekTimestamps(now, context.timezone);
      lastFetchDate := now;
      dailyWeather := map[];
      notifications := 0;
      storeReads := [];
      serverCalls := [];
      saves := [];
      new;
      ReloadData(now);
    }

    /** `setLocation`: a new location in the same time zone, then a reload. */
    method SetLocation(location: Location, now: int)
      requires Valid()
      modifies this
      ensures Valid()
      ensures context == old(context).(location := location)
      ensures timestamps == old(timestamps)
      ensures dailyWeather == map[] && lastFetchDate == now
      ensures notifications == old(notifications) + 1
      ensures storeReads == old(storeReads) + [StoreRead(context, timestamps)]
      ensures serverCalls == old(serverCalls) && saves == old(saves)
    {
      context := context.(location := location);
      ReloadData(now);
    }

    /** `reloadData`: empty the cache, notify, then ask the local store for the window. */
    method ReloadData(now: int)
      requires fetchInterval > 0 && IsWeekWindow(timestamps, context.timezone)
      modifies this
      ensures Valid()
      ensures context == old(context) && timestamps == old(timestamps)
      ensures dailyWeather == map[] && lastFetchDate == now
      ensures notifications == old(notifications) + 1
      ensures storeReads == old(storeReads) + [StoreRead(context, timestamps)]
      ensures serverCalls == old(serverCalls) && saves == old(saves)
    {
      lastFetchDate := now;
      dailyWeather := map[];
      NotifyDailyWeatherChanged();
      FetchDataFromStore();
    }

    /** `notifyDailyWeatherChanged`: one notification to the listeners. */
    method NotifyDailyWeatherChanged()
      modifies this`notifications
      ensures notifications == old(notifications) + 1
    {
      notifications := notifications + 1;
    }

    /** `fetchDataFromStore`: issue a store read for the window, capturing the context. */
    method FetchDataFromStore()
      modifies this`storeReads
      ensures storeReads == old(storeReads) + [StoreRead(context, timestamps)]
    {
      storeReads := storeReads + [StoreRead(context, timestamps)];
    }

    /** `refetchDataIfNeeded`: call the server only when the data is stale. */
    method RefetchDataIfNeeded(now: int)
      requires Valid()
      modifies this
      ensures Valid()
      ensures context == old(context) && timestamps == old(timestamps) && dailyWeather == old(dailyWeather)
      ensures notifications == old(notifications)
      ensures storeReads == old(storeReads) && saves == old(saves)
      ensures old(NeedsToRefetchData(now)) ==>
        lastFetchDate == now && serverCalls == old(serverCalls) + [context]
      ensures !old(NeedsToRefetchData(now)) ==>
        lastFetchDate == old(lastFetchDate) && serverCalls == old(serverCalls)
      ensures !NeedsToRefetchData(now)
    {
      if NeedsToRefetchData(now) {
        FetchDataFromServer(now);
      }
    }

    /**
      `fetchDataFromServer`: mark the data as fetched now, before the call is
      issued, so that a second trigger at the same moment finds it fresh.
     */
    method FetchDataFromServer(now: int)
      requires Valid()
      modifies this
      ensures Valid()
      ensures context == old(context) && timestamps == old(timestamps) && dailyWeather == old(dailyWeather)
      ensures notifications == old(notifications)
      ensures storeReads == old(storeReads) && saves == old(saves)
      ensures lastFetchDate == now && serverCalls == old(serverCalls) + [context]
      ensures !NeedsToRefetchData(now)
    {
      lastFetchDate := now;
      serverCalls := serverCalls + [context];
      FreshRightAfterFetch(now, context.timezone, fetchInterval);
    }

    /** Stores each record under its timestamp, in order, in place (the `forEach` of the store merge). */
    method InsertRecords(recs: seq<DayWeather>)
      modifies this`dailyWeather
      ensures dailyWeather == InsertAll(old(dailyWeather), recs)
    {
      var i := 0;
      while i < |recs|
        invariant 0 <= i <= |recs|
        invariant dailyWeather == InsertAll(old(dailyWeather), recs[..i])
      {
        assert recs[..i + 1] == recs[..i] + [recs[i]];
        dailyWeather := dailyWeather[recs[i].timestamp := recs[i]];
        i := i + 1;
      }
      assert recs[..i] == recs;
    }

    /** The store merge: add the records of window days not yet cached, keep every cached day. */
    method MergeStoreRecords(records: seq<DayWeather>)
      requires Valid()
      modifies this`dailyWeather
      ensures Valid()
      ensures dailyWeather == LocalMerge(old(dailyWeather), timestamps, records)
    {
      MergesStayInWindow(dailyWeather, timestamps, records, []);
      InsertRecords(StoreAdditions(records, timestamps, dailyWeather));
    }

    /**
      Completion of a store read issued under `captured`. A read for another
      context is dropped. Otherwise the records of missing window days are
      added, the store's fetch date becomes the last fetch date, listeners
      are notified, and the server is called if the data is now stale.
     */
    method StoreReadCompleted(captured: Context, records: seq<DayWeather>, fetchDate: int, now: int)
      requires Valid()
      modifies this
      ensures Valid()
      ensures captured != old(context) ==> unchanged(this)
      ensures captured == old(context) ==>
        && context == old(context) && timestamps == old(timestamps)
        && dailyWeather == LocalMerge(old(dailyWeather), old(timestamps), records)
        && notifications == old(notifications) + 1
        && storeReads == old(storeReads) && saves == old(saves)
        && (if NeedsRefetch(now, fetchDate, context.timezone, fetchInterval)
            then lastFetchDate == now && serverCalls == old(serverCalls) + [context]
            else lastFetchDate == fetchDate && serverCalls == old(serverCalls))
    {
      if captured == context {
        MergeStoreRecords(records);
        lastFetchDate := fetchDate;
        NotifyDailyWeatherChanged();
        assert Valid();
        RefetchDataIfNeeded(now);
      }
    }

    /**
      Completion of a server call issued under `captured`. A result for
      another context is dropped. On success the window is regenerated, the
      cache is replaced by the server's records inside it, the data is
      marked fetched now, listeners are notified, and all present records are
      handed to the store. On failure only the last fetch date moves back by
      one refresh interval, which makes the data stale at once.
     */
    method ServerFetchCompleted(captured: Context, result: ServerResult, now: int)
      requires Valid()
      modifies this
      ensures Valid()
      ensures captured != old(context) ==> unchanged(this)
      ensures captured == old(context) && result.Success? ==>
        && context == old(context)
        && timestamps == GenerateWeekTimestamps(now, context.timezone)
        && dailyWeather == ServerMerge(timestamps, result.days)
        && lastFetchDate == now
        && notifications == old(notifications) + 1
        && saves == old(saves) + [SaveRequest(context.location, PresentRecords(result.days), now)]
        && storeReads == old(storeReads) && serverCalls == old(serverCalls)
      ensures captured == old(context) && result.Failure? ==>
        && context == old(context) && timestamps == old(timestamps) && dailyWeather == old(dailyWeather)
        && lastFetchDate == now - fetchInterval
        && notifications == old(notifications)
        && storeReads == old(storeReads) && serverCalls == old(serverCalls) && saves == old(saves)
        && NeedsToRefetchData(now)
    {
      if captured != context {
        return;
      }
      match result
      case Success(days) =>
        ApplyServerRecords(days, now);
      case Failure(_) =>
        BackOff(now);
    }

    /** The success branch of the server completion: new window, replaced cache, notify, save. */
    method ApplyServerRecords(days: seq<Option<DayWeather>>, now: int)
      requires Valid()
      modifies this
      ensures Valid()
      ensures context == old(context)
      ensures timestamps == GenerateWeekTimestamps(now, context.timezone)
      ensures dailyWeather == ServerMerge(timestamps, days)
      ensures lastFetchDate == now
      ensures notifications == old(notifications) + 1
      ensures saves == old(saves) + [SaveRequest(context.location, PresentRecords(days), now)]
      ensures storeReads == old(storeReads) && serverCalls == old(serverCalls)
    {
      timestamps := GenerateWeekTimestamps(now, context.timezone);
      dailyWeather := ServerMerge(timestamps, days);
      MergesStayInWindow(map[], timestamps, [], days);
      lastFetchDate := now;
      NotifyDailyWeatherChanged();
      saves := saves + [SaveRequest(context.location, PresentRecords(days), lastFetchDate)];
    }

    /** The failure branch of the server completion: move the last fetch one interval back. */
    method BackOff(now: int)
      requires Valid()
      modifies this`lastFetchDate
      ensures Valid()
      ensures lastFetchDate == now - fetchInterval
      ensures NeedsToRefetchData(now)
    {
      lastFetchDate := now - fetchInterval;
      StaleAfterBackOff(now, context.timezone, fetchInterval);
    }
  }

  /**
    Two refetch triggers at the same instant start at most one server call:
    the first one, if it fires, leaves the data fresh for the second.
   */
  method RefetchTwiceAtOnce(m: DailyWeatherDataManager, now: int)
    requires m.Valid()
    modifies m
    ensures m.Valid()
    ensures |m.serverCalls| <= |old(m.serverCalls)| + 1
    ensures m.dailyWeather == old(m.dailyWeather) && m.notifications == old(m.notifications)
  {
    m.RefetchDataIfNeeded(now);
    m.RefetchDataIfNeeded(now);
  }

  /**
    After a failed server call, the next trigger at the same instant does
    call the server again, for the same context.
   */
  method RetryAfterFailure(m: DailyWeatherDataManager, error: string, now: int)
    requires m.Valid()
    modifies m
    ensures m.Valid()
    ensures m.serverCalls == old(m.serverCalls) + [m.context]
    ensures m.dailyWeather == old(m.dailyWeather)
  {
    m.ServerFetchCompleted(m.context, Failure(error), now);
    m.RefetchDataIfNeeded(now);
  }

  /**
    A location change while requests are in flight: completions issued under
    the old context leave the new context's state untouched, whatever they carry.
   */
  method StaleCompletionsDropped(m: DailyWeatherDataManager, location: Location, records: seq<DayWeather>,
                                 fetchDate: int, result: ServerResult, now: int, later: int)
    requires m.Valid()
    requires location != m.context.location
    modifies m
    ensures m.Valid()
    ensures m.context == old(m.context).(location := location)
    ensures m.dailyWeather == map[] && m.timestamps == old(m.timestamps)
    ensures m.lastFetchDate == now && m.notifications == old(m.notifications) + 1
    ensures m.serverCalls == old(m.serverCalls) && m.saves == old(m.saves)
  {
    var before := m.context;
    m.SetLocation(location, now);
    m.StoreReadCompleted(before, records, fetchDate, later);
    m.ServerFetchCompleted(before, result, later);
  }

  /**
    A store result that fills no day but reports a fresh fetch date does not
    fall back to the server: the cache stays empty and no call is issued.
   */
  method FreshStoreDateSkipsServer(context: Context, fetchInterval: int, now: int, fetchDate: int)
    returns (m: DailyWeatherDataManager)
    requires fetchInterval > 0
    requires !NeedsRefetch(now, fetchDate, context.timezone, fetchInterval)
    ensures m.Valid()
    ensures m.dailyWeather == map[] && m.serverCalls == []
    ensures m.lastFetchDate == fetchDate && m.notifications == 2
  {
    m := new DailyWeatherDataManager(context, fetchInterval, now);
    m.StoreReadCompleted(context, [], fetchDate, now);
  }

  /**
    A cold start against an empty store whose fetch date is stale and a
    server that returns one record for each day of today's window: the cache
    then holds exactly those records, one server call was made, and
    `notifyDailyWeatherChanged` ran three times (cache cleared inside the
    constructor, empty store merge, server merge).
   */
  method ColdStart(context: Context, fetchInterval: int, now: int, storeFetchDate: int, week: seq<DayWeather>)
    returns (m: DailyWeatherDataManager)
    requires fetchInterval > 0
    requires NeedsRefetch(now, storeFetchDate, context.timezone, fetchInterval)
    requires |week| == DaysPerWeek
    requires forall i :: 0 <= i < |week| ==> week[i].timestamp == GenerateWeekTimestamps(now, context.timezone)[i]
    ensures m.Valid()
    ensures m.timestamps == GenerateWeekTimestamps(now, context.timezone)
    ensures forall i :: 0 <= i < DaysPerWeek ==> m.GetDayWeather(m.timestamps[i]) == Some(week[i])
    ensures m.notifications == 3 && m.serverCalls == [context]
    ensures m.lastFetchDate == now
  {
    m := new DailyWeatherDataManager(context, fetchInterval, now);
    m.StoreReadCompleted(context, [], storeFetchDate, now);
    var days := seq(|week|, i requires 0 <= i < |week| => Some(week[i]));
    m.ServerFetchCompleted(context, Success(days), now);
    FullWeekCached(m.timestamps, context.timezone, week, days);
  }

  /** A server payload holding one record for each day of a window puts every one of them in the cache. */
  lemma FullWeekCached(ts: seq<int>, tz: TimeZone, week: seq<DayWeather>, days: seq<Option<DayWeather>>)
    requires IsWeekWindow(ts, tz)
    requires |week| == |days| == DaysPerWeek
    requires forall i :: 0 <= i < |week| ==> week[i].timestamp == ts[i] && days[i] == Some(week[i])
    ensures forall i :: 0 <= i < DaysPerWeek ==> ts[i] in ServerMerge(ts, days) && ServerMerge(ts, days)[ts[i]] == week[i]
  {
    assert DistinctDays(days) by {
      WindowOrdered(ts, tz);
    }
    forall i | 0 <= i < DaysPerWeek
      ensures ts[i] in ServerMerge(ts, days) && ServerMerge(ts, days)[ts[i]] == week[i]
    {
      ServerRecordWins(ts, days, week[i]);
    }
  }
}
