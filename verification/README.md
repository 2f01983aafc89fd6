# Daily weather cache — a Dafny model

This project models the daily weather manager of WeatherApp (`DailyWeatherDataManager`). The manager keeps a rolling window of seven day-start timestamps for one context. A context is a location plus a time zone. The manager also keeps a cache of daily weather records keyed by those timestamps, and it remembers when the data was last fetched. It reloads from the local store when the location changes. It calls the remote service when the data is stale. Every asynchronous result is checked against the context captured when the request was issued. A result whose context no longer matches is dropped.

The model has four modules:

- `Calendar` (`calendar.dfy`): local midnight and "same calendar day". A time zone is a fixed UTC offset, and instants are whole seconds.
- `WeatherWindow` (`weather_window.dfy`): generation of the seven-day window, and the staleness rule.
- `WeatherMerge` (`weather_merge.dfy`): the records and the two merges. The local-store merge is additive. The server merge replaces the cache.
- `DailyWeatherManager` (`daily_weather_manager.dfy`): the class `DailyWeatherDataManager` with the manager's four fields. Each operation of the manager is a method on it.

Asynchronous calls are modelled as follows. Issuing a store read or a server call appends the request, with its captured context, to a log field (`storeReads`, `serverCalls`). Each completion is a separate method (`StoreReadCompleted`, `ServerFetchCompleted`) that takes the captured context and the result. The clock is a parameter `now`. Listener notifications are counted in `notifications`. Saves handed to the store are logged in `saves`.

The object invariant `Valid()` holds for the window and the cache after every operation. The window has seven timestamps. It starts at a local midnight, and the days are consecutive. Every cache key is a day of the window, and every entry is stored under its own record's timestamp.

## Model

| member | source | states |
|---|---|---|
| `Calendar.MidnightTimestamp` | WeatherApp/Utils/Extensions/DateExtensions.swift:46-51 | the result is a local midnight, no later than the instant and less than one day before it, on the same local day |
| `Calendar.MidnightUnique` | WeatherApp/Utils/Extensions/DateExtensions.swift:25-30 | a local midnight m is the midnight of exactly the instants in [m, m + one day) |
| `Calendar.SameDate` | WeatherApp/Utils/Extensions/DateExtensions.swift:17-23 | two instants are on the same calendar day when their local day numbers are equal; every instant is on its own day, and instants on the same day are less than one day apart |
| `Calendar.SameDateIffSameMidnight` | WeatherApp/Utils/Extensions/DateExtensions.swift:17-23 | two instants are on the same calendar day if and only if their local midnights are equal |
| `WeatherWindow.GenerateWeekTimestamps` | WeatherApp/Managers/DailyWeatherDataManager.swift:85-89 | the window is well formed: seven timestamps, each one day after the previous, starting at a local midnight; its first day contains `now` |
| `WeatherWindow.WindowDay` | WeatherApp/Managers/DailyWeatherDataManager.swift:87 | day i of any well-formed window is its first day plus i days |
| `WeatherWindow.WindowOrdered` | WeatherApp/Managers/DailyWeatherDataManager.swift:85-89 | every timestamp of a window is a local midnight, and the window is strictly increasing |
| `WeatherWindow.WindowDeterminedByFirstDay` | WeatherApp/Managers/DailyWeatherDataManager.swift:85-89 | a well-formed window is exactly the one generated from any instant of its first day |
| `WeatherWindow.SameWindowIffSameDate` | WeatherApp/Managers/DailyWeatherDataManager.swift:85-89 | two instants generate the same window if and only if they are on the same calendar day |
| `WeatherWindow.NeedsRefetch` | WeatherApp/Managers/DailyWeatherDataManager.swift:99-105 | the data is stale if and only if now − lastFetch ≥ fetchInterval or the week window generated at the last fetch differs from the one generated now, that is, the two instants fall on different local days |
| `WeatherWindow.FreshRightAfterFetch` | WeatherApp/Managers/DailyWeatherDataManager.swift:99-105 | with a positive refresh interval, data fetched at instant t is not stale at t |
| `WeatherWindow.StaleAfterBackOff` | WeatherApp/Managers/DailyWeatherDataManager.swift:153-155 | data whose last fetch was moved one interval into the past is stale |
| `WeatherWindow.NotStaleMeansCurrentWindow` | WeatherApp/Managers/DailyWeatherDataManager.swift:99-105 | data that is not stale was fetched less than one interval ago, and the window generated at that time equals today's window |
| `WeatherWindow.NewDayForcesRefetch` | WeatherApp/Managers/DailyWeatherDataManager.swift:103 | when the local midnight has changed since the last fetch, the data is stale however little time has passed |
| `WeatherMerge.InsertAll` | WeatherApp/Managers/DailyWeatherDataManager.swift:117-119 | inserting records gives the old keys plus the records' timestamps; keys not among them keep their value; every inserted key holds one of the records, with that timestamp |
| `WeatherMerge.InsertAllDistinct` | WeatherApp/Managers/DailyWeatherDataManager.swift:144 | when the records have distinct timestamps, each record ends up under its own timestamp |
| `WeatherMerge.InsertAllLastWins` | WeatherApp/Managers/DailyWeatherDataManager.swift:119 | in-order insertion: a record that no later record shares a timestamp with is the record stored under that timestamp |
| `WeatherMerge.StoreAdditions` | WeatherApp/Managers/DailyWeatherDataManager.swift:116-118 | a record is kept if and only if it came from the store, its timestamp is in the window, and that timestamp is not yet cached |
| `WeatherMerge.LocalMerge` | WeatherApp/Managers/DailyWeatherDataManager.swift:116-119 | every cached day keeps its record; every new key is a window day holding a store record with that timestamp; every store record in the window has its day cached afterwards; no other keys appear |
| `WeatherMerge.LocalRecordNeverOverrides` | WeatherApp/Managers/DailyWeatherDataManager.swift:118 | a store record for an already cached day leaves that day's record unchanged |
| `WeatherMerge.StoreLaterRecordWins` | WeatherApp/Managers/DailyWeatherDataManager.swift:116-119 | two store records for the same missing window day both pass the filter, and the later one is the record cached |
| `WeatherMerge.PresentRecords` | WeatherApp/Managers/DailyWeatherDataManager.swift:149 | the records saved are exactly the present slots of the server payload |
| `WeatherMerge.InWindow` | WeatherApp/Managers/DailyWeatherDataManager.swift:141-143 | a record is kept if and only if it is a present server slot whose timestamp is in the window |
| `WeatherMerge.ServerMerge` | WeatherApp/Managers/DailyWeatherDataManager.swift:140-144 | the new cache holds only window days, each holding a server record with that timestamp, and every server record in the window has its day in the cache; nothing of the old cache survives |
| `WeatherMerge.ServerRecordWins` | WeatherApp/Managers/DailyWeatherDataManager.swift:142-144 | a server record for a window day becomes that day's cached record, whatever was cached before |
| `WeatherMerge.MergesStayInWindow` | WeatherApp/Managers/DailyWeatherDataManager.swift:116-144 | both merges keep every key inside the window and every entry under its own timestamp |
| `DailyWeatherManager.DailyWeatherDataManager.Valid` | WeatherApp/Managers/DailyWeatherDataManager.swift:21 | the object invariant: seven timestamps (the "7 items" of :21 and the count of :36), the first a local midnight and each one day after the previous; every cache key is a window day holding a record with that timestamp; the positive refresh interval |
| `DailyWeatherManager.DailyWeatherDataManager.CacheAtMostAWeek` | WeatherApp/Managers/DailyWeatherDataManager.swift:36 | under the invariant the cache holds at most one record per window day, so at most seven |
| `DailyWeatherManager.DailyWeatherDataManager.NeedsToRefetchData` | WeatherApp/Managers/DailyWeatherDataManager.swift:99-105 | the staleness rule read from the fields: stale if and only if now − lastFetchDate ≥ fetchInterval or the local midnights of now and of lastFetchDate differ |
| `DailyWeatherManager.DailyWeatherDataManager.GetDayWeather` | WeatherApp/Managers/DailyWeatherDataManager.swift:57-59 | a record is returned exactly when the day is cached, and it is the cached record; the day is then a window day and the record carries that timestamp |
| `DailyWeatherManager.DailyWeatherDataManager.constructor` | WeatherApp/Managers/DailyWeatherDataManager.swift:41-49 | today's window, an empty cache, the last fetch set to now, one notification, one store read for the window under the given context, and the invariant |
| `DailyWeatherManager.DailyWeatherDataManager.SetLocation` | WeatherApp/Managers/DailyWeatherDataManager.swift:69-72 | only the location changes; the time zone and the window are kept; then the state after a reload |
| `DailyWeatherManager.DailyWeatherDataManager.ReloadData` | WeatherApp/Managers/DailyWeatherDataManager.swift:91-97 | the last fetch set to now, the cache emptied, exactly one notification, one store read issued for the current context and window; nothing else changes |
| `DailyWeatherManager.DailyWeatherDataManager.NotifyDailyWeatherChanged` | WeatherApp/Managers/DailyWeatherDataManager.swift:161-163 | exactly one notification is added |
| `DailyWeatherManager.DailyWeatherDataManager.FetchDataFromStore` | WeatherApp/Managers/DailyWeatherDataManager.swift:107-109 | one store read is issued, carrying the current context and window |
| `DailyWeatherManager.DailyWeatherDataManager.RefetchDataIfNeeded` | WeatherApp/Managers/DailyWeatherDataManager.swift:74-78 | a server call is issued exactly when the data is stale, and then the last fetch becomes now; otherwise nothing changes; either way the data is not stale afterwards |
| `DailyWeatherManager.DailyWeatherDataManager.FetchDataFromServer` | WeatherApp/Managers/DailyWeatherDataManager.swift:127-131 | the last fetch becomes now before the call is issued, so the data is not stale at now; cache and window are untouched |
| `DailyWeatherManager.DailyWeatherDataManager.InsertRecords` | WeatherApp/Managers/DailyWeatherDataManager.swift:117-119 | the in-place loop leaves the cache equal to inserting the records in order |
| `DailyWeatherManager.DailyWeatherDataManager.MergeStoreRecords` | WeatherApp/Managers/DailyWeatherDataManager.swift:116-119 | the cache becomes the local merge of the old cache with the store records, within the current window, and the invariant is kept |
| `DailyWeatherManager.DailyWeatherDataManager.StoreReadCompleted` | WeatherApp/Managers/DailyWeatherDataManager.swift:109-124 | a result for another context changes nothing; otherwise the cache is the local merge, the window and context are kept, one notification fires, the last fetch is the store's fetch date, and then a server call is issued exactly when that date is stale |
| `DailyWeatherManager.DailyWeatherDataManager.ServerFetchCompleted` | WeatherApp/Managers/DailyWeatherDataManager.swift:131-158 | a result for another context changes nothing; a success regenerates the window, replaces the cache with the server merge, sets the last fetch to now, fires one notification and saves the present records; a failure changes only the last fetch, to now minus one interval, so the data is stale |
| `DailyWeatherManager.DailyWeatherDataManager.ApplyServerRecords` | WeatherApp/Managers/DailyWeatherDataManager.swift:139-151 | the success branch: the window regenerated for now, the cache replaced by the server merge, the last fetch now, one notification, and one save of the present records with that fetch date; the invariant kept |
| `DailyWeatherManager.DailyWeatherDataManager.BackOff` | WeatherApp/Managers/DailyWeatherDataManager.swift:153-154 | the failure branch: only the last fetch changes, to now minus one interval, and the data is then stale |
| `DailyWeatherManager.RefetchTwiceAtOnce` | WeatherApp/Managers/DailyWeatherDataManager.swift:127-128 | two refetch triggers at the same instant issue at most one server call |
| `DailyWeatherManager.RetryAfterFailure` | WeatherApp/Managers/DailyWeatherDataManager.swift:153-155 | after a failed server call, a trigger at the same instant issues a new call for the same context |
| `DailyWeatherManager.StaleCompletionsDropped` | WeatherApp/Managers/DailyWeatherDataManager.swift:111-114 | after a location change, store and server results issued under the old context leave the cache empty and issue no call or save |
| `DailyWeatherManager.ColdStart` | WeatherApp/Managers/DailyWeatherDataManager.swift:41-49 | an empty store and a server returning one record per day of today's window end with exactly those records cached, one server call and three calls to notify |
| `DailyWeatherManager.FreshStoreDateSkipsServer` | WeatherApp/Managers/DailyWeatherDataManager.swift:120-122 | an empty store result with a fresh fetch date leaves the cache empty and issues no server call |

## Behaviour of the code worth knowing

The model keeps each of these behaviours exactly as the code has them.

- `setLocation` (DailyWeatherDataManager.swift:69-72) reloads, but `reloadData` (:91-97) does not regenerate the window. After the constructor generates it (:45), the window changes only on a successful server fetch (:140). `SetLocation` therefore keeps `timestamps`, and the next store merge uses the old window.
- The store completion notifies listeners even when it added nothing (:121). A cold start with an empty store therefore makes three calls to `notifyDailyWeatherChanged`: the reload, the empty store merge, and the server merge. The first call runs inside `init` (:48, :94), before any listener can have registered, so it reaches no listener; a listener sees two. `ColdStart` proves the count of three calls.
- The store result decides on its own whether the server is asked. An empty or partial store result whose fetch date is not stale triggers no server call (:120-122), so the missing days stay missing until the data goes stale. `FreshStoreDateSkipsServer` proves this for an empty result.
- The last fetch date does not only move forward. The store completion sets it to the store's own fetch date (:120), which may be earlier.
- The store filter (:118) tests each record against the cache as it was before the merge. Two new store records for the same day both pass the filter, and the later one wins. `StoreAdditions` followed by `InsertAll` keeps exactly this order, and `StoreLaterRecordWins` proves that the later record is the one cached.

## Left out

- Calendar: a time zone is a fixed UTC offset. Daylight-saving transitions of Foundation's `Calendar` are not modelled. `sameDate` and `getMidnightTimestamp` become integer arithmetic on whole seconds, so the rounding of `Double` seconds in `getMidnightTimestamp` does not arise.
- Time: `Date()` is the parameter `now`. Where one step reads the clock more than once, the model uses a single instant: `init` reads it at :45, :46 and :92, and the server completion at :140 and :145.
- `DataConstants` is not part of this model. `daysPerWeek` is 7 and `secondsPerDay` is 86400. The value of `fetchInterval` is not shown, so it is a constructor argument required to be positive.
- Concurrency: `DispatchQueue.main.async` is not modelled. Each completion is one atomic method call. The case where `[weak self]` finds the manager deallocated, so the completion does nothing, is not modelled.
- Listeners: the weak listener set (`Listenable`, `AnyWeakHashedWrapper`) and listener registration are not part of this model. `notifications` counts calls to `notifyDailyWeatherChanged`, not deliveries: a call made while no listener is registered still counts.
- Store and server: their implementations are not part of this model. A read or call is logged when issued, and its result is an argument of the completion method. `saveDailyWeather` is logged in `saves` with the present records and the fetch date. The store's own processing of the save is not modelled.
- Server payload: in the code every element of the server result is a plain `DayWeather` (:143 and :144 read its `timestamp` directly), so `compactMap { $0 }` at :149 keeps every element. The model generalises the payload to optional slots; the code is the case where every slot is present, and then `PresentRecords` and `InWindow` keep every record and every in-window record.
- `makeDictionary` (:144) is not shown. `ServerMerge` lets a later record win for a repeated timestamp. `ServerRecordWins` and `ColdStart` assume one record per day.
- `getHourlyWeatherContext` and the `location` / `timezone` accessors are not modelled. They only build a record from the context, or read one of its fields.
- `print(error)` (:155) is logging only and is not modelled.
- `Location`: the program's coordinates are `Double` latitude and longitude. The model uses integers, because only equality of locations matters to the context check.
- `MidnightTimestamp`: the bound "less than one day after its midnight" holds only because every day of the fixed-offset calendar lasts 86400 seconds. In a zone with daylight saving, Foundation's calendar has days of 23 or 25 hours, and late on a 25-hour day an instant is 86400 seconds or more after its midnight.
- `GenerateWeekTimestamps`: the window is its midnight plus whole multiples of 86400 seconds, as the code computes (:87). Its first entry is the midnight of `now` in any calendar. Two clauses rely on fixed-length days. The bound `now < ts[0] + 86400` can fail late on a 25-hour day. `IsWeekWindow` itself (a midnight first, then steps of 86400 seconds) holds in any calendar, because it is how :87 computes the window; what fails after a daylight-saving change is the consequence `WindowOrdered` draws from it, that every later entry is a local midnight.
- `WindowOrdered`: its first clause says every entry is a local midnight. That holds only in the fixed-offset calendar. Across a daylight-saving change, the entries after the change are one hour off local midnight. The strictly increasing clause holds in any calendar.
