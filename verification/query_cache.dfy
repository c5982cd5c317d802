/** The three query-client calls the components make — `cancelQueries`,
    `getQueryData`, `setQueryData` — as operations on one cache slot. The slot
    stands for the entry of a single query key; every call is also recorded, with
    the key it named, in an event trace so that the order of the calls can be
    stated. What the library does beyond storing and returning the value
    (deduplication, staleness, garbage collection, notifying observers) is not
    part of this model. */
module QueryCache {

  import opened Options

  /** A query key: an ordered sequence of string segments, compared segment by segment. */
  type QueryKey = seq<string>

  datatype CacheEvent =
    | Cancelled(key: QueryKey)
    | Read(key: QueryKey)
    | Written(key: QueryKey)

  /** How `setQueryData` treats an `undefined` value or updater result. The
      library's choice is not visible from the code modelled here, so both
      readings are carried and every theorem says which one it needs. */
  datatype UndefinedWrite = KeepsData | ClearsData

  /** The cached data for one key (`undefined` as `None`) and the calls made on it. */
  datatype Slot<T> = Slot(data: Option<T>, events: seq<CacheEvent>)

  /** `cancelQueries({queryKey: key})`: in-flight fetches are abandoned; the
      cached data is untouched. */
  function CancelQueries<T>(s: Slot<T>, key: QueryKey): Slot<T> {
    Slot(s.data, s.events + [Cancelled(key)])
  }

  /** `getQueryData(key)`: the slot's current data. */
  function GetQueryData<T>(s: Slot<T>, key: QueryKey): (Slot<T>, Option<T>) {
    (Slot(s.data, s.events + [Read(key)]), s.data)
  }

  /** `setQueryData(key, value)`: a defined value replaces the data; `undefined`
      is handled according to `policy`. */
  function SetQueryData<T>(s: Slot<T>, key: QueryKey, value: Option<T>, policy: UndefinedWrite): Slot<T> {
    var data := if value.Some? || policy == ClearsData then value else s.data;
    Slot(data, s.events + [Written(key)])
  }
}
