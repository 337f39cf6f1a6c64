/**
 * `fetchChannels`: answer from the `localStorage` cache while it is younger
 * than six hours, otherwise fetch `/channels.json`, write it back with a
 * timestamp and return it; every exception turns into `[]`.
 *
 * The clock, the fetch and the storage write are parameters: `now` is
 * `Date.now()`, `response` is what `fetch` and `response.json()` produced,
 * and `quotaExceeded` says whether `localStorage.setItem` throws.
 */
module FetchChannels {
  import opened Js

  /** `CACHE_DURATION`: six hours in milliseconds. */
  const CacheDuration: int := 1000 * 60 * 60 * 6

  /**
   * What `localStorage.getItem(CACHE_KEY)` holds, read through `JSON.parse`.
   * A record's `data` is `None` when the stored data is JSON `null`.
   */
  datatype Stored<D> =
    | Absent                                            // `null` or "": no cache
    | Corrupt                                           // `JSON.parse` throws
    | NullJson                                          // parses to `null`: `parsed.timestamp` throws
    | Record(timestamp: Option<int>, data: Option<D>)   // `{timestamp, data}`; a missing timestamp gives NaN

  /** The outcome of `fetch("/channels.json")` followed by `response.json()`. */
  datatype Response<D> =
    | NetworkError      // `fetch` rejects
    | NotOk             // `!response.ok`: thrown as an Error
    | BadJson           // `response.json()` rejects
    | NullBody          // the body is JSON `null`: it is stored, then `data.length` throws
    | Json(data: D)

  /**
   * The value `fetchChannels` resolves with: some data, the `null` of a
   * cached `null` body, or the `[]` of the catch block.
   */
  datatype Loaded<D> = Data(value: D) | NullData | EmptyList

  /** The cache check that runs before any request. */
  datatype CacheLookup<D> = Hit(data: Option<D>) | Miss | Broken

  /** Is a cache entry stamped `timestamp` still fresh at `now`? The comparison is strict. */
  predicate Fresh(timestamp: int, now: int) {
    now - timestamp < CacheDuration
  }

  /** The cache check at the top of `fetchChannels`: use the cache, go to the network, or throw. */
  function Lookup<D>(slot: Stored<D>, now: int): (r: CacheLookup<D>)
    ensures r.Hit? <==> slot.Record? && slot.timestamp.Some? && Fresh(slot.timestamp.value, now)
    ensures r.Hit? ==> r.data == slot.data
    ensures r.Broken? <==> slot.Corrupt? || slot.NullJson?
  {
    match slot
    case Absent => Miss
    case Corrupt => Broken
    case NullJson => Broken
    case Record(t, d) => if t.Some? && Fresh(t.value, now) then Hit(d) else Miss
  }

  /** An entry is fresh for exactly the six hours after it was written, and stale from then on. */
  lemma FreshnessWindow<D>(t: int, d: D, now: int)
    ensures Lookup(Record(Some(t), Some(d)), now).Hit? <==> now < t + 21_600_000
    ensures Lookup(Record(Some(t), Some(d)), t + 21_600_000) == Miss
  {
  }

  /** `return parsed.data`: the cached data, or `null`. */
  function Answer<D>(data: Option<D>): (r: Loaded<D>)
    ensures r.Data? <==> data.Some?
    ensures r.Data? ==> r.value == data.value
    ensures r.NullData? <==> data.None?
  {
    if data.Some? then Data(data.value) else NullData
  }

  /**
   * A `null` body poisons the cache: for the next six hours every call
   * answers `null` from the cache without a request, although the call that
   * stored it answered `[]`.
   */
  lemma NullBodyIsServedFromCache<D>(written: int, now: int)
    requires written <= now < written + CacheDuration
    ensures Lookup<D>(Record(Some(written), None), now) == Hit(None)
  {
  }

  /** The `localStorage` entry behind `fetchChannels`. */
  class ChannelCache<D> {
    var slot: Stored<D>

    constructor (initial: Stored<D>)
      ensures slot == initial
    {
      slot := initial;
    }

    /**
     * One call of `fetchChannels()`. `requested` says whether `fetch` was
     * called; `response` is consulted only then.
     */
    method Fetch(now: int, response: Response<D>, quotaExceeded: bool)
      returns (result: Loaded<D>, requested: bool)
      modifies this
      ensures requested <==> Lookup(old(slot), now).Miss?
      // a fresh entry answers without a request and is kept
      ensures Lookup(old(slot), now).Hit? ==>
        result == Answer(Lookup(old(slot), now).data) && slot == old(slot)
      // a corrupt entry gives [] without a request
      ensures Lookup(old(slot), now).Broken? ==> result == EmptyList && slot == old(slot)
      // a successful fetch is written back and returned
      ensures requested && response.Json? && !quotaExceeded ==>
        result == Data(response.data) && slot == Record(Some(now), Some(response.data))
      // a `null` body is stored, and `data.length` then throws: the call gives []
      ensures requested && response.NullBody? && !quotaExceeded ==>
        result == EmptyList && slot == Record(Some(now), None)
      // every other failure gives [] and leaves the stale entry as it was
      ensures requested && (!(response.Json? || response.NullBody?) || quotaExceeded) ==>
        result == EmptyList && slot == old(slot)
      ensures result.Data? && requested ==> slot.Record? && slot.data == Some(result.value)
      ensures result.NullData? ==> !requested && slot == old(slot)
    {
      requested := false;
      match Lookup(slot, now)
      case Hit(d) =>
        result := Answer(d);
      case Broken =>
        result := EmptyList;
      case Miss =>
        requested := true;
        match response
        case Json(d) =>
          if quotaExceeded {
            result := EmptyList;
          } else {
            slot := Record(Some(now), Some(d));
            result := Data(d);
          }
        case NullBody =>
          if !quotaExceeded {
            slot := Record(Some(now), None);
          }
          result := EmptyList;
        case _ =>
          result := EmptyList;
    }
  }
}
