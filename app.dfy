/**
 * The HEAD side of `src/App.jsx`: the loaded directory is turned into an
 * array of countries, `handleCountry` selects a country by code or name (it
 * is modelled as written, although the `GlobeView` it is handed to never
 * calls it), and the player's `ended` event advances round-robin through
 * its channels.
 */
module App {
  import opened Js
  import opened Directory

  // ---------------------------------------------------------------------
  // loading
  // ---------------------------------------------------------------------

  /** The value the channel loader resolves with, by the shape the effect tests. */
  datatype LoadedData =
    | Falsy                              // `null`, `undefined`, `false`, `0`, `""`
    | ArrayData(items: seq<CountryRecord>)
    | ObjectData(entries: Entries)       // a non-array object, as `Object.entries`
    | OtherTruthy                        // a truthy number, string or boolean

  /**
   * `Object.entries(d).map(([k, v]) => ...)`: one country per key, with
   * `code` and `name` defaulting to the key and `channels` to `[]`.
   */
  function ToCountries(entries: Entries): (r: seq<CountryRecord>)
    ensures |r| == |entries|
    ensures forall i :: 0 <= i < |entries| ==>
      var (k, v) := entries[i];
      && (Truthy(v.code) ==> r[i].code == v.code)
      && (!Truthy(v.code) ==> r[i].code == Some(k))
      && (Truthy(v.name) ==> r[i].name == v.name)
      && (!Truthy(v.name) ==> r[i].name == Some(k))
      && r[i].capital == v.capital && r[i].timezone == v.timezone
      && (v.channels.Some? ==> r[i].channels == v.channels)
      && (v.channels.None? ==> r[i].channels == Some([]))
  {
    if entries == [] then []
    else
      var (k, v) := entries[0];
      var c := CountryRecord(Some(OrElse(v.code, k)), Some(OrElse(v.name, k)), v.capital, v.timezone,
                             if v.channels.Some? then v.channels else Some([]));
      [c] + ToCountries(entries[1..])
  }

  /** The new value of `data`, or `None` when the effect leaves it as it was. */
  function LoadedCountries(d: LoadedData): (r: Option<seq<CountryRecord>>)
    ensures d.Falsy? <==> r.None?
    ensures d.ArrayData? ==> r == Some(d.items)
    ensures d.ObjectData? ==> r == Some(ToCountries(d.entries))
    ensures d.OtherTruthy? ==> r == Some([])
  {
    match d
    case Falsy => None
    case ArrayData(items) => Some(items)
    case ObjectData(entries) => Some(ToCountries(entries))
    case OtherTruthy => Some([])
  }

  /**
   * Every country converted from an entry with a non-empty key has a truthy
   * code and name, so `handleCountry` can find it; an empty key with no code
   * and no name gives a country that answers to nothing.
   */
  lemma ConvertedCountriesAreNamed(entries: Entries)
    ensures forall i :: 0 <= i < |entries| && entries[i].0 != "" ==>
      Truthy(ToCountries(entries)[i].code) && Truthy(ToCountries(entries)[i].name)
    ensures forall i :: 0 <= i < |entries| && entries[i].0 == "" && !Truthy(entries[i].1.code) ==>
      !Truthy(ToCountries(entries)[i].code)
    ensures forall i :: 0 <= i < |entries| && entries[i].0 == "" && !Truthy(entries[i].1.name) ==>
      !Truthy(ToCountries(entries)[i].name)
  {
  }

  // ---------------------------------------------------------------------
  // handleCountry
  // ---------------------------------------------------------------------

  /**
   * `(x.code && x.code.toLowerCase() === code.toLowerCase()) ||
   *  (x.name && x.name.toLowerCase() === code.toLowerCase())`,
   * with `code` already lower-cased.
   */
  predicate MatchesLowered(lowered: string, x: CountryRecord) {
    || (Truthy(x.code) && Lower(x.code.value) == lowered)
    || (Truthy(x.name) && Lower(x.name.value) == lowered)
  }

  function Matcher(lowered: string): CountryRecord -> bool {
    x => MatchesLowered(lowered, x)
  }

  /** A country answers to `code` when its code or its name equals it, ignoring case. */
  predicate AnswersTo(code: string, x: CountryRecord) {
    MatchesLowered(Lower(code), x)
  }

  /** `data.find(...)` in `handleCountry`, as an index. */
  function FindCountry(data: seq<CountryRecord>, code: string): (r: Option<nat>)
    ensures r.Some? ==> r.value < |data| && AnswersTo(code, data[r.value])
    ensures r.Some? ==> forall j :: 0 <= j < r.value ==> !AnswersTo(code, data[j])
    ensures r.None? ==> forall j :: 0 <= j < |data| ==> !AnswersTo(code, data[j])
  {
    var r := FindFirst(data, Matcher(Lower(code)));
    assert r.Some? ==> Matcher(Lower(code))(data[r.value]);
    r
  }

  /** Two arguments that differ only in letter case find the same country. */
  lemma FindCountryIgnoresCase(data: seq<CountryRecord>, a: string, b: string)
    requires Lower(a) == Lower(b)
    ensures FindCountry(data, a) == FindCountry(data, b)
  {
  }

  /**
   * An empty argument matches nothing: an empty code or name is falsy and is
   * skipped, and no non-empty string lower-cases to "".
   */
  lemma EmptyCodeMatchesNothing(data: seq<CountryRecord>)
    ensures FindCountry(data, "").None?
  {
  }

  /** `selectedCountry.channels || []`. */
  function ChannelsOf(c: CountryRecord): seq<Channel> {
    if c.channels.Some? then c.channels.value else []
  }

  /** What `handleCountry` starts playing: the first channel's URL, if there is one. */
  function FirstUrl(c: CountryRecord): (r: Option<string>)
    ensures r.Some? <==> |ChannelsOf(c)| > 0
    ensures r.Some? ==> r.value == ChannelsOf(c)[0].url
  {
    if c.channels.Some? && |c.channels.value| > 0 then Some(c.channels.value[0].url) else None
  }

  // ---------------------------------------------------------------------
  // handleEnded
  // ---------------------------------------------------------------------

  /** `(idx + 1) % chs.length`: the next channel, wrapping after the last. */
  function NextIndex(idx: nat, len: nat): (r: nat)
    requires len > 0
    ensures r < len
    ensures idx < len - 1 ==> r == idx + 1
    ensures idx == len - 1 ==> r == 0
  {
    (idx + 1) % len
  }

  /** The channel index after `k` `ended` events, starting from `idx`. */
  function Advance(idx: nat, len: nat, k: nat): (r: nat)
    requires len > 0
    ensures r < len || (k == 0 && r == idx)
  {
    if k == 0 then idx else NextIndex(Advance(idx, len, k - 1), len)
  }

  /** A non-zero multiple of `len` is at least `len` away from zero. */
  lemma MultipleAway(d: int, len: int)
    requires len > 0
    ensures d > 0 ==> d * len >= len
    ensures d < 0 ==> d * len <= -len
  {
  }

  /** Division with remainder has one answer. */
  lemma ModUnique(n: int, len: int, q: int, r: int)
    requires len > 0 && 0 <= r < len && n == q * len + r
    ensures n % len == r
  {
    var q', r' := n / len, n % len;
    assert n == q' * len + r';
    assert (q - q') * len == r' - r by {
      assert q * len - q' * len == (q - q') * len;
    }
    MultipleAway(q - q', len);
  }

  /** Taking the remainder first does not change the next remainder. */
  lemma ModSucc(x: nat, len: nat)
    requires len > 0
    ensures (x % len + 1) % len == (x + 1) % len
  {
    var q, a := x / len, x % len;
    assert x == q * len + a;
    if a < len - 1 {
      ModUnique(x + 1, len, q, a + 1);
      ModUnique(a + 1, len, 0, a + 1);
    } else {
      assert x + 1 == (q + 1) * len + 0;
      ModUnique(x + 1, len, q + 1, 0);
      ModUnique(a + 1, len, 1, 0);
    }
  }

  /** After `k` `ended` events the index has moved `k` places around the ring. */
  lemma {:induction false} AdvanceIsModular(idx: nat, len: nat, k: nat)
    requires 0 < len && idx < len
    ensures Advance(idx, len, k) == (idx + k) % len
  {
    if k == 0 {
      ModUnique(idx, len, 0, idx);
    } else {
      AdvanceIsModular(idx, len, k - 1);
      ModSucc(idx + k - 1, len);
    }
  }

  /**
   * The round robin is fair: from any channel, the next `len` `ended` events
   * visit every channel exactly once and come back to the start.
   */
  lemma RoundRobinVisitsAll(idx: nat, len: nat, j: nat)
    requires 0 < len && idx < len && j < len
    ensures Advance(idx, len, len) == idx
    ensures var k := if idx <= j then j - idx else len - idx + j;
      k < len && Advance(idx, len, k) == j
  {
    AdvanceIsModular(idx, len, len);
    ModUnique(idx + len, len, 1, idx);
    var k := if idx <= j then j - idx else len - idx + j;
    AdvanceIsModular(idx, len, k);
    if idx <= j {
      ModUnique(idx + k, len, 0, j);
    } else {
      ModUnique(idx + k, len, 1, j);
    }
  }

  // ---------------------------------------------------------------------
  // component state
  // ---------------------------------------------------------------------

  /** The state fields of the HEAD-side `App` component. */
  class AppState {
    var data: Option<seq<CountryRecord>>
    var selectedCountry: Option<CountryRecord>
    var playing: Option<string>
    var idx: nat

    /** The round-robin index points at a channel of the selected country. */
    ghost predicate Valid()
      reads this
    {
      selectedCountry.Some? && |ChannelsOf(selectedCountry.value)| > 0 ==>
        idx < |ChannelsOf(selectedCountry.value)|
    }

    constructor ()
      ensures Valid()
      ensures data.None? && selectedCountry.None? && playing.None? && idx == 0
    {
      data := None;
      selectedCountry := None;
      playing := None;
      idx := 0;
    }

    /** The loading effect: store the converted directory, unless it is falsy. */
    method Load(d: LoadedData)
      requires Valid()
      modifies this
      ensures Valid()
      ensures data == (if d.Falsy? then old(data) else LoadedCountries(d))
      ensures selectedCountry == old(selectedCountry) && playing == old(playing) && idx == old(idx)
    {
      var r := LoadedCountries(d);
      if r.Some? {
        data := r;
      }
    }

    /** `handleCountry(code)`: select the first country answering to `code`. */
    method HandleCountry(code: string)
      requires Valid()
      modifies this
      ensures Valid()
      ensures data == old(data)
      ensures old(data).None? || FindCountry(old(data).value, code).None? ==>
        selectedCountry == old(selectedCountry) && playing == old(playing) && idx == old(idx)
      ensures old(data).Some? && FindCountry(old(data).value, code).Some? ==>
        var c := old(data).value[FindCountry(old(data).value, code).value];
        selectedCountry == Some(c) && idx == 0 && playing == FirstUrl(c) && AnswersTo(code, c)
    {
      if data.None? {
        return;
      }
      var found := FindCountry(data.value, code);
      if found.Some? {
        var c := data.value[found.value];
        selectedCountry := Some(c);
        idx := 0;
        playing := FirstUrl(c);
      }
    }

    /** `handleEnded`: play the next channel of the selected country, round robin. */
    method HandleEnded()
      requires Valid()
      modifies this
      ensures Valid()
      ensures data == old(data) && selectedCountry == old(selectedCountry)
      ensures selectedCountry.None? ==> playing == old(playing) && idx == old(idx)
      ensures selectedCountry.Some? && |ChannelsOf(selectedCountry.value)| == 0 ==>
        playing.None? && idx == old(idx)
      ensures selectedCountry.Some? && |ChannelsOf(selectedCountry.value)| > 0 ==>
        var chs := ChannelsOf(selectedCountry.value);
        idx == NextIndex(old(idx), |chs|) && idx < |chs| && playing == Some(chs[idx].url)
    {
      if selectedCountry.None? {
        return;
      }
      var chs := ChannelsOf(selectedCountry.value);
      if |chs| == 0 {
        playing := None;
        return;
      }
      var next := NextIndex(idx, |chs|);
      idx := next;
      playing := Some(chs[next].url);
    }

    /** Choosing a channel from the list plays it and leaves the index alone. */
    method Play(url: string)
      requires Valid()
      modifies this
      ensures Valid()
      ensures playing == Some(url)
      ensures idx == old(idx) && selectedCountry == old(selectedCountry) && data == old(data)
    {
      playing := Some(url);
    }
  }
}
