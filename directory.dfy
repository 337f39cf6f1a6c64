/**
 * The shape of the channel directory as the components read it: a JSON
 * object whose keys are country names and whose values carry a `channels`
 * list. Fields that JSON may leave out are `Option`s.
 */
module Directory {
  import opened Js

  /** One channel descriptor: `{name, type, url}`. `kind` is the JSON field `type`. */
  datatype Channel = Channel(name: string, kind: string, url: string)

  /** One directory value, or one element of an array-shaped directory. */
  datatype CountryRecord = CountryRecord(
    code: Option<string>,
    name: Option<string>,
    capital: Option<string>,
    timezone: Option<string>,
    channels: Option<seq<Channel>>)

  /** A JSON object as `Object.entries` lists it: key/value pairs in key order. */
  type Entries = seq<(string, CountryRecord)>

  /** `Object.keys`: the keys of the entries, in the same order. */
  function Keys(d: Entries): (ks: seq<string>)
    ensures |ks| == |d|
    ensures forall i :: 0 <= i < |d| ==> ks[i] == d[i].0
  {
    if d == [] then [] else [d[0].0] + Keys(d[1..])
  }
}
