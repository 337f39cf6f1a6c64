/**
 * The globe page `GengasTV`: country-name matching against the directory
 * keys, search suggestions, the polygon hue, the HLS/direct playback branch
 * and the view state (main view, country sidebar, player).
 */
module GengasTV {
  import opened Js
  import opened Directory

  // ---------------------------------------------------------------------
  // normalize
  // ---------------------------------------------------------------------

  predicate IsLowerAlnum(c: char) {
    ('a' <= c <= 'z') || ('0' <= c <= '9')
  }

  /** `normalize`: lower-case, then keep only `[a-z0-9]`. */
  function Normalize(s: string): (r: string)
    ensures |r| <= |s|
  {
    Filter(Lower(s), IsLowerAlnum)
  }

  /** `filter` with a predicate every element already satisfies is the identity. */
  lemma {:induction false} FilterKeepsAll(s: string)
    requires forall i :: 0 <= i < |s| ==> IsLowerAlnum(s[i])
    ensures Filter(s, IsLowerAlnum) == s
  {
    if s != [] {
      FilterKeepsAll(s[1..]);
    }
  }

  /** A normalized string holds only lower-case ASCII letters and digits. */
  lemma NormalizeAlphabet(s: string)
    ensures forall i :: 0 <= i < |Normalize(s)| ==> IsLowerAlnum(Normalize(s)[i])
  {
  }

  /** Normalizing twice gives the same string as normalizing once. */
  lemma NormalizeIdempotent(s: string)
    ensures Normalize(Normalize(s)) == Normalize(s)
  {
    var n := Normalize(s);
    NormalizeAlphabet(s);
    assert Lower(n) == n;
    FilterKeepsAll(n);
  }

  // ---------------------------------------------------------------------
  // showCountry: key matching
  // ---------------------------------------------------------------------

  /** The first-tier test: the normalized key equals the normalized name. */
  predicate IsExactKey(n: string, k: string) {
    Normalize(k) == n
  }

  function ExactKey(n: string): string -> bool {
    k => IsExactKey(n, k)
  }

  /** The second-tier test: the normalized key contains the normalized name. */
  predicate ContainsName(n: string, k: string) {
    Contains(Normalize(k), n)
  }

  function KeyContaining(n: string): string -> bool {
    k => ContainsName(n, k)
  }

  /**
   * The key `showCountry` selects, as an index into `Object.keys(channels)`:
   * `keys.find(exact) || keys.find(containing)`, kept only when truthy. An
   * empty key is falsy, so a found `""` counts as no match.
   */
  function MatchIndex(keys: seq<string>, name: string): (r: Option<nat>)
    ensures r.Some? ==> r.value < |keys| && keys[r.value] != ""
  {
    var n := Normalize(name);
    var exact := FindFirst(keys, ExactKey(n));
    if exact.Some? && keys[exact.value] != "" then exact
    else
      var sub := FindFirst(keys, KeyContaining(n));
      if sub.Some? && keys[sub.value] != "" then sub else None
  }

  /**
   * A matched key always contains the name (after normalizing both): the
   * match goes one way only, from name into key.
   */
  lemma MatchContainsName(keys: seq<string>, name: string)
    requires MatchIndex(keys, name).Some?
    ensures Contains(Normalize(keys[MatchIndex(keys, name).value]), Normalize(name))
  {
  }

  /**
   * Precedence: when some key normalizes to exactly the (non-empty)
   * normalized name, the first such key is selected, whatever keys merely
   * contain the name.
   */
  lemma MatchPrefersExact(keys: seq<string>, name: string, i: nat)
    requires Normalize(name) != ""
    requires i < |keys| && Normalize(keys[i]) == Normalize(name)
    ensures MatchIndex(keys, name).Some?
    ensures var m := MatchIndex(keys, name).value;
      m <= i && Normalize(keys[m]) == Normalize(name) &&
      forall j :: 0 <= j < m ==> Normalize(keys[j]) != Normalize(name)
  {
  }

  /**
   * When no key normalizes to exactly the (non-empty) normalized name, the
   * first key whose normalized form contains it is selected, and there is no
   * match when no key contains it.
   */
  lemma MatchFallsBackToContaining(keys: seq<string>, name: string)
    requires Normalize(name) != ""
    requires forall j :: 0 <= j < |keys| ==> Normalize(keys[j]) != Normalize(name)
    ensures var r := MatchIndex(keys, name);
      (r.Some? ==> Contains(Normalize(keys[r.value]), Normalize(name)) &&
                   forall j :: 0 <= j < r.value ==> !Contains(Normalize(keys[j]), Normalize(name))) &&
      (r.None? ==> forall j :: 0 <= j < |keys| ==> !Contains(Normalize(keys[j]), Normalize(name)))
  {
  }

  /**
   * A matched key is never shorter (normalized) than the name: a key that is
   * only contained in the name, such as "niger" for "nigeria", is passed over.
   */
  lemma MatchIgnoresShorterKeys(keys: seq<string>, name: string)
    requires MatchIndex(keys, name).Some?
    ensures |Normalize(keys[MatchIndex(keys, name).value])| >= |Normalize(name)|
  {
    MatchContainsName(keys, name);
    ContainsShorter(Normalize(keys[MatchIndex(keys, name).value]), Normalize(name));
  }

  /**
   * A name with no ASCII letter or digit normalizes to "", which every key
   * contains: it selects the first key, unless some key normalizes to "".
   */
  lemma EmptyNameTakesFirstKey(keys: seq<string>, name: string)
    requires Normalize(name) == ""
    requires keys != []
    requires forall j :: 0 <= j < |keys| ==> Normalize(keys[j]) != ""
    ensures MatchIndex(keys, name) == Some(0)
  {
  }

  /** The country `showCountry` selects: `{ name, channels }`. */
  datatype Selection = Selection(name: string, channels: Option<seq<Channel>>)

  /**
   * `showCountry`'s choice: the matched key with that key's `channels`, or
   * the given name with no channels.
   */
  function SelectCountry(dir: Entries, name: string): (r: Selection)
    ensures MatchIndex(Keys(dir), name).None? ==> r == Selection(name, Some([]))
    ensures MatchIndex(Keys(dir), name).Some? ==>
      var i := MatchIndex(Keys(dir), name).value;
      i < |dir| && r == Selection(dir[i].0, dir[i].1.channels) &&
      Contains(Normalize(r.name), Normalize(name))
  {
    match MatchIndex(Keys(dir), name)
    case Some(i) =>
      MatchContainsName(Keys(dir), name);
      Selection(dir[i].0, dir[i].1.channels)
    case None => Selection(name, Some([]))
  }

  // ---------------------------------------------------------------------
  // search suggestions
  // ---------------------------------------------------------------------

  const MaxSuggestions: nat := 8

  /** The suggestion test: the lower-cased key includes the lower-cased search. */
  predicate SuggestMatch(search: string, k: string) {
    Contains(Lower(k), Lower(search))
  }

  function Suggests(search: string): string -> bool {
    k => SuggestMatch(search, k)
  }

  /** The suggestions effect: no search, no suggestions; else the first 8 matching keys. */
  function Suggestions(keys: seq<string>, search: string): (r: seq<string>)
    ensures |r| <= MaxSuggestions
    ensures search == "" ==> r == []
    ensures forall i :: 0 <= i < |r| ==> r[i] in keys
  {
    if search == "" then [] else Take(Filter(keys, Suggests(search)), MaxSuggestions)
  }

  /**
   * The suggestions are at most 8 keys, each of which includes the search
   * case-insensitively; an empty search gives none; and a matching key is
   * left out only when 8 others already fill the list.
   */
  lemma SuggestionsSpec(keys: seq<string>, search: string)
    ensures var r := Suggestions(keys, search);
      |r| <= MaxSuggestions &&
      (search == "" ==> r == []) &&
      (forall i :: 0 <= i < |r| ==> r[i] in keys && Contains(Lower(r[i]), Lower(search))) &&
      (forall j :: (0 <= j < |keys| && search != "" && Contains(Lower(keys[j]), Lower(search)) &&
                    keys[j] !in r) ==> |r| == MaxSuggestions)
  {
  }

  /**
   * Suggestions keep key order: the suggestions for a list of keys begin
   * with the suggestions for any prefix of it.
   */
  lemma SuggestionsKeepKeyOrder(a: seq<string>, b: seq<string>, search: string)
    ensures Suggestions(a, search) <= Suggestions(a + b, search)
  {
    if search != "" {
      FilterAppend(a, b, Suggests(search));
    }
  }

  // ---------------------------------------------------------------------
  // polygonColor
  // ---------------------------------------------------------------------

  /**
   * The hue of `polygonColor`: `(charCodeAt(0) * 45) % 360` of the normalized
   * name; `None` stands for the `NaN` hue of a name that normalizes to "".
   */
  function PolygonHue(name: string): (h: Option<int>)
    ensures h.None? <==> Normalize(name) == ""
    ensures h.Some? ==> 0 <= h.value < 360 && h.value % 45 == 0
    ensures h.Some? ==> h.value == 45 * (Normalize(name)[0] as int % 8)
  {
    var n := Normalize(name);
    if n == "" then None
    else
      HueEighths(n[0] as int);
      Some((n[0] as int * 45) % 360)
  }

  /** `(c * 45) % 360` depends only on `c % 8`. */
  lemma HueEighths(c: nat)
    ensures (c * 45) % 360 == 45 * (c % 8)
  {
  }

  // ---------------------------------------------------------------------
  // playback effect
  // ---------------------------------------------------------------------

  /** What the HLS effect does with the `<video id="genga-hls">` element. */
  datatype Playback = Idle | HlsStream(source: string) | DirectSrc(src: string)

  /**
   * The HLS effect: only an `iptv` channel with a video element is played;
   * an `.m3u8` URL goes through hls.js when it is supported, anything else
   * is assigned to `video.src` unchanged.
   */
  function PlaybackFor(ch: Option<Channel>, videoPresent: bool, hlsSupported: bool): (r: Playback)
    ensures r != Idle ==> ch.Some? && ch.value.kind == "iptv" && videoPresent
    ensures ch.Some? && ch.value.kind == "iptv" && videoPresent ==> r != Idle
    ensures r.HlsStream? <==> r != Idle && EndsWith(ch.value.url, ".m3u8") && hlsSupported
    ensures r.HlsStream? ==> r.source == ch.value.url
    ensures r.DirectSrc? ==> r.src == ch.value.url
  {
    if ch.None? || ch.value.kind != "iptv" then Idle
    else if !videoPresent then Idle
    else if EndsWith(ch.value.url, ".m3u8") && hlsSupported then HlsStream(ch.value.url)
    else DirectSrc(ch.value.url)
  }

  // ---------------------------------------------------------------------
  // component state
  // ---------------------------------------------------------------------

  /** The state fields of the `GengasTV` component. */
  class GengasTv {
    var channels: Entries
    var selectedCountry: Option<Selection>
    var selectedChannel: Option<Channel>
    var sidebarOpen: bool
    var search: string
    var suggestions: seq<string>

    /** The suggestions effect has run for the current search and directory. */
    ghost predicate Valid()
      reads this
    {
      suggestions == Suggestions(Keys(channels), search)
    }

    /** The search box shows in the main view only. */
    predicate SearchBoxShown()
      reads this
    {
      selectedCountry.None? && selectedChannel.None?
    }

    /** The back button shows while a country is selected and no channel plays. */
    predicate BackButtonShown()
      reads this
    {
      selectedCountry.Some? && selectedChannel.None?
    }

    predicate SidebarShown()
      reads this
    {
      sidebarOpen && selectedCountry.Some? && selectedChannel.None?
    }

    predicate PlayerShown()
      reads this
    {
      selectedChannel.Some?
    }

    /** The `<video id="genga-hls">` element exists for a non-YouTube channel. */
    predicate VideoElementPresent()
      reads this
    {
      selectedChannel.Some? && selectedChannel.value.kind != "youtube"
    }

    /**
     * The page shows exactly one of the main view (with its search box), the
     * country view (with its back button) and the player; the sidebar is part
     * of the country view, and the `<video>` element part of the player.
     */
    lemma ViewsAreExclusive()
      ensures SearchBoxShown() <==> !BackButtonShown() && !PlayerShown()
      ensures BackButtonShown() ==> !PlayerShown()
      ensures SidebarShown() ==> BackButtonShown()
      ensures VideoElementPresent() ==> PlayerShown()
    {
    }

    /** The HLS effect for the current channel: an `iptv` channel always plays. */
    function CurrentPlayback(hlsSupported: bool): (r: Playback)
      reads this
      ensures selectedChannel.Some? && selectedChannel.value.kind == "iptv" ==>
        r != Idle && (r.HlsStream? || r.DirectSrc?)
      ensures r != Idle ==> selectedChannel.Some? && selectedChannel.value.kind == "iptv"
    {
      PlaybackFor(selectedChannel, VideoElementPresent(), hlsSupported)
    }

    constructor ()
      ensures Valid() && SearchBoxShown() && !sidebarOpen
      ensures channels == [] && search == "" && suggestions == []
    {
      channels := [];
      selectedCountry := None;
      selectedChannel := None;
      sidebarOpen := false;
      search := "";
      suggestions := [];
    }

    /** `setChannels(data || {})`, after which the suggestions effect re-runs. */
    method SetChannels(data: Option<Entries>)
      modifies this
      ensures Valid()
      ensures channels == (if data.Some? then data.value else [])
      ensures search == old(search) && selectedCountry == old(selectedCountry)
      ensures selectedChannel == old(selectedChannel) && sidebarOpen == old(sidebarOpen)
    {
      channels := if data.Some? then data.value else [];
      suggestions := Suggestions(Keys(channels), search);
    }

    /** Typing in the search box, after which the suggestions effect re-runs. */
    method SetSearch(text: string)
      modifies this
      ensures Valid()
      ensures search == text && |suggestions| <= MaxSuggestions
      ensures text == "" ==> suggestions == []
      ensures channels == old(channels) && selectedCountry == old(selectedCountry)
      ensures selectedChannel == old(selectedChannel) && sidebarOpen == old(sidebarOpen)
    {
      search := text;
      suggestions := Suggestions(Keys(channels), search);
      SuggestionsSpec(Keys(channels), search);
    }

    /** `showCountry(name)`: select the matched country and open its sidebar. */
    method ShowCountry(name: string)
      requires Valid()
      modifies this
      ensures Valid()
      ensures selectedCountry == Some(SelectCountry(old(channels), name))
      ensures MatchIndex(Keys(channels), name).None? ==>
        selectedCountry == Some(Selection(name, Some([])))
      ensures sidebarOpen && selectedChannel.None?
      ensures SidebarShown() && BackButtonShown() && !SearchBoxShown() && !PlayerShown()
      ensures channels == old(channels) && search == old(search) && suggestions == old(suggestions)
    {
      selectedCountry := Some(SelectCountry(channels, name));
      sidebarOpen := true;
      selectedChannel := None;
    }

    /** `handleCountryClick`: a globe polygon without a name is ignored. */
    method CountryClick(name: Option<string>)
      requires Valid()
      modifies this
      ensures Valid()
      ensures !Truthy(name) ==>
        selectedCountry == old(selectedCountry) && selectedChannel == old(selectedChannel) &&
        sidebarOpen == old(sidebarOpen)
      ensures Truthy(name) ==>
        selectedCountry == Some(SelectCountry(old(channels), name.value)) && SidebarShown()
      ensures channels == old(channels) && search == old(search) && suggestions == old(suggestions)
    {
      if Truthy(name) {
        ShowCountry(name.value);
      }
    }

    /** Clicking a suggestion: show that country, clear the search and the suggestions. */
    method SuggestionClick(s: string)
      requires Valid()
      modifies this
      ensures Valid()
      ensures selectedCountry == Some(SelectCountry(old(channels), s))
      ensures search == "" && suggestions == []
      ensures SidebarShown() && selectedChannel.None?
      ensures channels == old(channels)
    {
      ShowCountry(s);
      search := "";
      suggestions := [];
    }

    /** Clicking a channel in the sidebar: play it and close the sidebar. */
    method ChannelClick(ch: Channel)
      requires Valid()
      modifies this
      ensures Valid()
      ensures selectedChannel == Some(ch) && !sidebarOpen
      ensures PlayerShown() && !SidebarShown() && !SearchBoxShown() && !BackButtonShown()
      ensures selectedCountry == old(selectedCountry)
      ensures channels == old(channels) && search == old(search) && suggestions == old(suggestions)
    {
      selectedChannel := Some(ch);
      sidebarOpen := false;
    }

    /** `backToMain`: clear the country and the search, close the sidebar. */
    method BackToMain()
      requires Valid()
      modifies this
      ensures Valid()
      ensures selectedCountry.None? && !sidebarOpen && search == "" && suggestions == []
      ensures !SidebarShown() && (SearchBoxShown() <==> selectedChannel.None?)
      ensures selectedChannel == old(selectedChannel) && channels == old(channels)
    {
      selectedCountry := None;
      sidebarOpen := false;
      search := "";
      suggestions := Suggestions(Keys(channels), search);
    }

    /** `closePlayer`: clear the channel and the country, close the sidebar. */
    method ClosePlayer()
      requires Valid()
      modifies this
      ensures Valid()
      ensures selectedChannel.None? && selectedCountry.None? && !sidebarOpen
      ensures SearchBoxShown() && !SidebarShown() && !PlayerShown() && !BackButtonShown()
      ensures channels == old(channels) && search == old(search) && suggestions == old(suggestions)
    {
      selectedChannel := None;
      selectedCountry := None;
      sidebarOpen := false;
    }
  }
}
