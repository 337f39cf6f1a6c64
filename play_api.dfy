/**
 * The `/api/play` round trip the two client players make for YouTube
 * channels: the request URL, and the reply as the players observe it.
 */
module PlayApi {
  import opened Js
  import opened Directory

  /** A JavaScript value read from a JSON field that should hold a string. */
  datatype JsValue = Null | Undefined | Text(s: string)

  /** Truthiness: only a non-empty string is truthy. */
  predicate TruthyValue(v: JsValue) {
    v.Text? && v.s != ""
  }

  /** The parsed body of the reply. */
  datatype Body =
    | NotJson                        // `res.json()` rejects
    | JsonNull                       // the body is `null`: reading `.streamUrl` throws
    | JsonObject(streamUrl: JsValue) // an object; `Undefined` when it has no `streamUrl`

  /** The outcome of the request: no response at all, or a status and a body. */
  datatype Reply = NetworkFailure | Response(ok: bool, body: Body)

  const PlayPath: string := "/api/play?url="

  /**
   * `'/api/play?url=' + encodeURIComponent(url)`; the encoder is a
   * parameter.
   */
  function PlayRequest(url: string, encode: string -> string): (r: string)
    ensures PlayPath <= r && r[|PlayPath|..] == encode(url)
  {
    PlayPath + encode(url)
  }

  /** Whether a channel needs `/api/play`: only a YouTube channel does. */
  predicate IsYoutube(ch: Channel) {
    ch.kind == "youtube"
  }

  /** What the player shows under its title bar. */
  datatype Screen = Nothing | Placeholder | Video(src: string)

  /**
   * The render condition shared by both players: nothing without a channel,
   * the `<video>` only for a truthy `streamUrl`, else "Preparing stream...".
   */
  function Render(channel: Option<Channel>, streamUrl: JsValue): (r: Screen)
    ensures r.Nothing? <==> channel.None?
    ensures r.Video? <==> channel.Some? && TruthyValue(streamUrl)
    ensures r.Video? ==> r.src == streamUrl.s && r.src != ""
  {
    if channel.None? then Nothing
    else if TruthyValue(streamUrl) then Video(streamUrl.s)
    else Placeholder
  }
}
