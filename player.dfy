/**
 * The client `Player`: on every channel change it clears `streamUrl`, then
 * plays a non-YouTube URL directly or asks `/api/play` (through
 * `requestStream`, which throws on a non-ok status) for a YouTube one.
 */
module ClientPlayer {
  import opened Js
  import opened Directory
  import opened PlayApi

  /**
   * The `streamUrl` that `requestStream(url).then(j => j.streamUrl)` leaves:
   * the reply's field as it is (possibly missing or empty) when the status
   * is ok and the body an object, `null` through the catch otherwise.
   */
  function StreamFromReply(reply: Reply): (r: JsValue)
    ensures !(reply.Response? && reply.ok) ==> r == Null
    ensures reply.Response? && reply.ok && reply.body.JsonObject? ==> r == reply.body.streamUrl
    ensures reply.Response? && reply.ok && !reply.body.JsonObject? ==> r == Null
    ensures r != Null ==> reply.Response? && reply.ok
  {
    match reply
    case NetworkFailure => Null
    case Response(ok, body) =>
      if !ok then Null
      else match body
        case JsonObject(v) => v
        case _ => Null
  }

  /** The state of one `Player` component. */
  class Player {
    var currentChannel: Option<Channel>
    var streamUrl: JsValue
    /** The `/api/play` request whose answer is still awaited, if any. */
    var pending: Option<string>

    constructor ()
      ensures currentChannel.None? && streamUrl == Null && pending.None?
    {
      currentChannel := None;
      streamUrl := Null;
      pending := None;
    }

    /** What the component renders. */
    function Screen(): (r: Screen)
      reads this
      ensures r.Video? ==> currentChannel.Some? && TruthyValue(streamUrl)
    {
      Render(currentChannel, streamUrl)
    }

    /** The effect on `[currentChannel]`: reset, then pass through or request. */
    method ChannelChanged(ch: Option<Channel>, encode: string -> string)
      modifies this
      ensures currentChannel == ch
      ensures ch.None? ==> streamUrl == Null && pending.None? && Screen() == Nothing
      ensures ch.Some? && IsYoutube(ch.value) ==>
        streamUrl == Null && pending == Some(PlayRequest(ch.value.url, encode)) &&
        Screen() == Placeholder
      ensures ch.Some? && !IsYoutube(ch.value) ==>
        streamUrl == Text(ch.value.url) && pending.None?
    {
      currentChannel := ch;
      streamUrl := Null;
      pending := None;
      if ch.None? {
        return;
      }
      if IsYoutube(ch.value) {
        pending := Some(PlayRequest(ch.value.url, encode));
      } else {
        streamUrl := Text(ch.value.url);
      }
    }

    /** The `then`/`catch` continuation of the pending request. */
    method ReplyArrived(reply: Reply)
      requires pending.Some?
      modifies this
      ensures streamUrl == StreamFromReply(reply) && pending.None?
      ensures currentChannel == old(currentChannel)
      ensures Screen().Video? ==> reply.Response? && reply.ok
    {
      streamUrl := StreamFromReply(reply);
      pending := None;
    }
  }
}
