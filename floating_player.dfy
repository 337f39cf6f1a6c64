/**
 * The client `FloatingPlayer`: the same reset-then-set effect as `Player`,
 * but it calls `fetch` itself, never looks at the HTTP status, and stores
 * `null` whenever the reply has no truthy `streamUrl`.
 */
module ClientFloatingPlayer {
  import opened Js
  import opened Directory
  import opened PlayApi
  import ClientPlayer

  /**
   * The `streamUrl` that
   * `.then(j => { if (j.streamUrl) setStreamUrl(j.streamUrl); else setStreamUrl(null); })`
   * leaves, with every rejection caught as `null`.
   */
  function StreamFromReply(reply: Reply): (r: JsValue)
    ensures r == Null || TruthyValue(r)
    ensures TruthyValue(r) <==>
      reply.Response? && reply.body.JsonObject? && TruthyValue(reply.body.streamUrl)
    ensures TruthyValue(r) ==> r == reply.body.streamUrl
  {
    match reply
    case NetworkFailure => Null
    case Response(_, body) =>
      match body
      case JsonObject(v) => if TruthyValue(v) then v else Null
      case _ => Null
  }

  /** The HTTP status plays no part: only the body decides. */
  lemma StatusIgnored(body: Body)
    ensures StreamFromReply(Response(true, body)) == StreamFromReply(Response(false, body))
  {
  }

  /**
   * On an ok reply the two players store different values only where both
   * show the placeholder: what is rendered is the same.
   */
  lemma PlayersAgreeOnOkReplies(ch: Option<Channel>, body: Body)
    ensures Render(ch, StreamFromReply(Response(true, body))) ==
            Render(ch, ClientPlayer.StreamFromReply(Response(true, body)))
  {
  }

  /**
   * They differ on an error status whose body still names a stream:
   * `Player` treats it as a failure, `FloatingPlayer` plays it.
   */
  lemma PlayersDifferOnErrorStatus(ch: Channel, url: string)
    requires url != ""
    ensures Render(Some(ch), ClientPlayer.StreamFromReply(Response(false, JsonObject(Text(url))))) ==
            Placeholder
    ensures Render(Some(ch), StreamFromReply(Response(false, JsonObject(Text(url))))) == Video(url)
  {
  }

  /** The state of one `FloatingPlayer` component. */
  class FloatingPlayer {
    var currentChannel: Option<Channel>
    var streamUrl: JsValue
    /** The `/api/play` request whose answer is still awaited, if any. */
    var pending: Option<string>

    constructor ()
      ensures currentChannel.None? && streamUrl == Null && pending.None?
    {
      currentChannel := None;
      streamUrl := Null;
      pending := None;
    }

    /** What the component renders. */
    function Screen(): (r: Screen)
      reads this
      ensures r.Video? ==> currentChannel.Some? && TruthyValue(streamUrl)
    {
      Render(currentChannel, streamUrl)
    }

    /** The effect on `[currentChannel]`: reset, then pass through or request. */
    method ChannelChanged(ch: Option<Channel>, encode: string -> string)
      modifies this
      ensures currentChannel == ch
      ensures ch.None? ==> streamUrl == Null && pending.None? && Screen() == Nothing
      ensures ch.Some? && IsYoutube(ch.value) ==>
        streamUrl == Null && pending == Some(PlayRequest(ch.value.url, encode)) &&
        Screen() == Placeholder
      ensures ch.Some? && !IsYoutube(ch.value) ==>
        streamUrl == Text(ch.value.url) && pending.None?
    {
      currentChannel := ch;
      streamUrl := Null;
      pending := None;
      if ch.None? {
        return;
      }
      if IsYoutube(ch.value) {
        pending := Some(PlayRequest(ch.value.url, encode));
      } else {
        streamUrl := Text(ch.value.url);
      }
    }

    /** The `then`/`catch` continuation of the pending request. */
    method ReplyArrived(reply: Reply)
      requires pending.Some?
      modifies this
      ensures streamUrl == StreamFromReply(reply) && pending.None?
      ensures streamUrl == Null || TruthyValue(streamUrl)
      ensures currentChannel == old(currentChannel)
    {
      streamUrl := StreamFromReply(reply);
      pending := None;
    }
  }
}
