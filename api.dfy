/**
 * The directory client (RadioGardenApi.kt): three GET requests on fixed endpoint templates,
 * each with the same User-Agent, and the checks applied to their responses.
 *
 * Executing a request is the network's work and is not modelled: a `Directory` gives the
 * response the service returns for each request, or none when the call fails in transport
 * (an `IOException` from `execute()` or from reading the body, a connect or read timeout),
 * and the parsing of a body into a JSON object (see module Dto). Every operation returns, beside its result, the requests it sent, in order.
 */
module Api {
  import opened Wrappers
  import opened Text
  import opened Dto

  const ContentBase: string := "https://radio.garden/api/ara/content/"

  const UserAgent: string :=
    "Mozilla/5.0 (Linux; Android 14) AppleWebKit/537.36 (KHTML, like Gecko) Chrome/120.0.0.0 Mobile Safari/537.36"

  /**
   * Why an operation failed: an `error(...)` message, a body the serializer rejected, or an
   * I/O failure of the call itself (whose message comes from the platform).
   */
  datatype Failure = Message(text: string) | Undecodable | Transport

  /** A GET request: its url, its User-Agent header and whether the client follows redirects. */
  datatype HttpRequest = HttpRequest(url: string, userAgent: string, followRedirects: bool)

  /** A response: its status code, its `Location` header and its body, each possibly absent. */
  datatype HttpResponse = HttpResponse(code: int, location: Option<string>, body: Option<string>)

  /** OkHttp's `Response.isSuccessful`: a status in 200..299. */
  predicate IsSuccessful(r: HttpResponse) {
    200 <= r.code <= 299
  }

  /** OkHttp's `Response.isRedirect`: one of the statuses 300, 301, 302, 303, 307, 308. */
  predicate IsRedirect(r: HttpResponse) {
    r.code == 300 || r.code == 301 || r.code == 302 || r.code == 303 || r.code == 307 || r.code == 308
  }

  /** The service and the JSON parser, as the client sees them. */
  datatype Directory = Directory(
    respond: HttpRequest -> Option<HttpResponse>,
    parseChannel: string -> Option<ChannelResponseJson>,
    parsePlace: string -> Option<PlaceChannelsResponseJson>)

  /** The outcome of a sequence of calls: the result and the requests sent, in order. */
  datatype Exchange<T> = Exchange(result: Result<T, Failure>, sent: seq<HttpRequest>)

  // ---------------------------------------------------------------------------------------
  // Endpoints.

  /** The metadata endpoint: under the content api, ending with the channel id. */
  function ChannelUrl(channelId: string): (u: string)
    ensures StartsWith(u, ContentBase)
    ensures |u| == |ContentBase| + 8 + |channelId| && u[|u| - |channelId|..] == channelId
  {
    var u := ContentBase + "channel/" + channelId;
    assert u[..|ContentBase|] == ContentBase && u[|u| - |channelId|..] == channelId;
    u
  }

  /** The stream endpoint: under the content api, the channel id, then "/channel.mp3". */
  function ListenUrl(channelId: string): (u: string)
    ensures StartsWith(u, ContentBase)
    ensures |u| == |ContentBase| + 7 + |channelId| + 12
    ensures u[|ContentBase| + 7..|ContentBase| + 7 + |channelId|] == channelId
    ensures u[|u| - 12..] == "/channel.mp3"
  {
    var u := ContentBase + "listen/" + channelId + "/channel.mp3";
    assert u[..|ContentBase|] == ContentBase;
    assert u[|ContentBase| + 7..|ContentBase| + 7 + |channelId|] == channelId;
    assert u[|u| - 12..] == "/channel.mp3";
    u
  }

  /** The place endpoint: under the content api, the place id, then "/channels". */
  function PlaceChannelsUrl(placeId: string): (u: string)
    ensures StartsWith(u, ContentBase)
    ensures |u| == |ContentBase| + 5 + |placeId| + 9
    ensures u[|ContentBase| + 5..|ContentBase| + 5 + |placeId|] == placeId
    ensures u[|u| - 9..] == "/channels"
  {
    var u := ContentBase + "page/" + placeId + "/channels";
    assert u[..|ContentBase|] == ContentBase;
    assert u[|ContentBase| + 5..|ContentBase| + 5 + |placeId|] == placeId;
    assert u[|u| - 9..] == "/channels";
    u
  }

  /** Every request of the client's: the one User-Agent, and a url under the content api. */
  predicate IsClientRequest(r: HttpRequest) {
    r.userAgent == UserAgent && StartsWith(r.url, ContentBase)
  }

  /** The metadata request goes through the default client, which follows redirects. */
  function ChannelRequest(channelId: string): (r: HttpRequest)
    ensures IsClientRequest(r) && r.followRedirects
  {
    assert ChannelUrl(channelId)[..|ContentBase|] == ContentBase;
    HttpRequest(ChannelUrl(channelId), UserAgent, true)
  }

  /** The stream request goes through the client built with `followRedirects(false)`. */
  function ListenRequest(channelId: string): (r: HttpRequest)
    ensures IsClientRequest(r) && !r.followRedirects
  {
    assert ListenUrl(channelId)[..|ContentBase|] == ContentBase;
    HttpRequest(ListenUrl(channelId), UserAgent, false)
  }

  function PlaceChannelsRequest(placeId: string): (r: HttpRequest)
    ensures IsClientRequest(r) && r.followRedirects
  {
    assert PlaceChannelsUrl(placeId)[..|ContentBase|] == ContentBase;
    HttpRequest(PlaceChannelsUrl(placeId), UserAgent, true)
  }

  /** The id is the templates' only parameter: each endpoint url determines its id. */
  lemma EndpointsDetermineId(a: string, b: string)
    ensures ChannelUrl(a) == ChannelUrl(b) ==> a == b
    ensures ListenUrl(a) == ListenUrl(b) ==> a == b
    ensures PlaceChannelsUrl(a) == PlaceChannelsUrl(b) ==> a == b
  {
    var n := |ContentBase|;
    if ChannelUrl(a) == ChannelUrl(b) {
      assert a == ChannelUrl(a)[n + 8..] && b == ChannelUrl(b)[n + 8..];
    }
    if ListenUrl(a) == ListenUrl(b) {
      assert |a| == |b|;
      assert a == ListenUrl(a)[n + 7..n + 7 + |a|] && b == ListenUrl(b)[n + 7..n + 7 + |b|];
    }
    if PlaceChannelsUrl(a) == PlaceChannelsUrl(b) {
      assert |a| == |b|;
      assert a == PlaceChannelsUrl(a)[n + 5..n + 5 + |a|] && b == PlaceChannelsUrl(b)[n + 5..n + 5 + |b|];
    }
  }

  /** No two endpoints share a url, whatever the ids. */
  lemma EndpointsDistinct(a: string, b: string)
    ensures ChannelUrl(a) != ListenUrl(b) && ChannelUrl(a) != PlaceChannelsUrl(b)
      && ListenUrl(a) != PlaceChannelsUrl(b)
  {
    var n := |ContentBase|;
    assert ChannelUrl(a)[n] == 'c' && ListenUrl(b)[n] == 'l' && PlaceChannelsUrl(b)[n] == 'p';
    assert ListenUrl(a)[n] == 'l';
  }

  // ---------------------------------------------------------------------------------------
  // Response rules.

  /**
   * The checks of `getChannelMetadata` and `getPlaceChannels` before any decoding: a
   * non-success status fails with its code, a missing body fails, otherwise the body text.
   */
  function ReadBody(resp: HttpResponse): (r: Result<string, Failure>)
    ensures r.Ok? <==> IsSuccessful(resp) && resp.body.Some?
    ensures r.Ok? ==> r.value == resp.body.value
    ensures !IsSuccessful(resp) ==> r == Err(Message("API error: " + IntText(resp.code)))
    ensures IsSuccessful(resp) && resp.body.None? ==> r == Err(Message("Empty response"))
  {
    if !IsSuccessful(resp) then Err(Message("API error: " + IntText(resp.code)))
    else if resp.body.None? then Err(Message("Empty response"))
    else Ok(resp.body.value)
  }

  /**
   * The rule of `resolveStreamUrl` for a response to a request for `requestUrl` sent without
   * following redirects: a redirect yields its `Location`, a plain success yields the request
   * url, anything else fails.
   */
  function StreamUrlFromResponse(requestUrl: string, resp: HttpResponse): (r: Result<string, Failure>)
    ensures r.Ok? <==> (IsRedirect(resp) && resp.location.Some?) || IsSuccessful(resp)
    ensures r.Ok? && IsRedirect(resp) ==> r.value == resp.location.value
    ensures r.Ok? && !IsRedirect(resp) ==> r.value == requestUrl
    ensures IsRedirect(resp) && resp.location.None? ==> r == Err(Message("No redirect location"))
    ensures !IsRedirect(resp) && !IsSuccessful(resp) ==>
      r == Err(Message("Stream resolution failed: " + IntText(resp.code)))
  {
    if IsRedirect(resp) then
      match resp.location
      case Some(location) => Ok(location)
      case None => Err(Message("No redirect location"))
    else if IsSuccessful(resp) then Ok(requestUrl)
    else Err(Message("Stream resolution failed: " + IntText(resp.code)))
  }

  /**
   * A reference statement of the same rule that tests success first: since no redirect status
   * is a success status, the order of the two tests does not matter.
   */
  function StreamUrlSuccessFirst(requestUrl: string, resp: HttpResponse): Result<string, Failure> {
    if IsSuccessful(resp) then Ok(requestUrl)
    else if IsRedirect(resp) && resp.location.Some? then Ok(resp.location.value)
    else if IsRedirect(resp) then Err(Message("No redirect location"))
    else Err(Message("Stream resolution failed: " + IntText(resp.code)))
  }

  lemma StreamRuleOrderIrrelevant(requestUrl: string, resp: HttpResponse)
    ensures StreamUrlFromResponse(requestUrl, resp) == StreamUrlSuccessFirst(requestUrl, resp)
  {
  }

  /** Failures for different status codes carry different messages. */
  lemma StreamFailureNamesCode(u: string, r1: HttpResponse, r2: HttpResponse)
    requires !IsRedirect(r1) && !IsSuccessful(r1) && !IsRedirect(r2) && !IsSuccessful(r2)
    requires StreamUrlFromResponse(u, r1) == StreamUrlFromResponse(u, r2)
    ensures r1.code == r2.code
  {
    var prefix := "Stream resolution failed: ";
    assert (prefix + IntText(r1.code))[|prefix|..] == IntText(r1.code);
    assert (prefix + IntText(r2.code))[|prefix|..] == IntText(r2.code);
    IntTextInjective(r1.code, r2.code);
  }

  // ---------------------------------------------------------------------------------------
  // The three operations.

  /** `getChannelMetadata`: one request; status and body checks, then decoding. */
  function GetChannelMetadata(dir: Directory, channelId: string): (x: Exchange<ChannelResponse>)
    ensures x.sent == [ChannelRequest(channelId)]
    ensures dir.respond(ChannelRequest(channelId)).None? ==> x.result == Err(Transport)
    ensures dir.respond(ChannelRequest(channelId)).Some? ==>
      var resp := dir.respond(ChannelRequest(channelId)).value;
      && (ReadBody(resp).Err? ==> x.result == Err(ReadBody(resp).error))
      && (ReadBody(resp).Ok? ==>
            match dir.parseChannel(ReadBody(resp).value)
            case None => x.result == Err(Undecodable)
            case Some(j) =>
              (x.result.Ok? <==> j.data.Some?)
              && (x.result.Ok? ==> x.result.value.data == DecodeChannelData(j.data.value)))
  {
    var request := ChannelRequest(channelId);
    var result :=
      if dir.respond(request).None? then Err(Transport) else
      match ReadBody(dir.respond(request).value)
      case Err(e) => Err(e)
      case Ok(body) =>
        match dir.parseChannel(body)
        case None => Err(Undecodable)
        case Some(j) =>
          match DecodeChannelResponse(j)
          case None => Err(Undecodable)
          case Some(response) => Ok(response);
    Exchange(result, [request])
  }

  /** `resolveStreamUrl`: one request without following redirects, then the stream rule. */
  function ResolveStreamUrl(dir: Directory, channelId: string): (x: Exchange<string>)
    ensures x.sent == [ListenRequest(channelId)]
    ensures dir.respond(ListenRequest(channelId)).None? ==> x.result == Err(Transport)
    ensures dir.respond(ListenRequest(channelId)).Some? ==>
      x.result == StreamUrlFromResponse(ListenUrl(channelId), dir.respond(ListenRequest(channelId)).value)
    ensures x.result.Ok? ==>
      x.result.value == ListenUrl(channelId)
      || Some(x.result.value) == dir.respond(ListenRequest(channelId)).value.location
  {
    var request := ListenRequest(channelId);
    var result :=
      match dir.respond(request)
      case None => Err(Transport)
      case Some(resp) => StreamUrlFromResponse(request.url, resp);
    Exchange(result, [request])
  }

  /** `getPlaceChannels`: one request; status and body checks, then decoding. */
  function GetPlaceChannels(dir: Directory, placeId: string): (x: Exchange<PlaceChannelsResponse>)
    ensures x.sent == [PlaceChannelsRequest(placeId)]
    ensures dir.respond(PlaceChannelsRequest(placeId)).None? ==> x.result == Err(Transport)
    ensures dir.respond(PlaceChannelsRequest(placeId)).Some? ==>
      var resp := dir.respond(PlaceChannelsRequest(placeId)).value;
      && (ReadBody(resp).Err? ==> x.result == Err(ReadBody(resp).error))
      && (ReadBody(resp).Ok? ==>
            match dir.parsePlace(ReadBody(resp).value)
            case None => x.result == Err(Undecodable)
            case Some(j) =>
              (x.result.Ok? <==> j.data.Some?)
              && (x.result.Ok? ==> x.result.value.data == DecodePlaceChannelsData(j.data.value)))
  {
    var request := PlaceChannelsRequest(placeId);
    var result :=
      if dir.respond(request).None? then Err(Transport) else
      match ReadBody(dir.respond(request).value)
      case Err(e) => Err(e)
      case Ok(body) =>
        match dir.parsePlace(body)
        case None => Err(Undecodable)
        case Some(j) =>
          match DecodePlaceChannelsResponse(j)
          case None => Err(Undecodable)
          case Some(response) => Ok(response);
    Exchange(result, [request])
  }
}
