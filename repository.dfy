/**
 * The station-resolution engine (RadioRepository.kt): a pasted string becomes a single
 * station, a list of a place's channels to choose from, or a direct stream, or the attempt
 * fails with a message. Calls to the directory go through module Api; each operation returns
 * the requests it sent, so "no network call" and the order of calls can be stated.
 */
module Repository {
  import opened Wrappers
  import opened Text
  import opened Dto
  import opened Api
  import opened Classifier

  datatype ResolvedStation = ResolvedStation(
    channelId: string,
    name: string,
    place: string,
    country: string,
    streamUrl: string,
    website: string := "")

  datatype ResolveResult =
    | SingleStation(station: ResolvedStation)
    | MultipleStations(stations: seq<PlaceChannelItem>, placeId: string)
    | DirectStream(streamUrl: string)

  const NoChannelsMessage: string := "No channels found at this location"
  const PlaceChannelMessage: string := "Could not parse channel from place"
  const ParseUrlMessage: string := "Could not parse URL. Paste a radio.garden link or a direct stream URL."
  const ItemMessagePrefix: string := "Could not parse channel ID from: "

  // ---------------------------------------------------------------------------------------
  // Place aggregation: `content.filter { it.itemsType == "channel" }.flatMap { it.items }`.

  const ChannelTag: string := "channel"

  /** The content blocks tagged as channel blocks, in their order. */
  function ChannelBlocks(content: seq<PlaceContent>): (r: seq<PlaceContent>)
    ensures |r| <= |content|
    ensures forall b | b in r :: b in content && b.itemsType == ChannelTag
    ensures forall b | b in content && b.itemsType == ChannelTag :: b in r
  {
    if content == [] then []
    else (if content[0].itemsType == ChannelTag then [content[0]] else []) + ChannelBlocks(content[1..])
  }

  /** The items of the blocks, one block after the other. */
  function Flatten(blocks: seq<PlaceContent>): (r: seq<PlaceChannelItem>)
    ensures forall x | x in r :: exists b | b in blocks :: x in b.items
    ensures forall b, x | b in blocks && x in b.items :: x in r
  {
    if blocks == [] then [] else blocks[0].items + Flatten(blocks[1..])
  }

  /**
   * The channel items a place response lists: block by block, in order, all the items of each
   * block tagged "channel" and none of the others.
   */
  function ChannelItems(content: seq<PlaceContent>): (r: seq<PlaceChannelItem>)
    ensures content == [] ==> r == []
    ensures content != [] ==>
      r == (if content[0].itemsType == ChannelTag then content[0].items else []) + ChannelItems(content[1..])
  {
    if content == [] then []
    else
      var kept := if content[0].itemsType == ChannelTag then [content[0]] else [];
      assert ChannelBlocks(content) == kept + ChannelBlocks(content[1..]);
      FlattenAppend(kept, ChannelBlocks(content[1..]));
      assert kept != [] ==> kept[1..] == [];
      Flatten(ChannelBlocks(content))
  }

  /** Filtering keeps block order: the channel blocks of `a + b` are those of `a`, then of `b`. */
  lemma {:induction false} ChannelBlocksAppend(a: seq<PlaceContent>, b: seq<PlaceContent>)
    ensures ChannelBlocks(a + b) == ChannelBlocks(a) + ChannelBlocks(b)
  {
    if a == [] {
      assert a + b == b;
    } else {
      assert (a + b)[1..] == a[1..] + b;
      ChannelBlocksAppend(a[1..], b);
    }
  }

  /** Flattening keeps block order. */
  lemma {:induction false} FlattenAppend(a: seq<PlaceContent>, b: seq<PlaceContent>)
    ensures Flatten(a + b) == Flatten(a) + Flatten(b)
  {
    if a == [] {
      assert a + b == b;
    } else {
      assert (a + b)[1..] == a[1..] + b;
      FlattenAppend(a[1..], b);
    }
  }

  /** Aggregation keeps block order: the items of `a + b` are those of `a`, then those of `b`. */
  lemma ChannelItemsAppend(a: seq<PlaceContent>, b: seq<PlaceContent>)
    ensures ChannelItems(a + b) == ChannelItems(a) + ChannelItems(b)
  {
    ChannelBlocksAppend(a, b);
    FlattenAppend(ChannelBlocks(a), ChannelBlocks(b));
  }

  /** One block contributes all its items when it is a channel block, and none otherwise. */
  lemma ChannelItemsOfBlock(block: PlaceContent)
    ensures ChannelItems([block]) == if block.itemsType == ChannelTag then block.items else []
  {
    assert [block][1..] == [];
    var kept := if block.itemsType == ChannelTag then [block] else [];
    assert ChannelBlocks([block]) == kept;
    if kept != [] {
      assert kept[1..] == [];
      assert Flatten(kept) == block.items + Flatten([]);
    }
  }

  /** An item is listed exactly when some channel block holds it. */
  lemma ChannelItemsMembership(content: seq<PlaceContent>, x: PlaceChannelItem)
    ensures x in ChannelItems(content) <==>
      exists b | b in content :: b.itemsType == ChannelTag && x in b.items
  {
  }

  // ---------------------------------------------------------------------------------------
  // Single-channel resolution.

  /**
   * `resolveSingleChannel`: the metadata request, then (only if it succeeded) the stream
   * request; the station combines the metadata's titles and website with the stream url.
   */
  function ResolveSingleChannel(dir: Directory, channelId: string): (x: Exchange<ResolveResult>)
    ensures var meta := GetChannelMetadata(dir, channelId).result;
      var stream := ResolveStreamUrl(dir, channelId).result;
      && x.sent == (if meta.Ok? then [ChannelRequest(channelId), ListenRequest(channelId)]
                    else [ChannelRequest(channelId)])
      && (x.result.Ok? <==> meta.Ok? && stream.Ok?)
      && (meta.Err? ==> x.result == Err(meta.error))
      && (meta.Ok? && stream.Err? ==> x.result == Err(stream.error))
      && (x.result.Ok? ==>
            && x.result.value.SingleStation?
            && var station := x.result.value.station;
            var data := meta.value.data;
            && station.channelId == channelId
            && station.name == data.title
            && station.place == data.place.title
            && station.country == data.country.title
            && station.streamUrl == stream.value
            && station.website == data.website)
    ensures forall r | r in x.sent :: IsClientRequest(r)
  {
    var metadata := GetChannelMetadata(dir, channelId);
    match metadata.result
    case Err(e) => Exchange(Err(e), metadata.sent)
    case Ok(response) =>
      var stream := ResolveStreamUrl(dir, channelId);
      var sent := metadata.sent + stream.sent;
      match stream.result
      case Err(e) => Exchange(Err(e), sent)
      case Ok(streamUrl) =>
        var data := response.data;
        var station := ResolvedStation(
          channelId := channelId,
          name := data.title,
          place := data.place.title,
          country := data.country.title,
          streamUrl := streamUrl,
          website := data.website);
        Exchange(Ok(SingleStation(station)), sent)
  }

  // ---------------------------------------------------------------------------------------
  // resolveUrl.

  /** The place branch of `resolveUrl`: one place request, then a decision on the item count. */
  function ResolvePlace(dir: Directory, placeId: string): (x: Exchange<ResolveResult>)
    ensures var fetched := GetPlaceChannels(dir, placeId);
      && |x.sent| >= 1 && x.sent[0] == PlaceChannelsRequest(placeId)
      && (fetched.result.Err? ==> x == Exchange(Err(fetched.result.error), [PlaceChannelsRequest(placeId)]))
      && (fetched.result.Ok? ==>
            var items := ChannelItems(fetched.result.value.data.content);
            && (|items| == 0 ==>
                  x == Exchange(Err(Message(NoChannelsMessage)), [PlaceChannelsRequest(placeId)]))
            && (|items| > 1 ==>
                  x == Exchange(Ok(MultipleStations(items, placeId)), [PlaceChannelsRequest(placeId)]))
            && (|items| == 1 && ExtractChannelIdFromPageUrl(items[0].page.url).None? ==>
                  x == Exchange(Err(Message(PlaceChannelMessage)), [PlaceChannelsRequest(placeId)]))
            && (|items| == 1 && ExtractChannelIdFromPageUrl(items[0].page.url).Some? ==>
                  var single := ResolveSingleChannel(dir, ExtractChannelIdFromPageUrl(items[0].page.url).value);
                  x.result == single.result && x.sent == [PlaceChannelsRequest(placeId)] + single.sent))
    ensures forall r | r in x.sent :: IsClientRequest(r)
    ensures |x.sent| <= 3
    ensures x.result.Ok? ==> !x.result.value.DirectStream?
    ensures x.result.Ok? && x.result.value.SingleStation? ==> IsId(x.result.value.station.channelId)
    ensures x.result.Ok? && x.result.value.MultipleStations? ==>
      && |x.result.value.stations| >= 2
      && x.result.value.placeId == placeId
      && x.sent == [PlaceChannelsRequest(placeId)]
  {
    var fetched := GetPlaceChannels(dir, placeId);
    match fetched.result
    case Err(e) => Exchange(Err(e), fetched.sent)
    case Ok(response) =>
      var items := ChannelItems(response.data.content);
      if |items| == 0 then Exchange(Err(Message(NoChannelsMessage)), fetched.sent)
      else if |items| == 1 then
        match ExtractChannelIdFromPageUrl(items[0].page.url)
        case None => Exchange(Err(Message(PlaceChannelMessage)), fetched.sent)
        case Some(channelId) =>
          var single := ResolveSingleChannel(dir, channelId);
          Exchange(single.result, fetched.sent + single.sent)
      else Exchange(Ok(MultipleStations(items, placeId)), fetched.sent)
  }

  /**
   * `resolveUrl`: classify the string, then a direct stream comes back unchanged with no
   * request, a channel link is resolved, a place link is fetched and aggregated, and anything
   * else fails with no request.
   */
  function ResolveUrl(dir: Directory, url: string): (x: Exchange<ResolveResult>)
    ensures IsDirectStreamUrl(url) ==> x == Exchange(Ok(DirectStream(url)), [])
    ensures Classify(url).ChannelLink? ==> x == ResolveSingleChannel(dir, Classify(url).channelId)
    ensures Classify(url).PlaceLink? ==> x == ResolvePlace(dir, Classify(url).placeId)
    ensures Classify(url).Unrecognized? ==> x == Exchange(Err(Message(ParseUrlMessage)), [])
    ensures forall r | r in x.sent :: IsClientRequest(r)
    ensures |x.sent| <= 3
    ensures x.result.Ok? && x.result.value.DirectStream? ==>
      x.result.value.streamUrl == url && IsDirectStreamUrl(url) && x.sent == []
    ensures x.result.Ok? && x.result.value.SingleStation? ==> IsId(x.result.value.station.channelId)
    ensures x.result.Ok? && x.result.value.MultipleStations? ==>
      && |x.result.value.stations| >= 2
      && Classify(url) == PlaceLink(x.result.value.placeId)
      && x.sent == [PlaceChannelsRequest(x.result.value.placeId)]
  {
    match Classify(url)
    case DirectStreamLink => Exchange(Ok(DirectStream(url)), [])
    case ChannelLink(channelId) => ResolveSingleChannel(dir, channelId)
    case PlaceLink(placeId) => ResolvePlace(dir, placeId)
    case Unrecognized => Exchange(Err(Message(ParseUrlMessage)), [])
  }

  /**
   * `resolveChannelFromItem`: the follow-up after the user picks one of a place's channels.
   * Extraction failure names the page url; otherwise the station of the extracted id.
   */
  function ResolveChannelFromItem(dir: Directory, item: PlaceChannelItem): (x: Exchange<ResolvedStation>)
    ensures ExtractChannelIdFromPageUrl(item.page.url).None? ==>
      x == Exchange(Err(Message(ItemMessagePrefix + item.page.url)), [])
    ensures ExtractChannelIdFromPageUrl(item.page.url).Some? ==>
      var single := ResolveSingleChannel(dir, ExtractChannelIdFromPageUrl(item.page.url).value);
      && x.sent == single.sent
      && (x.result.Ok? <==> single.result.Ok?)
      && (x.result.Err? ==> x.result.error == single.result.error)
      && (x.result.Ok? ==> single.result.value == SingleStation(x.result.value))
    ensures x.result.Ok? ==> IsId(x.result.value.channelId)
  {
    match ExtractChannelIdFromPageUrl(item.page.url)
    case None => Exchange(Err(Message(ItemMessagePrefix + item.page.url)), [])
    case Some(channelId) =>
      var single := ResolveSingleChannel(dir, channelId);
      match single.result
      case Err(e) => Exchange(Err(e), single.sent)
      case Ok(result) => Exchange(Ok(result.station), single.sent)
  }

  // ---------------------------------------------------------------------------------------
  // Properties relating the operations.

  /**
   * A place whose only channel item has a parsable page url resolves to the same station,
   * after the one place request, as picking that item from a list would.
   */
  lemma SingleItemPlaceAgreesWithPick(dir: Directory, url: string, placeId: string, item: PlaceChannelItem)
    requires Classify(url) == PlaceLink(placeId)
    requires var fetched := GetPlaceChannels(dir, placeId).result;
      fetched.Ok? && ChannelItems(fetched.value.data.content) == [item]
    requires ExtractChannelIdFromPageUrl(item.page.url).Some?
    ensures var x := ResolveUrl(dir, url);
      var y := ResolveChannelFromItem(dir, item);
      && x.sent == [PlaceChannelsRequest(placeId)] + y.sent
      && (x.result.Ok? <==> y.result.Ok?)
      && (y.result.Ok? ==> x.result.value == SingleStation(y.result.value))
      && (y.result.Err? ==> x.result == Err(y.result.error))
  {
    var items := ChannelItems(GetPlaceChannels(dir, placeId).result.value.data.content);
    assert items[0] == item;
  }

  /** A place with no channel-tagged block fails after its one request. */
  lemma PlaceWithoutChannelBlocks(dir: Directory, url: string, placeId: string, response: PlaceChannelsResponse)
    requires Classify(url) == PlaceLink(placeId)
    requires GetPlaceChannels(dir, placeId).result == Ok(response)
    requires forall b | b in response.data.content :: b.itemsType != ChannelTag
    ensures ResolveUrl(dir, url) == Exchange(Err(Message(NoChannelsMessage)), [PlaceChannelsRequest(placeId)])
  {
    var items := ChannelItems(response.data.content);
    if |items| > 0 {
      ChannelItemsMembership(response.data.content, items[0]);
    }
  }

  /** A place whose one channel block lists several items offers exactly those, after one request. */
  lemma PlaceWithSeveralItems(dir: Directory, url: string, placeId: string, block: PlaceContent)
    requires Classify(url) == PlaceLink(placeId)
    requires GetPlaceChannels(dir, placeId).result == Ok(PlaceChannelsResponse(PlaceChannelsData([block])))
    requires block.itemsType == ChannelTag && |block.items| >= 2
    ensures ResolveUrl(dir, url) ==
      Exchange(Ok(MultipleStations(block.items, placeId)), [PlaceChannelsRequest(placeId)])
  {
    ChannelItemsOfBlock(block);
  }

  /**
   * A place whose one channel block lists one item naming channel `channelId` makes the place
   * request and then exactly the requests of resolving that channel.
   */
  lemma PlaceWithOneItem(dir: Directory, url: string, placeId: string, block: PlaceContent, channelId: string)
    requires Classify(url) == PlaceLink(placeId)
    requires GetPlaceChannels(dir, placeId).result == Ok(PlaceChannelsResponse(PlaceChannelsData([block])))
    requires block.itemsType == ChannelTag && |block.items| == 1
    requires ExtractChannelIdFromPageUrl(block.items[0].page.url) == Some(channelId)
    ensures var x := ResolveUrl(dir, url);
      && x.result == ResolveSingleChannel(dir, channelId).result
      && x.sent == [PlaceChannelsRequest(placeId)] + ResolveSingleChannel(dir, channelId).sent
      && x.sent[..2] == [PlaceChannelsRequest(placeId), ChannelRequest(channelId)]
  {
    PlaceOneItemCalls(dir, placeId, block, channelId);
  }

  lemma PlaceOneItemCalls(dir: Directory, placeId: string, block: PlaceContent, channelId: string)
    requires GetPlaceChannels(dir, placeId).result == Ok(PlaceChannelsResponse(PlaceChannelsData([block])))
    requires block.itemsType == ChannelTag && |block.items| == 1
    requires ExtractChannelIdFromPageUrl(block.items[0].page.url) == Some(channelId)
    ensures var x := ResolvePlace(dir, placeId);
      && x.result == ResolveSingleChannel(dir, channelId).result
      && x.sent == [PlaceChannelsRequest(placeId)] + ResolveSingleChannel(dir, channelId).sent
      && x.sent[..2] == [PlaceChannelsRequest(placeId), ChannelRequest(channelId)]
  {
    ChannelItemsOfBlock(block);
    var single := ResolveSingleChannel(dir, channelId);
    assert single.sent[0] == ChannelRequest(channelId);
  }

  /** The follow-up's extraction failure message quotes the offending page url. */
  lemma ItemFailureQuotesPageUrl(dir: Directory, item: PlaceChannelItem)
    requires ExtractChannelIdFromPageUrl(item.page.url).None?
    ensures var x := ResolveChannelFromItem(dir, item);
      x.result.Err? && x.result.error.Message? && Contains(x.result.error.text, item.page.url)
      && x.sent == []
  {
    var text := ItemMessagePrefix + item.page.url;
    assert text[|ItemMessagePrefix|..|ItemMessagePrefix| + |item.page.url|] == item.page.url;
    assert OccursAt(text, item.page.url, |ItemMessagePrefix|);
  }

  /**
   * Metadata lacking every optional key still yields a station, with empty name, place,
   * country and website: the defaults, not a failure.
   */
  lemma BareMetadataGivesEmptyTitles(dir: Directory, channelId: string)
    requires dir.respond(ChannelRequest(channelId)).Some?
    requires var resp := dir.respond(ChannelRequest(channelId)).value;
      && IsSuccessful(resp) && resp.body.Some?
      && dir.parseChannel(resp.body.value) == Some(ChannelResponseJson(Some(ChannelDataJson(None, None, None, None, None))))
    requires ResolveStreamUrl(dir, channelId).result.Ok?
    ensures var x := ResolveSingleChannel(dir, channelId);
      && x.result.Ok?
      && var station := x.result.value.station;
      && station.name == "" && station.place == "" && station.country == "" && station.website == ""
      && station.streamUrl == ResolveStreamUrl(dir, channelId).result.value
  {
    var j := ChannelResponseJson(Some(ChannelDataJson(None, None, None, None, None)));
    MissingMetadataIsEmpty(j);
  }

  /**
   * A channel served directly (a 2xx answer to the stream request) gets the stream request's
   * own url as its stream url.
   */
  lemma DirectlyServedChannel(dir: Directory, channelId: string)
    requires GetChannelMetadata(dir, channelId).result.Ok?
    requires dir.respond(ListenRequest(channelId)).Some?
    requires var resp := dir.respond(ListenRequest(channelId)).value;
      !IsRedirect(resp) && IsSuccessful(resp)
    ensures var x := ResolveSingleChannel(dir, channelId);
      && x.result.Ok?
      && x.result.value.station.streamUrl ==
         "https://radio.garden/api/ara/content/listen/" + channelId + "/channel.mp3"
  {
  }

  /**
   * A metadata request that fails in transport (an I/O error or a timeout) ends the
   * resolution: the error propagates and no stream request is sent.
   */
  lemma MetadataTransportFailureStops(dir: Directory, channelId: string)
    requires dir.respond(ChannelRequest(channelId)).None?
    ensures var x := ResolveSingleChannel(dir, channelId);
      x.result == Err(Transport) && x.sent == [ChannelRequest(channelId)]
  {
  }
}
