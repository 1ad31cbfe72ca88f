/**
 * The directory service's response shapes (ChannelResponse.kt). Each Kotlin data class is a
 * datatype whose constructor carries the same default values, so `ChannelData()` is the
 * instance the serializer builds when every optional key is absent.
 *
 * Turning response text into a JSON object is the serialization library's work and is not
 * modelled; what is modelled is the step after it: a parsed object, recorded as which of the
 * declared keys are present (`...Json` datatypes, `None` for an absent key), becomes a data
 * class instance by taking each present value and the declared default for each absent one.
 * Keys a class does not declare have no place in these records, which is how
 * `ignoreUnknownKeys` shows up in the model.
 */
module Dto {
  import opened Wrappers

  datatype PlaceRef = PlaceRef(id: string := "", title: string := "")

  datatype CountryRef = CountryRef(id: string := "", title: string := "")

  datatype ChannelData = ChannelData(
    title: string := "",
    url: string := "",
    website: string := "",
    place: PlaceRef := PlaceRef(),
    country: CountryRef := CountryRef())

  /** `data` has no default: a channel body without it does not decode. */
  datatype ChannelResponse = ChannelResponse(data: ChannelData)

  datatype ChannelPage = ChannelPage(title: string := "", url: string := "")

  datatype PlaceChannelItem = PlaceChannelItem(
    href: string := "",
    title: string := "",
    page: ChannelPage := ChannelPage())

  /** `contentType` is the JSON key `type` (a reserved word in Dafny). */
  datatype PlaceContent = PlaceContent(
    items: seq<PlaceChannelItem> := [],
    itemsType: string := "",
    contentType: string := "")

  datatype PlaceChannelsData = PlaceChannelsData(content: seq<PlaceContent> := [])

  /** `data` has no default: a place body without it does not decode. */
  datatype PlaceChannelsResponse = PlaceChannelsResponse(data: PlaceChannelsData)

  // ---------------------------------------------------------------------------------------
  // Parsed JSON objects: which declared keys are present, and with what value.

  datatype RefJson = RefJson(id: Option<string>, title: Option<string>)

  datatype ChannelDataJson = ChannelDataJson(
    title: Option<string>,
    url: Option<string>,
    website: Option<string>,
    place: Option<RefJson>,
    country: Option<RefJson>)

  datatype ChannelResponseJson = ChannelResponseJson(data: Option<ChannelDataJson>)

  datatype ChannelPageJson = ChannelPageJson(title: Option<string>, url: Option<string>)

  datatype PlaceChannelItemJson = PlaceChannelItemJson(
    href: Option<string>,
    title: Option<string>,
    page: Option<ChannelPageJson>)

  datatype PlaceContentJson = PlaceContentJson(
    items: Option<seq<PlaceChannelItemJson>>,
    itemsType: Option<string>,
    contentType: Option<string>)

  datatype PlaceChannelsDataJson = PlaceChannelsDataJson(content: Option<seq<PlaceContentJson>>)

  datatype PlaceChannelsResponseJson = PlaceChannelsResponseJson(data: Option<PlaceChannelsDataJson>)

  // ---------------------------------------------------------------------------------------
  // Decoding a parsed object: present values are kept, absent ones take the declared default.

  /** A string field read from an optional key: the key's value when present, `default` otherwise. */
  predicate KeyOrDefault(key: Option<string>, value: string, default: string) {
    (key.Some? ==> value == key.value) && (key.None? ==> value == default)
  }

  function DecodePlaceRef(j: RefJson): (r: PlaceRef)
    ensures KeyOrDefault(j.id, r.id, "") && KeyOrDefault(j.title, r.title, "")
  {
    var d := PlaceRef();
    PlaceRef(j.id.GetOr(d.id), j.title.GetOr(d.title))
  }

  function DecodeCountryRef(j: RefJson): (r: CountryRef)
    ensures KeyOrDefault(j.id, r.id, "") && KeyOrDefault(j.title, r.title, "")
  {
    var d := CountryRef();
    CountryRef(j.id.GetOr(d.id), j.title.GetOr(d.title))
  }

  function DecodeChannelData(j: ChannelDataJson): (r: ChannelData)
    ensures KeyOrDefault(j.title, r.title, "") && KeyOrDefault(j.url, r.url, "")
      && KeyOrDefault(j.website, r.website, "")
    ensures j.place.Some? ==> r.place == DecodePlaceRef(j.place.value)
    ensures j.place.None? ==> r.place == PlaceRef("", "")
    ensures j.country.Some? ==> r.country == DecodeCountryRef(j.country.value)
    ensures j.country.None? ==> r.country == CountryRef("", "")
  {
    var d := ChannelData();
    ChannelData(
      j.title.GetOr(d.title),
      j.url.GetOr(d.url),
      j.website.GetOr(d.website),
      if j.place.Some? then DecodePlaceRef(j.place.value) else d.place,
      if j.country.Some? then DecodeCountryRef(j.country.value) else d.country)
  }

  /** A channel body decodes exactly when its required `data` key is present. */
  function DecodeChannelResponse(j: ChannelResponseJson): (r: Option<ChannelResponse>)
    ensures r.Some? <==> j.data.Some?
    ensures r.Some? ==> r.value.data == DecodeChannelData(j.data.value)
  {
    if j.data.Some? then Some(ChannelResponse(DecodeChannelData(j.data.value))) else None
  }

  function DecodeChannelPage(j: ChannelPageJson): (r: ChannelPage)
    ensures KeyOrDefault(j.title, r.title, "") && KeyOrDefault(j.url, r.url, "")
  {
    var d := ChannelPage();
    ChannelPage(j.title.GetOr(d.title), j.url.GetOr(d.url))
  }

  function DecodePlaceChannelItem(j: PlaceChannelItemJson): (r: PlaceChannelItem)
    ensures KeyOrDefault(j.href, r.href, "") && KeyOrDefault(j.title, r.title, "")
    ensures j.page.Some? ==> r.page == DecodeChannelPage(j.page.value)
    ensures j.page.None? ==> r.page == ChannelPage("", "")
  {
    var d := PlaceChannelItem();
    PlaceChannelItem(
      j.href.GetOr(d.href),
      j.title.GetOr(d.title),
      if j.page.Some? then DecodeChannelPage(j.page.value) else d.page)
  }

  /** Decodes each element of a JSON array, keeping the order. */
  function DecodeItems(js: seq<PlaceChannelItemJson>): (r: seq<PlaceChannelItem>)
    ensures |r| == |js|
    ensures forall i | 0 <= i < |js| :: r[i] == DecodePlaceChannelItem(js[i])
  {
    seq(|js|, i requires 0 <= i < |js| => DecodePlaceChannelItem(js[i]))
  }

  function DecodePlaceContent(j: PlaceContentJson): (r: PlaceContent)
    ensures j.items.Some? ==> r.items == DecodeItems(j.items.value)
    ensures j.items.None? ==> r.items == []
    ensures KeyOrDefault(j.itemsType, r.itemsType, "") && KeyOrDefault(j.contentType, r.contentType, "")
  {
    var d := PlaceContent();
    PlaceContent(
      if j.items.Some? then DecodeItems(j.items.value) else d.items,
      j.itemsType.GetOr(d.itemsType),
      j.contentType.GetOr(d.contentType))
  }

  function DecodeContent(js: seq<PlaceContentJson>): (r: seq<PlaceContent>)
    ensures |r| == |js|
    ensures forall i | 0 <= i < |js| :: r[i] == DecodePlaceContent(js[i])
  {
    seq(|js|, i requires 0 <= i < |js| => DecodePlaceContent(js[i]))
  }

  function DecodePlaceChannelsData(j: PlaceChannelsDataJson): (r: PlaceChannelsData)
    ensures j.content.Some? ==> r.content == DecodeContent(j.content.value)
    ensures j.content.None? ==> r.content == []
  {
    var d := PlaceChannelsData();
    PlaceChannelsData(if j.content.Some? then DecodeContent(j.content.value) else d.content)
  }

  /** A place body decodes exactly when its required `data` key is present. */
  function DecodePlaceChannelsResponse(j: PlaceChannelsResponseJson): (r: Option<PlaceChannelsResponse>)
    ensures r.Some? <==> j.data.Some?
    ensures r.Some? ==> r.value.data == DecodePlaceChannelsData(j.data.value)
  {
    if j.data.Some? then Some(PlaceChannelsResponse(DecodePlaceChannelsData(j.data.value))) else None
  }

  // ---------------------------------------------------------------------------------------
  // Encoding every field (the object the service sends when nothing is omitted).

  function EncodePlaceRef(r: PlaceRef): RefJson { RefJson(Some(r.id), Some(r.title)) }

  function EncodeCountryRef(r: CountryRef): RefJson { RefJson(Some(r.id), Some(r.title)) }

  function EncodeChannelData(d: ChannelData): ChannelDataJson {
    ChannelDataJson(Some(d.title), Some(d.url), Some(d.website),
                    Some(EncodePlaceRef(d.place)), Some(EncodeCountryRef(d.country)))
  }

  function EncodeChannelPage(p: ChannelPage): ChannelPageJson {
    ChannelPageJson(Some(p.title), Some(p.url))
  }

  function EncodePlaceChannelItem(x: PlaceChannelItem): PlaceChannelItemJson {
    PlaceChannelItemJson(Some(x.href), Some(x.title), Some(EncodeChannelPage(x.page)))
  }

  function EncodePlaceContent(c: PlaceContent): PlaceContentJson {
    PlaceContentJson(
      Some(seq(|c.items|, i requires 0 <= i < |c.items| => EncodePlaceChannelItem(c.items[i]))),
      Some(c.itemsType),
      Some(c.contentType))
  }

  function EncodePlaceChannelsData(d: PlaceChannelsData): PlaceChannelsDataJson {
    PlaceChannelsDataJson(
      Some(seq(|d.content|, i requires 0 <= i < |d.content| => EncodePlaceContent(d.content[i]))))
  }

  // ---------------------------------------------------------------------------------------
  // What the defaults promise.

  /** Channel metadata lacking every optional key still decodes, with empty display strings. */
  lemma MissingMetadataIsEmpty(j: ChannelResponseJson)
    requires j.data == Some(ChannelDataJson(None, None, None, None, None))
    ensures DecodeChannelResponse(j).Some?
    ensures var d := DecodeChannelResponse(j).value.data;
      d.title == "" && d.url == "" && d.website == ""
      && d.place == PlaceRef("", "") && d.country == CountryRef("", "")
  {
  }

  /** A place body whose `data` lacks `content` decodes to no content blocks at all. */
  lemma MissingContentIsEmpty(j: PlaceChannelsResponseJson)
    requires j.data == Some(PlaceChannelsDataJson(None))
    ensures DecodePlaceChannelsResponse(j) == Some(PlaceChannelsResponse(PlaceChannelsData([])))
  {
  }

  /** A content block lacking `itemsType` gets the empty tag and no items. */
  lemma MissingBlockFieldsAreEmpty(j: PlaceContentJson)
    requires j.items.None? && j.itemsType.None?
    ensures DecodePlaceContent(j).items == [] && DecodePlaceContent(j).itemsType == ""
  {
  }

  /** An item lacking `page` gets a page whose url is empty, whatever its href and title. */
  lemma MissingPageHasEmptyUrl(j: PlaceChannelItemJson)
    requires j.page.None?
    ensures DecodePlaceChannelItem(j).page.url == ""
    ensures DecodePlaceChannelItem(j).href == j.href.GetOr("")
  {
  }

  /** Decoding a fully populated channel object gives back the data it was made from. */
  lemma ChannelDataRoundTrip(d: ChannelData)
    ensures DecodeChannelData(EncodeChannelData(d)) == d
  {
  }

  /** Decoding a fully populated place object gives back the blocks and items it was made from. */
  lemma PlaceChannelsDataRoundTrip(d: PlaceChannelsData)
    ensures DecodePlaceChannelsData(EncodePlaceChannelsData(d)) == d
  {
    var r := DecodePlaceChannelsData(EncodePlaceChannelsData(d));
    assert |r.content| == |d.content|;
    forall i | 0 <= i < |d.content|
      ensures r.content[i] == d.content[i]
    {
      var c := d.content[i];
      var back := DecodePlaceContent(EncodePlaceContent(c));
      assert back.items == c.items;
    }
  }
}
