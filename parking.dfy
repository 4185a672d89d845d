/**
 * The ParkingPanda answer: the capability-dependent price formatter, the
 * per-location normaliser and the response callback registered as
 * ddg_spice_parking (share/spice/parking/parking.js).
 */
module Parking {
  import opened Wrappers
  import opened ToFixed
  import opened UpperCase

  // ---------------------------------------------------------------------------
  // The environment the closure captures

  /**
   * What the page supplies to the formatter: the verdict of the Intl
   * capability probe, the browser's language list, and Intl.NumberFormat
   * configured for currency style with exactly two fraction digits, taken as
   * an uninterpreted formatter of (locales, ISO 4217 code, amount in cents).
   */
  datatype Runtime = Runtime(
    canUseIntl: bool,
    userLanguage: seq<string>,
    intlFormat: (seq<string>, string, int) -> string)

  // ---------------------------------------------------------------------------
  // The raw location record

  datatype Image = Image(imagePath: string, imagePathMedium: string)

  /**
   * item.price: the unformatted amount delivered by the API (held as cents),
   * or the display string that normalize writes over it.
   */
  datatype PriceField = Amount(cents: int) | Text(shown: string)

  /**
   * One entry of data.locations.  normalize writes only `price`, so every
   * other field is a constant.  A null entry of `images` is None.
   */
  class Location {
    const displayName: string
    const affiliateUrl: string
    const distanceString: string
    const description: string
    const currencyFormatted: string
    const images: seq<Option<Image>>
    var price: PriceField
  }

  /** item.images[0], or None when it is missing or null. */
  function FirstImage(images: seq<Option<Image>>): (r: Option<Image>)
    ensures r.Some? <==> |images| > 0 && images[0].Some?
    ensures r.Some? ==> r == images[0]
  {
    if |images| == 0 then None else images[0]
  }

  // ---------------------------------------------------------------------------
  // priceFormatter

  /** The fallback's display prefix, reassigned in the order the source does it. */
  function CurrencyPrefix(code: string): (prefix: string)
    ensures ToUpperCase(code) == "USD" ==> prefix == "$"
    ensures ToUpperCase(code) == "CAD" ==> prefix == "CA$"
    ensures ToUpperCase(code) != "USD" && ToUpperCase(code) != "CAD" ==> prefix == ToUpperCase(code)
  {
    var upper := ToUpperCase(code);
    var afterUsd := if upper == "USD" then "$" else upper;
    if afterUsd == "CAD" then "CA$" else afterUsd
  }

  /** The price string priceFormatter returns for an amount and currency code. */
  function FormatPrice(rt: Runtime, cents: int, code: string): string
  {
    if rt.canUseIntl then rt.intlFormat(rt.userLanguage, code, cents)
    else CurrencyPrefix(code) + FixedTwo(cents)
  }

  /** priceFormatter(item): reads item.price and item.currencyFormatted. */
  method PriceFormatter(rt: Runtime, item: Location) returns (s: string)
    requires item.price.Amount?
    ensures s == FormatPrice(rt, item.price.cents, item.currencyFormatted)
    ensures rt.canUseIntl ==> s == rt.intlFormat(rt.userLanguage, item.currencyFormatted, item.price.cents)
    ensures !rt.canUseIntl ==> s == CurrencyPrefix(item.currencyFormatted) + FixedTwo(item.price.cents)
  {
    if rt.canUseIntl {
      s := rt.intlFormat(rt.userLanguage, item.currencyFormatted, item.price.cents);
    } else {
      var prefix := ToUpperCase(item.currencyFormatted);
      if prefix == "USD" {
        prefix := "$";
      }
      if prefix == "CAD" {
        prefix := "CA$";
      }
      s := prefix + FixedTwo(item.price.cents);
    }
  }

  // ---------------------------------------------------------------------------
  // normalize

  /** The flat record the host renders: a list/card facet and a detail facet. */
  datatype NormalizedItem = NormalizedItem(
    title: string, url: string, description: string, image: string,
    heading: string, subtitle: string, price: string, img_m: string,
    buttonUrl: string, abstractText: string,
    img: string)

  const DetailPricePrefix: string := "Starting at "
  const CardSeparator: string := " | "

  /** What normalize may be called on: a location it keeps still holds its unformatted amount. */
  predicate Normalizable(item: Location)
    reads item
  {
    FirstImage(item.images).Some? ==> item.price.Amount?
  }

  /** The record built from a location with a first image, around the formatted price p. */
  function Project(item: Location, p: string): NormalizedItem
    requires FirstImage(item.images).Some?
  {
    var first := FirstImage(item.images).value;
    NormalizedItem(
      title := item.displayName,
      url := item.affiliateUrl,
      description := item.distanceString + CardSeparator + p + "+",
      image := first.imagePathMedium,
      heading := item.displayName,
      subtitle := item.distanceString,
      price := DetailPricePrefix + p,
      img_m := first.imagePath,
      buttonUrl := item.affiliateUrl,
      abstractText := item.description,
      img := first.imagePath)
  }

  /** What normalize(item) returns when item.price holds `price`. */
  function NormalizeOf(rt: Runtime, item: Location, price: PriceField): (r: Option<NormalizedItem>)
    requires FirstImage(item.images).Some? ==> price.Amount?
    ensures r.None? <==> FirstImage(item.images).None?
  {
    if FirstImage(item.images).None? then None
    else Some(Project(item, FormatPrice(rt, price.cents, item.currencyFormatted)))
  }

  /**
   * normalize(item): drops a location without a first image and leaves it
   * untouched; otherwise overwrites item.price with the formatted price and
   * returns the flat record.
   */
  method Normalize(rt: Runtime, item: Location) returns (r: Option<NormalizedItem>)
    requires Normalizable(item)
    modifies item
    ensures r == NormalizeOf(rt, item, old(item.price))
    ensures r.None? ==> item.price == old(item.price)
    ensures r.Some? ==> item.price == Text(FormatPrice(rt, old(item.price).cents, item.currencyFormatted))
  {
    if FirstImage(item.images).None? {
      return None;
    }
    var p := PriceFormatter(rt, item);
    item.price := Text(p);
    var first := FirstImage(item.images).value;
    r := Some(NormalizedItem(
      title := item.displayName,
      url := item.affiliateUrl,
      description := item.distanceString + " | " + item.price.shown + "+",
      image := first.imagePathMedium,
      heading := item.displayName,
      subtitle := item.distanceString,
      price := "Starting at " + item.price.shown,
      img_m := first.imagePath,
      buttonUrl := item.affiliateUrl,
      abstractText := item.description,
      img := first.imagePath));
  }

  // ---------------------------------------------------------------------------
  // ddg_spice_parking

  datatype Search = Search(displayText: string, query: string)
  datatype ResultData = ResultData(search: Search, locations: seq<Location>)
  datatype ApiResult = ApiResult(success: bool, resultsCount: int, data: ResultData)

  datatype Meta = Meta(primaryText: string, sourceName: string, sourceUrl: string)
  datatype TemplateOptions = TemplateOptions(detail: bool, brand: bool, rating: bool, moreAt: bool, priceAndBrand: bool)
  datatype Templates = Templates(group: string, item: string, itemDetail: string, options: TemplateOptions)

  /** The call made to the host: Spice.failed(id) or Spice.add({...}). */
  datatype Directive =
    | Failed(id: string)
    | Rendered(id: string, name: string, data: seq<Location>, meta: Meta, templates: Templates)

  const AnswerId: string := "parking"
  const PrimaryTextPrefix: string := "Parking Near: "
  const SourceName: string := "ParkingPanda.com"
  const SearchUrlPrefix: string := "https://www.parkingpanda.com/Search/?ref=duckduck&location="
  const ParkingTemplates: Templates :=
    Templates("products", "basic_image_item", "products_item_detail",
              TemplateOptions(detail := false, brand := false, rating := false, moreAt := true, priceAndBrand := false))

  /** Whether the callback gives up on the response. */
  predicate Rejects(api: ApiResult) {
    !api.success || api.resultsCount == 0
  }

  /** ddg_spice_parking(api_result): the directive it hands to the host. */
  function DdgSpiceParking(api: ApiResult): (d: Directive)
    ensures d.Failed? <==> (!api.success || api.resultsCount == 0)
    ensures d.Failed? ==> d.id == "parking"
    ensures d.Rendered? ==> d.id == "parking" && d.name == "Parking" && d.data == api.data.locations
  {
    if Rejects(api) then Failed(AnswerId)
    else Rendered(AnswerId, "Parking", api.data.locations,
                  Meta(PrimaryTextPrefix + api.data.search.displayText, SourceName,
                       SearchUrlPrefix + api.data.search.query),
                  ParkingTemplates)
  }

  // ---------------------------------------------------------------------------
  // The host's side: apply normalize to every location, keep the non-null results

  /** What normalize returns for each location, read on the state before the host starts. */
  function Outcomes(rt: Runtime, locations: seq<Location>): (r: seq<Option<NormalizedItem>>)
    requires forall i :: 0 <= i < |locations| ==> Normalizable(locations[i])
    reads locations
    ensures |r| == |locations|
  {
    if locations == [] then []
    else
      assert Normalizable(locations[0]);
      [NormalizeOf(rt, locations[0], locations[0].price)] + Outcomes(rt, locations[1..])
  }

  /** The i-th outcome is normalize's result for the i-th location. */
  lemma {:induction false} OutcomesAt(rt: Runtime, locations: seq<Location>, i: nat)
    requires forall j :: 0 <= j < |locations| ==> Normalizable(locations[j])
    requires i < |locations|
    ensures Normalizable(locations[i])
    ensures Outcomes(rt, locations)[i] == NormalizeOf(rt, locations[i], locations[i].price)
    decreases i
  {
    assert Normalizable(locations[i]);
    if i > 0 {
      OutcomesAt(rt, locations[1..], i - 1);
      assert locations[1..][i - 1] == locations[i];
    }
  }

  /** The host's discarding of null results, keeping the rest in order. */
  function Survivors<T>(outcomes: seq<Option<T>>): (kept: seq<T>)
    ensures |kept| <= |outcomes|
  {
    if outcomes == [] then []
    else (if outcomes[0].Some? then [outcomes[0].value] else []) + Survivors(outcomes[1..])
  }

  /** The records the host collects from `data` with `normalize`, in order. */
  function HostItems(rt: Runtime, locations: seq<Location>): (items: seq<NormalizedItem>)
    requires forall i :: 0 <= i < |locations| ==> Normalizable(locations[i])
    reads locations
    ensures |items| <= |locations|
  {
    Survivors(Outcomes(rt, locations))
  }

  // ---------------------------------------------------------------------------
  // Properties of the price formatter

  /** The fallback prefix depends only on the upper-cased code: "usd" reads as "USD". */
  lemma PrefixIgnoresCase(code: string)
    ensures CurrencyPrefix(ToUpperCase(code)) == CurrencyPrefix(code)
  {
  }

  /**
   * The symbol table is not one-to-one: "$" comes from USD in any case and
   * from the code "$" itself, "CA$" from CAD and from "CA$".
   */
  lemma PrefixSymbols(code: string)
    ensures CurrencyPrefix(code) == "$" <==> ToUpperCase(code) == "USD" || ToUpperCase(code) == "$"
    ensures CurrencyPrefix(code) == "CA$" <==> ToUpperCase(code) == "CAD" || ToUpperCase(code) == "CA$"
  {
  }

  /**
   * Without Intl the price is the prefix followed by a toFixed(2) rendering
   * of the amount, from which the amount can be read back.
   */
  lemma FallbackFormat(rt: Runtime, cents: int, code: string)
    requires !rt.canUseIntl
    ensures var s := FormatPrice(rt, cents, code); var n := |CurrencyPrefix(code)|;
      && |s| >= n
      && s[..n] == CurrencyPrefix(code)
      && FixedTwoShape(s[n..])
      && ParseFixedTwo(s[n..]) == Some(cents)
  {
    var s := FormatPrice(rt, cents, code);
    var n := |CurrencyPrefix(code)|;
    assert s[n..] == FixedTwo(cents);
    FixedTwoRoundTrip(cents);
  }

  /** 12.5 in USD, in either case, shows as "$12.50". */
  lemma FallbackUsdExample(rt: Runtime)
    requires !rt.canUseIntl
    ensures FormatPrice(rt, 1250, "USD") == "$12.50"
    ensures FormatPrice(rt, 1250, "usd") == "$12.50"
  {
  }

  /** 7 in CAD shows as "CA$7.00". */
  lemma FallbackCadExample(rt: Runtime)
    requires !rt.canUseIntl
    ensures FormatPrice(rt, 700, "CAD") == "CA$7.00"
  {
  }

  /** Any other code is its own prefix: 3.4 in EUR shows as "EUR3.40". */
  lemma FallbackOtherExample(rt: Runtime)
    requires !rt.canUseIntl
    ensures FormatPrice(rt, 340, "EUR") == "EUR3.40"
  {
  }

  // ---------------------------------------------------------------------------
  // Properties of normalize

  /** The copies normalize makes from the location and its first image. */
  lemma NormalizeProjection(rt: Runtime, item: Location, price: PriceField)
    requires FirstImage(item.images).Some? && price.Amount?
    ensures var r := NormalizeOf(rt, item, price);
      && r.Some?
      && r.value.title == item.displayName && r.value.heading == item.displayName
      && r.value.url == item.affiliateUrl && r.value.buttonUrl == item.affiliateUrl
      && r.value.subtitle == item.distanceString
      && r.value.abstractText == item.description
      && r.value.image == item.images[0].value.imagePathMedium
      && r.value.img_m == item.images[0].value.imagePath
      && r.value.img == item.images[0].value.imagePath
  {
  }

  /** The formatted price a record shows in its detail facet. */
  function DetailPrice(n: NormalizedItem): string
  {
    if |n.price| >= |DetailPricePrefix| then n.price[|DetailPricePrefix|..] else n.price
  }

  /**
   * The two facets of a record agree: same name, same link, same image, and
   * the card's description shows the very price the detail facet shows.
   */
  predicate FacetsAgree(n: NormalizedItem)
  {
    && |n.price| >= |DetailPricePrefix|
    && n.price[..|DetailPricePrefix|] == DetailPricePrefix
    && n.description == n.subtitle + CardSeparator + DetailPrice(n) + "+"
    && n.title == n.heading
    && n.url == n.buttonUrl
    && n.img == n.img_m
  }

  /** Every record normalize builds has agreeing facets around the formatted price. */
  lemma NormalizedFacetsAgree(rt: Runtime, item: Location, price: PriceField)
    requires FirstImage(item.images).Some? && price.Amount?
    ensures var r := NormalizeOf(rt, item, price);
      && r.Some?
      && FacetsAgree(r.value)
      && DetailPrice(r.value) == FormatPrice(rt, price.cents, item.currencyFormatted)
  {
  }

  /**
   * Without Intl the amount is recoverable from the detail price: after
   * "Starting at " and the currency prefix comes its toFixed(2) rendering.
   */
  lemma DetailPriceShowsAmount(rt: Runtime, item: Location, price: PriceField)
    requires !rt.canUseIntl
    requires FirstImage(item.images).Some? && price.Amount?
    ensures var n := NormalizeOf(rt, item, price).value;
      var k := |DetailPricePrefix| + |CurrencyPrefix(item.currencyFormatted)|;
      && |n.price| >= k
      && ParseFixedTwo(n.price[k..]) == Some(price.cents)
  {
    var n := NormalizeOf(rt, item, price).value;
    var prefix := CurrencyPrefix(item.currencyFormatted);
    var k := |DetailPricePrefix| + |prefix|;
    assert n.price == DetailPricePrefix + prefix + FixedTwo(price.cents);
    assert n.price[k..] == FixedTwo(price.cents);
    FixedTwoRoundTrip(price.cents);
  }

  // ---------------------------------------------------------------------------
  // Properties of the host's collection

  /** Discarding nulls distributes over concatenation: input order is kept. */
  lemma {:induction false} SurvivorsAppend<T>(a: seq<Option<T>>, b: seq<Option<T>>)
    ensures Survivors(a + b) == Survivors(a) + Survivors(b)
    decreases |a|
  {
    if a == [] {
      assert a + b == b;
    } else {
      assert (a + b)[0] == a[0];
      assert (a + b)[1..] == a[1..] + b;
      SurvivorsAppend(a[1..], b);
    }
  }

  /** A value survives exactly when some outcome carries it. */
  lemma {:induction false} SurvivorsMembers<T>(outcomes: seq<Option<T>>, x: T)
    ensures x in Survivors(outcomes) <==> Some(x) in outcomes
    decreases |outcomes|
  {
    if outcomes != [] {
      SurvivorsMembers(outcomes[1..], x);
      assert outcomes == [outcomes[0]] + outcomes[1..];
    }
  }

  /** A sequence with no Some survives as nothing. */
  lemma {:induction false} SurvivorsOfNone<T>(outcomes: seq<Option<T>>)
    requires forall i :: 0 <= i < |outcomes| ==> outcomes[i].None?
    ensures Survivors(outcomes) == []
    decreases |outcomes|
  {
    if outcomes != [] {
      SurvivorsOfNone(outcomes[1..]);
    }
  }

  /**
   * A record is collected exactly when it is what normalize returns for one
   * of the locations; a location without a first image contributes nothing.
   */
  lemma HostItemsMembers(rt: Runtime, locations: seq<Location>, n: NormalizedItem)
    requires forall i :: 0 <= i < |locations| ==> Normalizable(locations[i])
    ensures n in HostItems(rt, locations) <==>
      exists i :: 0 <= i < |locations| && FirstImage(locations[i].images).Some? &&
        NormalizeOf(rt, locations[i], locations[i].price) == Some(n)
  {
    var outcomes := Outcomes(rt, locations);
    SurvivorsMembers(outcomes, n);
    if Some(n) in outcomes {
      var i :| 0 <= i < |outcomes| && outcomes[i] == Some(n);
      OutcomesAt(rt, locations, i);
    }
    if exists i :: 0 <= i < |locations| && FirstImage(locations[i].images).Some? &&
        NormalizeOf(rt, locations[i], locations[i].price) == Some(n) {
      var i :| 0 <= i < |locations| && FirstImage(locations[i].images).Some? &&
        NormalizeOf(rt, locations[i], locations[i].price) == Some(n);
      OutcomesAt(rt, locations, i);
      assert outcomes[i] == Some(n);
    }
  }

  /** The ordering scenario: [A without image, B, C] collects to [B', C']. */
  lemma HostItemsOrder(rt: Runtime, a: Location, b: Location, c: Location)
    requires FirstImage(a.images).None?
    requires FirstImage(b.images).Some? && b.price.Amount?
    requires FirstImage(c.images).Some? && c.price.Amount?
    ensures HostItems(rt, [a, b, c]) ==
      [NormalizeOf(rt, b, b.price).value, NormalizeOf(rt, c, c.price).value]
  {
    var rb := NormalizeOf(rt, b, b.price);
    var rc := NormalizeOf(rt, c, c.price);
    var outcomes := Outcomes(rt, [a, b, c]);
    OutcomesAt(rt, [a, b, c], 0);
    OutcomesAt(rt, [a, b, c], 1);
    OutcomesAt(rt, [a, b, c], 2);
    assert outcomes == [None, rb, rc];
    SurvivorsSkipsFirst(rb.value, rc.value);
  }

  lemma SurvivorsSkipsFirst<T>(y: T, z: T)
    ensures Survivors([None, Some(y), Some(z)]) == [y, z]
  {
    var s := [None, Some(y), Some(z)];
    assert s[1..] == [Some(y), Some(z)];
    assert s[1..][1..] == [Some(z)];
    assert s[1..][1..][1..] == [];
    assert Survivors([Some(z)]) == [z];
    assert Survivors([Some(y), Some(z)]) == [y] + Survivors([Some(z)]);
  }

  // ---------------------------------------------------------------------------
  // Properties of ddg_spice_parking

  /** A rejected response yields Spice.failed('parking') whatever else it holds. */
  lemma RejectionIgnoresPayload(a: ApiResult, b: ApiResult)
    requires !a.success || a.resultsCount == 0
    requires !b.success || b.resultsCount == 0
    ensures DdgSpiceParking(a) == DdgSpiceParking(b) == Failed("parking")
  {
  }

  /**
   * On success the heading and the source link are fixed texts followed by
   * the search's display text and its query, verbatim (no escaping): both
   * can be read back from the metadata.
   */
  lemma RenderedMeta(api: ApiResult)
    requires api.success && api.resultsCount != 0
    ensures var m := DdgSpiceParking(api).meta;
      && m.sourceName == "ParkingPanda.com"
      && |m.primaryText| >= |PrimaryTextPrefix|
      && m.primaryText[..|PrimaryTextPrefix|] == "Parking Near: "
      && m.primaryText[|PrimaryTextPrefix|..] == api.data.search.displayText
      && |m.sourceUrl| >= |SearchUrlPrefix|
      && m.sourceUrl[..|SearchUrlPrefix|] == "https://www.parkingpanda.com/Search/?ref=duckduck&location="
      && m.sourceUrl[|SearchUrlPrefix|..] == api.data.search.query
  {
  }

  /** Distinct queries give distinct source links. */
  lemma SourceUrlInjective(a: ApiResult, b: ApiResult)
    requires a.success && a.resultsCount != 0
    requires b.success && b.resultsCount != 0
    requires DdgSpiceParking(a).meta.sourceUrl == DdgSpiceParking(b).meta.sourceUrl
    ensures a.data.search.query == b.data.search.query
  {
    RenderedMeta(a);
    RenderedMeta(b);
  }

  /** A successful response whose locations all lack images is still rendered, with no records. */
  lemma RenderedWithoutRecords(rt: Runtime, api: ApiResult)
    requires api.success && api.resultsCount != 0
    requires forall i :: 0 <= i < |api.data.locations| ==> FirstImage(api.data.locations[i].images).None?
    ensures DdgSpiceParking(api).Rendered?
    ensures forall i :: 0 <= i < |api.data.locations| ==> Normalizable(api.data.locations[i])
    ensures HostItems(rt, DdgSpiceParking(api).data) == []
  {
    var outcomes := Outcomes(rt, api.data.locations);
    forall i | 0 <= i < |outcomes| ensures outcomes[i].None? {
      OutcomesAt(rt, api.data.locations, i);
    }
    SurvivorsOfNone(outcomes);
  }

  /** The record expected for the end-to-end location. */
  const LotOneRecord: NormalizedItem := NormalizedItem(
    title := "Lot 1", url := "http://x", description := "0.2 mi | $10.00+", image := "b.jpg",
    heading := "Lot 1", subtitle := "0.2 mi", price := "Starting at $10.00", img_m := "a.jpg",
    buttonUrl := "http://x", abstractText := "desc", img := "a.jpg")

  /** normalize on the end-to-end location: a 10 USD lot with one image, without Intl. */
  lemma EndToEndRecord(rt: Runtime, lot: Location)
    requires !rt.canUseIntl
    requires lot.displayName == "Lot 1" && lot.affiliateUrl == "http://x"
    requires lot.distanceString == "0.2 mi" && lot.description == "desc"
    requires lot.price == Amount(1000) && lot.currencyFormatted == "USD"
    requires lot.images == [Some(Image("a.jpg", "b.jpg"))]
    ensures NormalizeOf(rt, lot, lot.price) == Some(LotOneRecord)
  {
    var p := FormatPrice(rt, 1000, "USD");
    assert p == "$10.00" by {
      assert NatToDecimal(10) == "10" by { assert NatToDecimal(1) == "1"; }
      assert FixedTwo(1000) == "10.00";
      assert ToUpperCase("USD") == "USD";
    }
    var first := FirstImage(lot.images).value;
    assert first == Image("a.jpg", "b.jpg");
    assert lot.distanceString + CardSeparator + p + "+" == "0.2 mi | $10.00+";
    assert DetailPricePrefix + p == "Starting at $10.00";
  }

  /** The end-to-end response: one priced USD location, without Intl. */
  lemma EndToEnd(rt: Runtime, api: ApiResult, lot: Location)
    requires !rt.canUseIntl
    requires api.success && api.resultsCount == 1
    requires api.data.search == Search("Downtown", "dt")
    requires api.data.locations == [lot]
    requires lot.displayName == "Lot 1" && lot.affiliateUrl == "http://x"
    requires lot.distanceString == "0.2 mi" && lot.description == "desc"
    requires lot.price == Amount(1000) && lot.currencyFormatted == "USD"
    requires lot.images == [Some(Image("a.jpg", "b.jpg"))]
    ensures var d := DdgSpiceParking(api);
      && d.Rendered?
      && d.meta.primaryText == "Parking Near: Downtown"
      && d.meta.sourceUrl == "https://www.parkingpanda.com/Search/?ref=duckduck&location=dt"
      && HostItems(rt, d.data) == [LotOneRecord]
  {
    EndToEndRecord(rt, lot);
    var outcomes := Outcomes(rt, [lot]);
    OutcomesAt(rt, [lot], 0);
    assert outcomes == [Some(LotOneRecord)];
    assert outcomes[1..] == [];
  }
}
