/** The token header: display fields derived from the optional token record
    (with "Loading..." placeholders), the avatar choice, the Basescan link,
    and the price state the effect fills in from the record. */
module TokenDataHeader {
  import opened Common

  datatype Volume = Volume(h24: string)

  /** The token record the header reads; optional fields may be missing. */
  datatype TokenData = TokenData(
    address: Option<string>,
    name: Option<string>,
    symbol: Option<string>,
    imageUrl: Option<string>,
    imgUrl: Option<string>,
    priceUsd: string,
    marketCapUsd: Option<string>,
    volumeUsd: Volume)

  const LoadingText: string := "Loading..."
  const MissingImage: string := "missing.png"
  const BasescanPrefix: string := "https://basescan.org/address/"

  /** `tokenData?.address || ""`. */
  function ContractAddress(td: Option<TokenData>): (r: string)
    ensures td.None? ==> r == ""
    ensures td.Some? && Truthy(td.value.address) ==> r == td.value.address.value
    ensures r == "" <==> td.None? || !Truthy(td.value.address)
  {
    if td.None? then "" else OrElse(td.value.address, "")
  }

  /** `tokenData?.name || "Loading..."`: never empty. */
  function DisplayName(td: Option<TokenData>): (r: string)
    ensures r != ""
    ensures td.Some? && Truthy(td.value.name) ==> r == td.value.name.value
    ensures !(td.Some? && Truthy(td.value.name)) ==> r == LoadingText
  {
    if td.None? then LoadingText else OrElse(td.value.name, LoadingText)
  }

  /** `tokenData?.symbol || ""`. */
  function Symbol(td: Option<TokenData>): (r: string)
    ensures td.None? ==> r == ""
    ensures td.Some? && Truthy(td.value.symbol) ==> r == td.value.symbol.value
    ensures r == "" <==> td.None? || !Truthy(td.value.symbol)
  {
    if td.None? then "" else OrElse(td.value.symbol, "")
  }

  /** `image_url` unless empty or "missing.png", else `img_url || null`. */
  function Image(td: Option<TokenData>): (r: Option<string>)
    ensures td.None? ==> r.None?
    ensures r.Some? ==> r.value != ""
    ensures td.Some? && Truthy(td.value.imageUrl) && td.value.imageUrl.value != MissingImage ==>
              r == td.value.imageUrl
    ensures td.Some? && !(Truthy(td.value.imageUrl) && td.value.imageUrl.value != MissingImage) ==>
              (r.Some? <==> Truthy(td.value.imgUrl)) && (r.Some? ==> r == td.value.imgUrl)
  {
    if td.None? then None
    else if Truthy(td.value.imageUrl) && td.value.imageUrl.value != MissingImage then td.value.imageUrl
    else if Truthy(td.value.imgUrl) then td.value.imgUrl
    else None
  }

  /** "missing.png" in `image_url` is never shown; it is only shown when it
      comes from `img_url`, which is not checked. */
  lemma MissingImageOnlyFromFallback(td: Option<TokenData>)
    requires Image(td) == Some(MissingImage)
    ensures td.Some? && td.value.imgUrl == Some(MissingImage)
  {
  }

  /** `name.charAt(0)`. */
  function FirstChar(s: string): string {
    if s == "" then "" else [s[0]]
  }

  /** The avatar: the image when there is one, else a fallback showing the
      first character of the displayed name. */
  datatype Avatar = AvatarImage(src: string) | AvatarFallback(initial: string)

  function AvatarOf(td: Option<TokenData>): (a: Avatar)
    ensures a.AvatarImage? <==> Image(td).Some?
    ensures a.AvatarImage? ==> a.src == Image(td).value
    ensures a.AvatarFallback? ==> |a.initial| == 1 && a.initial[0] == DisplayName(td)[0]
  {
    var image := Image(td);
    if image.Some? then AvatarImage(image.value) else AvatarFallback(FirstChar(DisplayName(td)))
  }

  /** With no token record the header shows placeholders and an "L" avatar. */
  lemma NoTokenPlaceholders()
    ensures ContractAddress(None) == "" && Symbol(None) == ""
    ensures DisplayName(None) == LoadingText
    ensures AvatarOf(None) == AvatarFallback("L")
    ensures BasescanUrl(ContractAddress(None)) == BasescanPrefix
  {
  }

  /** The link opened by `handleOpenBasescan`. */
  function BasescanUrl(contractAddress: string): (url: string)
    ensures StartsWith(url, BasescanPrefix) && url[|BasescanPrefix|..] == contractAddress
  {
    BasescanPrefix + contractAddress
  }

  /** Different addresses open different Basescan pages. */
  lemma BasescanUrlIdentifiesAddress(a: string, b: string)
    ensures BasescanUrl(a) == BasescanUrl(b) <==> a == b
  {
    PrefixCancel(BasescanPrefix, a, b);
  }

  /** The header component's state. */
  class TokenHeader {
    var tokenPrice: Option<string>
    var marketCap: Option<string>
    var priceChange: Option<string>
    /** Declared with `useState(null)` but never given a setter. */
    const fetchError: Option<string> := None

    constructor ()
      ensures tokenPrice.None? && marketCap.None? && priceChange.None?
      ensures fetchError.None?
    {
      tokenPrice := None;
      marketCap := None;
      priceChange := None;
    }

    /** The effect on `tokenData`. `formatMarketCap` stands for
        `formatNumber(parseFloat(…))`, which is not part of this model. */
    method OnTokenData(td: Option<TokenData>, formatMarketCap: string -> string)
      modifies this
      ensures td.None? ==> tokenPrice == old(tokenPrice) && marketCap == old(marketCap)
                           && priceChange == old(priceChange)
      ensures td.Some? ==> tokenPrice == Some(td.value.priceUsd)
      ensures td.Some? ==> priceChange == Some(td.value.volumeUsd.h24)
      ensures td.Some? ==> marketCap == if Truthy(td.value.marketCapUsd)
                                        then Some(formatMarketCap(td.value.marketCapUsd.value))
                                        else None
    {
      if td.Some? {
        tokenPrice := Some(td.value.priceUsd);
        marketCap := if Truthy(td.value.marketCapUsd)
                     then Some(formatMarketCap(td.value.marketCapUsd.value))
                     else None;
        priceChange := Some(td.value.volumeUsd.h24);
      }
    }

    /** The market cap line: "$" and the value, or "Loading..." while unset or empty. */
    function MarketCapText(): (t: string)
      reads this
      ensures !Truthy(marketCap) ==> t == LoadingText
      ensures Truthy(marketCap) ==> t == "$" + marketCap.value
    {
      if Truthy(marketCap) then "$" + marketCap.value else LoadingText
    }

    /** The price line: "$" and the price once set (even if empty), else a space. */
    function PriceText(): (t: string)
      reads this
      ensures tokenPrice.None? ==> t == " "
      ensures tokenPrice.Some? ==> t == "$" + tokenPrice.value
    {
      if tokenPrice.Some? then "$" + tokenPrice.value else " "
    }

    /** The price change line: the scaled percentage once set and non-empty,
        else "0% ". `scaledPercent` stands for `(parseFloat(…) / 1000).toFixed(2)`,
        which is not part of this model. */
    function PriceChangeText(scaledPercent: string -> string): (t: string)
      reads this
      ensures !Truthy(priceChange) ==> t == "0% "
      ensures Truthy(priceChange) ==> t == scaledPercent(priceChange.value) + "%"
    {
      if Truthy(priceChange) then scaledPercent(priceChange.value) + "%" else "0% "
    }

    /** The error element: rendered only when `fetchError` is set, which never happens. */
    function ErrorElement(): (e: Option<string>)
      reads this
      ensures e.None?
    {
      if Truthy(fetchError) then fetchError else None
    }
  }
}
