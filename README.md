# nounspace explore, token header, video picker and fidget preview — a Dafny model

This project models the small amount of logic that sits under the React views
of five components of the nounspace front end. It models their
behaviour as written in TypeScript and proves properties about it.

- **Fidget preview** (`FidgetViewer`): the module's field schema is folded left
  into a settings map. The rule is `f.default || null`: a falsy default (`false`,
  `0`, `""`) or an absent one becomes null, and a later field with the same name
  overwrites an earlier one. The initial configuration is editable and carries the
  module's `editConfig` and the fidget's name as `id`. A save replaces
  `instanceConfig` wholesale, keeps `id` and `editConfig`, and returns `true`.
- **Video selector** (`VideoSelector`): this component holds two state fields,
  the selected video and the active source (YouTube or wallet). A selection sets
  the video and reports the URL both to the caller's `onVideoSelect` and as a
  MUSIC_UPDATED analytics event. Both calls are recorded as sequences in the state.
  `formatIpfsUrl` has three cases:
  - an empty or absent input gives `""`;
  - an input starting with `ipfs` gives the Pinata gateway prefix followed by
    `split("://")[1]`;
  - anything else is returned unchanged.
- **Explore pages** (`src/pages/explore`, `src/app/explore`): lodash `groupBy` is
  modelled on posts. Each group holds the posts of one category in input order.
  The `CategoriesGrid` walks the fixed `categories` list in order and skips a
  category that has no group. Each `ExploreCard` links to `/s/{slug}` and tracks
  CLICK_EXPLORE_CARD with that slug.
  - The pages-router version adds the token feed. Its list is replaced wholesale
    on each fetch. Each token card has a three-way price direction, the
    "Anon deployer" rule, an image fallback chain and a `/t/base/{address}` link.
    The default tab is "tokens".
  - The app-router version keys on `post?.category`, so a missing entry lands in
    the group "undefined", which is never rendered. Both of its tabs show the same
    grid, and its default tab is "spaces".
- **Token header** (`TokenDataHeader`): these fields are derived from the
  optional token record:
  - the contract address, the name (which falls back to "Loading..."), and the symbol;
  - the image, which rejects an empty `image_url` or `"missing.png"` and falls
    back to `img_url` or null;
  - the avatar fallback initial;
  - the Basescan link.

  The state fields `tokenPrice`, `marketCap` and `priceChange` start null. The
  effect fills them from the record: `priceChange` receives `volume_usd.h24`,
  and `marketCap` stays null when `market_cap_usd` is falsy. `fetchError` is
  never set.

Files: `common.dfy` (Option, truthiness, analytics events, decimal rendering),
`fidget_viewer.dfy`, `video_selector.dfy`, `explore_grouping.dfy` (the part both
explore pages share), `pages_explore.dfy`, `app_explore.dfy`,
`token_data_header.dfy`.

Some behaviour follows the code rather than the written design:
- `formatIpfsUrl` on an `ipfs…` input that contains no `://` produces the
  gateway prefix followed by the text `undefined`, because `split("://")[1]` is
  `undefined` there (`VideoSelector.IpfsWithoutSeparator`). Only the segment
  between the first and the second `://` is kept, whatever follows `ipfs`
  before the first `://` (`VideoSelector.FormatIpfsUrl`,
  `VideoSelector.SecondPieceDetermined`).
- The header's `priceChange` is filled from `volume_usd.h24`, not from a price field.
- The `img_url` fallback is not checked against `"missing.png"`. That name can
  therefore still be shown when it comes from `img_url`
  (`TokenDataHeader.MissingImageOnlyFromFallback`).

## Model

| member | source | states |
|---|---|---|
| `FidgetViewer.DefaultValue` | src/common/fidgets/FidgetViewer.tsx:17 | a default survives exactly when it is present and truthy; otherwise the setting is null |
| `FidgetViewer.DefaultSettings` | src/common/fidgets/FidgetViewer.tsx:13-20 | the synthesized settings have exactly the schema's field names as keys |
| `FidgetViewer.LastFieldWins` | src/common/fidgets/FidgetViewer.tsx:15-18 | each name's setting is the resolved default of the last field carrying that name |
| `FidgetViewer.LaterDuplicateOverrides` | src/common/fidgets/FidgetViewer.tsx:15-18 | of two fields sharing a name, the later one decides the setting whenever it is the last field with that name |
| `FidgetViewer.DefaultConfig` | src/common/fidgets/FidgetViewer.tsx:9-23 | initial config: editable, the module's editConfig, id = fidget name, keys = field names, values from the last field per name |
| `FidgetViewer.Saved` | src/common/fidgets/FidgetViewer.tsx:26-30 | a save yields exactly the supplied instanceConfig with id and editConfig kept |
| `FidgetViewer.SaveIdempotent` | src/common/fidgets/FidgetViewer.tsx:26-30 | saving the same object twice gives the state of one save |
| `FidgetViewer.LastSaveWins` | src/common/fidgets/FidgetViewer.tsx:26-30 | a later save leaves nothing of an earlier one |
| `FidgetViewer.Viewer.constructor` | src/common/fidgets/FidgetViewer.tsx:24 | the state starts at the default configuration |
| `FidgetViewer.Viewer.SaveConfig` | src/common/fidgets/FidgetViewer.tsx:25-32 | replaces the state with the saved config, keeps id and editConfig, always returns true |
| `VideoSelector.IndexOfSeparator` | src/common/components/molecules/VideoSelector.tsx:103 | finds the first `://` at or after a position, and none is skipped |
| `VideoSelector.SecondPiece` | src/common/components/molecules/VideoSelector.tsx:103 | `split("://")[1]` is undefined exactly when there is no separator; otherwise it is the separator-free text that starts right after the first `://` and ends at the next `://` or at the end |
| `VideoSelector.SecondPieceDetermined` | src/common/components/molecules/VideoSelector.tsx:103 | any separator-free text starting right after the first `://` and ending at the next `://` or at the end is exactly `split("://")[1]`, so the piece is unique |
| `VideoSelector.FormatIpfsUrl` | src/common/components/molecules/VideoSelector.tsx:99-106 | empty or absent input gives ""; input not starting with `ipfs` is unchanged; an input starting with `ipfs` gives the gateway prefix followed by `split("://")[1]`, or by `undefined` when there is no `://` |
| `VideoSelector.IpfsReferenceToGateway` | src/common/components/molecules/VideoSelector.tsx:102-103 | `ipfs://<cid>` maps to `https://gateway.pinata.cloud/ipfs/<cid>` |
| `VideoSelector.IpfsSegment` | src/common/components/molecules/VideoSelector.tsx:103 | `ipfs://<cid>://<rest>` keeps only `<cid>`, the segment between the first and second `://` |
| `VideoSelector.IpfsWithoutSeparator` | src/common/components/molecules/VideoSelector.tsx:103 | an `ipfs` input without `://` maps to the gateway prefix plus `undefined` |
| `VideoSelector.Selector.constructor` | src/common/components/molecules/VideoSelector.tsx:31-34 | starts with the initial URL selected and the YouTube source |
| `VideoSelector.Selector.HandleVideoSelect` | src/common/components/molecules/VideoSelector.tsx:36-40 | selects the URL, reports exactly it to the callback and tracks MUSIC_UPDATED with it; the source is unchanged |
| `VideoSelector.Selector.HandleNftSelect` | src/common/components/molecules/VideoSelector.tsx:42-45 | an NFT selection acts as a selection of its image URL |
| `VideoSelector.Selector.SetVideoSource` | src/common/components/molecules/VideoSelector.tsx:52 | changes only the source; the selection and the reports stay |
| `VideoSelector.Selector.Pickers` | src/common/components/molecules/VideoSelector.tsx:65-80 | exactly one sub-picker is rendered, the one for the current source, and the wallet picker gets the fixed Base/zero-address value |
| `VideoSelector.Selector.Preview` | src/common/components/molecules/VideoSelector.tsx:82-94 | the preview is shown iff the selected video is non-empty, and shows that video |
| `VideoSelector.SelectFromSource` | src/common/components/molecules/VideoSelector.tsx:36-52 | choosing a source and then a video reports exactly that URL, tracks it, and previews it when non-empty |
| `ExploreGrouping.GroupBy` | src/pages/explore/index.tsx:59 | the group keys are exactly the posts' keys, and no group is empty |
| `ExploreGrouping.GroupsAreFilters` | src/pages/explore/index.tsx:59 | each group is exactly the posts with that key in input order; a key without posts has no group |
| `ExploreGrouping.FilterIsStableSelection` | src/pages/explore/index.tsx:59 | the m-th post of a group is the input's post at the m-th matching position, and those positions increase |
| `ExploreGrouping.ElementInItsGroup` | src/app/explore/page.tsx:45 | every post is in the group of its own key |
| `ExploreGrouping.GroupSizesSumToTotal` | src/pages/explore/index.tsx:59 | listing every group once, the group sizes sum to the number of posts |
| `ExploreGrouping.Sections` | src/pages/explore/index.tsx:115-146 | each rendered section is a listed category with a group, showing that group |
| `ExploreGrouping.SectionsAreShownCategories` | src/pages/explore/index.tsx:118-139 | the sections are, in order, the categories that have a group |
| `ExploreGrouping.SectionsFollowCategoryOrder` | src/app/explore/page.tsx:109-110 | sections appear in the order of `categories` |
| `ExploreGrouping.SectionIffGroup` | src/pages/explore/index.tsx:118-119 | a category gets a section iff it has a group |
| `ExploreGrouping.UnlistedKeyNeverRendered` | src/app/explore/page.tsx:109-110 | a post whose category is not listed is in no section |
| `ExploreGrouping.ListedKeyRendered` | src/app/explore/page.tsx:109-131 | a post whose category is listed is in that category's section |
| `ExploreGrouping.RenderedIffListed` | src/pages/explore/index.tsx:118-139 | a post is rendered iff its category is listed |
| `ExploreGrouping.ExploreCard` | src/pages/explore/index.tsx:148-172 | the card links to `/s/{slug}`, tracks CLICK_EXPLORE_CARD with the slug, and shows the image and `@title` |
| `ExploreGrouping.ExploreCardLinkIdentifiesSlug` | src/app/explore/page.tsx:142-147 | two cards link to the same space iff their slugs agree, and the tracked slug is the one in the link |
| `PagesExplore.PostGrouping` | src/pages/explore/index.tsx:59 | each post is in the group of its `category`, and groups are the category's posts in order |
| `PagesExplore.PostShownIffCategoryListed` | src/pages/explore/index.tsx:118-119 | a post is shown iff its category is one of `categories` |
| `PagesExplore.DefaultTabShowsFeed` | src/pages/explore/index.tsx:63 | the page opens on the tokens tab, which shows the token feed |
| `PagesExplore.TabPanel` | src/pages/explore/index.tsx:63-94 | the tokens tab hosts the token feed under its banner, the spaces tab the category grid |
| `PagesExplore.PriceDirection` | src/pages/explore/index.tsx:253-259 | flat iff the change is 0, decreasing iff it is negative, increasing iff it is positive |
| `PagesExplore.DirectionMonotone` | src/pages/explore/index.tsx:253-259 | the direction never decreases as the change grows |
| `PagesExplore.DeployerLine` | src/pages/explore/index.tsx:279-308 | "Anon deployer" iff the username is "Unknown"; otherwise `@username` with avatar, followers and score |
| `PagesExplore.CardImage` | src/pages/explore/index.tsx:234 | the first non-empty of the token image and the deployer avatar; empty iff both are |
| `PagesExplore.TokenCard` | src/pages/explore/index.tsx:218-276 | the card links to `/t/base/{address}` with the image, direction and deployer rules |
| `PagesExplore.TokenLinkIdentifiesAddress` | src/pages/explore/index.tsx:226 | two cards link to the same page iff their addresses agree |
| `PagesExplore.FeedUrl` | src/pages/explore/index.tsx:197-199 | the fetch URL is the feed endpoint followed by the decimal text of the page number |
| `PagesExplore.FeedUrlIdentifiesPage` | src/pages/explore/index.tsx:197-199 | different pages are fetched from different URLs |
| `PagesExplore.TokensGrid.constructor` | src/pages/explore/index.tsx:192-193 | the list starts empty and the page at 1 |
| `PagesExplore.TokensGrid.RequestUrl` | src/pages/explore/index.tsx:197-199 | the effect fetches the feed URL of the current page |
| `PagesExplore.TokensGrid.ReceivePage` | src/pages/explore/index.tsx:200-201 | a fetched page replaces the token list wholesale; the page number stays |
| `PagesExplore.TokensGrid.Cards` | src/pages/explore/index.tsx:211-213 | one card per token, in list order |
| `PagesExplore.FetchTwice` | src/pages/explore/index.tsx:195-207 | after two fetches only the second page's tokens remain |
| `AppExplore.DefaultTabShowsSpaces` | src/app/explore/page.tsx:49 | the page opens on the spaces tab, under the featured-spaces banner |
| `AppExplore.TabPanel` | src/app/explore/page.tsx:58-85 | both tabs hold the category grid over the grouped posts, each under its own banner |
| `AppExplore.TabsShareGrid` | src/app/explore/page.tsx:65-82 | the tokens and spaces tabs render the same sections |
| `AppExplore.EntryGrouping` | src/app/explore/page.tsx:45 | grouping by `post?.category` puts each entry in its key's group, in input order |
| `AppExplore.PostShownIffCategoryListed` | src/app/explore/page.tsx:109-110 | a post is shown iff its category is one of `categories` |
| `AppExplore.UndefinedIsNoCategory` | src/app/explore/page.tsx:31-41 | no category is titled "undefined" |
| `AppExplore.RenderedEntriesArePosts` | src/app/explore/page.tsx:45 | a missing entry is never rendered |
| `TokenDataHeader.ContractAddress` | src/common/components/organisms/TokenDataHeader.tsx:13 | the address, or "" without a record or address |
| `TokenDataHeader.DisplayName` | src/common/components/organisms/TokenDataHeader.tsx:14 | the name, or "Loading..."; never empty |
| `TokenDataHeader.Symbol` | src/common/components/organisms/TokenDataHeader.tsx:15 | the symbol, or "" without a record or symbol |
| `TokenDataHeader.Image` | src/common/components/organisms/TokenDataHeader.tsx:16 | `image_url` when non-empty and not "missing.png", else `img_url` when non-empty, else null |
| `TokenDataHeader.MissingImageOnlyFromFallback` | src/common/components/organisms/TokenDataHeader.tsx:16 | "missing.png" is chosen only when it comes from `img_url` |
| `TokenDataHeader.AvatarOf` | src/common/components/organisms/TokenDataHeader.tsx:80-110 | the image when there is one, else the first character of the displayed name |
| `TokenDataHeader.NoTokenPlaceholders` | src/common/components/organisms/TokenDataHeader.tsx:13-15 | without a record: empty address and symbol, "Loading...", avatar "L", bare Basescan prefix |
| `TokenDataHeader.BasescanUrl` | src/common/components/organisms/TokenDataHeader.tsx:50-52 | the link is the Basescan address prefix followed by the contract address |
| `TokenDataHeader.BasescanUrlIdentifiesAddress` | src/common/components/organisms/TokenDataHeader.tsx:51 | different addresses open different links |
| `TokenDataHeader.TokenHeader.constructor` | src/common/components/organisms/TokenDataHeader.tsx:8-11 | price, market cap, price change and error all start null |
| `TokenDataHeader.TokenHeader.OnTokenData` | src/common/components/organisms/TokenDataHeader.tsx:18-28 | with a record: price from `price_usd`, change from `volume_usd.h24`, market cap formatted or null when falsy; without one nothing changes |
| `TokenDataHeader.TokenHeader.MarketCapText` | src/common/components/organisms/TokenDataHeader.tsx:138 | "Loading..." while the market cap is null or empty, else `$` and the value |
| `TokenDataHeader.TokenHeader.PriceText` | src/common/components/organisms/TokenDataHeader.tsx:148 | a space while the price is null, else `$` and the price |
| `TokenDataHeader.TokenHeader.PriceChangeText` | src/common/components/organisms/TokenDataHeader.tsx:156-158 | "0% " while the change is null or empty, else the scaled percentage and `%` |
| `TokenDataHeader.TokenHeader.ErrorElement` | src/common/components/organisms/TokenDataHeader.tsx:182 | the error element is never rendered |
| `Common.NatToDecimal` | src/pages/explore/index.tsx:198 | a page number is written in decimal digits, with no leading zero unless it is 0 |
| `Common.DecimalRoundTrip` | src/pages/explore/index.tsx:198 | the page number interpolated in decimal reads back as the same number |
| `Common.DecimalInjective` | src/pages/explore/index.tsx:198 | distinct page numbers render to distinct decimal strings |

## Left out

- Network I/O: the token feed `fetch` and `res.json()`, and `getAllMarkdownFiles`/`getStaticProps`. Only the resulting state update is modelled (`ReceivePage`). A failed fetch or a fetch that never settles is not modelled, and neither is the order in which racing fetches resolve.
- `setPage` is never called in the source, so `page` stays 1. The model has no operation that changes it.
- Browser and wallet side effects: `window.ethereum.request` (wallet_watchAsset) with its logged-only failure, `window.open`, the clipboard copy through the DOM and `execCommand`, `alert`, and `console.log`. These are foreign calls. For `window.open`, only the URL it is given is modelled (`BasescanUrl`).
- Analytics delivery (`trackAnalyticsEvent`, `analytics.track`). Each call is recorded as an `AnalyticsEvent` value in the state, or as the card's click event.
- Float formatting and parsing: `toLocaleString`, `parseFloat`, `toFixed`, `formatNumber` and `formatDistanceToNow` are locale- and float-dependent. `formatNumber(parseFloat(…))` and the price-change scaling are function parameters of `OnTokenData` and `PriceChangeText`. The deployment time, volume and market cap texts of a token card are not modelled.
- `PagesExplore.PriceDirection`: the price change is a real number, so the NaN case is not modelled. In the source, NaN would fall into the increasing branch.
- `FidgetViewer.DefaultValue`: the default values are booleans, numbers, strings, arrays and objects. NaN, `-0` and an explicit `null` default are not separate values: a null default behaves as an absent one, which matches `|| null`.
- Rendering, styling and layout (Tabs, Image, Link, Avatar, class names, the noggles overlay). The child components `YouTubeSelector`, `AlchemyVideoNftSelector` and `FidgetWrapper` are not part of this model.
- React re-render and effect timing. The `saveConifg` closure reads the `config` of its own render; the model reads the current state, which has the same `editConfig` because no operation changes it.
- The price-change colour (green when `parseFloat(priceChange) > 0`, else red) is float parsing and styling, so it is not modelled.
- `charAt(0)` takes the first UTF-16 code unit. The model takes the first character of a `seq<char>`.
