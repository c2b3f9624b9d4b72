/** The explore page of the pages router: posts grouped by `post.category`
    into the spaces tab, and the token feed tab whose cards classify the
    price direction, name the deployer and pick an image. */
module PagesExplore {
  import opened Common
  import opened ExploreGrouping

  /** The grouping key of the page: `(post) => post.category`. */
  function PostCategory(p: Post): string {
    p.category
  }

  /** The page's `groupBy(posts, …)`. */
  function GroupedPosts(posts: seq<Post>): map<string, seq<Post>> {
    GroupBy(posts, PostCategory)
  }

  /** The category sections of the spaces tab. */
  function SpacesSections(posts: seq<Post>): seq<Section<Post>> {
    Sections(Categories, GroupBy(posts, PostCategory))
  }

  /** Each post is in the group named by its category, and a group holds
      exactly the posts of that category in their input order. */
  lemma PostGrouping(posts: seq<Post>, i: nat, k: string)
    requires i < |posts|
    ensures posts[i].category in GroupedPosts(posts)
    ensures posts[i] in GroupedPosts(posts)[posts[i].category]
    ensures k in GroupedPosts(posts) ==>
              GroupedPosts(posts)[k] == Filter(posts, HasKey(PostCategory, k))
  {
    ElementInItsGroup(posts, PostCategory, i);
    GroupsAreFilters(posts, PostCategory, k);
  }

  /** A post whose category is not one of `categories` is never shown; one whose
      category is listed is shown in that category's section. */
  lemma PostShownIffCategoryListed(posts: seq<Post>, i: nat)
    requires i < |posts|
    ensures (exists m :: 0 <= m < |Sections(Categories, GroupBy(posts, PostCategory))|
               && posts[i] in Sections(Categories, GroupBy(posts, PostCategory))[m].posts)
            <==> IsCategoryTitle(Categories, posts[i].category)
  {
    RenderedIffListed(Categories, posts, PostCategory, i);
  }

  /** What a tab shows: the page's tokens tab hosts the token feed, its spaces
      tab the category grid. */
  datatype Panel =
    | TokenFeedPanel(header: Header)
    | CategoriesPanel(header: Header, sections: seq<Section<Post>>)

  const DefaultTab: Tab := TokensTab

  /** The page opens on the token feed. */
  lemma DefaultTabShowsFeed(posts: seq<Post>)
    ensures TabPanel(DefaultTab, posts) == TokenFeedPanel(TokensHeader)
  {
  }

  function TabPanel(tab: Tab, posts: seq<Post>): (p: Panel)
    ensures p.TokenFeedPanel? <==> tab == TokensTab
    ensures p.CategoriesPanel? ==> p.header == SpacesHeader && p.sections == SpacesSections(posts)
    ensures p.TokenFeedPanel? ==> p.header == TokensHeader
  {
    match tab
    case TokensTab => TokenFeedPanel(TokensHeader)
    case SpacesTab => CategoriesPanel(SpacesHeader, SpacesSections(posts))
  }

  datatype Deployer = Deployer(username: string, avatarUrl: string, followers: nat, score: real)

  /** A token record of the feed. `imageUrl` is optional. */
  datatype Token = Token(
    name: string,
    address: string,
    symbol: string,
    imageUrl: Option<string>,
    deployer: Deployer,
    deployedAt: string,
    marketCap: real,
    volumeLastHour: real,
    priceChange: real)

  datatype Direction = Flat | Decreasing | Increasing

  /** The icon chosen by `priceChange === 0 ? … : priceChange < 0 ? … : …`. */
  function PriceDirection(priceChange: real): (d: Direction)
    ensures d == Flat <==> priceChange == 0.0
    ensures d == Decreasing <==> priceChange < 0.0
    ensures d == Increasing <==> priceChange > 0.0
  {
    if priceChange == 0.0 then Flat else if priceChange < 0.0 then Decreasing else Increasing
  }

  /** The direction is monotone in the price change. */
  lemma DirectionMonotone(a: real, b: real)
    requires a <= b
    ensures PriceDirection(a) == Increasing ==> PriceDirection(b) == Increasing
    ensures PriceDirection(b) == Decreasing ==> PriceDirection(a) == Decreasing
  {
  }

  /** The deployer block of a card. */
  datatype DeployerView =
    | AnonDeployer
    | NamedDeployer(handle: string, avatar: string, followers: nat, score: real)

  const UnknownUsername: string := "Unknown"

  function DeployerLine(d: Deployer): (v: DeployerView)
    ensures v.AnonDeployer? <==> d.username == UnknownUsername
    ensures v.NamedDeployer? ==> v.handle == "@" + d.username && v.handle != "@" + UnknownUsername
    ensures v.NamedDeployer? ==> v.avatar == d.avatarUrl && v.followers == d.followers && v.score == d.score
  {
    if d.username == UnknownUsername then AnonDeployer
    else
      assert ("@" + d.username)[1..] == d.username;
      assert ("@" + UnknownUsername)[1..] == UnknownUsername;
      NamedDeployer("@" + d.username, OrElse(Some(d.avatarUrl), ""), d.followers, d.score)
  }

  /** `token?.imageUrl || token.deployer?.avatarUrl || ""`: the first non-empty
      of the token's image and the deployer's avatar, else empty. */
  function CardImage(t: Token): (r: string)
    ensures Truthy(t.imageUrl) ==> r == t.imageUrl.value
    ensures !Truthy(t.imageUrl) && t.deployer.avatarUrl != "" ==> r == t.deployer.avatarUrl
    ensures r == "" <==> !Truthy(t.imageUrl) && t.deployer.avatarUrl == ""
  {
    OrElse(t.imageUrl, OrElse(Some(t.deployer.avatarUrl), ""))
  }

  const TokenPath: string := "/t/base/"

  /** What a `TokenCard` renders, with the float formatting left out. */
  datatype TokenCardView = TokenCardView(
    href: string,
    image: string,
    symbol: string,
    name: string,
    direction: Direction,
    deployer: DeployerView)

  function TokenCard(t: Token): (v: TokenCardView)
    ensures StartsWith(v.href, TokenPath) && v.href[|TokenPath|..] == t.address
    ensures v.image == CardImage(t) && v.direction == PriceDirection(t.priceChange)
    ensures v.deployer == DeployerLine(t.deployer)
    ensures v.symbol == t.symbol && v.name == t.name
  {
    TokenCardView(TokenPath + t.address, CardImage(t), t.symbol, t.name,
                  PriceDirection(t.priceChange), DeployerLine(t.deployer))
  }

  /** Two token cards link to the same page exactly when the tokens share an address. */
  lemma TokenLinkIdentifiesAddress(t: Token, u: Token)
    ensures TokenCard(t).href == TokenCard(u).href <==> t.address == u.address
  {
    PrefixCancel(TokenPath, t.address, u.address);
  }

  const FeedEndpoint: string := "https://clanker-terminal.vercel.app/api/tokens?page="

  /** The URL fetched for a page. */
  function FeedUrl(page: nat): (url: string)
    ensures StartsWith(url, FeedEndpoint)
    ensures url[|FeedEndpoint|..] == NatToDecimal(page)
  {
    FeedEndpoint + NatToDecimal(page)
  }

  /** Different pages are fetched from different URLs. */
  lemma FeedUrlIdentifiesPage(p: nat, q: nat)
    ensures FeedUrl(p) == FeedUrl(q) <==> p == q
  {
    PrefixCancel(FeedEndpoint, NatToDecimal(p), NatToDecimal(q));
    DecimalInjective(p, q);
  }

  /** `TokensGrid`: the token list and the page number it was fetched for. */
  class TokensGrid {
    var tokens: seq<Token>
    var page: nat

    constructor ()
      ensures tokens == [] && page == 1
    {
      tokens := [];
      page := 1;
    }

    /** The URL the effect fetches. */
    function RequestUrl(): (url: string)
      reads this
      ensures StartsWith(url, FeedEndpoint)
      ensures url[|FeedEndpoint|..] == NatToDecimal(page)
    {
      FeedUrl(page)
    }

    /** `setTokens(data)`: the fetched page replaces the list wholesale. */
    method ReceivePage(data: seq<Token>)
      modifies this
      ensures tokens == data && page == old(page)
    {
      tokens := data;
    }

    /** The cards rendered, one per token in list order. */
    function Cards(): (cards: seq<TokenCardView>)
      reads this
      ensures |cards| == |tokens|
      ensures forall i :: 0 <= i < |cards| ==> cards[i] == TokenCard(tokens[i])
    {
      seq(|tokens|, i requires 0 <= i < |tokens| reads this => TokenCard(tokens[i]))
    }
  }

  /** After two fetches only the second page's tokens are rendered. */
  method FetchTwice(grid: TokensGrid, first: seq<Token>, second: seq<Token>)
    modifies grid
    ensures grid.tokens == second
    ensures |grid.Cards()| == |second|
  {
    grid.ReceivePage(first);
    grid.ReceivePage(second);
  }
}
