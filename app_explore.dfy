/** The explore page of the app router: posts grouped by `post?.category`,
    and both tabs showing the same category grid. */
module AppExplore {
  import opened Common
  import opened ExploreGrouping

  /** A catalogue entry as the page sees it; `post?.category` tolerates a missing one. */
  type Entry = Option<Post>

  /** The key lodash derives from `post?.category`: a missing post yields
      `undefined`, which becomes the object key "undefined". */
  function EntryKey(e: Entry): string {
    match e
    case None => "undefined"
    case Some(p) => p.category
  }

  const DefaultTab: Tab := SpacesTab

  /** What a tab shows: here both tabs hold a category grid. */
  datatype Panel = CategoriesPanel(header: Header, sections: seq<Section<Entry>>)

  function TabPanel(tab: Tab, posts: seq<Entry>): (p: Panel)
    ensures p.sections == Sections(Categories, GroupBy(posts, EntryKey))
    ensures p.header == if tab == TokensTab then TokensHeader else SpacesHeader
  {
    var grid := Sections(Categories, GroupBy(posts, EntryKey));
    match tab
    case TokensTab => CategoriesPanel(TokensHeader, grid)
    case SpacesTab => CategoriesPanel(SpacesHeader, grid)
  }

  /** The page opens on the spaces tab, whose banner features spaces. */
  lemma DefaultTabShowsSpaces(posts: seq<Entry>)
    ensures TabPanel(DefaultTab, posts).header == SpacesHeader
  {
  }

  /** The two tabs differ only in their banner: they render the same sections. */
  lemma TabsShareGrid(posts: seq<Entry>)
    ensures TabPanel(TokensTab, posts).sections == TabPanel(SpacesTab, posts).sections
    ensures TabPanel(TokensTab, posts).header != TabPanel(SpacesTab, posts).header
  {
    assert TokensHeader.title[8] != SpacesHeader.title[8];
  }

  /** Each entry lands in the group of its key, and a group holds exactly the
      entries with that key in input order. */
  lemma EntryGrouping(posts: seq<Entry>, i: nat, k: string)
    requires i < |posts|
    ensures posts[i] in GroupBy(posts, EntryKey)[EntryKey(posts[i])]
    ensures k in GroupBy(posts, EntryKey) ==>
              GroupBy(posts, EntryKey)[k] == Filter(posts, HasKey(EntryKey, k))
  {
    ElementInItsGroup(posts, EntryKey, i);
    GroupsAreFilters(posts, EntryKey, k);
  }

  /** A post is shown exactly when its category is one of `categories`. */
  lemma PostShownIffCategoryListed(posts: seq<Entry>, i: nat)
    requires i < |posts| && posts[i].Some?
    ensures (exists m :: 0 <= m < |Sections(Categories, GroupBy(posts, EntryKey))|
               && posts[i] in Sections(Categories, GroupBy(posts, EntryKey))[m].posts)
            <==> IsCategoryTitle(Categories, posts[i].value.category)
  {
    RenderedIffListed(Categories, posts, EntryKey, i);
  }

  /** "undefined" is not a category title. */
  lemma UndefinedIsNoCategory()
    ensures !IsCategoryTitle(Categories, "undefined")
  {
    forall c | c in Categories ensures c.title != "undefined" {
      assert c.title[0] != 'u';
    }
  }

  /** A missing entry is never rendered, so every rendered entry is a post. */
  lemma RenderedEntriesArePosts(posts: seq<Entry>)
    ensures forall s, e :: s in Sections(Categories, GroupBy(posts, EntryKey)) && e in s.posts ==> e.Some?
  {
    UndefinedIsNoCategory();
    UnlistedKeyNeverRendered(Categories, posts, EntryKey, None);
  }
}
