/** What the two explore pages share: the fixed category list, lodash's
    `groupBy` over the posts, the `CategoriesGrid` section filter that walks
    the categories in order and skips those without a group, and the
    `ExploreCard` link and click event. */
module ExploreGrouping {
  import opened Common

  /** A post of the markdown catalogue. */
  datatype Post = Post(slug: string, title: string, category: string, image: string)

  datatype Category = Category(title: string, image: string)

  /** The `categories` constant, in display order. */
  const Categories: seq<Category> := [
    Category("Nounish", "/images/explore-icons/nounish.png"),
    Category("DeFi", "/images/explore-icons/defi.png"),
    Category("Art", "/images/explore-icons/art.png"),
    Category("Farcaster", "/images/explore-icons/farcaster.png"),
    Category("Games", "/images/explore-icons/games.png"),
    Category("Music", "/images/explore-icons/music.png"),
    Category("AI", "/images/explore-icons/ai.png"),
    Category("Public Goods", "/images/explore-icons/public-goods.png"),
    Category("People", "/images/explore-icons/people.png")
  ]

  predicate Distinct<T(==)>(xs: seq<T>) {
    forall i, j :: 0 <= i < j < |xs| ==> xs[i] != xs[j]
  }

  /** The elements of `xs` satisfying `p`, in input order. */
  function Filter<T>(xs: seq<T>, p: T -> bool): (r: seq<T>)
    ensures |r| <= |xs|
    ensures forall i :: 0 <= i < |r| ==> p(r[i])
    ensures forall x :: x in r ==> x in xs
  {
    if xs == [] then [] else (if p(xs[0]) then [xs[0]] else []) + Filter(xs[1..], p)
  }

  /** The indices `i >= from` of `xs` at which `p` holds, in increasing order. */
  function PositionsFrom<T>(xs: seq<T>, p: T -> bool, from: nat): (r: seq<nat>)
    requires from <= |xs|
    decreases |xs| - from
    ensures forall m :: 0 <= m < |r| ==> from <= r[m] < |xs| && p(xs[r[m]])
    ensures forall m, m' :: 0 <= m < m' < |r| ==> r[m] < r[m']
    ensures forall i :: from <= i < |xs| && p(xs[i]) ==> i in r
  {
    if from == |xs| then []
    else (if p(xs[from]) then [from] else []) + PositionsFrom(xs, p, from + 1)
  }

  /** Filtering is stable: the `m`-th kept element is the input's element at the
      `m`-th position where `p` holds, and those positions increase. */
  lemma {:induction false} FilterIsStableSelection<T>(xs: seq<T>, p: T -> bool, from: nat)
    requires from <= |xs|
    decreases |xs| - from
    ensures |Filter(xs[from..], p)| == |PositionsFrom(xs, p, from)|
    ensures forall m :: 0 <= m < |PositionsFrom(xs, p, from)| ==>
              Filter(xs[from..], p)[m] == xs[PositionsFrom(xs, p, from)[m]]
  {
    if from < |xs| {
      assert xs[from..][0] == xs[from];
      assert xs[from..][1..] == xs[from + 1..];
      FilterIsStableSelection(xs, p, from + 1);
    }
  }

  /** Filtering an extended sequence filters the extension separately. */
  lemma {:induction false} FilterSnoc<T>(xs: seq<T>, x: T, p: T -> bool)
    ensures Filter(xs + [x], p) == Filter(xs, p) + (if p(x) then [x] else [])
  {
    if xs != [] {
      assert (xs + [x])[1..] == xs[1..] + [x];
      FilterSnoc(xs[1..], x, p);
    }
  }

  /** The predicate "`key` gives `k`". */
  function HasKey<T>(key: T -> string, k: string): T -> bool {
    (x: T) => key(x) == k
  }

  function KeysOf<T>(xs: seq<T>, key: T -> string): set<string> {
    set i | 0 <= i < |xs| :: key(xs[i])
  }

  /** lodash `groupBy`: walks the input in order, appending each element to the
      group of its key. */
  function GroupBy<T>(xs: seq<T>, key: T -> string): (g: map<string, seq<T>>)
    ensures g.Keys == KeysOf(xs, key)
    ensures forall k :: k in g ==> g[k] != []
  {
    if xs == [] then map[]
    else
      var init := xs[..|xs| - 1];
      var x := xs[|xs| - 1];
      var g := GroupBy(init, key);
      assert KeysOf(xs, key) == KeysOf(init, key) + {key(x)} by {
        forall k | k in KeysOf(xs, key) ensures k in KeysOf(init, key) + {key(x)} {
          var i :| 0 <= i < |xs| && key(xs[i]) == k;
          if i < |xs| - 1 { assert init[i] == xs[i]; }
        }
        forall k | k in KeysOf(init, key) ensures k in KeysOf(xs, key) {
          var i :| 0 <= i < |init| && key(init[i]) == k;
          assert xs[i] == init[i];
        }
      }
      g[key(x) := (if key(x) in g then g[key(x)] else []) + [x]]
  }

  /** Each group holds exactly the elements with its key, in input order, and
      a key with no elements has no group. */
  lemma {:induction false} GroupsAreFilters<T>(xs: seq<T>, key: T -> string, k: string)
    ensures k in GroupBy(xs, key) ==> GroupBy(xs, key)[k] == Filter(xs, HasKey(key, k))
    ensures k !in GroupBy(xs, key) ==> Filter(xs, HasKey(key, k)) == []
  {
    if xs != [] {
      var init := xs[..|xs| - 1];
      var x := xs[|xs| - 1];
      assert init + [x] == xs;
      GroupsAreFilters(init, key, k);
      FilterSnoc(init, x, HasKey(key, k));
    }
  }

  /** Every element lands in the group of its own key. */
  lemma ElementInItsGroup<T>(xs: seq<T>, key: T -> string, i: nat)
    requires i < |xs|
    ensures key(xs[i]) in GroupBy(xs, key) && xs[i] in GroupBy(xs, key)[key(xs[i])]
  {
    var k := key(xs[i]);
    GroupsAreFilters(xs, key, k);
    FilterIsStableSelection(xs, HasKey(key, k), 0);
    assert xs[0..] == xs;
    var pos := PositionsFrom(xs, HasKey(key, k), 0);
    var m :| 0 <= m < |pos| && pos[m] == i;
    assert Filter(xs, HasKey(key, k))[m] == xs[i];
  }

  /** Sum of the sizes of the groups listed in `ks`. */
  function GroupSizes<T>(g: map<string, seq<T>>, ks: seq<string>): nat
    requires forall i :: 0 <= i < |ks| ==> ks[i] in g
  {
    if ks == [] then 0 else |g[ks[0]]| + GroupSizes(g, ks[1..])
  }

  /** Sum over `ks` of the number of elements whose key is that entry. */
  function KeyCounts<T>(xs: seq<T>, key: T -> string, ks: seq<string>): nat {
    if ks == [] then 0 else |Filter(xs, HasKey(key, ks[0]))| + KeyCounts(xs, key, ks[1..])
  }

  /** How many entries of `ks` equal `k`. */
  function Occurrences(ks: seq<string>, k: string): nat {
    if ks == [] then 0 else (if ks[0] == k then 1 else 0) + Occurrences(ks[1..], k)
  }

  lemma {:induction false} OccursOnce(ks: seq<string>, k: string)
    requires Distinct(ks) && k in ks
    ensures Occurrences(ks, k) == 1
  {
    if ks[0] == k {
      OccursNot(ks[1..], k);
    } else {
      assert k in ks[1..];
      OccursOnce(ks[1..], k);
    }
  }

  lemma {:induction false} OccursNot(ks: seq<string>, k: string)
    requires k !in ks
    ensures Occurrences(ks, k) == 0
  {
    if ks != [] {
      OccursNot(ks[1..], k);
    }
  }

  lemma {:induction false} KeyCountsCons<T>(x: T, xs: seq<T>, key: T -> string, ks: seq<string>)
    ensures KeyCounts([x] + xs, key, ks) == Occurrences(ks, key(x)) + KeyCounts(xs, key, ks)
  {
    if ks != [] {
      assert ([x] + xs)[1..] == xs;
      KeyCountsCons(x, xs, key, ks[1..]);
    }
  }

  /** With every key listed exactly once, the per-key counts add up to the input length. */
  lemma {:induction false} KeyCountsTotal<T>(xs: seq<T>, key: T -> string, ks: seq<string>)
    requires Distinct(ks)
    requires forall i :: 0 <= i < |xs| ==> key(xs[i]) in ks
    ensures KeyCounts(xs, key, ks) == |xs|
  {
    if xs == [] {
      KeyCountsEmpty(key, ks);
    } else {
      assert [xs[0]] + xs[1..] == xs;
      KeyCountsCons(xs[0], xs[1..], key, ks);
      OccursOnce(ks, key(xs[0]));
      KeyCountsTotal(xs[1..], key, ks);
    }
  }

  lemma {:induction false} KeyCountsEmpty<T>(key: T -> string, ks: seq<string>)
    ensures KeyCounts([], key, ks) == 0
  {
    if ks != [] {
      KeyCountsEmpty(key, ks[1..]);
    }
  }

  lemma {:induction false} GroupSizesAreKeyCounts<T>(xs: seq<T>, key: T -> string, ks: seq<string>)
    requires forall i :: 0 <= i < |ks| ==> ks[i] in GroupBy(xs, key)
    ensures GroupSizes(GroupBy(xs, key), ks) == KeyCounts(xs, key, ks)
  {
    if ks != [] {
      GroupsAreFilters(xs, key, ks[0]);
      GroupSizesAreKeyCounts(xs, key, ks[1..]);
    }
  }

  /** Grouping partitions the input: listing every group once, the group sizes
      add up to the number of elements. */
  lemma GroupSizesSumToTotal<T>(xs: seq<T>, key: T -> string, ks: seq<string>)
    requires Distinct(ks)
    requires forall k :: k in ks <==> k in GroupBy(xs, key)
    ensures GroupSizes(GroupBy(xs, key), ks) == |xs|
  {
    GroupSizesAreKeyCounts(xs, key, ks);
    KeyCountsTotal(xs, key, ks);
  }

  /** A rendered category section. */
  datatype Section<T> = Section(title: string, image: string, posts: seq<T>)

  /** `CategoriesGrid`: one section per category, in category order, skipping a
      category whose group is missing (`if (!groupedPosts[title]) return null`). */
  function Sections<T>(cats: seq<Category>, g: map<string, seq<T>>): (r: seq<Section<T>>)
    ensures |r| <= |cats|
    ensures forall i :: 0 <= i < |r| ==>
              r[i].title in g && r[i].posts == g[r[i].title] && Category(r[i].title, r[i].image) in cats
  {
    if cats == [] then []
    else
      var c := cats[0];
      (if c.title in g then [Section(c.title, c.image, g[c.title])] else []) + Sections(cats[1..], g)
  }

  /** The predicate "the category has a group". */
  function Shown<T>(g: map<string, seq<T>>): Category -> bool {
    (c: Category) => c.title in g
  }

  /** The sections are, in order, the categories that have a group. */
  lemma {:induction false} SectionsAreShownCategories<T>(cats: seq<Category>, g: map<string, seq<T>>)
    ensures |Sections(cats, g)| == |Filter(cats, Shown(g))|
    ensures forall m :: 0 <= m < |Sections(cats, g)| ==>
              var c := Filter(cats, Shown(g))[m];
              Sections(cats, g)[m] == Section(c.title, c.image, g[c.title])
  {
    if cats != [] {
      SectionsAreShownCategories(cats[1..], g);
    }
  }

  /** Sections come in the order of the category list: the `m`-th section is the
      category at the `m`-th position having a group, and those positions increase. */
  lemma SectionsFollowCategoryOrder<T>(cats: seq<Category>, g: map<string, seq<T>>)
    ensures |Sections(cats, g)| == |PositionsFrom(cats, Shown(g), 0)|
    ensures forall m :: 0 <= m < |Sections(cats, g)| ==>
              var c := cats[PositionsFrom(cats, Shown(g), 0)[m]];
              Sections(cats, g)[m] == Section(c.title, c.image, g[c.title])
  {
    SectionsAreShownCategories(cats, g);
    FilterIsStableSelection(cats, Shown(g), 0);
    assert cats[0..] == cats;
  }

  /** A listed category gets a section exactly when it has a group. */
  lemma SectionIffGroup<T>(cats: seq<Category>, g: map<string, seq<T>>, i: nat)
    requires i < |cats|
    ensures (exists m :: 0 <= m < |Sections(cats, g)| && Sections(cats, g)[m].title == cats[i].title)
              <==> cats[i].title in g
  {
    if cats[i].title in g {
      SectionsFollowCategoryOrder(cats, g);
      var pos := PositionsFrom(cats, Shown(g), 0);
      assert Shown(g)(cats[i]);
      var m :| 0 <= m < |pos| && pos[m] == i;
      assert Sections(cats, g)[m].title == cats[i].title;
    }
  }

  predicate IsCategoryTitle(cats: seq<Category>, t: string) {
    exists c :: c in cats && c.title == t
  }

  /** An element whose key names no category is in no rendered section. */
  lemma UnlistedKeyNeverRendered<T>(cats: seq<Category>, xs: seq<T>, key: T -> string, x: T)
    requires !IsCategoryTitle(cats, key(x))
    ensures forall s :: s in Sections(cats, GroupBy(xs, key)) ==> x !in s.posts
  {
    var g := GroupBy(xs, key);
    forall s | s in Sections(cats, g) ensures x !in s.posts {
      var c := Category(s.title, s.image);
      assert c in cats;
      GroupsAreFilters(xs, key, s.title);
      assert forall y :: y in s.posts ==> key(y) == s.title;
    }
  }

  /** Conversely, every element whose key names a category is rendered in that
      category's section. */
  lemma ListedKeyRendered<T>(cats: seq<Category>, xs: seq<T>, key: T -> string, i: nat, ci: nat)
    requires i < |xs| && ci < |cats| && cats[ci].title == key(xs[i])
    ensures exists m :: 0 <= m < |Sections(cats, GroupBy(xs, key))|
              && Sections(cats, GroupBy(xs, key))[m].title == key(xs[i])
              && xs[i] in Sections(cats, GroupBy(xs, key))[m].posts
  {
    var g := GroupBy(xs, key);
    ElementInItsGroup(xs, key, i);
    SectionIffGroup(cats, g, ci);
    var m :| 0 <= m < |Sections(cats, g)| && Sections(cats, g)[m].title == cats[ci].title;
    assert Sections(cats, g)[m].posts == g[key(xs[i])];
  }

  /** An element is rendered in some section exactly when its key names a category. */
  lemma RenderedIffListed<T>(cats: seq<Category>, xs: seq<T>, key: T -> string, i: nat)
    requires i < |xs|
    ensures (exists m :: 0 <= m < |Sections(cats, GroupBy(xs, key))|
               && xs[i] in Sections(cats, GroupBy(xs, key))[m].posts)
            <==> IsCategoryTitle(cats, key(xs[i]))
  {
    var r := Sections(cats, GroupBy(xs, key));
    if IsCategoryTitle(cats, key(xs[i])) {
      var c :| c in cats && c.title == key(xs[i]);
      var ci :| 0 <= ci < |cats| && cats[ci] == c;
      ListedKeyRendered(cats, xs, key, i, ci);
    } else {
      UnlistedKeyNeverRendered(cats, xs, key, xs[i]);
      forall m | 0 <= m < |r| ensures xs[i] !in r[m].posts {
        assert r[m] in r;
      }
    }
  }

  /** What an `ExploreCard` renders and emits. */
  datatype ExploreCardView = ExploreCardView(href: string, image: string, caption: string, onClick: AnalyticsEvent)

  const SpacePath: string := "/s/"

  /** `ExploreCard`: links to `/s/{slug}` and tracks CLICK_EXPLORE_CARD with the slug. */
  function ExploreCard(p: Post): (v: ExploreCardView)
    ensures StartsWith(v.href, SpacePath) && v.href[|SpacePath|..] == p.slug
    ensures v.onClick == ClickExploreCard(p.slug)
    ensures v.image == p.image && v.caption == "@" + p.title
  {
    ExploreCardView(SpacePath + p.slug, p.image, "@" + p.title, ClickExploreCard(p.slug))
  }

  /** Two explore cards link to the same space exactly when their posts share a slug,
      and the tracked slug is the one in the link. */
  lemma ExploreCardLinkIdentifiesSlug(p: Post, q: Post)
    ensures ExploreCard(p).href == ExploreCard(q).href <==> p.slug == q.slug
    ensures ExploreCard(p).onClick.slug == ExploreCard(p).href[|SpacePath|..]
  {
    PrefixCancel(SpacePath, p.slug, q.slug);
  }

  datatype Tab = TokensTab | SpacesTab

  /** The banner at the top of a tab. */
  datatype Header = Header(title: string, image: string)

  const TokensHeader: Header := Header("Explore Clanker Tokens", "/images/clanker_galaxy.png")
  const SpacesHeader: Header := Header("Explore Featured Spaces", "/images/rainforest.png")
}
