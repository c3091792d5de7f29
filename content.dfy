/**
 * The content slice: normalisation of the three feeds into one item shape,
 * replacement of one type partition of the aggregate, the trending ranking,
 * and the reducers that update the slice state.
 */
module ContentSlice {
  import opened Wrappers

  // ----- Data model -----

  datatype ContentType = News | Movie | Social

  /**
   * A publish date as `new Date(s).getTime()` sees it: `Some(ms)` for a
   * parseable date, `None` where the result is NaN (no date, or one that
   * does not parse).
   */
  type Timestamp = Option<int>

  /** The common item shape; `kind` is the item's `type` tag. */
  datatype ContentItem = ContentItem(
    id: string,
    kind: ContentType,
    title: string,
    description: Option<string>,
    image: Option<string>,
    url: Option<string>,
    author: Option<string>,
    publishedAt: Timestamp,
    category: Option<string>,
    rating: Option<real>,
    isFavorite: Option<bool>)

  /** One article of the news feed. */
  datatype NewsArticle = NewsArticle(
    title: string,
    description: Option<string>,
    urlToImage: Option<string>,
    url: string,
    author: Option<string>,
    publishedAt: Timestamp,
    category: Option<string>)

  /** One result of the movie feed. */
  datatype MovieResult = MovieResult(
    id: int,
    title: string,
    overview: Option<string>,
    posterPath: Option<string>,
    releaseDate: Timestamp,
    voteAverage: Option<real>)

  /** A social post's id is a number or a string. */
  datatype PostId = NumericId(n: int) | TextId(text: string)

  /** One post of the social feed. */
  datatype SocialPost = SocialPost(
    id: PostId,
    username: string,
    caption: string,
    image: Option<string>,
    createdAt: Timestamp)

  // ----- Identifiers -----

  /** The prefix every normalised id of a kind starts with. */
  function Prefix(kind: ContentType): string {
    match kind
    case News => "news-"
    case Movie => "movie-"
    case Social => "social-"
  }

  /** The item's id carries the prefix of its own type tag. */
  predicate Tagged(c: ContentItem) {
    Prefix(c.kind) <= c.id
  }

  predicate AllTagged(items: seq<ContentItem>) {
    forall c :: c in items ==> Tagged(c)
  }

  predicate UniqueIds(items: seq<ContentItem>) {
    forall i, j :: 0 <= i < j < |items| ==> items[i].id != items[j].id
  }

  function DigitChar(d: nat): (c: char)
    requires d < 10
    ensures '0' <= c <= '9'
  {
    ('0' as int + d) as char
  }

  /** The decimal numeral of `n`, as a template literal writes a non-negative integer. */
  function NatToString(n: nat): (s: string)
    ensures |s| >= 1
    ensures |s| == 1 <==> n < 10
    ensures forall i :: 0 <= i < |s| ==> '0' <= s[i] <= '9'
  {
    if n < 10 then [DigitChar(n)] else NatToString(n / 10) + [DigitChar(n % 10)]
  }

  /** The numeral of an integer, with a leading '-' when negative. */
  function IntToString(i: int): (s: string)
    ensures |s| >= 1
    ensures s[0] == '-' <==> i < 0
  {
    if i < 0 then "-" + NatToString(-i) else NatToString(i)
  }

  lemma {:induction false} NatToStringInjective(a: nat, b: nat)
    requires NatToString(a) == NatToString(b)
    ensures a == b
  {
    var s := NatToString(a);
    if a < 10 {
      assert [DigitChar(a)] == s == [DigitChar(b)];
    } else {
      var n := |s|;
      assert NatToString(a) == NatToString(a / 10) + [DigitChar(a % 10)];
      assert NatToString(b) == NatToString(b / 10) + [DigitChar(b % 10)];
      assert NatToString(a / 10) == s[..n - 1] == NatToString(b / 10);
      assert DigitChar(a % 10) == s[n - 1] == DigitChar(b % 10);
      NatToStringInjective(a / 10, b / 10);
    }
  }

  lemma IntToStringInjective(a: int, b: int)
    requires IntToString(a) == IntToString(b)
    ensures a == b
  {
    if a < 0 {
      assert NatToString(-a) == IntToString(a)[1..] == NatToString(-b);
      NatToStringInjective(-a, -b);
    } else {
      NatToStringInjective(a, b);
    }
  }

  function PostIdToString(id: PostId): string {
    match id
    case NumericId(n) => IntToString(n)
    case TextId(t) => t
  }

  /** Items of different type tags never share an id: their prefixes differ in the first letter. */
  lemma {:induction false} TaggedIdsOfDifferentKindsDiffer(a: ContentItem, b: ContentItem)
    requires Tagged(a) && Tagged(b) && a.kind != b.kind
    ensures a.id != b.id
  {
    assert a.id[0] == Prefix(a.kind)[0];
    assert b.id[0] == Prefix(b.kind)[0];
  }

  // ----- Normalisation -----

  const NewsDefaultCategory := "general"
  const MovieCategory := "movies"
  const SocialCategory := "social"
  const PosterBase := "https://image.tmdb.org/t/p/w500"

  /** JavaScript's `s || fallback` on an optional string: absent and empty both give the fallback. */
  function OrElse(s: Option<string>, fallback: string): string {
    if s.Some? && s.value != "" then s.value else fallback
  }

  /** A value `Math.random()` can return. */
  predicate IsDraw(r: real) {
    0.0 <= r < 1.0
  }

  /** The mock rating `Math.random() * 2 + 5` for the draw `r`. */
  function MockRating(r: real): real {
    r * 2.0 + 5.0
  }

  /** The rating is one the mock formula gives for some draw: it lies in [5, 7). */
  predicate MockRated(c: ContentItem) {
    c.rating.Some? && 5.0 <= c.rating.value < 7.0
  }

  function NewsItem(a: NewsArticle, draw: real, encode: string -> string): ContentItem {
    ContentItem(
      Prefix(News) + encode(a.url), News, a.title, a.description, a.urlToImage,
      Some(a.url), a.author, a.publishedAt,
      Some(OrElse(a.category, NewsDefaultCategory)),
      Some(MockRating(draw)), None)
  }

  /** A poster path that is present and non-empty becomes a full TMDB image URL. */
  function PosterImage(posterPath: Option<string>): Option<string> {
    if posterPath.Some? && posterPath.value != "" then Some(PosterBase + posterPath.value) else None
  }

  function MovieItem(m: MovieResult): ContentItem {
    ContentItem(
      Prefix(Movie) + IntToString(m.id), Movie, m.title, m.overview,
      PosterImage(m.posterPath), None, None, m.releaseDate,
      Some(MovieCategory), m.voteAverage, None)
  }

  function SocialItem(p: SocialPost, draw: real): ContentItem {
    ContentItem(
      Prefix(Social) + PostIdToString(p.id), Social, p.username, Some(p.caption),
      p.image, None, Some(p.username), p.createdAt,
      Some(SocialCategory), Some(MockRating(draw)), None)
  }

  /** `payload.map(...)` of the news case; `draws[i]` is the `Math.random()` value for article i. */
  function NormalizeNews(articles: seq<NewsArticle>, draws: seq<real>, encode: string -> string): seq<ContentItem>
    requires |draws| == |articles|
  {
    seq(|articles|, i requires 0 <= i < |articles| => NewsItem(articles[i], draws[i], encode))
  }

  function NormalizeMovies(movies: seq<MovieResult>): seq<ContentItem> {
    seq(|movies|, i requires 0 <= i < |movies| => MovieItem(movies[i]))
  }

  function NormalizeSocial(posts: seq<SocialPost>, draws: seq<real>): seq<ContentItem>
    requires |draws| == |posts|
  {
    seq(|posts|, i requires 0 <= i < |posts| => SocialItem(posts[i], draws[i]))
  }

  lemma NormalizedNews(articles: seq<NewsArticle>, draws: seq<real>, encode: string -> string)
    requires |draws| == |articles|
    requires forall i :: 0 <= i < |draws| ==> IsDraw(draws[i])
    ensures var items := NormalizeNews(articles, draws, encode);
      && |items| == |articles|
      && forall i :: 0 <= i < |items| ==>
        && items[i].kind == News
        && items[i].id == Prefix(News) + encode(articles[i].url)
        && items[i].url == Some(articles[i].url)
        && items[i].title == articles[i].title
        && items[i].description == articles[i].description
        && items[i].image == articles[i].urlToImage
        && items[i].author == articles[i].author
        && items[i].publishedAt == articles[i].publishedAt
        && items[i].isFavorite.None?
        && ((articles[i].category.None? || articles[i].category.value == "") ==> items[i].category == Some(NewsDefaultCategory))
        && (articles[i].category.Some? && articles[i].category.value != "" ==> items[i].category == articles[i].category)
        && items[i].rating == Some(MockRating(draws[i]))
        && MockRated(items[i])
  {
  }

  lemma NormalizedMovies(movies: seq<MovieResult>)
    ensures var items := NormalizeMovies(movies);
      && |items| == |movies|
      && forall i :: 0 <= i < |items| ==>
        && items[i].kind == Movie
        && items[i].id == Prefix(Movie) + IntToString(movies[i].id)
        && items[i].title == movies[i].title
        && items[i].description == movies[i].overview
        && items[i].url.None? && items[i].author.None? && items[i].isFavorite.None?
        && items[i].rating == movies[i].voteAverage
        && items[i].category == Some(MovieCategory)
        && items[i].publishedAt == movies[i].releaseDate
        && (items[i].image.Some? <==> movies[i].posterPath.Some? && movies[i].posterPath.value != "")
        && (items[i].image.Some? ==> items[i].image.value == PosterBase + movies[i].posterPath.value)
  {
  }

  lemma NormalizedSocial(posts: seq<SocialPost>, draws: seq<real>)
    requires |draws| == |posts|
    requires forall i :: 0 <= i < |draws| ==> IsDraw(draws[i])
    ensures var items := NormalizeSocial(posts, draws);
      && |items| == |posts|
      && forall i :: 0 <= i < |items| ==>
        && items[i].kind == Social
        && items[i].id == Prefix(Social) + PostIdToString(posts[i].id)
        && items[i].title == posts[i].username
        && items[i].author == Some(posts[i].username)
        && items[i].description == Some(posts[i].caption)
        && items[i].image == posts[i].image
        && items[i].url.None? && items[i].isFavorite.None?
        && items[i].category == Some(SocialCategory)
        && items[i].publishedAt == posts[i].createdAt
        && items[i].rating == Some(MockRating(draws[i]))
        && MockRated(items[i])
  {
  }

  /** Distinct URLs give distinct news ids when the URL encoder is injective. */
  lemma NewsIdsDistinct(articles: seq<NewsArticle>, draws: seq<real>, encode: string -> string)
    requires |draws| == |articles|
    requires forall u, v :: encode(u) == encode(v) ==> u == v
    requires forall i, j :: 0 <= i < j < |articles| ==> articles[i].url != articles[j].url
    ensures UniqueIds(NormalizeNews(articles, draws, encode))
  {
    var items := NormalizeNews(articles, draws, encode);
    var p := |Prefix(News)|;
    forall i, j | 0 <= i < j < |items| ensures items[i].id != items[j].id {
      assert items[i].id[p..] == encode(articles[i].url);
      assert items[j].id[p..] == encode(articles[j].url);
    }
  }

  /** Distinct numeric movie ids give distinct item ids. */
  lemma MovieIdsDistinct(movies: seq<MovieResult>)
    requires forall i, j :: 0 <= i < j < |movies| ==> movies[i].id != movies[j].id
    ensures UniqueIds(NormalizeMovies(movies))
  {
    var items := NormalizeMovies(movies);
    forall i, j | 0 <= i < j < |items| ensures items[i].id != items[j].id {
      if items[i].id == items[j].id {
        var p := |Prefix(Movie)|;
        assert IntToString(movies[i].id) == items[i].id[p..] == items[j].id[p..] == IntToString(movies[j].id);
        IntToStringInjective(movies[i].id, movies[j].id);
      }
    }
  }

  /**
   * Distinct numeric post ids (the mock feed's) give distinct item ids. Text
   * ids are left out: `social-${5}` and `social-${"5"}` are the same id.
   */
  lemma SocialIdsDistinct(posts: seq<SocialPost>, draws: seq<real>)
    requires |draws| == |posts|
    requires forall i :: 0 <= i < |posts| ==> posts[i].id.NumericId?
    requires forall i, j :: 0 <= i < j < |posts| ==> posts[i].id != posts[j].id
    ensures UniqueIds(NormalizeSocial(posts, draws))
  {
    var items := NormalizeSocial(posts, draws);
    forall i, j | 0 <= i < j < |items| ensures items[i].id != items[j].id {
      if items[i].id == items[j].id {
        var p := |Prefix(Social)|;
        assert IntToString(posts[i].id.n) == items[i].id[p..] == items[j].id[p..] == IntToString(posts[j].id.n);
        IntToStringInjective(posts[i].id.n, posts[j].id.n);
      }
    }
  }

  // ----- Type partitions -----

  /** The items of one type, in their order (`items.filter(item => item.type === kind)`). */
  function OfType(items: seq<ContentItem>, kind: ContentType): seq<ContentItem> {
    if items == [] then []
    else (if items[0].kind == kind then [items[0]] else []) + OfType(items[1..], kind)
  }

  /** The items of every other type, in their order (`items.filter(item => item.type !== kind)`). */
  function OtherThan(items: seq<ContentItem>, kind: ContentType): seq<ContentItem> {
    if items == [] then []
    else (if items[0].kind != kind then [items[0]] else []) + OtherThan(items[1..], kind)
  }

  /** `[...items.filter(item => item.type !== kind), ...incoming]`: the partition replacement of each `fulfilled` case. */
  function Replace(items: seq<ContentItem>, kind: ContentType, incoming: seq<ContentItem>): seq<ContentItem> {
    OtherThan(items, kind) + incoming
  }

  predicate AllOfType(items: seq<ContentItem>, kind: ContentType) {
    forall c :: c in items ==> c.kind == kind
  }

  /** An item is in a type's partition exactly when it is in the aggregate and has that type. */
  lemma {:induction false} OfTypeMembers(items: seq<ContentItem>, kind: ContentType)
    ensures forall c :: c in OfType(items, kind) <==> c in items && c.kind == kind
  {
    if items != [] {
      OfTypeMembers(items[1..], kind);
      assert items == [items[0]] + items[1..];
    }
  }

  /** An item is kept exactly when it is in the aggregate and has another type. */
  lemma {:induction false} OtherThanMembers(items: seq<ContentItem>, kind: ContentType)
    ensures forall c :: c in OtherThan(items, kind) <==> c in items && c.kind != kind
  {
    if items != [] {
      OtherThanMembers(items[1..], kind);
      assert items == [items[0]] + items[1..];
    }
  }

  lemma {:induction false} OfTypeConcat(a: seq<ContentItem>, b: seq<ContentItem>, kind: ContentType)
    ensures OfType(a + b, kind) == OfType(a, kind) + OfType(b, kind)
  {
    if a != [] {
      var ab := a + b;
      assert ab[0] == a[0] && ab[1..] == a[1..] + b;
      OfTypeConcat(a[1..], b, kind);
    } else {
      assert a + b == b;
    }
  }

  lemma {:induction false} OtherThanConcat(a: seq<ContentItem>, b: seq<ContentItem>, kind: ContentType)
    ensures OtherThan(a + b, kind) == OtherThan(a, kind) + OtherThan(b, kind)
  {
    if a != [] {
      var ab := a + b;
      assert ab[0] == a[0] && ab[1..] == a[1..] + b;
      OtherThanConcat(a[1..], b, kind);
    } else {
      assert a + b == b;
    }
  }

  lemma {:induction false} OfTypeOfOtherThan(items: seq<ContentItem>, kind: ContentType, other: ContentType)
    ensures OfType(OtherThan(items, kind), other) == if other == kind then [] else OfType(items, other)
  {
    if items != [] {
      OfTypeOfOtherThan(items[1..], kind, other);
      var head := if items[0].kind != kind then [items[0]] else [];
      OfTypeConcat(head, OtherThan(items[1..], kind), other);
    }
  }

  lemma {:induction false} OfTypeOfUniform(items: seq<ContentItem>, kind: ContentType, other: ContentType)
    requires AllOfType(items, kind)
    ensures OfType(items, other) == if other == kind then items else []
  {
    if items != [] {
      assert items[0] in items;
      assert AllOfType(items[1..], kind) by {
        forall c | c in items[1..] ensures c.kind == kind { assert c in items; }
      }
      OfTypeOfUniform(items[1..], kind, other);
      assert items == [items[0]] + items[1..];
    }
  }

  lemma {:induction false} OtherThanOfUniform(items: seq<ContentItem>, kind: ContentType, other: ContentType)
    requires AllOfType(items, kind)
    ensures OtherThan(items, other) == if other == kind then [] else items
  {
    if items != [] {
      assert items[0] in items;
      assert AllOfType(items[1..], kind) by {
        forall c | c in items[1..] ensures c.kind == kind { assert c in items; }
      }
      OtherThanOfUniform(items[1..], kind, other);
      assert items == [items[0]] + items[1..];
    }
  }

  lemma {:induction false} OtherThanCommutes(items: seq<ContentItem>, k: ContentType, u: ContentType)
    ensures OtherThan(OtherThan(items, k), u) == OtherThan(OtherThan(items, u), k)
  {
    if items != [] {
      OtherThanCommutes(items[1..], k, u);
      var hk := if items[0].kind != k then [items[0]] else [];
      var hu := if items[0].kind != u then [items[0]] else [];
      OtherThanConcat(hk, OtherThan(items[1..], k), u);
      OtherThanConcat(hu, OtherThan(items[1..], u), k);
    }
  }

  lemma {:induction false} OtherThanIdempotent(items: seq<ContentItem>, k: ContentType)
    ensures OtherThan(OtherThan(items, k), k) == OtherThan(items, k)
  {
    if items != [] {
      OtherThanIdempotent(items[1..], k);
      var hk := if items[0].kind != k then [items[0]] else [];
      OtherThanConcat(hk, OtherThan(items[1..], k), k);
    }
  }

  /** The replaced type's partition becomes exactly the new items, so it has the payload's length. */
  lemma ReplaceInstallsPartition(items: seq<ContentItem>, kind: ContentType, incoming: seq<ContentItem>)
    requires AllOfType(incoming, kind)
    ensures OfType(Replace(items, kind, incoming), kind) == incoming
    ensures |OfType(Replace(items, kind, incoming), kind)| == |incoming|
  {
    OfTypeConcat(OtherThan(items, kind), incoming, kind);
    OfTypeOfOtherThan(items, kind, kind);
    OfTypeOfUniform(incoming, kind, kind);
  }

  /** Replacing one type's partition leaves the sequence of items of every other type unchanged. */
  lemma ReplaceKeepsOtherTypes(items: seq<ContentItem>, kind: ContentType, incoming: seq<ContentItem>, other: ContentType)
    requires AllOfType(incoming, kind)
    requires other != kind
    ensures OfType(Replace(items, kind, incoming), other) == OfType(items, other)
  {
    OfTypeConcat(OtherThan(items, kind), incoming, other);
    OfTypeOfOtherThan(items, kind, other);
    OfTypeOfUniform(incoming, kind, other);
  }

  /** Applying the same replacement twice gives what applying it once gives. */
  lemma ReplaceIdempotent(items: seq<ContentItem>, kind: ContentType, incoming: seq<ContentItem>)
    requires AllOfType(incoming, kind)
    ensures Replace(Replace(items, kind, incoming), kind, incoming) == Replace(items, kind, incoming)
  {
    var kept := OtherThan(items, kind);
    OtherThanConcat(kept, incoming, kind);
    OtherThanIdempotent(items, kind);
    OtherThanOfUniform(incoming, kind, kind);
    assert OtherThan(kept + incoming, kind) == kept + [];
    assert kept + [] == kept;
  }

  /**
   * Two replacements of different types: the result is the untouched items
   * followed by both new partitions, and as a multiset it does not depend on
   * the order of the two calls.
   */
  lemma ReplaceCommutes(items: seq<ContentItem>, k: ContentType, a: seq<ContentItem>, u: ContentType, b: seq<ContentItem>)
    requires k != u
    requires AllOfType(a, k) && AllOfType(b, u)
    ensures Replace(Replace(items, k, a), u, b) == OtherThan(OtherThan(items, k), u) + a + b
    ensures multiset(Replace(Replace(items, k, a), u, b)) == multiset(Replace(Replace(items, u, b), k, a))
  {
    OtherThanConcat(OtherThan(items, k), a, u);
    OtherThanOfUniform(a, k, u);
    OtherThanConcat(OtherThan(items, u), b, k);
    OtherThanOfUniform(b, u, k);
    OtherThanCommutes(items, k, u);
    var rest := OtherThan(OtherThan(items, k), u);
    assert Replace(Replace(items, u, b), k, a) == rest + b + a;
  }

  /** With unique ids, no later item shares the first item's id. */
  lemma HeadIdFresh(items: seq<ContentItem>)
    requires UniqueIds(items) && items != []
    ensures forall c :: c in items[1..] ==> c.id != items[0].id
  {
    forall c | c in items[1..] ensures c.id != items[0].id {
      var m :| 0 <= m < |items[1..]| && items[1..][m] == c;
      assert items[m + 1] == c;
    }
  }

  lemma TailKeepsUniqueIds(items: seq<ContentItem>)
    requires UniqueIds(items) && items != []
    ensures UniqueIds(items[1..])
  {
    var tail := items[1..];
    forall i, j | 0 <= i < j < |tail| ensures tail[i].id != tail[j].id {
      assert tail[i] == items[i + 1] && tail[j] == items[j + 1];
    }
  }

  /** Putting an item in front of unique ids keeps them unique when its id is new. */
  lemma ConsKeepsUniqueIds(x: ContentItem, rest: seq<ContentItem>)
    requires UniqueIds(rest)
    requires forall c :: c in rest ==> c.id != x.id
    ensures UniqueIds([x] + rest)
  {
    var r := [x] + rest;
    forall i, j | 0 <= i < j < |r| ensures r[i].id != r[j].id {
      assert r[j] == rest[j - 1];
      if i > 0 {
        assert r[i] == rest[i - 1];
      }
    }
  }

  lemma {:induction false} OtherThanKeepsUniqueIds(items: seq<ContentItem>, kind: ContentType)
    requires UniqueIds(items)
    ensures UniqueIds(OtherThan(items, kind))
  {
    if items != [] {
      var tail := items[1..];
      TailKeepsUniqueIds(items);
      OtherThanKeepsUniqueIds(tail, kind);
      var rest := OtherThan(tail, kind);
      if items[0].kind != kind {
        HeadIdFresh(items);
        OtherThanMembers(tail, kind);
        ConsKeepsUniqueIds(items[0], rest);
        assert OtherThan(items, kind) == [items[0]] + rest;
      } else {
        assert OtherThan(items, kind) == rest;
      }
    }
  }

  /**
   * When the aggregate's ids are unique and tagged with their type, and the
   * new partition's ids are unique and tagged with the replaced type, the
   * result's ids are unique.
   */
  lemma ReplaceKeepsUniqueIds(items: seq<ContentItem>, kind: ContentType, incoming: seq<ContentItem>)
    requires UniqueIds(items) && AllTagged(items)
    requires UniqueIds(incoming) && AllTagged(incoming) && AllOfType(incoming, kind)
    ensures UniqueIds(Replace(items, kind, incoming))
    ensures AllTagged(Replace(items, kind, incoming))
  {
    var kept := OtherThan(items, kind);
    OtherThanKeepsUniqueIds(items, kind);
    OtherThanMembers(items, kind);
    var r := kept + incoming;
    forall i, j | 0 <= i < j < |r| ensures r[i].id != r[j].id {
      if j < |kept| {
        assert r[i] == kept[i] && r[j] == kept[j];
      } else if i >= |kept| {
        assert r[i] == incoming[i - |kept|] && r[j] == incoming[j - |kept|];
      } else {
        assert r[i] == kept[i] && r[i] in kept && r[i] in items;
        assert r[j] == incoming[j - |kept|] && r[j] in incoming;
        TaggedIdsOfDifferentKindsDiffer(r[i], r[j]);
      }
    }
  }

  // ----- Trending -----

  const TrendingLimit := 5
  const TrendingThreshold := 7.0

  /** `item.rating && item.rating > 7` */
  predicate IsHot(c: ContentItem) {
    c.rating.Some? && c.rating.value > TrendingThreshold
  }

  /** The items rated above the threshold, in their order. */
  function Hot(items: seq<ContentItem>): (r: seq<ContentItem>)
    ensures forall c :: c in r <==> c in items && IsHot(c)
    ensures |r| <= |items|
  {
    if items == [] then []
    else (if IsHot(items[0]) then [items[0]] else []) + Hot(items[1..])
  }

  /** The filter keeps every copy of each hot item and drops every copy of the others. */
  lemma {:induction false} HotCounts(items: seq<ContentItem>)
    ensures forall c :: multiset(Hot(items))[c] == if IsHot(c) then multiset(items)[c] else 0
  {
    if items != [] {
      HotCounts(items[1..]);
      assert items == [items[0]] + items[1..];
    }
  }

  /** The filter works element by element, so it keeps the hot items in their order. */
  lemma {:induction false} HotConcat(a: seq<ContentItem>, b: seq<ContentItem>)
    ensures Hot(a + b) == Hot(a) + Hot(b)
  {
    if a == [] {
      assert a + b == b;
    } else {
      var ab := a + b;
      assert ab[0] == a[0] && ab[1..] == a[1..] + b;
      HotConcat(a[1..], b);
    }
  }

  /**
   * The comparator `dateB - dateA` is negative, so `a` goes first, exactly when
   * both dates parse and `a` is strictly later. A NaN difference counts as 0.
   */
  predicate Newer(a: ContentItem, b: ContentItem) {
    a.publishedAt.Some? && b.publishedAt.Some? && a.publishedAt.value > b.publishedAt.value
  }

  predicate Dated(items: seq<ContentItem>) {
    forall c :: c in items ==> c.publishedAt.Some?
  }

  /** No item comes after one it is newer than. */
  predicate NewestFirst(items: seq<ContentItem>) {
    forall i, j :: 0 <= i < j < |items| ==> !Newer(items[j], items[i])
  }

  /** Inserts `x` before the first item it is newer than, so after every item the comparator ties it with. */
  function InsertByDate(x: ContentItem, sorted: seq<ContentItem>): (r: seq<ContentItem>)
    ensures multiset(r) == multiset(sorted) + multiset{x}
    ensures |r| == |sorted| + 1
  {
    if sorted == [] then [x]
    else if Newer(x, sorted[0]) then [x] + sorted
    else
      assert sorted == [sorted[0]] + sorted[1..];
      [sorted[0]] + InsertByDate(x, sorted[1..])
  }

  /**
   * The stable sort of `.sort(...)`, as insertion of each item, in input
   * order, into the sorted prefix.
   */
  function SortByDate(items: seq<ContentItem>): (r: seq<ContentItem>)
    ensures multiset(r) == multiset(items)
    ensures |r| == |items|
  {
    if items == [] then []
    else
      var last := |items| - 1;
      assert items == items[..last] + [items[last]];
      InsertByDate(items[last], SortByDate(items[..last]))
  }

  function Min(a: int, b: int): int {
    if a <= b then a else b
  }

  /** `items.filter(hot).sort(byDateDesc).slice(0, 5)` */
  function Trending(items: seq<ContentItem>): seq<ContentItem> {
    var sorted := SortByDate(Hot(items));
    sorted[..Min(TrendingLimit, |sorted|)]
  }

  lemma {:induction false} InsertByDateNewestFirst(x: ContentItem, sorted: seq<ContentItem>)
    requires x.publishedAt.Some? && Dated(sorted) && NewestFirst(sorted)
    ensures NewestFirst(InsertByDate(x, sorted))
  {
    if sorted == [] {
    } else if Newer(x, sorted[0]) {
      var r := [x] + sorted;
      forall i, j | 0 <= i < j < |r| ensures !Newer(r[j], r[i]) {
        if i == 0 {
          assert sorted[0] in sorted && r[j] == sorted[j - 1] && r[j] in sorted;
          if j > 1 {
            assert !Newer(sorted[j - 1], sorted[0]);
          }
        } else {
          assert r[i] == sorted[i - 1] && r[j] == sorted[j - 1];
        }
      }
    } else {
      var tail := sorted[1..];
      assert Dated(tail) by {
        forall c | c in tail ensures c.publishedAt.Some? { assert c in sorted; }
      }
      assert NewestFirst(tail) by {
        forall i, j | 0 <= i < j < |tail| ensures !Newer(tail[j], tail[i]) {
          assert tail[i] == sorted[i + 1] && tail[j] == sorted[j + 1];
        }
      }
      InsertByDateNewestFirst(x, tail);
      var t := InsertByDate(x, tail);
      var r := [sorted[0]] + t;
      assert sorted[0] in sorted;
      forall i, j | 0 <= i < j < |r| ensures !Newer(r[j], r[i]) {
        if i == 0 {
          var e := r[j];
          assert e == t[j - 1] && e in multiset(t);
          if e != x {
            assert e in multiset(tail);
            var m :| 0 <= m < |tail| && tail[m] == e;
            assert sorted[m + 1] == e;
          }
        } else {
          assert r[i] == t[i - 1] && r[j] == t[j - 1];
        }
      }
    }
  }

  lemma {:induction false} SortByDateNewestFirst(items: seq<ContentItem>)
    requires Dated(items)
    ensures NewestFirst(SortByDate(items))
  {
    if items != [] {
      var last := |items| - 1;
      var init := items[..last];
      assert items[last] in items;
      assert Dated(init) by {
        forall c | c in init ensures c.publishedAt.Some? { assert c in items; }
      }
      SortByDateNewestFirst(init);
      var s := SortByDate(init);
      assert Dated(s) by {
        forall c | c in s ensures c.publishedAt.Some? {
          assert c in multiset(s);
          assert c in multiset(init);
        }
      }
      InsertByDateNewestFirst(items[last], s);
    }
  }

  /** At most five items trend, and fewer only when fewer are rated above 7. */
  lemma TrendingSize(items: seq<ContentItem>)
    ensures |Trending(items)| == Min(TrendingLimit, |Hot(items)|)
    ensures |Trending(items)| <= TrendingLimit
    ensures |Hot(items)| == |multiset(Hot(items))|
    ensures forall c :: multiset(Hot(items))[c] == if IsHot(c) then multiset(items)[c] else 0
  {
    HotCounts(items);
  }

  /** Every trending item is an item of the aggregate with a defined rating above 7. */
  lemma TrendingFromHotItems(items: seq<ContentItem>)
    ensures forall t :: t in Trending(items) ==> t in items && IsHot(t)
    ensures multiset(Trending(items)) <= multiset(Hot(items))
  {
    var hot := Hot(items);
    var sorted := SortByDate(hot);
    var k := Min(TrendingLimit, |sorted|);
    var trending := sorted[..k];
    assert sorted == trending + sorted[k..];
    assert multiset(sorted) == multiset(trending) + multiset(sorted[k..]);
    assert multiset(trending) <= multiset(hot);
    forall t | t in trending ensures t in items && IsHot(t) {
      assert t in multiset(hot);
      assert t in hot;
    }
  }

  /**
   * When every item rated above 7 has a parseable date, the trending items
   * come newest first and no item left out is newer than any item kept.
   */
  lemma TrendingNewestOfHot(items: seq<ContentItem>)
    requires Dated(Hot(items))
    ensures NewestFirst(Trending(items))
    ensures forall x, t :: x in Hot(items) && x !in Trending(items) && t in Trending(items) ==>
      t.publishedAt.Some? && x.publishedAt.Some? && x.publishedAt.value <= t.publishedAt.value
  {
    var hot := Hot(items);
    var sorted := SortByDate(hot);
    var k := Min(TrendingLimit, |sorted|);
    var trending := sorted[..k];
    SortByDateNewestFirst(hot);
    assert NewestFirst(trending) by {
      forall i, j | 0 <= i < j < |trending| ensures !Newer(trending[j], trending[i]) {
        assert trending[i] == sorted[i] && trending[j] == sorted[j];
      }
    }
    forall x, t | x in hot && x !in trending && t in trending
      ensures t.publishedAt.Some? && x.publishedAt.Some? && x.publishedAt.value <= t.publishedAt.value
    {
      assert x in multiset(sorted);
      var j :| 0 <= j < |sorted| && sorted[j] == x;
      var i :| 0 <= i < k && trending[i] == t;
      assert sorted[i] == t && t in multiset(sorted);
      assert !Newer(sorted[j], sorted[i]);
    }
  }

  /** Three items rated 8.5, 6.0 and 9.0, published on days 1, 2 and 3: the day-3 and day-1 items trend, in that order. */
  lemma TrendingExample(day1: ContentItem, day2: ContentItem, day3: ContentItem)
    requires day1.rating == Some(8.5) && day1.publishedAt == Some(1)
    requires day2.rating == Some(6.0) && day2.publishedAt == Some(2)
    requires day3.rating == Some(9.0) && day3.publishedAt == Some(3)
    ensures Trending([day1, day2, day3]) == [day3, day1]
  {
    HotExample(day1, day2, day3);
    SortExample(day1, day3);
    var sorted := [day3, day1];
    assert sorted[..Min(TrendingLimit, |sorted|)] == sorted;
  }

  lemma HotExample(day1: ContentItem, day2: ContentItem, day3: ContentItem)
    requires IsHot(day1) && !IsHot(day2) && IsHot(day3)
    ensures Hot([day1, day2, day3]) == [day1, day3]
  {
    var items := [day1, day2, day3];
    assert items[1..] == [day2, day3] && [day2, day3][1..] == [day3] && [day3][1..] == [];
    assert Hot([day3]) == [day3];
    assert Hot([day2, day3]) == [day3];
  }

  lemma SortExample(older: ContentItem, newer: ContentItem)
    requires Newer(newer, older)
    ensures SortByDate([older, newer]) == [newer, older]
  {
    assert [older, newer][..1] == [older] && [older][..0] == [];
    assert SortByDate([older]) == [older];
    assert InsertByDate(newer, [older]) == [newer, older];
  }

  /** Every item except the movies carries a mock rating, as the normalisers give it. */
  predicate RatingsAsDrawn(items: seq<ContentItem>) {
    forall c :: c in items && c.kind != Movie ==> MockRated(c)
  }

  /** With mock ratings in [5, 7) no news or social item can pass the `rating > 7` filter. */
  lemma OnlyMoviesTrend(items: seq<ContentItem>)
    requires RatingsAsDrawn(items)
    ensures forall t :: t in Trending(items) ==> t.kind == Movie
  {
    TrendingFromHotItems(items);
  }

  /**
   * One completed fetch, as its `fulfilled` case receives it: the payload and
   * the `Math.random()` values drawn while normalising it.
   */
  datatype Fetch =
    | NewsFetch(articles: seq<NewsArticle>, newsDraws: seq<real>, encode: string -> string)
    | MoviesFetch(movies: seq<MovieResult>)
    | SocialFetch(posts: seq<SocialPost>, socialDraws: seq<real>)

  function FetchKind(f: Fetch): ContentType {
    match f
    case NewsFetch(_, _, _) => News
    case MoviesFetch(_) => Movie
    case SocialFetch(_, _) => Social
  }

  /** One draw in [0, 1) per payload element. */
  predicate WellDrawn(f: Fetch) {
    match f
    case NewsFetch(articles, draws, _) => |draws| == |articles| && forall i :: 0 <= i < |draws| ==> IsDraw(draws[i])
    case MoviesFetch(_) => true
    case SocialFetch(posts, draws) => |draws| == |posts| && forall i :: 0 <= i < |draws| ==> IsDraw(draws[i])
  }

  /** The normalised items the fetch's `fulfilled` case installs. */
  function FetchItems(f: Fetch): seq<ContentItem>
    requires WellDrawn(f)
  {
    match f
    case NewsFetch(articles, draws, encode) => NormalizeNews(articles, draws, encode)
    case MoviesFetch(movies) => NormalizeMovies(movies)
    case SocialFetch(posts, draws) => NormalizeSocial(posts, draws)
  }

  /** A fetch installs items of its own type only, and news and social items carry mock ratings. */
  lemma FetchItemsOfKind(f: Fetch)
    requires WellDrawn(f)
    ensures AllOfType(FetchItems(f), FetchKind(f))
    ensures FetchKind(f) != Movie ==> forall c :: c in FetchItems(f) ==> MockRated(c)
  {
    match f
    case NewsFetch(articles, draws, encode) =>
      NormalizedNews(articles, draws, encode);
    case MoviesFetch(movies) =>
      NormalizedMovies(movies);
    case SocialFetch(posts, draws) =>
      NormalizedSocial(posts, draws);
  }

  /**
   * The `fulfilled` cases of a run of completed fetches, in completion order.
   * `Promise.all` fixes no order, and each fetch, a refetch included, has its
   * own payload and draws.
   */
  function ApplyFetches(items: seq<ContentItem>, fetches: seq<Fetch>): seq<ContentItem>
    requires forall i :: 0 <= i < |fetches| ==> WellDrawn(fetches[i])
    decreases |fetches|
  {
    if fetches == [] then items
    else ApplyFetches(Replace(items, FetchKind(fetches[0]), FetchItems(fetches[0])), fetches[1..])
  }

  predicate Fetched(fetches: seq<Fetch>, kind: ContentType) {
    exists i :: 0 <= i < |fetches| && FetchKind(fetches[i]) == kind
  }

  /** `c` was installed by one of the fetches. */
  predicate FromFetch(fetches: seq<Fetch>, c: ContentItem) {
    exists i :: 0 <= i < |fetches| && WellDrawn(fetches[i]) && c in FetchItems(fetches[i])
  }

  /**
   * After a run of fetches, an item of a fetched type was installed by one of
   * them, and an item of any other type was in the aggregate before.
   */
  lemma {:induction false} ApplyFetchesMembers(items: seq<ContentItem>, fetches: seq<Fetch>)
    requires forall i :: 0 <= i < |fetches| ==> WellDrawn(fetches[i])
    decreases |fetches|
    ensures forall c :: c in ApplyFetches(items, fetches) ==>
      if Fetched(fetches, c.kind) then FromFetch(fetches, c) else c in items
  {
    if fetches != [] {
      var f := fetches[0];
      var rest := fetches[1..];
      var once := Replace(items, FetchKind(f), FetchItems(f));
      ApplyFetchesMembers(once, rest);
      OtherThanMembers(items, FetchKind(f));
      FetchItemsOfKind(f);
      forall c | c in ApplyFetches(items, fetches)
        ensures if Fetched(fetches, c.kind) then FromFetch(fetches, c) else c in items
      {
        if Fetched(rest, c.kind) {
          var j :| 0 <= j < |rest| && WellDrawn(rest[j]) && c in FetchItems(rest[j]);
          assert fetches[j + 1] == rest[j];
          var k :| 0 <= k < |rest| && FetchKind(rest[k]) == c.kind;
          assert fetches[k + 1] == rest[k];
        } else if c in FetchItems(f) {
          assert FetchKind(fetches[0]) == c.kind;
        } else {
          assert c in items && c.kind != FetchKind(f);
        }
      }
    }
  }

  /**
   * After the home page's refresh, once a news fetch and a social fetch have
   * both landed (in any order, from any starting state, with any other fetches
   * and refetches in between), only movies can trend.
   */
  lemma RefreshTrendsOnlyMovies(items: seq<ContentItem>, fetches: seq<Fetch>)
    requires forall i :: 0 <= i < |fetches| ==> WellDrawn(fetches[i])
    requires Fetched(fetches, News) && Fetched(fetches, Social)
    ensures forall t :: t in Trending(ApplyFetches(items, fetches)) ==> t.kind == Movie
  {
    var refreshed := ApplyFetches(items, fetches);
    ApplyFetchesMembers(items, fetches);
    forall c | c in refreshed && c.kind != Movie ensures MockRated(c) {
      assert Fetched(fetches, c.kind);
      var i :| 0 <= i < |fetches| && WellDrawn(fetches[i]) && c in FetchItems(fetches[i]);
      FetchItemsOfKind(fetches[i]);
    }
    OnlyMoviesTrend(refreshed);
  }

  // ----- Slice state -----

  const NewsFetchFailed := "Failed to fetch news"
  const MoviesFetchFailed := "Failed to fetch movies"
  const SocialFetchFailed := "Failed to fetch social posts"

  function DefaultFetchError(kind: ContentType): string {
    match kind
    case News => NewsFetchFailed
    case Movie => MoviesFetchFailed
    case Social => SocialFetchFailed
  }

  /** `action.error.message || 'Failed to fetch ...'` */
  function FetchErrorMessage(kind: ContentType, thrown: Option<string>): (msg: string)
    ensures msg != ""
    ensures thrown.Some? && thrown.value != "" ==> msg == thrown.value
    ensures (thrown.None? || thrown.value == "") ==> msg == DefaultFetchError(kind)
  {
    OrElse(thrown, DefaultFetchError(kind))
  }

  class ContentState {
    var items: seq<ContentItem>
    var loading: bool
    var error: Option<string>
    var searchQuery: string
    var searchResults: seq<ContentItem>
    var trendingItems: seq<ContentItem>

    /** No error is shown while a fetch is marked as loading. */
    ghost predicate Valid()
      reads this
    {
      loading ==> error.None?
    }

    /** `initialState` */
    constructor ()
      ensures Valid()
      ensures items == [] && !loading && error == None && searchQuery == ""
      ensures searchResults == [] && trendingItems == []
    {
      items := [];
      loading := false;
      error := None;
      searchQuery := "";
      searchResults := [];
      trendingItems := [];
    }

    method SetSearchQuery(query: string)
      requires Valid()
      modifies this
      ensures Valid()
      ensures searchQuery == query
      ensures items == old(items) && loading == old(loading) && error == old(error)
      ensures searchResults == old(searchResults) && trendingItems == old(trendingItems)
    {
      searchQuery := query;
    }

    method SetSearchResults(results: seq<ContentItem>)
      requires Valid()
      modifies this
      ensures Valid()
      ensures searchResults == results
      ensures items == old(items) && loading == old(loading) && error == old(error)
      ensures searchQuery == old(searchQuery) && trendingItems == old(trendingItems)
    {
      searchResults := results;
    }

    /** Replaces the whole aggregate with the payload, as given. */
    method ReorderItems(payload: seq<ContentItem>)
      requires Valid()
      modifies this
      ensures Valid()
      ensures items == payload
      ensures loading == old(loading) && error == old(error) && searchQuery == old(searchQuery)
      ensures searchResults == old(searchResults) && trendingItems == old(trendingItems)
    {
      items := payload;
    }

    method ClearError()
      requires Valid()
      modifies this
      ensures Valid()
      ensures error == None
      ensures items == old(items) && loading == old(loading) && searchQuery == old(searchQuery)
      ensures searchResults == old(searchResults) && trendingItems == old(trendingItems)
    {
      error := None;
    }

    method UpdateTrending()
      requires Valid()
      modifies this
      ensures Valid()
      ensures trendingItems == Trending(items)
      ensures |trendingItems| <= TrendingLimit
      ensures forall t :: t in trendingItems ==> t in items && IsHot(t)
      ensures items == old(items) && loading == old(loading) && error == old(error)
      ensures searchQuery == old(searchQuery) && searchResults == old(searchResults)
    {
      TrendingFromHotItems(items);
      trendingItems := Trending(items);
    }

    /** The `pending` case of all three fetches. */
    method FetchPending()
      requires Valid()
      modifies this
      ensures Valid()
      ensures loading && error == None
      ensures items == old(items) && searchQuery == old(searchQuery)
      ensures searchResults == old(searchResults) && trendingItems == old(trendingItems)
    {
      loading := true;
      error := None;
    }

    /** The `rejected` case of the fetch of `kind`; `thrown` is the error's message. */
    method FetchRejected(kind: ContentType, thrown: Option<string>)
      requires Valid()
      modifies this
      ensures Valid()
      ensures !loading && error == Some(FetchErrorMessage(kind, thrown))
      ensures items == old(items) && searchQuery == old(searchQuery)
      ensures searchResults == old(searchResults) && trendingItems == old(trendingItems)
    {
      loading := false;
      error := Some(FetchErrorMessage(kind, thrown));
    }

    /** `fetchNews.fulfilled`; `draws[i]` is the `Math.random()` value drawn for article i. */
    method FetchNewsFulfilled(articles: seq<NewsArticle>, draws: seq<real>, encode: string -> string)
      requires Valid()
      requires |draws| == |articles|
      modifies this
      ensures Valid()
      ensures !loading && error == old(error)
      ensures items == Replace(old(items), News, NormalizeNews(articles, draws, encode))
      ensures searchQuery == old(searchQuery)
      ensures searchResults == old(searchResults) && trendingItems == old(trendingItems)
    {
      loading := false;
      var newsItems := NormalizeNews(articles, draws, encode);
      items := OtherThan(items, News) + newsItems;
    }

    method FetchMoviesFulfilled(movies: seq<MovieResult>)
      requires Valid()
      modifies this
      ensures Valid()
      ensures !loading && error == old(error)
      ensures items == Replace(old(items), Movie, NormalizeMovies(movies))
      ensures searchQuery == old(searchQuery)
      ensures searchResults == old(searchResults) && trendingItems == old(trendingItems)
    {
      loading := false;
      var movieItems := NormalizeMovies(movies);
      items := OtherThan(items, Movie) + movieItems;
    }

    /** `fetchSocialPosts.fulfilled`; `draws[i]` is the `Math.random()` value drawn for post i. */
    method FetchSocialPostsFulfilled(posts: seq<SocialPost>, draws: seq<real>)
      requires Valid()
      requires |draws| == |posts|
      modifies this
      ensures Valid()
      ensures !loading && error == old(error)
      ensures items == Replace(old(items), Social, NormalizeSocial(posts, draws))
      ensures searchQuery == old(searchQuery)
      ensures searchResults == old(searchResults) && trendingItems == old(trendingItems)
    {
      loading := false;
      var socialItems := NormalizeSocial(posts, draws);
      items := OtherThan(items, Social) + socialItems;
    }
  }
}
