/**
 * The in-memory store behind the content site's data layer
 * (src/lib/mock-db.ts): a `MockDatabase` that owns the generated articles,
 * comments and analytics and an append-only request log, with its queries
 * and its one in-place update. The artificial `setTimeout` delays and the
 * console output are left out; the clock `logRequest` reads is the `now`
 * parameter of the operations that log.
 */
module MockDb {
  import opened Wrappers
  import opened JsSemantics
  import opened Types
  import opened MockDataGenerators

  // ---------------------------------------------------------------------
  // Options, defaults and the request log
  // ---------------------------------------------------------------------

  /** The options object of `findArticles`; an absent field is None. The
      `delay` only postpones the answer, so no filter reads it, but the
      request log records it with the rest of the object. */
  datatype FindOptions = FindOptions(
    category: Option<string>,
    limit: Option<int>,
    offset: Option<int>,
    featured: Option<bool>,
    delay: Option<int>)

  /** The options object of `getTotalArticleCount`. */
  datatype CountOptions = CountOptions(category: Option<string>)

  /** The `params` value a request is logged with. */
  datatype Params =
    | NoParams                                   // `{}`, the default of `logRequest`
    | FindParams(find: FindOptions)
    | CountParams(count: CountOptions)
    | RelatedParams(articleId: string, limit: int)

  /** One entry of the request log; `name` is the method that was called. */
  datatype LogEntry = LogEntry(name: string, params: Params, timestamp: int)

  /** Default parameter values (`limit = 5` and so on). */
  const TRENDING_LIMIT: int := 5
  const RECENT_LIMIT: int := 10
  const TOP_LIMIT: int := 10
  const RELATED_LIMIT: int := 4
  /** The fallbacks of `options?.limit || 10` and `options?.offset || 0`. */
  const PAGE_LIMIT: int := 10
  const PAGE_OFFSET: int := 0

  /** `x || d` on an optional number: absent and 0 (falsy) both give `d`. */
  function OrDefault(x: Option<int>, d: int): (r: int)
    ensures x.Some? && x.value != 0 ==> r == x.value
    ensures x.None? || x.value == 0 ==> r == d
  {
    if x.Some? && x.value != 0 then x.value else d
  }

  /** `options?.category` used as a condition: only a non-empty slug filters. */
  function CategoryFilter(category: Option<string>): Option<string>
  {
    if category.Some? && category.value != "" then category else None
  }

  predicate MatchesCategory(a: Article, category: Option<string>)
  {
    CategoryFilter(category).Some? ==> a.category.slug == CategoryFilter(category).value
  }

  predicate MatchesFeatured(a: Article, featured: Option<bool>)
  {
    featured.Some? ==> a.featured == featured.value
  }

  function InCategory(slug: string): Article -> bool { (a: Article) => a.category.slug == slug }

  function InCategoryId(id: string): Article -> bool { (a: Article) => a.category.id == id }

  function IsFeatured(featured: bool): Article -> bool { (a: Article) => a.featured == featured }

  function HasId(id: string): Article -> bool { (a: Article) => a.id == id }

  function NotId(id: string): Article -> bool { (a: Article) => a.id != id }

  function HasSlug(slug: string): Article -> bool { (a: Article) => a.slug == slug }

  // ---------------------------------------------------------------------
  // Filtering and paging (findArticles, getTotalArticleCount)
  // ---------------------------------------------------------------------

  lemma SubsequenceRefl<T>(s: seq<T>)
    ensures IsSubsequence(s, s)
  {
    assert s[..|s|] == s;
    PrefixSubsequence(s, |s|);
  }

  /** The articles in a category, or all of them when no slug is given, in stored order. */
  function ByCategory(articles: seq<Article>, category: Option<string>): (r: seq<Article>)
    ensures IsSubsequence(r, articles)
    ensures forall a :: a in r ==> MatchesCategory(a, category)
    ensures forall a :: a in articles && MatchesCategory(a, category) ==> a in r
    ensures CategoryFilter(category).None? ==> r == articles
    ensures CategoryFilter(category).Some? ==> |r| == Count(articles, InCategory(CategoryFilter(category).value))
  {
    match CategoryFilter(category)
    case None =>
      SubsequenceRefl(articles);
      articles
    case Some(slug) =>
      FilterLength(articles, InCategory(slug));
      Filter(articles, InCategory(slug))
  }

  /** The articles `findArticles` pages through: those in the category and
      with the featured flag the options ask for, in stored order. */
  function Matching(articles: seq<Article>, o: FindOptions): (r: seq<Article>)
    ensures IsSubsequence(r, articles)
    ensures forall a :: a in r ==> MatchesCategory(a, o.category) && MatchesFeatured(a, o.featured)
    ensures forall a :: a in articles && MatchesCategory(a, o.category) && MatchesFeatured(a, o.featured)
                        ==> a in r
  {
    var byCategory := ByCategory(articles, o.category);
    if o.featured.Some? then
      SubsequenceTrans(Filter(byCategory, IsFeatured(o.featured.value)), byCategory, articles);
      Filter(byCategory, IsFeatured(o.featured.value))
    else byCategory
  }

  /** `options?.offset || 0`. */
  function PageOffset(o: FindOptions): int { OrDefault(o.offset, PAGE_OFFSET) }

  /** `options?.limit || 10`. */
  function PageLimit(o: FindOptions): int { OrDefault(o.limit, PAGE_LIMIT) }

  /** `results.slice(offset, offset + limit)`: the page of the matching articles. */
  function ArticlesPage(articles: seq<Article>, o: FindOptions): (r: seq<Article>)
    ensures IsSubsequence(r, articles)
    ensures forall a :: a in r ==> MatchesCategory(a, o.category) && MatchesFeatured(a, o.featured)
    ensures 0 <= PageLimit(o) ==> |r| <= PageLimit(o)
    ensures 0 <= PageOffset(o) && 0 <= PageLimit(o) ==>
              r == Matching(articles, o)[Min(PageOffset(o), |Matching(articles, o)|)
                                         ..Min(PageOffset(o) + PageLimit(o), |Matching(articles, o)|)]
  {
    var m := Matching(articles, o);
    PageIn(articles, m, PageOffset(o), PageOffset(o) + PageLimit(o));
    Slice(m, PageOffset(o), PageOffset(o) + PageLimit(o))
  }

  lemma PageIn(articles: seq<Article>, m: seq<Article>, start: int, end: int)
    requires IsSubsequence(m, articles)
    ensures IsSubsequence(Slice(m, start, end), articles)
    ensures forall a :: a in Slice(m, start, end) ==> a in m
  {
    SliceSubsequence(m, start, end);
    SubsequenceTrans(Slice(m, start, end), m, articles);
    forall a | a in Slice(m, start, end) ensures a in m {
      assert a in multiset(Slice(m, start, end));
    }
  }

  /** `findArticles()` and `findArticles({})` page through the same articles. */
  const NO_OPTIONS: FindOptions := FindOptions(None, None, None, None, None)

  /** What `logRequest('findArticles', options)` records: `{}` when the options are absent. */
  function FindLog(options: Option<FindOptions>): Params
  {
    match options
    case None => NoParams
    case Some(o) => FindParams(o)
  }

  function CountLog(options: Option<CountOptions>): Params
  {
    match options
    case None => NoParams
    case Some(o) => CountParams(o)
  }

  // ---------------------------------------------------------------------
  // Article ids and incrementViewCount
  // ---------------------------------------------------------------------

  /** No two stored articles share an id. */
  ghost predicate UniqueIds(articles: seq<Article>)
  {
    forall id :: Count(articles, HasId(id)) <= 1
  }

  /** The generator gives article i the id `article-i`, so the ids are unique. */
  lemma {:induction false} GeneratedIdsUnique(built: seq<Article>, now: int)
    requires RoundsGenerated(built, now)
    ensures UniqueIds(built)
  {
    if built != [] {
      var n := |built|;
      var init, last := built[..n - 1], built[n - 1];
      assert built == init + [last];
      assert RoundsGenerated(init, now) by {
        forall k | 0 <= k < |init| ensures IsGeneratedArticle(init[k], k + 1, now) {
          assert init[k] == built[k];
        }
      }
      GeneratedIdsUnique(init, now);
      assert last.id == ArticleId(n);
      forall id ensures Count(built, HasId(id)) <= 1 {
        CountSnoc(init, last, HasId(id));
        if last.id == id {
          forall k | 0 <= k < |init| ensures !HasId(id)(init[k]) {
            assert init[k] == built[k];
            if init[k].id == id {
              ArticleIdInjective(k + 1, n);
            }
          }
          CountNone(init, HasId(id));
        }
      }
    }
  }

  /** The list `generateMockArticles` returns has unique ids. */
  lemma GeneratedArticlesUnique(articles: seq<Article>, count: int, now: int)
    requires exists built :: |built| == Max(count, 0) && RoundsGenerated(built, now) &&
                             articles == SortDesc(built, PublishedAtOf)
    ensures UniqueIds(articles)
  {
    var built :| |built| == Max(count, 0) && RoundsGenerated(built, now) &&
                 articles == SortDesc(built, PublishedAtOf);
    GeneratedIdsUnique(built, now);
    SortedIdsUnique(built);
  }

  /** `generateMockArticles(50)` as the constructor calls it: fifty articles,
      newest first, with unique ids. */
  method GenerateStoredArticles(rng: RandomSource, now: int) returns (articles: seq<Article>)
    requires rng.Valid()
    modifies rng
    ensures |articles| == 50 && SortedDesc(articles, PublishedAtOf) && UniqueIds(articles)
  {
    articles := GenerateMockArticles(rng, 50, now);
    GeneratedArticlesUnique(articles, 50, now);
  }

  /** Sorting keeps the ids unique. */
  lemma SortedIdsUnique(built: seq<Article>)
    requires UniqueIds(built)
    ensures UniqueIds(SortDesc(built, PublishedAtOf))
  {
    forall id ensures Count(SortDesc(built, PublishedAtOf), HasId(id)) <= 1 {
      SortDescCount(built, PublishedAtOf, HasId(id));
    }
  }

  /** `incrementViewCount(articleId)` on the article list. */
  function IncrementView(articles: seq<Article>, articleId: string): seq<Article>
  {
    match FindIndex(articles, HasId(articleId))
    case None => articles
    case Some(k) => articles[k := articles[k].(viewCount := articles[k].viewCount + 1)]
  }

  /** The first article with the id gains one view, and nothing else changes;
      an unknown id changes nothing. */
  lemma IncrementViewSpec(articles: seq<Article>, articleId: string)
    ensures var r := IncrementView(articles, articleId);
            && |r| == |articles|
            && (forall k :: 0 <= k < |r| ==> r[k].id == articles[k].id)
            && (forall k :: 0 <= k < |r| && articles[k].id != articleId ==> r[k] == articles[k])
            && ((forall k :: 0 <= k < |articles| ==> articles[k].id != articleId) ==> r == articles)
            && (forall k :: 0 <= k < |r| && articles[k].id == articleId ==>
                  (forall j :: 0 <= j < k ==> articles[j].id != articleId) ==>
                    r[k] == articles[k].(viewCount := articles[k].viewCount + 1))
  {
    var found := FindIndex(articles, HasId(articleId));
    if found.Some? {
      var k := found.value;
      assert articles[k].id == articleId by {
        assert HasId(articleId)(articles[k]);
      }
      forall j | 0 <= j < k ensures articles[j].id != articleId {
        assert !HasId(articleId)(articles[j]);
      }
    } else {
      forall k | 0 <= k < |articles|
        ensures articles[k].id != articleId
      {
        assert !HasId(articleId)(articles[k]);
      }
    }
  }

  lemma {:induction false} SumOfViewsUpdate(s: seq<Article>, k: nat, a: Article)
    requires k < |s|
    ensures SumOf(s[k := a], ViewCountOf) == SumOf(s, ViewCountOf) - s[k].viewCount + a.viewCount
  {
    if k > 0 {
      assert s[k := a][1..] == s[1..][k - 1 := a];
      SumOfViewsUpdate(s[1..], k - 1, a);
    }
  }

  /** The total view count grows by one exactly when an article has the id. */
  lemma IncrementViewTotal(articles: seq<Article>, articleId: string)
    ensures SumOf(IncrementView(articles, articleId), ViewCountOf)
         == SumOf(articles, ViewCountOf) + (if exists k :: 0 <= k < |articles| && articles[k].id == articleId then 1 else 0)
  {
    IncrementViewSum(articles, articleId);
    var found := FindIndex(articles, HasId(articleId));
    if found.Some? {
      assert HasId(articleId)(articles[found.value]);
    } else {
      assert forall k :: 0 <= k < |articles| ==> !HasId(articleId)(articles[k]);
    }
  }

  lemma IncrementViewSum(articles: seq<Article>, articleId: string)
    ensures SumOf(IncrementView(articles, articleId), ViewCountOf)
         == SumOf(articles, ViewCountOf) + (if FindIndex(articles, HasId(articleId)).Some? then 1 else 0)
  {
    var found := FindIndex(articles, HasId(articleId));
    if found.Some? {
      var k := found.value;
      SumOfViewsUpdate(articles, k, articles[k].(viewCount := articles[k].viewCount + 1));
    }
  }

  /** Incrementing a view count keeps the ids unique. */
  lemma IncrementViewIds(articles: seq<Article>, articleId: string)
    requires UniqueIds(articles)
    ensures UniqueIds(IncrementView(articles, articleId))
  {
    var r := IncrementView(articles, articleId);
    IncrementViewSpec(articles, articleId);
    forall id ensures Count(r, HasId(id)) <= 1 {
      CountPointwise(r, articles, HasId(id));
    }
  }

  // ---------------------------------------------------------------------
  // Search
  // ---------------------------------------------------------------------

  /** Whether the lowercased title, excerpt, content or some tag contains `q`. */
  predicate MatchesQuery(a: Article, q: string)
  {
    Includes(ToLower(a.title), q) || Includes(ToLower(a.excerpt), q) || Includes(ToLower(a.content), q) ||
    exists i :: 0 <= i < |a.tags| && Includes(ToLower(a.tags[i]), q)
  }

  function MatchesQueryOf(q: string): Article -> bool { (a: Article) => MatchesQuery(a, q) }

  lemma ToLowerIdempotent(s: string)
    ensures ToLower(ToLower(s)) == ToLower(s)
  {
  }

  // ---------------------------------------------------------------------
  // getPopularTags: a Map that keeps its keys in insertion order
  // ---------------------------------------------------------------------

  datatype TagCount = TagCount(tag: string, count: int)

  function CountOf(e: TagCount): int { e.count }

  function IsTag(tag: string): TagCount -> bool { (e: TagCount) => e.tag == tag }

  function Is(t: string): string -> bool { (u: string) => u == t }

  /** How often `t` occurs in `tags`. */
  function Occurrences(tags: seq<string>, t: string): nat { Count(tags, Is(t)) }

  /** Every tag of every article, in `forEach` order. */
  function AllTags(articles: seq<Article>): seq<string>
  {
    if articles == [] then [] else AllTags(articles[..|articles| - 1]) + articles[|articles| - 1].tags
  }

  /** `tagCounts.set(tag, (tagCounts.get(tag) || 0) + 1)`: an existing key keeps
      its place and gains one, a new key is appended with count 1. */
  function Bump(tally: seq<TagCount>, tag: string): seq<TagCount>
  {
    match FindIndex(tally, IsTag(tag))
    case Some(k) => tally[k := TagCount(tag, tally[k].count + 1)]
    case None => tally + [TagCount(tag, 1)]
  }

  /** The Map after counting `tags` in order. */
  function TallyOf(tags: seq<string>): seq<TagCount>
  {
    if tags == [] then [] else Bump(TallyOf(tags[..|tags| - 1]), tags[|tags| - 1])
  }

  lemma TallyOfSnoc(seen: seq<string>, t: string)
    ensures TallyOf(seen + [t]) == Bump(TallyOf(seen), t)
  {
    assert (seen + [t])[..|seen|] == seen;
  }

  lemma AllTagsSnoc(articles: seq<Article>, i: nat)
    requires i < |articles|
    ensures AllTags(articles[..i + 1]) == AllTags(articles[..i]) + articles[i].tags
  {
    assert articles[..i + 1][..i] == articles[..i];
  }

  /** The inner `forEach` of `getPopularTags`: counts one article's tags
      into a Map that has counted `seen`. */
  method CountTags(tally: seq<TagCount>, tags: seq<string>, ghost seen: seq<string>) returns (r: seq<TagCount>)
    requires tally == TallyOf(seen)
    ensures r == TallyOf(seen + tags)
  {
    r := tally;
    var j := 0;
    assert seen + tags[..j] == seen;
    while j < |tags|
      invariant 0 <= j <= |tags|
      invariant r == TallyOf(seen + tags[..j])
    {
      TallyOfSnoc(seen + tags[..j], tags[j]);
      assert seen + tags[..j + 1] == (seen + tags[..j]) + [tags[j]];
      r := Bump(r, tags[j]);
      j := j + 1;
    }
    assert tags[..|tags|] == tags;
  }

  /** `tally` counts `tags`: each tag that occurs has exactly one entry, no
      other string has one, and each entry holds its tag's number of occurrences. */
  ghost predicate IsTally(tally: seq<TagCount>, tags: seq<string>)
  {
    (forall t :: Count(tally, IsTag(t)) == (if t in tags then 1 else 0)) &&
    (forall k :: 0 <= k < |tally| ==> tally[k].count == Occurrences(tags, tally[k].tag))
  }

  lemma BumpIsTally(tally: seq<TagCount>, tags: seq<string>, t: string)
    requires IsTally(tally, tags)
    ensures IsTally(Bump(tally, t), tags + [t])
  {
    var r := Bump(tally, t);
    forall u ensures Occurrences(tags + [t], u) == Occurrences(tags, u) + (if u == t then 1 else 0) {
      CountSnoc(tags, t, Is(u));
    }
    match FindIndex(tally, IsTag(t))
    case Some(k) =>
      forall u ensures Count(r, IsTag(u)) == Count(tally, IsTag(u)) {
        CountPointwise(r, tally, IsTag(u));
      }
      CountPositive(tally, IsTag(t), k);
      forall j | 0 <= j < |r| ensures r[j].count == Occurrences(tags + [t], r[j].tag) {
        if j != k {
          CountUnique(tally, IsTag(t), k, j);
        }
      }
    case None =>
      CountNone(tally, IsTag(t));
      forall u ensures Count(r, IsTag(u)) == Count(tally, IsTag(u)) + (if u == t then 1 else 0) {
        CountSnoc(tally, TagCount(t, 1), IsTag(u));
      }
      forall i | 0 <= i < |tags| ensures !Is(t)(tags[i]) {
      }
      CountNone(tags, Is(t));
  }

  lemma {:induction false} TallyOfIsTally(tags: seq<string>)
    ensures IsTally(TallyOf(tags), tags)
  {
    if tags != [] {
      var init, t := tags[..|tags| - 1], tags[|tags| - 1];
      assert tags == init + [t];
      TallyOfIsTally(init);
      BumpIsTally(TallyOf(init), init, t);
    }
  }

  /** The first `limit` tags by number of uses: the Map's entries sorted by
      count, ties in insertion order. */
  function PopularTags(articles: seq<Article>, limit: int): (r: seq<TagCount>)
    ensures SortedDesc(r, CountOf)
    ensures forall k :: 0 <= k < |r| ==>
              r[k].tag in AllTags(articles) && r[k].count == Occurrences(AllTags(articles), r[k].tag)
    ensures forall t :: Count(r, IsTag(t)) <= 1
    ensures 0 <= limit && |r| < limit ==> forall t :: t in AllTags(articles) ==> Count(r, IsTag(t)) == 1
    ensures 0 <= limit ==> |r| <= limit
  {
    var tags := AllTags(articles);
    var tally := TallyOf(tags);
    var r := Top(tally, CountOf, limit);
    PopularTagsFacts(tags, tally, r, limit);
    r
  }

  lemma PopularTagsFacts(tags: seq<string>, tally: seq<TagCount>, r: seq<TagCount>, limit: int)
    requires tally == TallyOf(tags) && r == Top(tally, CountOf, limit)
    ensures forall k :: 0 <= k < |r| ==> r[k].tag in tags && r[k].count == Occurrences(tags, r[k].tag)
    ensures forall t :: Count(r, IsTag(t)) <= 1
    ensures 0 <= limit && |r| < limit ==> forall t :: t in tags ==> Count(r, IsTag(t)) == 1
  {
    TallyOfIsTally(tags);
    PopularTagsEntries(tags, tally, r, limit);
    PopularTagsOnce(tags, tally, r, limit);
  }

  lemma PopularTagsEntries(tags: seq<string>, tally: seq<TagCount>, r: seq<TagCount>, limit: int)
    requires IsTally(tally, tags) && r == Top(tally, CountOf, limit)
    ensures forall k :: 0 <= k < |r| ==> r[k].tag in tags && r[k].count == Occurrences(tags, r[k].tag)
  {
    forall k | 0 <= k < |r| ensures r[k].tag in tags && r[k].count == Occurrences(tags, r[k].tag) {
      TopFrom(tally, CountOf, limit, k);
      var j :| 0 <= j < |tally| && tally[j] == r[k];
      CountPositive(tally, IsTag(r[k].tag), j);
    }
  }

  lemma PopularTagsOnce(tags: seq<string>, tally: seq<TagCount>, r: seq<TagCount>, limit: int)
    requires IsTally(tally, tags) && r == Top(tally, CountOf, limit)
    ensures forall t :: Count(r, IsTag(t)) <= 1
    ensures 0 <= limit && |r| < limit ==> forall t :: t in tags ==> Count(r, IsTag(t)) == 1
  {
    forall t ensures Count(r, IsTag(t)) <= 1 {
      TopCount(tally, CountOf, limit, IsTag(t));
    }
    if 0 <= limit && |r| < limit {
      forall t | t in tags ensures Count(r, IsTag(t)) == 1 {
        TopCount(tally, CountOf, limit, IsTag(t));
      }
    }
  }

  /** A tag left out of `getPopularTags(limit)` is used no more often than any tag it returns. */
  lemma PopularTagsDominate(articles: seq<Article>, limit: int, t: string, k: nat)
    requires t in AllTags(articles) && Count(PopularTags(articles, limit), IsTag(t)) == 0
    requires k < |PopularTags(articles, limit)|
    ensures Occurrences(AllTags(articles), t) <= PopularTags(articles, limit)[k].count
  {
    TallyOfIsTally(AllTags(articles));
    TallyDominate(AllTags(articles), TallyOf(AllTags(articles)), limit, t, k);
  }

  lemma TallyDominate(tags: seq<string>, tally: seq<TagCount>, limit: int, t: string, k: nat)
    requires IsTally(tally, tags) && t in tags
    requires Count(Top(tally, CountOf, limit), IsTag(t)) == 0
    requires k < |Top(tally, CountOf, limit)|
    ensures Occurrences(tags, t) <= Top(tally, CountOf, limit)[k].count
  {
    var r := Top(tally, CountOf, limit);
    if forall j :: 0 <= j < |tally| ==> !IsTag(t)(tally[j]) {
      CountNone(tally, IsTag(t));
    }
    var j :| 0 <= j < |tally| && tally[j].tag == t;
    if tally[j] in r {
      var i :| 0 <= i < |r| && r[i] == tally[j];
      CountPositive(r, IsTag(t), i);
    }
    assert tally[j] in multiset(tally) - multiset(r);
    TopKeysDominate(tally, CountOf, limit);
    assert r[k] in r;
  }

  // ---------------------------------------------------------------------
  // findRelatedArticles
  // ---------------------------------------------------------------------

  datatype Scored = Scored(article: Article, score: int)

  function ScoreOf(s: Scored): int { s.score }

  function Positive(s: Scored): bool { s.score > 0 }

  /** The tags of `a` that `current` also has. */
  function CommonTags(a: Article, current: Article): seq<string>
  {
    Filter(a.tags, (t: string) => t in current.tags)
  }

  /** 10 for the same category, 5 for each common tag, 3 for the same author. */
  function RelatedScore(a: Article, current: Article): (score: int)
    ensures 0 <= score
    ensures score == 0 <==>
              a.category.id != current.category.id && CommonTags(a, current) == [] &&
              a.author.id != current.author.id
  {
    (if a.category.id == current.category.id then 10 else 0)
    + |CommonTags(a, current)| * 5
    + (if a.author.id == current.author.id then 3 else 0)
  }

  function ScoreAll(candidates: seq<Article>, current: Article): (r: seq<Scored>)
    ensures |r| == |candidates|
    ensures forall k :: 0 <= k < |r| ==> r[k] == Scored(candidates[k], RelatedScore(candidates[k], current))
  {
    seq(|candidates|, k requires 0 <= k < |candidates| => Scored(candidates[k], RelatedScore(candidates[k], current)))
  }

  function ArticlesOf(ss: seq<Scored>): (r: seq<Article>)
    ensures |r| == |ss|
    ensures forall k :: 0 <= k < |r| ==> r[k] == ss[k].article
  {
    seq(|ss|, k requires 0 <= k < |ss| => ss[k].article)
  }

  /** The other articles with a positive score against `current`, in stored order. */
  function RelatedCandidates(articles: seq<Article>, articleId: string, current: Article): (r: seq<Scored>)
    ensures forall s :: s in r ==>
              s.article in articles && s.article.id != articleId &&
              s.score == RelatedScore(s.article, current) && 0 < s.score
    ensures forall a :: a in articles && a.id != articleId && 0 < RelatedScore(a, current) ==>
              Scored(a, RelatedScore(a, current)) in r
  {
    var others := Filter(articles, NotId(articleId));
    var scored := ScoreAll(others, current);
    var r := Filter(scored, Positive);
    forall a | a in articles && a.id != articleId && 0 < RelatedScore(a, current)
      ensures Scored(a, RelatedScore(a, current)) in r
    {
      var i :| 0 <= i < |articles| && articles[i] == a;
      var j :| 0 <= j < |others| && others[j] == a;
      assert scored[j] == Scored(a, RelatedScore(a, current));
    }
    forall s | s in r
      ensures s.article in articles && s.article.id != articleId
      ensures s.score == RelatedScore(s.article, current) && 0 < s.score
    {
      var j :| 0 <= j < |scored| && scored[j] == s;
      assert s.article == others[j];
    }
    r
  }

  /** The ranking `findRelatedArticles(articleId, limit)` returns. */
  function Related(articles: seq<Article>, articleId: string, limit: int): (r: seq<Article>)
    ensures Find(articles, HasId(articleId)).None? ==> r == []
    ensures forall k :: 0 <= k < |r| ==> r[k] in articles && r[k].id != articleId
    ensures Find(articles, HasId(articleId)).Some? ==>
              (forall k :: 0 <= k < |r| ==> 0 < RelatedScore(r[k], Find(articles, HasId(articleId)).value)) &&
              (forall i, j :: 0 <= i < j < |r| ==>
                 RelatedScore(r[i], Find(articles, HasId(articleId)).value)
                   >= RelatedScore(r[j], Find(articles, HasId(articleId)).value))
    ensures 0 <= limit ==> |r| <= limit
    ensures multiset(r) <= multiset(articles)
  {
    match Find(articles, HasId(articleId))
    case None => []
    case Some(current) =>
      var top := Top(RelatedCandidates(articles, articleId, current), ScoreOf, limit);
      RelatedTopFacts(articles, articleId, current, top, limit);
      RelatedFromStore(articles, articleId, current, limit);
      ArticlesOf(top)
  }

  /** The ranking repeats no article: it is drawn from the store's multiset. */
  lemma RelatedFromStore(articles: seq<Article>, articleId: string, current: Article, limit: int)
    ensures multiset(ArticlesOf(Top(RelatedCandidates(articles, articleId, current), ScoreOf, limit)))
         <= multiset(articles)
  {
    var others := Filter(articles, NotId(articleId));
    var scored := ScoreAll(others, current);
    var candidates := Filter(scored, Positive);
    assert candidates == RelatedCandidates(articles, articleId, current);
    var top := Top(candidates, ScoreOf, limit);
    SubsequenceMultiset(candidates, scored);
    ArticlesOfSubMultiset(top, scored);
    ArticlesOfScoreAll(others, current);
    SubsequenceMultiset(others, articles);
  }

  lemma ArticlesOfScoreAll(candidates: seq<Article>, current: Article)
    ensures ArticlesOf(ScoreAll(candidates, current)) == candidates
  {
  }

  lemma ArticlesOfConcat(a: seq<Scored>, b: seq<Scored>)
    ensures ArticlesOf(a + b) == ArticlesOf(a) + ArticlesOf(b)
  {
  }

  /** Removing one entry removes exactly its article. */
  lemma ArticlesOfRemove(pre: seq<Scored>, x: Scored, post: seq<Scored>)
    ensures multiset(ArticlesOf(pre + [x] + post)) == multiset(ArticlesOf(pre + post)) + multiset{x.article}
  {
    ArticlesOfConcat(pre + [x], post);
    ArticlesOfConcat(pre, [x]);
    ArticlesOfConcat(pre, post);
  }

  lemma ArticlesOfAt(s: seq<Scored>, i: nat)
    requires i < |s|
    ensures multiset(ArticlesOf(s)) == multiset(ArticlesOf(s[..i] + s[i + 1..])) + multiset{s[i].article}
  {
    assert s == s[..i] + [s[i]] + s[i + 1..];
    ArticlesOfRemove(s[..i], s[i], s[i + 1..]);
  }

  lemma ArticlesOfCons(x: Scored, t: seq<Scored>)
    ensures multiset(ArticlesOf([x] + t)) == multiset(ArticlesOf(t)) + multiset{x.article}
  {
    ArticlesOfConcat([x], t);
  }

  /** Taking the articles of entries keeps the sub-multiset relation. */
  lemma {:induction false} ArticlesOfSubMultiset(s1: seq<Scored>, s2: seq<Scored>)
    requires multiset(s1) <= multiset(s2)
    ensures multiset(ArticlesOf(s1)) <= multiset(ArticlesOf(s2))
    decreases |s1|
  {
    if s1 != [] {
      var x, t := s1[0], s1[1..];
      assert s1 == [x] + t;
      assert x in multiset(s2);
      var i :| 0 <= i < |s2| && s2[i] == x;
      var pre, post := s2[..i], s2[i + 1..];
      MultisetRemove(s2, i);
      MultisetCancel(multiset(t), multiset(pre + post), x);
      ArticlesOfSubMultiset(t, pre + post);
      ArticlesOfCons(x, t);
      ArticlesOfAt(s2, i);
    }
  }



  lemma RelatedTopFacts(articles: seq<Article>, articleId: string, current: Article, top: seq<Scored>, limit: int)
    requires top == Top(RelatedCandidates(articles, articleId, current), ScoreOf, limit)
    ensures forall k :: 0 <= k < |top| ==>
              top[k].article in articles && top[k].article.id != articleId &&
              top[k].score == RelatedScore(top[k].article, current) && 0 < top[k].score
  {
    forall k | 0 <= k < |top|
      ensures top[k].article in articles && top[k].article.id != articleId
      ensures top[k].score == RelatedScore(top[k].article, current) && 0 < top[k].score
    {
      assert top[k] in multiset(RelatedCandidates(articles, articleId, current));
    }
  }

  /** Below the limit nothing is dropped: every other article with a positive score is returned. */
  lemma RelatedComplete(articles: seq<Article>, articleId: string, limit: int, a: Article)
    requires Find(articles, HasId(articleId)).Some?
    requires 0 <= limit && |Related(articles, articleId, limit)| < limit
    requires a in articles && a.id != articleId
    requires 0 < RelatedScore(a, Find(articles, HasId(articleId)).value)
    ensures a in Related(articles, articleId, limit)
  {
    var current := Find(articles, HasId(articleId)).value;
    var candidates := RelatedCandidates(articles, articleId, current);
    var top := Top(candidates, ScoreOf, limit);
    RelatedUnfold(articles, articleId, limit);
    var s := Scored(a, RelatedScore(a, current));
    TopShortKeeps(candidates, ScoreOf, limit, s);
    var k :| 0 <= k < |top| && top[k] == s;
    assert ArticlesOf(top)[k] == a;
  }

  /** An article left out of the ranking scores no higher than any article in it. */
  lemma RelatedDominate(articles: seq<Article>, articleId: string, limit: int, a: Article, k: nat)
    requires Find(articles, HasId(articleId)).Some?
    requires a in articles && a.id != articleId
    requires 0 < RelatedScore(a, Find(articles, HasId(articleId)).value)
    requires a !in Related(articles, articleId, limit)
    requires k < |Related(articles, articleId, limit)|
    ensures RelatedScore(a, Find(articles, HasId(articleId)).value)
         <= RelatedScore(Related(articles, articleId, limit)[k], Find(articles, HasId(articleId)).value)
  {
    var current := Find(articles, HasId(articleId)).value;
    var candidates := RelatedCandidates(articles, articleId, current);
    var top := Top(candidates, ScoreOf, limit);
    RelatedUnfold(articles, articleId, limit);
    RelatedTopFacts(articles, articleId, current, top, limit);
    var s := Scored(a, RelatedScore(a, current));
    ArticlesOfMissing(top, s);
    TopDominatesMissing(candidates, ScoreOf, limit, s, k);
  }

  lemma RelatedUnfold(articles: seq<Article>, articleId: string, limit: int)
    requires Find(articles, HasId(articleId)).Some?
    ensures var current := Find(articles, HasId(articleId)).value;
            Related(articles, articleId, limit)
              == ArticlesOf(Top(RelatedCandidates(articles, articleId, current), ScoreOf, limit))
  {
  }

  /** An entry whose article is not listed is not among the entries. */
  lemma ArticlesOfMissing(ss: seq<Scored>, s: Scored)
    requires s.article !in ArticlesOf(ss)
    ensures s !in ss
  {
    forall i | 0 <= i < |ss| ensures ss[i] != s {
      assert ArticlesOf(ss)[i] == ss[i].article;
    }
  }

  // ---------------------------------------------------------------------
  // Categories, analytics, top articles
  // ---------------------------------------------------------------------

  datatype CategoryStat = CategoryStat(category: Category, count: int)

  /** An article with its `views` field, as `getTopArticles` returns it. */
  datatype TopArticle = TopArticle(article: Article, views: int)

  /** `.map(article => ({ ...article, views: article.viewCount }))`. */
  function WithViews(top: seq<Article>): (r: seq<TopArticle>)
    ensures |r| == |top|
    ensures forall k :: 0 <= k < |r| ==> r[k] == TopArticle(top[k], top[k].viewCount)
  {
    seq(|top|, k requires 0 <= k < |top| => TopArticle(top[k], top[k].viewCount))
  }

  /** The articles of a `getTopArticles` result, without their `views`. */
  function ArticlesOfTop(r: seq<TopArticle>): (a: seq<Article>)
    ensures |a| == |r|
    ensures forall k :: 0 <= k < |a| ==> a[k] == r[k].article
  {
    seq(|r|, k requires 0 <= k < |r| => r[k].article)
  }

  /** An article `getTopArticles` leaves out has no more views than any it returns. */
  lemma TopArticlesDominate(articles: seq<Article>, n: int)
    ensures var r := WithViews(Top(articles, ViewCountOf, n));
            multiset(ArticlesOfTop(r)) <= multiset(articles)
    ensures var r := WithViews(Top(articles, ViewCountOf, n));
            forall x, k :: x in multiset(articles) - multiset(ArticlesOfTop(r)) && 0 <= k < |r| ==>
              x.viewCount <= r[k].views
  {
    var top := Top(articles, ViewCountOf, n);
    var r := WithViews(top);
    assert ArticlesOfTop(r) == top;
    TopKeysDominate(articles, ViewCountOf, n);
    forall x, k | x in multiset(articles) - multiset(top) && 0 <= k < |r|
      ensures x.viewCount <= r[k].views
    {
      assert top[k] in top;
    }
  }

  function HasCategorySlug(slug: string): Category -> bool { (c: Category) => c.slug == slug }

  /** `getCategoryBySlug(slug)`: the category with that slug, or null. */
  function GetCategoryBySlug(slug: string): (r: Option<Category>)
    ensures r.Some? ==> r.value in CATEGORIES && r.value.slug == slug
    ensures r.None? <==> forall k :: 0 <= k < |CATEGORIES| ==> CATEGORIES[k].slug != slug
  {
    Find(CATEGORIES, HasCategorySlug(slug))
  }

  /** The analytics record: thirty days whose totals are the sums of the daily values. */
  predicate AnalyticsConsistent(m: AnalyticsMetrics)
  {
    |m.viewsByDate| == 30 &&
    m.totalViews == SumOf(m.viewsByDate, ViewsOf) &&
    m.uniqueVisitors == SumOf(m.viewsByDate, UniqueViewsOf)
  }

  // ---------------------------------------------------------------------
  // The database
  // ---------------------------------------------------------------------

  class MockDatabase {
    var articles: seq<Article>
    var comments: seq<Comment>
    var analytics: AnalyticsMetrics
    var requestLog: seq<LogEntry>

    /** What every operation keeps: unique article ids, comments newest
        first, and analytics totals equal to the sums of the daily values. */
    ghost predicate Valid()
      reads this
    {
      UniqueIds(articles) && SortedDesc(comments, CreatedAtOf) && AnalyticsConsistent(analytics)
    }

    /** `new MockDatabase()`: fifty generated articles, comments for them,
        the analytics, and an empty request log. */
    constructor (rng: RandomSource, now: int)
      requires rng.Valid()
      modifies rng
      ensures Valid()
      ensures |articles| == 50 && SortedDesc(articles, PublishedAtOf)
      ensures forall c :: c in comments ==> IsGeneratedComment(c, 50, now)
      ensures requestLog == []
    {
      var generated := GenerateStoredArticles(rng, now);
      var generatedComments := GenerateMockComments(rng, 50, now);
      var generatedAnalytics := GenerateMockAnalytics(rng, now);
      articles := generated;
      comments := generatedComments;
      analytics := generatedAnalytics;
      requestLog := [];
    }

    /** `logRequest(method, params)`: one entry stamped with the current time. */
    method LogRequest(name: string, params: Params, now: int)
      modifies this
      ensures requestLog == old(requestLog) + [LogEntry(name, params, now)]
      ensures articles == old(articles) && comments == old(comments) && analytics == old(analytics)
    {
      requestLog := requestLog + [LogEntry(name, params, now)];
    }

    /** `getRequestLog()`: the entries so far, oldest first, as a value the log does not share. */
    function GetRequestLog(): (r: seq<LogEntry>)
      reads this
      ensures r == requestLog
    {
      requestLog
    }

    /** `clearRequestLog()`: the log becomes empty and nothing else changes. */
    method ClearRequestLog()
      modifies this
      ensures requestLog == []
      ensures articles == old(articles) && comments == old(comments) && analytics == old(analytics)
    {
      requestLog := [];
    }

    /** `findArticles(options)`: logs the call, then pages through the
        articles of the category with the featured flag asked for. */
    method FindArticles(options: Option<FindOptions>, now: int) returns (r: seq<Article>)
      modifies this
      ensures requestLog == old(requestLog) + [LogEntry("findArticles", FindLog(options), now)]
      ensures articles == old(articles) && comments == old(comments) && analytics == old(analytics)
      ensures r == ArticlesPage(articles, options.GetOr(NO_OPTIONS))
      ensures IsSubsequence(r, articles)
      ensures forall a :: a in r ==>
                MatchesCategory(a, options.GetOr(NO_OPTIONS).category) &&
                MatchesFeatured(a, options.GetOr(NO_OPTIONS).featured)
    {
      LogRequest("findArticles", FindLog(options), now);
      r := ArticlesPage(articles, options.GetOr(NO_OPTIONS));
    }

    /** `findArticleBySlug(slug)`: the first article with that slug, or null. */
    function FindArticleBySlug(slug: string): (r: Option<Article>)
      reads this
      ensures r.None? <==> forall k :: 0 <= k < |articles| ==> articles[k].slug != slug
      ensures r.Some? ==> exists k :: 0 <= k < |articles| && articles[k] == r.value && r.value.slug == slug &&
                                      forall j :: 0 <= j < k ==> articles[j].slug != slug
    {
      match FindIndex(articles, HasSlug(slug))
      case None => None
      case Some(k) => Some(articles[k])
    }

    /** `findTrendingArticles(limit = 5)`: the most viewed articles first. */
    function FindTrendingArticles(limit: Option<int>): (r: seq<Article>)
      reads this
      ensures SortedDesc(r, ViewCountOf)
      ensures multiset(r) <= multiset(articles)
      ensures 0 <= limit.GetOr(TRENDING_LIMIT) ==> |r| == Min(limit.GetOr(TRENDING_LIMIT), |articles|)
      ensures limit == Some(0) ==> r == []
      ensures forall x, y :: x in multiset(articles) - multiset(r) && y in r ==> x.viewCount <= y.viewCount
    {
      TopKeysDominate(articles, ViewCountOf, limit.GetOr(TRENDING_LIMIT));
      Top(articles, ViewCountOf, limit.GetOr(TRENDING_LIMIT))
    }

    /** `findCommentsByArticle(articleId)`: its comments, in stored order. */
    function FindCommentsByArticle(articleId: string): (r: seq<Comment>)
      reads this
      ensures IsSubsequence(r, comments)
      ensures forall c :: c in r ==> c.articleId == articleId
      ensures forall c :: c in comments && c.articleId == articleId ==> c in r
      ensures |r| == CommentsFor(comments, articleId)
    {
      FilterLength(comments, IsFor(articleId));
      Filter(comments, IsFor(articleId))
    }

    /** `getRecentComments(limit = 10)`: the newest comments first. */
    function GetRecentComments(limit: Option<int>): (r: seq<Comment>)
      reads this
      ensures SortedDesc(r, CreatedAtOf)
      ensures multiset(r) <= multiset(comments)
      ensures 0 <= limit.GetOr(RECENT_LIMIT) ==> |r| == Min(limit.GetOr(RECENT_LIMIT), |comments|)
      ensures forall x, y :: x in multiset(comments) - multiset(r) && y in r ==> x.createdAt <= y.createdAt
    {
      TopKeysDominate(comments, CreatedAtOf, limit.GetOr(RECENT_LIMIT));
      Top(comments, CreatedAtOf, limit.GetOr(RECENT_LIMIT))
    }

    /** `getAnalytics()`: a copy of the analytics, whose totals are the sums of its daily values. */
    function GetAnalytics(): (r: AnalyticsMetrics)
      requires Valid()
      reads this
      ensures |r.viewsByDate| == 30
      ensures r.totalViews == SumOf(r.viewsByDate, ViewsOf)
      ensures r.uniqueVisitors == SumOf(r.viewsByDate, UniqueViewsOf)
    {
      analytics
    }

    /** `getTopArticles(limit = 10)`: the most viewed articles first, each with `views` = its view count. */
    function GetTopArticles(limit: Option<int>): (r: seq<TopArticle>)
      reads this
      ensures forall k :: 0 <= k < |r| ==> r[k].views == r[k].article.viewCount && r[k].article in articles
      ensures forall i, j :: 0 <= i < j < |r| ==> r[i].views >= r[j].views
      ensures 0 <= limit.GetOr(TOP_LIMIT) ==> |r| == Min(limit.GetOr(TOP_LIMIT), |articles|)
      ensures multiset(ArticlesOfTop(r)) <= multiset(articles)
      ensures forall x, k :: x in multiset(articles) - multiset(ArticlesOfTop(r)) && 0 <= k < |r| ==>
                x.viewCount <= r[k].views
    {
      TopMembers(articles, ViewCountOf, limit.GetOr(TOP_LIMIT));
      TopArticlesDominate(articles, limit.GetOr(TOP_LIMIT));
      WithViews(Top(articles, ViewCountOf, limit.GetOr(TOP_LIMIT)))
    }

    /** `getCategories()`: logs the call and returns the five categories. */
    method GetCategories(now: int) returns (r: seq<Category>)
      modifies this
      ensures requestLog == old(requestLog) + [LogEntry("getCategories", NoParams, now)]
      ensures articles == old(articles) && comments == old(comments) && analytics == old(analytics)
      ensures r == CATEGORIES
    {
      LogRequest("getCategories", NoParams, now);
      r := CATEGORIES;
    }

    /** `getCategoryStats()`: logs the call, counts the articles per category
        id in a Map, and reports one entry per category, in category order. */
    method GetCategoryStats(now: int) returns (r: seq<CategoryStat>)
      modifies this
      ensures requestLog == old(requestLog) + [LogEntry("getCategoryStats", NoParams, now)]
      ensures articles == old(articles) && comments == old(comments) && analytics == old(analytics)
      ensures |r| == |CATEGORIES|
      ensures forall k :: 0 <= k < |r| ==>
                r[k].category == CATEGORIES[k] && r[k].count == Count(articles, InCategoryId(CATEGORIES[k].id))
    {
      LogRequest("getCategoryStats", NoParams, now);
      var stats: map<string, int> := map[];
      var i := 0;
      while i < |articles|
        invariant 0 <= i <= |articles|
        invariant forall id :: id in stats ==> stats[id] == Count(articles[..i], InCategoryId(id))
        invariant forall id :: id !in stats ==> Count(articles[..i], InCategoryId(id)) == 0
      {
        var id := articles[i].category.id;
        var count := if id in stats then stats[id] else 0;
        assert articles[..i + 1] == articles[..i] + [articles[i]];
        forall other
          ensures Count(articles[..i + 1], InCategoryId(other))
               == Count(articles[..i], InCategoryId(other)) + (if other == id then 1 else 0)
        {
          CountSnoc(articles[..i], articles[i], InCategoryId(other));
        }
        stats := stats[id := count + 1];
        i := i + 1;
      }
      assert articles[..i] == articles;
      r := seq(|CATEGORIES|, k requires 0 <= k < |CATEGORIES| =>
             CategoryStat(CATEGORIES[k], if CATEGORIES[k].id in stats then stats[CATEGORIES[k].id] else 0));
    }

    /** `getTotalArticleCount(options)`: logs the call and counts the
        articles of the category, or all of them without one. */
    method GetTotalArticleCount(options: Option<CountOptions>, now: int) returns (r: int)
      modifies this
      ensures requestLog == old(requestLog) + [LogEntry("getTotalArticleCount", CountLog(options), now)]
      ensures articles == old(articles) && comments == old(comments) && analytics == old(analytics)
      ensures r == |ByCategory(articles, if options.Some? then options.value.category else None)|
      ensures options.None? || CategoryFilter(options.value.category).None? ==> r == |articles|
      ensures options.Some? && CategoryFilter(options.value.category).Some? ==>
                r == Count(articles, InCategory(options.value.category.value))
    {
      LogRequest("getTotalArticleCount", CountLog(options), now);
      var filtered := articles;
      if options.Some? && CategoryFilter(options.value.category).Some? {
        filtered := Filter(articles, InCategory(options.value.category.value));
        FilterLength(articles, InCategory(options.value.category.value));
      }
      r := |filtered|;
    }

    /** `incrementViewCount(articleId)`: the first article with that id gains
        one view in place; an unknown id changes nothing. */
    method IncrementViewCount(articleId: string)
      requires Valid()
      modifies this
      ensures Valid()
      ensures articles == IncrementView(old(articles), articleId)
      ensures comments == old(comments) && analytics == old(analytics) && requestLog == old(requestLog)
    {
      IncrementViewIds(articles, articleId);
      var found := FindIndex(articles, HasId(articleId));
      if found.Some? {
        var k := found.value;
        articles := articles[k := articles[k].(viewCount := articles[k].viewCount + 1)];
      }
    }

    /** `getPopularTags(limit)`: counts every tag use in a Map, then sorts its
        entries by count and keeps the first `limit`. */
    method GetPopularTags(limit: int) returns (r: seq<TagCount>)
      ensures r == PopularTags(articles, limit)
    {
      var stored := articles;
      var tally: seq<TagCount> := [];
      var i := 0;
      while i < |stored|
        invariant 0 <= i <= |stored|
        invariant tally == TallyOf(AllTags(stored[..i]))
      {
        tally := CountTags(tally, stored[i].tags, AllTags(stored[..i]));
        AllTagsSnoc(stored, i);
        i := i + 1;
      }
      assert stored[..i] == stored;
      r := Top(tally, CountOf, limit);
    }

    /** `searchArticles(query, { category })`: the articles whose lowercased
        text or tags contain the lowercased query, in stored order. */
    function SearchArticles(query: string, category: Option<string>): (r: seq<Article>)
      reads this
      ensures IsSubsequence(r, articles)
      ensures forall a :: a in r ==> MatchesQuery(a, ToLower(query)) && MatchesCategory(a, category)
      ensures forall a :: a in articles && MatchesQuery(a, ToLower(query)) && MatchesCategory(a, category)
                          ==> a in r
    {
      var matching := Filter(articles, MatchesQueryOf(ToLower(query)));
      SubsequenceTrans(ByCategory(matching, category), matching, articles);
      ByCategory(matching, category)
    }

    /** `findRelatedArticles(articleId, limit = 4)`: logs the call, then ranks
        the other articles by their score against the article with that id. */
    method FindRelatedArticles(articleId: string, limit: Option<int>, now: int) returns (r: seq<Article>)
      modifies this
      ensures requestLog
           == old(requestLog) + [LogEntry("findRelatedArticles", RelatedParams(articleId, limit.GetOr(RELATED_LIMIT)), now)]
      ensures articles == old(articles) && comments == old(comments) && analytics == old(analytics)
      ensures r == Related(articles, articleId, limit.GetOr(RELATED_LIMIT))
    {
      LogRequest("findRelatedArticles", RelatedParams(articleId, limit.GetOr(RELATED_LIMIT)), now);
      r := Related(articles, articleId, limit.GetOr(RELATED_LIMIT));
    }
  }

  // ---------------------------------------------------------------------
  // Properties relating several operations
  // ---------------------------------------------------------------------

  /** An empty query matches every article. */
  lemma SearchEmptyQuery(db: MockDatabase)
    ensures db.SearchArticles("", None) == db.articles
  {
    assert ToLower("") == "";
    forall i | 0 <= i < |db.articles| ensures MatchesQueryOf("")(db.articles[i]) {
      IncludesEmpty(ToLower(db.articles[i].title));
    }
    FilterAll(db.articles, MatchesQueryOf(""));
  }

  /** Search ignores the case of the query. */
  lemma SearchIgnoresQueryCase(db: MockDatabase, query: string, category: Option<string>)
    ensures db.SearchArticles(ToLower(query), category) == db.SearchArticles(query, category)
  {
    ToLowerIdempotent(query);
  }

  /** A limit covering the whole match returns every matching article from the start. */
  lemma FirstPageComplete(articles: seq<Article>, o: FindOptions)
    requires PageOffset(o) == 0 && |Matching(articles, o)| <= PageLimit(o)
    ensures ArticlesPage(articles, o) == Matching(articles, o)
  {
  }
}
