/**
 * The records of the content site (src/lib/types.ts). JavaScript `Date`
 * values are integer milliseconds since the epoch; the calendar day of a
 * view metric is an integer day number.
 */
module Types {

  datatype Author = Author(id: string, name: string, avatar: string, bio: string, role: string)

  datatype Category = Category(id: string, name: string, slug: string, description: string, color: string)

  datatype Article = Article(
    id: string,
    slug: string,
    title: string,
    excerpt: string,
    content: string,
    author: Author,
    category: Category,
    tags: seq<string>,
    publishedAt: int,
    updatedAt: int,
    viewCount: int,
    likeCount: int,
    commentCount: int,
    readingTime: int,
    featured: bool)

  datatype Comment = Comment(
    id: string,
    articleId: string,
    author: string,
    content: string,
    createdAt: int,
    likes: int)

  datatype Referrer = Referrer(source: string, count: int, percentage: int)

  /** One day of page views; `day` is the day number that the source prints as YYYY-MM-DD. */
  datatype ViewMetric = ViewMetric(day: int, views: int, uniqueViews: int)

  datatype AnalyticsMetrics = AnalyticsMetrics(
    totalViews: int,
    uniqueVisitors: int,
    avgSessionDuration: int,
    bounceRate: int,
    topReferrers: seq<Referrer>,
    viewsByDate: seq<ViewMetric>)

  // Sort keys used with the stable descending sort.

  function ViewCountOf(a: Article): int { a.viewCount }

  function PublishedAtOf(a: Article): int { a.publishedAt }

  function CreatedAtOf(c: Comment): int { c.createdAt }
}
