/**
 * The two news normalisers of src/lib/api-services.ts: Alpha Vantage feed
 * items and NewsAPI articles become `NewsItem`s, every missing or falsy
 * field replaced by a default.
 */
module NewsMapping {
  import opened Wrappers
  import opened Market

  /** A string field of a provider reply: `None` when absent or null. */
  type Field = Option<string>

  /** JavaScript truthiness of a string field: present and non-empty. */
  predicate Truthy(f: Field) {
    f.Some? && f.value != ""
  }

  /** `f || d`. */
  function OrDefault(f: Field, d: string): (r: string)
    ensures Truthy(f) ==> r == f.value
    ensures !Truthy(f) ==> r == d
  {
    if Truthy(f) then f.value else d
  }

  /** `f || null`. */
  function OrNull(f: Field): (r: Option<string>)
    ensures r.Some? <==> Truthy(f)
    ensures r.Some? ==> r == f
  {
    if Truthy(f) then f else None
  }

  /** `(f && f !== 'null') ? f : null`: an image link, with the provider's
      literal string 'null' read as no image. */
  function ImageOf(f: Field): (r: Option<string>)
    ensures r.Some? <==> Truthy(f) && f.value != "null"
    ensures r.Some? ==> r == f
  {
    if Truthy(f) && f.value != "null" then f else None
  }

  // ---------------------------------------------------------------- Alpha Vantage

  /** The fields of one Alpha Vantage feed item that the mapper reads. */
  datatype FeedItem = FeedItem(
    title: Field,
    summary: Field,
    url: Field,
    source: Field,
    timePublished: Field,
    overallSentimentLabel: Field,
    bannerImage: Field)

  /** An Alpha Vantage reply: `feed` is `None` when it is missing or not an array. */
  datatype FeedReply = FeedReply(feed: Option<seq<FeedItem>>)

  /** How many feed items are kept. */
  const FeedLimit: nat := 10

  /** One feed item as a `NewsItem`. */
  function FromFeedItem(item: FeedItem, nowIso: string): (r: NewsItem)
    ensures r.title == OrDefault(item.title, "No Title") && r.title != ""
    ensures r.summary == OrDefault(item.summary, "No Description") && r.summary != ""
    ensures r.url == OrDefault(item.url, "")
    ensures r.source == OrDefault(item.source, "Alpha Vantage") && r.source != ""
    ensures r.timestamp == OrDefault(item.timePublished, nowIso)
    ensures r.sentiment == OrNull(item.overallSentimentLabel)
    ensures r.sentiment.Some? <==> Truthy(item.overallSentimentLabel)
    ensures r.image == ImageOf(item.bannerImage)
    ensures r.image.Some? <==> Truthy(item.bannerImage) && item.bannerImage.value != "null"
    ensures r.image != Some("null") && r.category.None?
  {
    NewsItem(
      OrDefault(item.title, "No Title"),
      OrDefault(item.summary, "No Description"),
      OrDefault(item.url, ""),
      OrDefault(item.source, "Alpha Vantage"),
      OrDefault(item.timePublished, nowIso),
      ImageOf(item.bannerImage),
      None,
      OrNull(item.overallSentimentLabel))
  }

  /** `newsService.getFinancialNews` once the reply is in: the first ten feed
      items, mapped in order; no feed array gives no news. */
  function FromFeedReply(reply: FeedReply, nowIso: string): (r: seq<NewsItem>)
    ensures reply.feed.None? ==> r == []
    ensures reply.feed.Some? ==> |r| == if |reply.feed.value| < FeedLimit then |reply.feed.value| else FeedLimit
    ensures reply.feed.Some? ==> forall i :: 0 <= i < |r| ==> r[i] == FromFeedItem(reply.feed.value[i], nowIso)
  {
    match reply.feed
    case None => []
    case Some(feed) =>
      var kept := if |feed| < FeedLimit then feed else feed[..FeedLimit];
      seq(|kept|, i requires 0 <= i < |kept| => FromFeedItem(kept[i], nowIso))
  }

  /** Items past the tenth never reach the dashboard, whatever they hold. */
  lemma FeedTailIgnored(feed: seq<FeedItem>, extra: seq<FeedItem>, nowIso: string)
    requires |feed| >= FeedLimit
    ensures FromFeedReply(FeedReply(Some(feed + extra)), nowIso) == FromFeedReply(FeedReply(Some(feed)), nowIso)
  {
    var a := FromFeedReply(FeedReply(Some(feed + extra)), nowIso);
    var b := FromFeedReply(FeedReply(Some(feed)), nowIso);
    assert |a| == |b|;
    forall i | 0 <= i < |a| ensures a[i] == b[i] {
      assert (feed + extra)[i] == feed[i];
    }
  }

  // ---------------------------------------------------------------- NewsAPI

  /** The `source` of a NewsAPI article: an object with an optional name, a
      bare string, or anything else (absent, null, a number …). */
  datatype SourceField = SourceObject(name: Field) | SourceString(text: string) | SourceOther

  /** The fields of one NewsAPI article that the mapper reads. */
  datatype Article = Article(
    title: Field,
    description: Field,
    url: Field,
    source: SourceField,
    publishedAt: Field,
    urlToImage: Field)

  /** A NewsAPI reply: `articles` is `None` when missing or not an array. */
  datatype ArticlesReply = ArticlesReply(articles: Option<seq<Article>>)

  /** The source name: the object's truthy `name`, else a string source as
      it is (an empty string included), else 'Unknown'. */
  function SourceName(source: SourceField): (r: string)
    ensures source.SourceObject? && Truthy(source.name) ==> r == source.name.value
    ensures source.SourceString? ==> r == source.text
    ensures source.SourceOther? || (source.SourceObject? && !Truthy(source.name)) ==> r == "Unknown"
  {
    match source
    case SourceObject(name) => if Truthy(name) then name.value else "Unknown"
    case SourceString(text) => text
    case SourceOther => "Unknown"
  }

  /** One article as a `NewsItem`. */
  function FromArticle(item: Article, nowIso: string): (r: NewsItem)
    ensures r.title == OrDefault(item.title, "No Title") && r.title != ""
    ensures r.summary == OrDefault(item.description, "No Description") && r.summary != ""
    ensures r.url == OrDefault(item.url, "")
    ensures r.source == SourceName(item.source)
    ensures r.timestamp == OrDefault(item.publishedAt, nowIso)
    ensures r.image == ImageOf(item.urlToImage)
    ensures r.image.Some? <==> Truthy(item.urlToImage) && item.urlToImage.value != "null"
    ensures r.image != Some("null") && r.sentiment.None? && r.category.None?
  {
    NewsItem(
      OrDefault(item.title, "No Title"),
      OrDefault(item.description, "No Description"),
      OrDefault(item.url, ""),
      SourceName(item.source),
      OrDefault(item.publishedAt, nowIso),
      ImageOf(item.urlToImage),
      None,
      None)
  }

  /** `newsAPIService.getFinancialNews` once the reply is in: every article,
      mapped in order; no articles array gives no news. */
  function FromArticlesReply(reply: ArticlesReply, nowIso: string): (r: seq<NewsItem>)
    ensures reply.articles.None? ==> r == []
    ensures reply.articles.Some? ==> |r| == |reply.articles.value|
    ensures reply.articles.Some? ==> forall i :: 0 <= i < |r| ==> r[i] == FromArticle(reply.articles.value[i], nowIso)
  {
    match reply.articles
    case None => []
    case Some(articles) => seq(|articles|, i requires 0 <= i < |articles| => FromArticle(articles[i], nowIso))
  }
}
