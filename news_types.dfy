/**
 * The canonical article record the service emits and the response schema
 * the article routes check it against before replying.
 */
module NewsTypes {
  import opened Wrappers
  import opened Js
  import opened Zod

  /**
   * A normalised article. `description` and `imageUrl` may be null, and the
   * record may also lack them (`Absent`), which the schema rejects.
   */
  datatype NewsArticle = NewsArticle(
    title: string,
    url: string,
    description: JsField<string>,
    imageUrl: JsField<string>,
    publishedAt: string,
    category: string)

  /** `{ articles, timestamp }`, the body of both article routes. */
  datatype NewsResponse = NewsResponse(articles: seq<NewsArticle>, timestamp: int)

  /** What `NewsArticleSchema` accepts, field by field. */
  predicate ValidArticle(fmt: Formats, a: NewsArticle) {
    && fmt.isUrl(a.url)
    && !a.description.Absent?
    && (a.imageUrl.Null? || (a.imageUrl.Present? && fmt.isUrl(a.imageUrl.value)))
    && fmt.isDateTime(a.publishedAt)
  }

  /**
   * `description` and `imageUrl` are nullable but not optional: a missing
   * one fails the schema, a null one never does.
   */
  lemma NullableNotOptional(fmt: Formats, a: NewsArticle)
    ensures a.description.Absent? || a.imageUrl.Absent? ==> !ValidArticle(fmt, a)
    ensures a.description.Null? && a.imageUrl.Null? ==>
      (ValidArticle(fmt, a) <==> fmt.isUrl(a.url) && fmt.isDateTime(a.publishedAt))
  {
  }

  /** The issue for a nullable (not optional) string field that is missing. */
  const Required := InvalidType("string", "undefined")

  /** Issues of two different fields are different issues. */
  lemma DistinctLeaves(at: seq<PathElem>, x: string, c: IssueCode, y: string, d: IssueCode)
    requires x != y
    ensures Issue(at + [Key(x)], c) != Issue(at + [Key(y)], d)
  {
    assert (at + [Key(x)])[|at|] != (at + [Key(y)])[|at|];
  }

  /**
   * The issue a failing field of the article schema yields: Zod's code for
   * that check, at `at` followed by the field's key.
   */
  predicate ArticleIssueAt(issue: Issue, at: seq<PathElem>) {
    || issue == Issue(at + [Key("url")], InvalidString("url"))
    || issue == Issue(at + [Key("description")], Required)
    || issue == Issue(at + [Key("imageUrl")], Required)
    || issue == Issue(at + [Key("imageUrl")], InvalidString("url"))
    || issue == Issue(at + [Key("publishedAt")], InvalidString("datetime"))
  }

  /**
   * The issues `NewsArticleSchema` reports for one article, in shape order
   * (title, url, description, imageUrl, publishedAt, category), each at
   * `at` followed by the field's key. `title` and `category` are strings by
   * construction and never fail.
   */
  function ArticleIssues(fmt: Formats, a: NewsArticle, at: seq<PathElem>): (r: seq<Issue>)
    ensures r == [] <==> ValidArticle(fmt, a)
    ensures forall k :: 0 <= k < |r| ==> |r[k].path| == |at| + 1 && r[k].path[..|at|] == at
  {
    (if fmt.isUrl(a.url) then [] else [Issue(at + [Key("url")], InvalidString("url"))])
    + (if a.description.Absent? then [Issue(at + [Key("description")], Required)] else [])
    + (match a.imageUrl
       case Absent => [Issue(at + [Key("imageUrl")], Required)]
       case Null => []
       case Present(u) => if fmt.isUrl(u) then [] else [Issue(at + [Key("imageUrl")], InvalidString("url"))])
    + (if fmt.isDateTime(a.publishedAt) then [] else [Issue(at + [Key("publishedAt")], InvalidString("datetime"))])
  }

  /** The issues of an article, split by the field that reports them. */
  lemma ArticleIssueParts(fmt: Formats, a: NewsArticle, at: seq<PathElem>)
    returns (url: seq<Issue>, description: seq<Issue>, image: seq<Issue>, published: seq<Issue>)
    ensures ArticleIssues(fmt, a, at) == url + description + image + published
    ensures url == (if fmt.isUrl(a.url) then [] else [Issue(at + [Key("url")], InvalidString("url"))])
    ensures description == (if a.description.Absent? then [Issue(at + [Key("description")], Required)] else [])
    ensures image == (match a.imageUrl
      case Absent => [Issue(at + [Key("imageUrl")], Required)]
      case Null => []
      case Present(u) => if fmt.isUrl(u) then [] else [Issue(at + [Key("imageUrl")], InvalidString("url"))])
    ensures published == (if fmt.isDateTime(a.publishedAt) then [] else [Issue(at + [Key("publishedAt")], InvalidString("datetime"))])
  {
    url := if fmt.isUrl(a.url) then [] else [Issue(at + [Key("url")], InvalidString("url"))];
    description := if a.description.Absent? then [Issue(at + [Key("description")], Required)] else [];
    image := match a.imageUrl
      case Absent => [Issue(at + [Key("imageUrl")], Required)]
      case Null => []
      case Present(u) => if fmt.isUrl(u) then [] else [Issue(at + [Key("imageUrl")], InvalidString("url"))];
    published := if fmt.isDateTime(a.publishedAt) then [] else [Issue(at + [Key("publishedAt")], InvalidString("datetime"))];
  }

  /** Every issue of an article is one of the five the article schema can report. */
  lemma ArticleIssuesAreSchemaIssues(fmt: Formats, a: NewsArticle, at: seq<PathElem>)
    ensures forall k :: 0 <= k < |ArticleIssues(fmt, a, at)| ==> ArticleIssueAt(ArticleIssues(fmt, a, at)[k], at)
  {
    var url, description, image, published := ArticleIssueParts(fmt, a, at);
  }

  /** A `url` that is not a URL is reported under `url` with Zod's `invalid_string` code, and only then. */
  lemma ArticleIssuesNameUrl(fmt: Formats, a: NewsArticle, at: seq<PathElem>)
    ensures Issue(at + [Key("url")], InvalidString("url")) in ArticleIssues(fmt, a, at) <==> !fmt.isUrl(a.url)
  {
    var url, description, image, published := ArticleIssueParts(fmt, a, at);
    var bad := Issue(at + [Key("url")], InvalidString("url"));
    DistinctLeaves(at, "url", InvalidString("url"), "description", Required);
    DistinctLeaves(at, "url", InvalidString("url"), "imageUrl", Required);
    DistinctLeaves(at, "url", InvalidString("url"), "imageUrl", InvalidString("url"));
    DistinctLeaves(at, "url", InvalidString("url"), "publishedAt", InvalidString("datetime"));
    assert bad !in description + image + published;
  }

  /** A missing `description` is reported under `description` as required, and only then. */
  lemma ArticleIssuesNameDescription(fmt: Formats, a: NewsArticle, at: seq<PathElem>)
    ensures Issue(at + [Key("description")], Required) in ArticleIssues(fmt, a, at) <==> a.description.Absent?
  {
    var url, description, image, published := ArticleIssueParts(fmt, a, at);
    var bad := Issue(at + [Key("description")], Required);
    DistinctLeaves(at, "description", Required, "url", InvalidString("url"));
    DistinctLeaves(at, "description", Required, "imageUrl", Required);
    DistinctLeaves(at, "description", Required, "imageUrl", InvalidString("url"));
    DistinctLeaves(at, "description", Required, "publishedAt", InvalidString("datetime"));
    assert bad !in url + image + published;
  }

  /** A `publishedAt` that is not a date-time is reported under `publishedAt`, and only then. */
  lemma ArticleIssuesNamePublishedAt(fmt: Formats, a: NewsArticle, at: seq<PathElem>)
    ensures Issue(at + [Key("publishedAt")], InvalidString("datetime")) in ArticleIssues(fmt, a, at)
        <==> !fmt.isDateTime(a.publishedAt)
  {
    var url, description, image, published := ArticleIssueParts(fmt, a, at);
    var bad := Issue(at + [Key("publishedAt")], InvalidString("datetime"));
    DistinctLeaves(at, "publishedAt", InvalidString("datetime"), "url", InvalidString("url"));
    DistinctLeaves(at, "publishedAt", InvalidString("datetime"), "description", Required);
    DistinctLeaves(at, "publishedAt", InvalidString("datetime"), "imageUrl", Required);
    DistinctLeaves(at, "publishedAt", InvalidString("datetime"), "imageUrl", InvalidString("url"));
    assert bad !in url + description + image;
  }

  /**
   * `imageUrl` is reported as missing iff it is absent and as not a URL iff
   * it is a string that is not one; a null image is never reported.
   */
  lemma ArticleIssuesNameImage(fmt: Formats, a: NewsArticle, at: seq<PathElem>)
    ensures Issue(at + [Key("imageUrl")], Required) in ArticleIssues(fmt, a, at) <==> a.imageUrl.Absent?
    ensures Issue(at + [Key("imageUrl")], InvalidString("url")) in ArticleIssues(fmt, a, at)
        <==> a.imageUrl.Present? && !fmt.isUrl(a.imageUrl.value)
  {
    var url, description, image, published := ArticleIssueParts(fmt, a, at);
    DistinctLeaves(at, "imageUrl", Required, "url", InvalidString("url"));
    DistinctLeaves(at, "imageUrl", Required, "description", Required);
    DistinctLeaves(at, "imageUrl", Required, "publishedAt", InvalidString("datetime"));
    DistinctLeaves(at, "imageUrl", InvalidString("url"), "url", InvalidString("url"));
    DistinctLeaves(at, "imageUrl", InvalidString("url"), "description", Required);
    DistinctLeaves(at, "imageUrl", InvalidString("url"), "publishedAt", InvalidString("datetime"));
    assert Issue(at + [Key("imageUrl")], Required) !in url + description + published;
    assert Issue(at + [Key("imageUrl")], InvalidString("url")) !in url + description + published;
  }

  /** The issues of `articles`, the element at position `k` reported under `["articles", from + k]`. */
  function ArticleListIssues(fmt: Formats, articles: seq<NewsArticle>, from: nat): (r: seq<Issue>)
    ensures r == [] <==> forall i :: 0 <= i < |articles| ==> ValidArticle(fmt, articles[i])
    decreases |articles|
  {
    if articles == [] then []
    else
      assert forall i :: 1 <= i < |articles| ==> articles[i] == articles[1..][i - 1];
      ArticleIssues(fmt, articles[0], [Key("articles"), Index(from)]) + ArticleListIssues(fmt, articles[1..], from + 1)
  }

  /**
   * Each reported issue points into an article that the schema rejects, and
   * is one of the issues the article schema reports for a field of it.
   */
  lemma {:induction false} IssueLocatesInvalidArticle(fmt: Formats, articles: seq<NewsArticle>, from: nat, k: int)
    returns (i: int)
    requires 0 <= k < |ArticleListIssues(fmt, articles, from)|
    ensures 0 <= i < |articles| && !ValidArticle(fmt, articles[i])
    ensures var path := ArticleListIssues(fmt, articles, from)[k].path;
      |path| == 3 && path[..2] == [Key("articles"), Index(from + i)]
    ensures ArticleIssueAt(ArticleListIssues(fmt, articles, from)[k], [Key("articles"), Index(from + i)])
  {
    var issues := ArticleListIssues(fmt, articles, from);
    var at := [Key("articles"), Index(from)];
    var head := ArticleIssues(fmt, articles[0], at);
    var tail := ArticleListIssues(fmt, articles[1..], from + 1);
    assert issues == head + tail;
    if k < |head| {
      assert head != [];
      assert issues[k] == head[k];
      ArticleIssuesAreSchemaIssues(fmt, articles[0], at);
      assert |head[k].path| == 3 && head[k].path[..2] == at;
      i := 0;
    } else {
      assert issues[k] == tail[k - |head|];
      var t := IssueLocatesInvalidArticle(fmt, articles[1..], from + 1, k - |head|);
      assert articles[1..][t] == articles[t + 1];
      i := t + 1;
      assert from + 1 + t == from + i;
    }
  }

  /**
   * `NewsResponseSchema.parse({ articles, timestamp })`: the response itself
   * when every article is valid, otherwise the issues of every invalid one.
   */
  function ParseNewsResponse(fmt: Formats, response: NewsResponse): (r: Result<NewsResponse, seq<Issue>>)
    ensures r.Success? <==> forall i :: 0 <= i < |response.articles| ==> ValidArticle(fmt, response.articles[i])
    ensures r.Success? ==> r.value == response
    ensures r.Failure? ==> r.error == ArticleListIssues(fmt, response.articles, 0)
  {
    var issues := ArticleListIssues(fmt, response.articles, 0);
    if issues == [] then Success(response) else Failure(issues)
  }
}
