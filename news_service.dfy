/**
 * The news service: category validation, the options each provider call
 * receives, article normalisation, the sources shape check, and the
 * rewriting of every failure into one fixed message per operation.
 */
module NewsService {
  import opened Wrappers
  import opened Js
  import opened NewsTypes

  // ---------------------------------------------------------------------------
  // Provider records and the provider adapter
  // ---------------------------------------------------------------------------

  datatype ArticleSource = ArticleSource(id: Option<string>, name: string)

  /** An article as the provider sends it; `None` stands for JSON null. */
  datatype RawArticle = RawArticle(
    source: ArticleSource,
    author: Option<string>,
    title: string,
    description: JsField<string>,
    url: string,
    urlToImage: JsField<string>,
    publishedAt: string,
    content: Option<string>)

  datatype RawSource = RawSource(
    id: string, name: string, description: string, url: string,
    category: string, language: string, country: string)

  /** A provider response body; `Absent` means the key is not in the body. */
  datatype RawResponse = RawResponse(
    status: string,
    articles: JsField<seq<RawArticle>>,
    sources: JsField<seq<RawSource>>)

  /** The options object handed to the provider, key by key. */
  type Options = map<string, Value>

  /** What one provider call comes back with: a body, or a rejection. */
  datatype Reply = Responded(response: RawResponse) | Rejected(detail: string)

  /** The provider client's three calls, each from its options to its reply. */
  datatype Adapter = Adapter(
    everything: Options -> Reply,
    topHeadlines: Options -> Reply,
    sources: Options -> Reply)

  /**
   * `new Date(s).toISOString()`: the canonical rendering of a date string, or
   * None where JavaScript throws a RangeError for an invalid date.
   */
  type DateFormatter = string -> Option<string>

  /** Why an operation failed inside the service, before it is rewritten. */
  datatype Fault =
    | InvalidCategory(message: string)
    | InvalidResponse
    | ProviderFailure(detail: string)
    | NotAnArticleList
    | NotASourceList
    | InvalidDate(value: string)

  /** The error a service operation throws to its caller. */
  datatype ServiceError = ServiceError(message: string)

  const FetchArticlesMessage := "Failed to fetch articles"
  const FetchHeadlinesMessage := "Failed to fetch headlines"
  const FetchSourcesMessage := "Failed to fetch sources"

  // ---------------------------------------------------------------------------
  // Categories
  // ---------------------------------------------------------------------------

  const Categories: seq<string> :=
    ["business", "entertainment", "general", "health", "science", "sports", "technology"]

  /** `parts.join(sep)`. */
  function Join(parts: seq<string>, sep: string): string {
    if parts == [] then ""
    else if |parts| == 1 then parts[0]
    else parts[0] + sep + Join(parts[1..], sep)
  }

  /** `part` occurs in `s` starting at index `i`. */
  predicate OccursAt(s: string, part: string, i: int) {
    0 <= i && i + |part| <= |s| && s[i..i + |part|] == part
  }

  ghost predicate Contains(s: string, part: string) {
    exists i :: OccursAt(s, part, i)
  }

  /** Where a part lands in the joined string. */
  lemma {:induction false} JoinPosition(parts: seq<string>, sep: string, k: int) returns (i: int)
    requires 0 <= k < |parts|
    ensures OccursAt(Join(parts, sep), parts[k], i)
  {
    var s := Join(parts, sep);
    if k == 0 {
      assert s[0..|parts[0]|] == parts[0];
      i := 0;
    } else {
      var rest := Join(parts[1..], sep);
      var t := JoinPosition(parts[1..], sep, k - 1);
      var offset := |parts[0] + sep|;
      assert s == (parts[0] + sep) + rest;
      assert s[offset..] == rest;
      assert s[offset + t..offset + t + |parts[k]|] == s[offset..][t..t + |parts[k]|];
      i := offset + t;
    }
  }

  function InvalidCategoryMessage(category: string): (r: string)
    ensures OccursAt(r, category, |"Invalid category: "|)
  {
    "Invalid category: " + category + ". Valid categories are: " + Join(Categories, ", ")
  }

  /** A part found in a suffix of a string is found in the whole string. */
  lemma OccursInSuffix(m: string, offset: nat, part: string, i: int)
    requires offset <= |m| && OccursAt(m[offset..], part, i)
    ensures OccursAt(m, part, offset + i)
  {
    assert m[offset + i..offset + i + |part|] == m[offset..][i..i + |part|];
  }

  /** The rejection message names the rejected value and every valid category. */
  lemma InvalidCategoryMessageNamesAll(category: string)
    ensures Contains(InvalidCategoryMessage(category), category)
    ensures forall k :: 0 <= k < |Categories| ==> Contains(InvalidCategoryMessage(category), Categories[k])
  {
    var m := InvalidCategoryMessage(category);
    var prefix := "Invalid category: ";
    assert OccursAt(m, category, |prefix|);
    var list := Join(Categories, ", ");
    var offset := |m| - |list|;
    assert m[offset..] == list;
    forall k | 0 <= k < |Categories| ensures Contains(m, Categories[k]) {
      var i := JoinPosition(Categories, ", ", k);
      OccursInSuffix(m, offset, Categories[k], i);
    }
  }

  /**
   * `validateCategory`: an absent or empty category means no category, a
   * member of the seven is kept, anything else is an error.
   */
  function ValidateCategory(category: Option<string>): (r: Result<Option<string>, Fault>)
    ensures r.Success? <==> category.None? || category.value == "" || category.value in Categories
    ensures r.Success? && (category.None? || category.value == "") ==> r.value.None?
    ensures r.Success? && category.Some? && category.value != "" ==> r.value == category
    ensures r.Failure? ==> r.error == InvalidCategory(InvalidCategoryMessage(category.value))
  {
    match category
    case None => Success(None)
    case Some(c) =>
      if c == "" then Success(None)
      else if c in Categories then Success(Some(c))
      else Failure(InvalidCategory(InvalidCategoryMessage(c)))
  }

  /** `options.category`, when it holds a string. */
  function CategoryOf(options: Options): Option<string> {
    if "category" in options && options["category"].Text? then Some(options["category"].s) else None
  }

  // ---------------------------------------------------------------------------
  // Options handed to the provider
  // ---------------------------------------------------------------------------

  /** `...(category && { category })`: a key only for a validated, non-empty category. */
  function CategoryEntry(category: Option<string>): (r: Options)
    ensures r.Keys <= {"category"}
    ensures "category" in r <==> category.Some? && category.value != ""
    ensures "category" in r ==> r["category"] == Text(category.value)
  {
    if category.Some? && category.value != "" then map["category" := Text(category.value)] else map[]
  }

  /**
   * `{ language: 'en', ...options, ...(category && { category }) }`, after
   * the category has been validated.
   */
  function HeadlinesRequest(options: Options): (r: Result<Options, Fault>)
    ensures r.Success? <==> ValidateCategory(CategoryOf(options)).Success?
    ensures r.Failure? ==> r.error == ValidateCategory(CategoryOf(options)).error
    ensures r.Success? ==> r.value.Keys == options.Keys + {"language"}
    ensures r.Success? ==> forall k :: k in options ==> r.value[k] == options[k]
    ensures r.Success? && "language" !in options ==> r.value["language"] == Text("en")
    ensures r.Success? && ValidateCategory(CategoryOf(options)).value.Some? ==>
              r.value["category"] == Text(ValidateCategory(CategoryOf(options)).value.value)
  {
    match ValidateCategory(CategoryOf(options))
    case Failure(e) => Failure(e)
    case Success(category) => Success(map["language" := Text("en")] + options + CategoryEntry(category))
  }

  /** `{ ...options, ...(category && { category }) }`, after the category has been validated. */
  function SourcesRequest(options: Options): (r: Result<Options, Fault>)
    ensures r.Success? <==> ValidateCategory(CategoryOf(options)).Success?
    ensures r.Failure? ==> r.error == ValidateCategory(CategoryOf(options)).error
    ensures r.Success? ==> r.value == options
  {
    match ValidateCategory(CategoryOf(options))
    case Failure(e) => Failure(e)
    case Success(category) => Success(options + CategoryEntry(category))
  }

  // ---------------------------------------------------------------------------
  // Normalisation
  // ---------------------------------------------------------------------------

  /**
   * `mapToNewsArticle`: the provider's title, url and image pass through, a
   * missing description becomes null, the date is re-rendered, and the
   * category is the lower-cased name of the article's source.
   */
  function MapToNewsArticle(toIso: DateFormatter, a: RawArticle): (r: Result<NewsArticle, Fault>)
    ensures r.Success? <==> toIso(a.publishedAt).Some?
    ensures r.Failure? ==> r.error == InvalidDate(a.publishedAt)
    ensures r.Success? ==> r.value.title == a.title && r.value.url == a.url
    ensures r.Success? ==> r.value.imageUrl == a.urlToImage
    ensures r.Success? ==> (r.value.description.Null? <==> !a.description.Present?)
    ensures r.Success? && a.description.Present? ==> r.value.description == a.description
    ensures r.Success? ==> !r.value.description.Absent?
    ensures r.Success? ==> Some(r.value.publishedAt) == toIso(a.publishedAt)
    ensures r.Success? ==> r.value.category == ToLower(a.source.name)
  {
    match toIso(a.publishedAt)
    case None => Failure(InvalidDate(a.publishedAt))
    case Some(iso) =>
      Success(NewsArticle(
        title := a.title,
        url := a.url,
        description := if a.description.Present? then a.description else Null,
        imageUrl := a.urlToImage,
        publishedAt := iso,
        category := ToLower(a.source.name)))
  }

  /**
   * `articles.map(mapToNewsArticle)`: all or nothing; the first article
   * whose date cannot be rendered aborts the whole list.
   */
  function MapArticles(toIso: DateFormatter, raws: seq<RawArticle>): (r: Result<seq<NewsArticle>, Fault>)
    ensures r.Success? <==> forall i :: 0 <= i < |raws| ==> toIso(raws[i].publishedAt).Some?
    ensures r.Success? ==> |r.value| == |raws|
    ensures r.Success? ==> forall i :: 0 <= i < |raws| ==> MapToNewsArticle(toIso, raws[i]) == Success(r.value[i])
    ensures r.Failure? ==> exists i :: (0 <= i < |raws| && r.error == InvalidDate(raws[i].publishedAt)
              && toIso(raws[i].publishedAt).None?
              && forall j :: 0 <= j < i ==> toIso(raws[j].publishedAt).Some?)
  {
    if raws == [] then Success([])
    else
      match MapToNewsArticle(toIso, raws[0])
      case Failure(e) => Failure(e)
      case Success(head) =>
        var rest := MapArticles(toIso, raws[1..]);
        assert forall i :: 1 <= i < |raws| ==> raws[i] == raws[1..][i - 1];
        match rest
        case Failure(e) =>
          var i :| 0 <= i < |raws[1..]| && e == InvalidDate(raws[1..][i].publishedAt)
            && toIso(raws[1..][i].publishedAt).None?
            && forall j :: 0 <= j < i ==> toIso(raws[1..][j].publishedAt).Some?;
          assert raws[1..][i] == raws[i + 1];
          assert forall j :: 1 <= j < i + 1 ==> toIso(raws[j].publishedAt).Some? by {
            forall j | 1 <= j < i + 1 ensures toIso(raws[j].publishedAt).Some? {
              assert raws[j] == raws[1..][j - 1];
            }
          }
          Failure(e)
        case Success(tail) => Success([head] + tail)
  }

  /** `'sources' in response`: a key test only; a null list passes. */
  predicate IsSourcesResponse(response: RawResponse) {
    !response.sources.Absent?
  }

  /**
   * The key test lets a `null` list through: such a body is not rejected as
   * an invalid response, but `sources` still fails when it reads the length.
   */
  lemma NullSourcesPassKeyTest(api: Adapter, options: Options)
    requires api.sources(options).Responded? && api.sources(options).response.sources.Null?
    ensures IsSourcesResponse(api.sources(options).response)
    ensures Sources(api, options) == Failure(ServiceError(FetchSourcesMessage))
  {
  }

  /** The article list of a reply, when the provider answered with one. */
  function ArticlesOf(reply: Reply): Option<seq<RawArticle>> {
    if reply.Responded? && reply.response.articles.Present? then Some(reply.response.articles.value) else None
  }

  /**
   * The body of an article operation once the provider has replied: its
   * rejection, a body without an article list (reading `.map` of it throws),
   * or the normalised list.
   */
  function NormaliseReply(toIso: DateFormatter, reply: Reply): (r: Result<seq<NewsArticle>, Fault>)
    ensures r.Success? <==> ArticlesOf(reply).Some? && MapArticles(toIso, ArticlesOf(reply).value).Success?
    ensures r.Success? ==> r == MapArticles(toIso, ArticlesOf(reply).value)
  {
    match reply
    case Rejected(detail) => Failure(ProviderFailure(detail))
    case Responded(response) =>
      if response.articles.Present? then MapArticles(toIso, response.articles.value)
      else Failure(NotAnArticleList)
  }

  /** The `catch` of each operation: whatever failed, only the fixed message is thrown on. */
  function Rethrow<T>(attempt: Result<T, Fault>, message: string): (r: Result<T, ServiceError>)
    ensures r.Success? <==> attempt.Success?
    ensures r.Success? ==> r.value == attempt.value
    ensures r.Failure? ==> r.error == ServiceError(message)
  {
    match attempt
    case Success(v) => Success(v)
    case Failure(_) => Failure(ServiceError(message))
  }

  // ---------------------------------------------------------------------------
  // The three operations
  // ---------------------------------------------------------------------------

  /** `everything`: the caller's options go to the provider untouched. */
  function Everything(api: Adapter, toIso: DateFormatter, options: Options): (r: Result<seq<NewsArticle>, ServiceError>)
    ensures r.Failure? ==> r.error == ServiceError(FetchArticlesMessage)
    ensures r.Success? <==> NormaliseReply(toIso, api.everything(options)).Success?
    ensures r.Success? ==> Success(r.value) == MapArticles(toIso, ArticlesOf(api.everything(options)).value)
  {
    Rethrow(NormaliseReply(toIso, api.everything(options)), FetchArticlesMessage)
  }

  /** `topHeadlines`: validate the category, then ask with English as the default language. */
  function TopHeadlines(api: Adapter, toIso: DateFormatter, options: Options): (r: Result<seq<NewsArticle>, ServiceError>)
    ensures r.Failure? ==> r.error == ServiceError(FetchHeadlinesMessage)
    ensures r.Success? <==> (HeadlinesRequest(options).Success?
              && NormaliseReply(toIso, api.topHeadlines(HeadlinesRequest(options).value)).Success?)
    ensures r.Success? ==> (Success(r.value)
              == MapArticles(toIso, ArticlesOf(api.topHeadlines(HeadlinesRequest(options).value)).value))
  {
    var attempt :=
      match HeadlinesRequest(options)
      case Failure(e) => Failure(e)
      case Success(args) => NormaliseReply(toIso, api.topHeadlines(args));
    Rethrow(attempt, FetchHeadlinesMessage)
  }

  /**
   * `sources`: validate the category, ask, and reject a body without a
   * `sources` key; reading the length of a `null` list throws, so only a
   * list is returned, as the provider sent it.
   */
  function Sources(api: Adapter, options: Options): (r: Result<seq<RawSource>, ServiceError>)
    ensures r.Failure? ==> r.error == ServiceError(FetchSourcesMessage)
    ensures r.Success? <==> (SourcesRequest(options).Success?
              && api.sources(options).Responded? && api.sources(options).response.sources.Present?)
    ensures r.Success? ==> api.sources(options).response.sources == Present(r.value)
  {
    var attempt :=
      match SourcesRequest(options)
      case Failure(e) => Failure(e)
      case Success(args) =>
        match api.sources(args)
        case Rejected(detail) => Failure(ProviderFailure(detail))
        case Responded(response) =>
          if !IsSourcesResponse(response) then Failure(InvalidResponse)
          else if response.sources.Null? then Failure(NotASourceList)
          else Success(response.sources.value);
    Rethrow(attempt, FetchSourcesMessage)
  }

  /** Options `{ category: "technology", country: "us" }` gain only the default English language. */
  lemma HeadlinesExampleRequest(options: Options)
    requires options == map["category" := Text("technology"), "country" := Text("us")]
    ensures HeadlinesRequest(options)
         == Success(map["language" := Text("en"), "category" := Text("technology"), "country" := Text("us")])
  {
    assert CategoryOf(options) == Some("technology");
    assert "technology" in Categories;
    assert ValidateCategory(Some("technology")) == Success(Some("technology"));
    var args := map["language" := Text("en")] + options + CategoryEntry(Some("technology"));
    assert args.Keys == {"language", "category", "country"};
    assert args == map["language" := Text("en"), "category" := Text("technology"), "country" := Text("us")];
  }

  /** An article from the source "BBC News" is categorised "bbc news", whatever was requested. */
  lemma SourceNameCategoryExample(toIso: DateFormatter, a: RawArticle)
    requires a.source.name == "BBC News" && toIso(a.publishedAt).Some?
    ensures MapToNewsArticle(toIso, a).Success?
    ensures MapToNewsArticle(toIso, a).value.category == "bbc news"
  {
    var lower := ToLower(a.source.name);
    assert lower[0] == 'b' && lower[1] == 'b' && lower[2] == 'c' && lower[3] == ' ';
    assert lower[4] == 'n' && lower[5] == 'e' && lower[6] == 'w' && lower[7] == 's';
    assert lower == "bbc news";
  }

  /**
   * Each way an operation can fail inside the service ends in that
   * operation's fixed message and nothing else.
   */
  lemma FailuresAreGeneric(api: Adapter, toIso: DateFormatter, options: Options)
    ensures api.everything(options).Rejected? ==> Everything(api, toIso, options) == Failure(ServiceError(FetchArticlesMessage))
    ensures (api.everything(options).Responded? && !api.everything(options).response.articles.Present?) ==>
      Everything(api, toIso, options) == Failure(ServiceError(FetchArticlesMessage))
    ensures ValidateCategory(CategoryOf(options)).Failure? ==>
      TopHeadlines(api, toIso, options) == Failure(ServiceError(FetchHeadlinesMessage))
      && Sources(api, options) == Failure(ServiceError(FetchSourcesMessage))
    ensures api.sources(options).Rejected? ==> Sources(api, options) == Failure(ServiceError(FetchSourcesMessage))
    ensures (api.sources(options).Responded? && !IsSourcesResponse(api.sources(options).response)) ==>
      Sources(api, options) == Failure(ServiceError(FetchSourcesMessage))
    ensures (api.sources(options).Responded? && api.sources(options).response.sources.Null?) ==>
      Sources(api, options) == Failure(ServiceError(FetchSourcesMessage))
  {
  }
}
