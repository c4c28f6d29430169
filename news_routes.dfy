/**
 * The three HTTP routes: parse the query with the route's schema, call the
 * service, re-check article output against the response schema, and map a
 * schema failure to 400 and any other failure to 500.
 */
module NewsRoutes {
  import opened Wrappers
  import opened Js
  import opened Zod
  import opened NewsTypes
  import opened NewsService

  const ValidCategories: seq<string> :=
    ["business", "entertainment", "general", "health", "science", "sports", "technology"]

  /** `z.string().optional()` */
  const AnyString := StringSchema(None, None)
  /** `z.string().min(2).max(2).optional()` */
  const TwoChars := StringSchema(Some(2), Some(2))
  /** `z.coerce.number().optional()` */
  const AnyNumber := CoercedNumberSchema(None, None)
  /** `z.coerce.number().min(1).max(100).optional()` */
  const PageSizeNumber := CoercedNumberSchema(Some(1), Some(100))
  /** `z.enum(validCategories).optional()` */
  const CategoryEnum := EnumSchema(ValidCategories)

  /** The `/everything` query; note the key `ExcludeDomains` is capitalised. */
  const EverythingSchema: seq<Field> := [
    Field("q", AnyString),
    Field("searchIn", AnyString),
    Field("sources", AnyString),
    Field("domains", AnyString),
    Field("ExcludeDomains", AnyString),
    Field("from", AnyString),
    Field("to", AnyString),
    Field("language", TwoChars),
    Field("sortBy", AnyString),
    Field("page", AnyNumber),
    Field("pageSize", PageSizeNumber)]

  /** The `/top-headlines` query; it declares no `language`. */
  const HeadlinesSchema: seq<Field> := [
    Field("q", AnyString),
    Field("sources", AnyString),
    Field("page", AnyNumber),
    Field("pageSize", PageSizeNumber),
    Field("category", CategoryEnum),
    Field("country", TwoChars)]

  /** The `/sources` query. */
  const SourcesSchema: seq<Field> := [
    Field("category", CategoryEnum),
    Field("language", TwoChars),
    Field("country", TwoChars)]

  datatype Body =
    | Articles(articles: seq<NewsArticle>, timestamp: int)
    | SourceList(sources: seq<RawSource>, timestamp: int)
    | Issues(issues: seq<Issue>)
    | Message(error: string)

  datatype HttpResponse = HttpResponse(status: int, body: Body)

  lemma SchemasWellFormed()
    ensures DistinctKeys(EverythingSchema) && DistinctKeys(HeadlinesSchema) && DistinctKeys(SourcesSchema)
  {
  }

  function ParseEverything(query: map<string, string>): (r: Result<Options, seq<Issue>>)
    ensures r.Success? <==> AdmitsAll(EverythingSchema, query)
    ensures r.Success? ==> r.value.Keys == Keys(EverythingSchema) * query.Keys
    ensures r.Success? ==> forall i :: 0 <= i < |EverythingSchema| && EverythingSchema[i].key in query ==>
              ParseField(EverythingSchema[i].schema, query[EverythingSchema[i].key]) == Success(r.value[EverythingSchema[i].key])
    ensures r.Failure? ==> r.error != [] && r.error == ObjectIssues(EverythingSchema, query)
  {
    SchemasWellFormed();
    ParseObject(EverythingSchema, query)
  }

  function ParseHeadlines(query: map<string, string>): (r: Result<Options, seq<Issue>>)
    ensures r.Success? <==> AdmitsAll(HeadlinesSchema, query)
    ensures r.Success? ==> r.value.Keys == Keys(HeadlinesSchema) * query.Keys
    ensures r.Success? ==> forall i :: 0 <= i < |HeadlinesSchema| && HeadlinesSchema[i].key in query ==>
              ParseField(HeadlinesSchema[i].schema, query[HeadlinesSchema[i].key]) == Success(r.value[HeadlinesSchema[i].key])
    ensures r.Failure? ==> r.error != [] && r.error == ObjectIssues(HeadlinesSchema, query)
  {
    SchemasWellFormed();
    ParseObject(HeadlinesSchema, query)
  }

  function ParseSources(query: map<string, string>): (r: Result<Options, seq<Issue>>)
    ensures r.Success? <==> AdmitsAll(SourcesSchema, query)
    ensures r.Success? ==> r.value.Keys == Keys(SourcesSchema) * query.Keys
    ensures r.Success? ==> forall i :: 0 <= i < |SourcesSchema| && SourcesSchema[i].key in query ==>
              ParseField(SourcesSchema[i].schema, query[SourcesSchema[i].key]) == Success(r.value[SourcesSchema[i].key])
    ensures r.Failure? ==> r.error != [] && r.error == ObjectIssues(SourcesSchema, query)
  {
    SchemasWellFormed();
    ParseObject(SourcesSchema, query)
  }

  /**
   * The tail both article routes share once the query parsed: a service
   * failure is a 500 with the route's message, output that fails
   * `NewsResponseSchema` is a 400 with its issues, anything else a 200.
   */
  function ReplyWithArticles(fetched: Result<seq<NewsArticle>, ServiceError>, fmt: Formats, now: int, message: string)
    : (r: HttpResponse)
    ensures r.status in {200, 400, 500}
    ensures r.status == 500 <==> fetched.Failure?
    ensures r.status == 500 ==> r.body == Message(message)
    ensures r.status == 400 <==> fetched.Success? && ParseNewsResponse(fmt, NewsResponse(fetched.value, now)).Failure?
    ensures r.status == 400 ==> r.body == Issues(ParseNewsResponse(fmt, NewsResponse(fetched.value, now)).error)
    ensures r.status == 200 ==> r.body == Articles(fetched.value, now)
    ensures r.status == 200 ==> forall i :: 0 <= i < |fetched.value| ==> ValidArticle(fmt, fetched.value[i])
  {
    match fetched
    case Failure(_) => HttpResponse(500, Message(message))
    case Success(articles) =>
      match ParseNewsResponse(fmt, NewsResponse(articles, now))
      case Failure(issues) => HttpResponse(400, Issues(issues))
      case Success(response) => HttpResponse(200, Articles(response.articles, response.timestamp))
  }

  /** Each issue of an output-check 400 points at a normalised article that fails the schema. */
  lemma {:induction false} OutputIssueNamesInvalidArticle(
    fetched: Result<seq<NewsArticle>, ServiceError>, fmt: Formats, now: int, message: string, k: int)
    returns (i: int)
    requires ReplyWithArticles(fetched, fmt, now, message).status == 400
    requires 0 <= k < |ReplyWithArticles(fetched, fmt, now, message).body.issues|
    ensures fetched.Success? && 0 <= i < |fetched.value| && !ValidArticle(fmt, fetched.value[i])
    ensures var path := ReplyWithArticles(fetched, fmt, now, message).body.issues[k].path;
      |path| == 3 && path[..2] == [Key("articles"), Index(i)]
    ensures ArticleIssueAt(ReplyWithArticles(fetched, fmt, now, message).body.issues[k], [Key("articles"), Index(i)])
  {
    var issues := ArticleListIssues(fmt, fetched.value, 0);
    assert ReplyWithArticles(fetched, fmt, now, message).body.issues == issues;
    i := IssueLocatesInvalidArticle(fmt, fetched.value, 0, k);
    assert [Key("articles"), Index(0 + i)] == [Key("articles"), Index(i)];
  }

  /** `GET /everything`. */
  function EverythingRoute(api: Adapter, toIso: DateFormatter, fmt: Formats, now: int, query: map<string, string>)
    : (r: HttpResponse)
    ensures ParseEverything(query).Failure? ==> r == HttpResponse(400, Issues(ParseEverything(query).error))
    ensures ParseEverything(query).Success? ==>
      r == ReplyWithArticles(Everything(api, toIso, ParseEverything(query).value), fmt, now, FetchArticlesMessage)
  {
    match ParseEverything(query)
    case Failure(issues) => HttpResponse(400, Issues(issues))
    case Success(options) => ReplyWithArticles(Everything(api, toIso, options), fmt, now, FetchArticlesMessage)
  }

  /** `GET /top-headlines`. */
  function HeadlinesRoute(api: Adapter, toIso: DateFormatter, fmt: Formats, now: int, query: map<string, string>)
    : (r: HttpResponse)
    ensures ParseHeadlines(query).Failure? ==> r == HttpResponse(400, Issues(ParseHeadlines(query).error))
    ensures ParseHeadlines(query).Success? ==>
      r == ReplyWithArticles(TopHeadlines(api, toIso, ParseHeadlines(query).value), fmt, now, FetchHeadlinesMessage)
  {
    match ParseHeadlines(query)
    case Failure(issues) => HttpResponse(400, Issues(issues))
    case Success(options) => ReplyWithArticles(TopHeadlines(api, toIso, options), fmt, now, FetchHeadlinesMessage)
  }

  /** `GET /sources`: no output check. */
  function SourcesRoute(api: Adapter, now: int, query: map<string, string>): (r: HttpResponse)
    ensures r.status in {200, 400, 500}
    ensures r.status == 400 <==> ParseSources(query).Failure?
    ensures ParseSources(query).Failure? ==> r == HttpResponse(400, Issues(ParseSources(query).error))
    ensures r.status == 200 <==> ParseSources(query).Success? && Sources(api, ParseSources(query).value).Success?
    ensures r.status == 500 <==> ParseSources(query).Success? && Sources(api, ParseSources(query).value).Failure?
    ensures r.status == 500 ==> r.body == Message(FetchSourcesMessage)
    ensures r.status == 200 ==> r.body == SourceList(Sources(api, ParseSources(query).value).value, now)
  {
    match ParseSources(query)
    case Failure(issues) => HttpResponse(400, Issues(issues))
    case Success(options) =>
      match Sources(api, options)
      case Failure(_) => HttpResponse(500, Message(FetchSourcesMessage))
      case Success(sources) => HttpResponse(200, SourceList(sources, now))
  }

  // ---------------------------------------------------------------------------
  // Field rules as the schemas state them
  // ---------------------------------------------------------------------------

  /** `pageSize` is admitted iff its coerced value is a number in [1, 100]. */
  lemma PageSizeRange(raw: string)
    ensures Admits(PageSizeNumber, raw) <==> ToNumber(raw).Finite? && 1.0 <= ToNumber(raw).r <= 100.0
  {
  }

  /** For a whole number written in decimal: 1 and 100 pass, 0 and 101 do not. */
  lemma {:induction false} PageSizeWholeNumber(n: nat)
    ensures Admits(PageSizeNumber, NatToDecimal(n)) <==> 1 <= n <= 100
  {
    ToNumberOfDecimal(n);
  }

  /** There is no integer requirement: a fraction inside [1, 100] is admitted. */
  lemma {:induction false} PageSizeFraction(whole: string, fraction: string)
    requires whole != [] && AllDigits(whole) && AllDigits(fraction)
    ensures var x := DigitsValue(whole + fraction) as real / Pow10(|fraction|) as real;
      Admits(PageSizeNumber, whole + "." + fraction) <==> 1.0 <= x <= 100.0
  {
    ToNumberOfFraction(whole, fraction);
  }

  /** `page` has no bound: any number written in decimal is admitted. */
  lemma {:induction false} PageUnbounded(n: nat)
    ensures Admits(AnyNumber, NatToDecimal(n))
  {
    ToNumberOfDecimal(n);
  }

  /** `page` is admitted exactly when its coercion is not NaN. */
  lemma PageAnyNumber(raw: string)
    ensures Admits(AnyNumber, raw) <==> !ToNumber(raw).NaN?
  {
  }

  /** Language and country codes are checked for length only, not for case or letters. */
  lemma TwoCharCode(raw: string)
    ensures Admits(TwoChars, raw) <==> Utf16Length(raw) == 2
    ensures (forall i :: 0 <= i < |raw| ==> !IsAstral(raw[i])) ==> (Admits(TwoChars, raw) <==> |raw| == 2)
  {
  }

  /** One astral character is two UTF-16 units, so it alone passes a two-character check. */
  lemma AstralCharIsTwoUnits(raw: string)
    requires |raw| == 1 && IsAstral(raw[0])
    ensures Admits(TwoChars, raw)
  {
    assert raw[1..] == [];
  }

  /** The route's category enum and the service's category list are the same seven values. */
  lemma CategoryListsAgree()
    ensures ValidCategories == Categories
    ensures Admits(CategoryEnum, "technology") && !Admits(CategoryEnum, "")
  {
  }

  // ---------------------------------------------------------------------------
  // The routes end to end
  // ---------------------------------------------------------------------------

  /** Through the routes the service never sees an invalid category. */
  lemma RoutedCategoryIsValid(query: map<string, string>)
    ensures ParseHeadlines(query).Success? ==> HeadlinesRequest(ParseHeadlines(query).value).Success?
    ensures ParseSources(query).Success? ==> SourcesRequest(ParseSources(query).value).Success?
  {
    RoutedHeadlinesCategory(query);
    RoutedSourcesCategory(query);
  }

  lemma RoutedHeadlinesCategory(query: map<string, string>)
    ensures ParseHeadlines(query).Success? ==> HeadlinesRequest(ParseHeadlines(query).value).Success?
  {
    SchemasWellFormed();
    if ParseHeadlines(query).Success? && "category" in query {
      assert HeadlinesSchema[4].key == "category";
      assert ParseField(CategoryEnum, query["category"]) == Success(ParseHeadlines(query).value["category"]);
    }
  }

  lemma RoutedSourcesCategory(query: map<string, string>)
    ensures ParseSources(query).Success? ==> SourcesRequest(ParseSources(query).value).Success?
  {
    SchemasWellFormed();
    if ParseSources(query).Success? && "category" in query {
      assert SourcesSchema[0].key == "category";
      assert ParseField(CategoryEnum, query["category"]) == Success(ParseSources(query).value["category"]);
    }
  }

  /** The headlines schema declares no `language`, so a caller's language is dropped. */
  lemma HeadlinesDropsLanguage(query: map<string, string>)
    requires ParseHeadlines(query).Success?
    ensures "language" !in ParseHeadlines(query).value
  {
    SchemasWellFormed();
    assert "language" !in Keys(HeadlinesSchema) by {
      assert forall i :: 0 <= i < |HeadlinesSchema| ==> HeadlinesSchema[i].key != "language";
    }
  }

  /** Through the route, the provider is always asked for English headlines. */
  lemma HeadlinesAlwaysEnglish(query: map<string, string>)
    requires ParseHeadlines(query).Success?
    ensures HeadlinesRequest(ParseHeadlines(query).value).Success?
    ensures HeadlinesRequest(ParseHeadlines(query).value).value["language"] == Text("en")
  {
    RoutedCategoryIsValid(query);
    HeadlinesDropsLanguage(query);
  }

  /**
   * The search schema's key is `ExcludeDomains`: that key is forwarded as
   * written and the provider option `excludeDomains` is never set.
   */
  lemma ExcludeDomainsSpelling(query: map<string, string>)
    requires ParseEverything(query).Success?
    ensures "excludeDomains" !in ParseEverything(query).value
    ensures "ExcludeDomains" in query ==>
      "ExcludeDomains" in ParseEverything(query).value
      && ParseEverything(query).value["ExcludeDomains"] == Text(query["ExcludeDomains"])
  {
    SchemasWellFormed();
    assert "excludeDomains" !in Keys(EverythingSchema) by {
      assert forall i :: 0 <= i < |EverythingSchema| ==> EverythingSchema[i].key != "excludeDomains";
    }
    if "ExcludeDomains" in query {
      assert EverythingSchema[4].key == "ExcludeDomains";
    }
  }

  /**
   * A query that fails its schema is a 400 with the schema's issues, and the
   * provider is never asked: the reply is the same whatever the adapter,
   * date formatter or output formats are.
   */
  lemma RejectedQueryNeverReachesProvider(
    api1: Adapter, api2: Adapter, toIso1: DateFormatter, toIso2: DateFormatter,
    fmt1: Formats, fmt2: Formats, now1: int, now2: int, query: map<string, string>)
    ensures ParseEverything(query).Failure? ==>
      EverythingRoute(api1, toIso1, fmt1, now1, query) == EverythingRoute(api2, toIso2, fmt2, now2, query)
        == HttpResponse(400, Issues(ParseEverything(query).error))
    ensures ParseHeadlines(query).Failure? ==>
      HeadlinesRoute(api1, toIso1, fmt1, now1, query) == HeadlinesRoute(api2, toIso2, fmt2, now2, query)
        == HttpResponse(400, Issues(ParseHeadlines(query).error))
    ensures ParseSources(query).Failure? ==>
      SourcesRoute(api1, now1, query) == SourcesRoute(api2, now2, query)
        == HttpResponse(400, Issues(ParseSources(query).error))
  {
  }

  /**
   * A category outside the seven is rejected by the route's enum, before the
   * service sees it: a 400 whose issues hold the received value and the
   * allowed list, at `category`.
   */
  lemma {:induction false} UnknownCategoryIs400(
    api: Adapter, toIso: DateFormatter, fmt: Formats, now: int, query: map<string, string>)
    returns (j: int, k: int)
    requires "category" in query && query["category"] !in ValidCategories
    ensures HeadlinesRoute(api, toIso, fmt, now, query).status == 400
    ensures SourcesRoute(api, now, query).status == 400
    ensures ParseHeadlines(query).Failure? && 0 <= j < |ParseHeadlines(query).error|
    ensures ParseHeadlines(query).error[j]
         == Issue([Key("category")], InvalidEnumValue(query["category"], ValidCategories))
    ensures ParseSources(query).Failure? && 0 <= k < |ParseSources(query).error|
    ensures ParseSources(query).error[k]
         == Issue([Key("category")], InvalidEnumValue(query["category"], ValidCategories))
  {
    SchemasWellFormed();
    ParseFieldCodes(CategoryEnum, query["category"]);
    assert HeadlinesSchema[4] == Field("category", CategoryEnum);
    assert Rejects(HeadlinesSchema, query, 4);
    j := EveryRejectedFieldReported(HeadlinesSchema, query, 4);
    assert SourcesSchema[0] == Field("category", CategoryEnum);
    assert Rejects(SourcesSchema, query, 0);
    k := EveryRejectedFieldReported(SourcesSchema, query, 0);
  }

  /**
   * A `pageSize` outside [1, 100] is a 400 whose issues name `pageSize`,
   * before any provider call.
   */
  lemma {:induction false} PageSizeOutOfRangeIs400(
    api: Adapter, toIso: DateFormatter, fmt: Formats, now: int, query: map<string, string>, n: nat)
    requires "pageSize" in query && query["pageSize"] == NatToDecimal(n) && (n == 0 || n > 100)
    ensures EverythingRoute(api, toIso, fmt, now, query).status == 400
    ensures ParseEverything(query).Failure?
    ensures exists j :: 0 <= j < |ParseEverything(query).error|
              && ParseEverything(query).error[j].path == [Key("pageSize")]
  {
    SchemasWellFormed();
    PageSizeWholeNumber(n);
    assert EverythingSchema[10] == Field("pageSize", PageSizeNumber);
    assert Rejects(EverythingSchema, query, 10);
    var j := EveryRejectedFieldReported(EverythingSchema, query, 10);
  }

  /** Every field of the headlines schema admits `category=technology&country=us`. */
  lemma HeadlinesExampleAdmitted(query: map<string, string>)
    requires query == map["category" := "technology", "country" := "us"]
    ensures AdmitsAll(HeadlinesSchema, query)
  {
    assert query.Keys == {"category", "country"};
    assert Admits(CategoryEnum, "technology");
    assert Utf16Length("us") == 2 by {
      assert forall i :: 0 <= i < |"us"| ==> !IsAstral("us"[i]);
    }
    forall i | 0 <= i < |HeadlinesSchema| ensures !Rejects(HeadlinesSchema, query, i) {
      if i == 4 {
        assert HeadlinesSchema[4] == Field("category", CategoryEnum);
      } else if i == 5 {
        assert HeadlinesSchema[5] == Field("country", TwoChars);
      } else {
        assert HeadlinesSchema[i].key !in query;
      }
    }
  }

  /** The options parsed from `category=technology&country=us` have exactly those two keys. */
  lemma HeadlinesExampleKeys(query: map<string, string>)
    requires query == map["category" := "technology", "country" := "us"]
    ensures ParseHeadlines(query).Success?
    ensures ParseHeadlines(query).value.Keys == {"category", "country"}
  {
    HeadlinesExampleAdmitted(query);
    assert HeadlinesSchema[4].key == "category" && HeadlinesSchema[5].key == "country";
    assert "category" in Keys(HeadlinesSchema) && "country" in Keys(HeadlinesSchema);
  }

  /** The options parsed from `category=technology&country=us` hold those two strings as text. */
  lemma HeadlinesExampleValues(query: map<string, string>)
    requires query == map["category" := "technology", "country" := "us"]
    ensures ParseHeadlines(query).Success?
    ensures "category" in ParseHeadlines(query).value && "country" in ParseHeadlines(query).value
    ensures ParseHeadlines(query).value["category"] == Text("technology")
    ensures ParseHeadlines(query).value["country"] == Text("us")
  {
    HeadlinesExampleKeys(query);
    assert HeadlinesSchema[4] == Field("category", CategoryEnum);
    assert HeadlinesSchema[5] == Field("country", TwoChars);
  }

  /** The headlines schema parses `category=technology&country=us` to exactly those two strings. */
  lemma HeadlinesExampleQuery(query: map<string, string>)
    requires query == map["category" := "technology", "country" := "us"]
    ensures ParseHeadlines(query) == Success(map["category" := Text("technology"), "country" := Text("us")])
  {
    HeadlinesExampleKeys(query);
    HeadlinesExampleValues(query);
    HeadlinesExampleOptions(ParseHeadlines(query).value);
  }

  /** Two entries fix the example's options map. */
  lemma HeadlinesExampleOptions(options: map<string, Value>)
    requires options.Keys == {"category", "country"}
    requires "category" in options && options["category"] == Text("technology")
    requires "country" in options && options["country"] == Text("us")
    ensures options == map["category" := Text("technology"), "country" := Text("us")]
  {
    var expected := map["category" := Text("technology"), "country" := Text("us")];
    assert expected.Keys == options.Keys;
  }

  /**
   * A headlines request for `category=technology&country=us` reaches the
   * provider as `{ language: "en", category: "technology", country: "us" }`.
   */
  lemma HeadlinesExample(query: map<string, string>)
    requires query == map["category" := "technology", "country" := "us"]
    ensures ParseHeadlines(query).Success?
    ensures HeadlinesRequest(ParseHeadlines(query).value)
         == Success(map["language" := Text("en"), "category" := Text("technology"), "country" := Text("us")])
  {
    HeadlinesExampleQuery(query);
    HeadlinesExampleRequest(ParseHeadlines(query).value);
  }

  /**
   * A normalised article fails the output schema only for a non-URL `url`,
   * a missing or non-URL image, or a rendered date the schema does not take;
   * its description never makes it fail.
   */
  lemma NormalisedArticleConformance(fmt: Formats, toIso: DateFormatter, a: RawArticle)
    requires MapToNewsArticle(toIso, a).Success?
    ensures ValidArticle(fmt, MapToNewsArticle(toIso, a).value) <==>
      && fmt.isUrl(a.url)
      && (a.urlToImage.Null? || (a.urlToImage.Present? && fmt.isUrl(a.urlToImage.value)))
      && fmt.isDateTime(toIso(a.publishedAt).value)
  {
  }
}
