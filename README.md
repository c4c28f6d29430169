# News request pipeline — a Dafny model

This project models the request pipeline of a small HTTP server over a
news-aggregation provider (NewsAPI). It covers three operations: full-text
search (`/everything`), top headlines (`/top-headlines`) and source listing
(`/sources`). For each request the pipeline:

1. parses and coerces the query string with the route's Zod schema;
2. builds the options the provider SDK receives;
3. calls the provider through an adapter;
4. normalises the provider's articles into the canonical article record;
5. re-checks article output against the canonical response schema;
6. maps every failure to status 400 (a schema failure, with its issue list)
   or 500 (anything else, with a fixed message).

Everything in the modelled code is pure, so the model is made of datatypes,
functions and lemmas. Files and modules:

- `wrappers.dfy` (`Wrappers`): `Option` and `Result`.
- `js.dfy` (`Js`): the JavaScript semantics the pipeline relies on. It holds
  `Number(string)` coercion for decimal literals, ASCII `toLowerCase`, and
  `JsField`, which tells a missing key from `null` from a value.
- `zod.dfy` (`Zod`): the Zod features the schemas use. These are optional
  string fields with length bounds, coerced numbers with bounds, enums, and
  object parsing. Object parsing drops unknown keys and reports every failing
  field.
- `news_types.dfy` (`NewsTypes`): the canonical article record and
  `NewsResponseSchema` (src/types/news.ts).
- `news_service.dfy` (`NewsService`): `validateCategory`, the options each
  provider call gets, `mapToNewsArticle`, the `'sources' in response` check,
  and the rewriting of errors (src/services/news-service.ts).
- `news_routes.dfy` (`NewsRoutes`): the three query schemas and the three
  handlers (src/routes/news.ts).

Some behaviour is supplied from outside, as function-valued parameters:

- the provider SDK is an `Adapter`, three functions from options to a reply
  or a rejection;
- `new Date(s).toISOString()` is a `DateFormatter`, a partial function;
- Zod's `.url()` and `.datetime()` checks are `Formats`, two predicates;
- `Date.now()` is the `now` parameter.

Query and option objects are maps from keys to values. This keeps object
spread and key spelling exactly as in the code.

Where the design description and the code disagree, the model follows the
code:

- There are no 401 or 429 statuses. Any failure that is not a schema failure
  is a 500.
- Language and country codes are checked for length 2 only, not for lower
  case or letters.
- `pageSize` is not required to be an integer.
- The headlines query accepts no `language`, so headlines always ask for
  English.
- The search schema spells the key `ExcludeDomains`, while the SDK option is
  `excludeDomains`. The value is forwarded under the capitalised key.
- The sources check only tests whether the `sources` key is present, so a
  `null` list passes it. Reading that list's length then throws, so such a
  body still ends in "Failed to fetch sources" and a 500.
- String length limits count UTF-16 code units, as JavaScript's `.length`
  does. A character outside the Basic Multilingual Plane counts twice, so
  one emoji passes a two-character check.
- A provider article without `urlToImage` produces an `imageUrl` the output
  schema rejects. Because that rejection is a Zod error, the route answers
  400.

## Model

| member | source | states |
|---|---|---|
| `Zod.ParseField` | src/routes/news.ts:19-46 | A present query value is accepted iff its field rule admits it (length bounds, coerced-number bounds, enum membership); strings pass through unchanged and number fields yield the coerced number; a rejection carries at least one issue |
| `Zod.ParseObject` | src/routes/news.ts:51 | Parsing succeeds iff no declared field rejects its value; the result has exactly the declared keys the query carries (unknown keys dropped, absent ones stay absent), each with its parsed value; a failure carries the object's issues, never none |
| `Zod.ParseFieldCodes` | src/routes/news.ts:19-46 | A rejected enum value reports exactly Zod's `invalid_enum_value` code with the value and the options; text that does not coerce reports exactly `invalid_type` (number, got nan); a number below `min` or above `max` reports `too_small`/`too_big` with that bound; a string shorter or longer than its bound reports `too_small`/`too_big` with that bound |
| `Zod.StringChecksReport` | src/routes/news.ts:27 | The length checks pass iff the JavaScript length meets both bounds; a broken minimum yields `too_small` with it, a broken maximum `too_big` with it |
| `Zod.NumberChecksReport` | src/routes/news.ts:29-30 | The number checks pass iff the value is not NaN and meets both bounds; NaN yields exactly `invalid_type` (nan); a broken bound yields `too_small`/`too_big` with that bound |
| `Zod.FieldIssues` | src/routes/news.ts:51 | A field contributes no issue iff it is absent or admitted, and every issue it contributes is located at its key |
| `Zod.FieldIssuesCodes` | src/routes/news.ts:51 | A field's issues are its failed parse's codes, one issue per code, in order |
| `Zod.ObjectIssues` | src/routes/news.ts:51 | The issues of an object are empty iff every declared field present in the query admits its value |
| `Zod.ObjectValues` | src/routes/news.ts:51 | For an admitted query, the parsed object has exactly the declared keys the query carries, each holding its field's parsed value |
| `Zod.IssueNamesRejectedField` | src/routes/news.ts:51 | Every issue of an object names a declared field whose value was rejected, at that field's key |
| `Zod.EveryRejectedFieldReported` | src/routes/news.ts:51 | Issues are aggregated: every rejected field has its own issue at its key, carrying the first code of that field's failed parse, not only the first rejected field |
| `Js.ToNumberOfDecimal` | src/routes/news.ts:29-30 | Coercing the decimal rendering of any natural number gives that number back |
| `Js.ToNumberOfFraction` | src/routes/news.ts:30 | A literal `digits.digits` coerces to the exact decimal it writes |
| `Js.ToNumber` | src/routes/news.ts:29-30 | The `Number()` coercion behind `z.coerce.number()`: a blank or all-space value coerces to 0, not NaN (its other properties are the lemmas below) |
| `Js.ToNumberIgnoresSpace` | src/routes/news.ts:29-30 | Blank space before a number, after it, or both, with different amounts on each side, does not change its coerced value |
| `Js.Utf16Length` | src/routes/news.ts:27 | JavaScript's `.length` of a string lies between its character count and twice that, and equals the character count iff no character is astral |
| `Js.ToLower` | src/services/news-service.ts:91 | Lower-casing keeps the length, turns each upper-case ASCII letter into its own lower-case letter, leaves no upper-case ASCII letter and leaves every other character as it was |
| `Js.ToLowerIdempotent` | src/services/news-service.ts:91 | Lower-casing an already lower-cased name changes nothing |
| `NewsTypes.ValidArticle` | src/types/news.ts:19-26 | The article schema: URL-shaped `url`, `description` present (string or null), `imageUrl` present and either null or URL-shaped, date-time `publishedAt` |
| `NewsTypes.NullableNotOptional` | src/types/news.ts:22-23 | A missing `description` or `imageUrl` fails the schema; when both are null, only `url` and `publishedAt` decide |
| `NewsTypes.ArticleIssues` | src/types/news.ts:19-26 | An article has no issues iff it is valid: URL-shaped `url`, `description` string or null but present, `imageUrl` URL-shaped or null but present, date-time `publishedAt`; every issue is located under the article's path |
| `NewsTypes.ArticleIssuesAreSchemaIssues` | src/types/news.ts:19-26 | Every issue of an article is one of the five the schema can report: url not a URL, description missing, image missing, image not a URL, date not a date-time, each under that field's key |
| `NewsTypes.ArticleIssuesNameUrl` | src/types/news.ts:21 | The issue `invalid_string` (url) at `url` is reported iff the url is not URL-shaped |
| `NewsTypes.ArticleIssuesNameDescription` | src/types/news.ts:22 | The issue "required" at `description` is reported iff the description is missing; a null one is accepted |
| `NewsTypes.ArticleIssuesNameImage` | src/types/news.ts:23 | `imageUrl` is reported as required iff it is missing, and as `invalid_string` (url) iff it is a string that is not URL-shaped; a null image is accepted |
| `NewsTypes.ArticleIssuesNamePublishedAt` | src/types/news.ts:24 | The issue `invalid_string` (datetime) at `publishedAt` is reported iff the date is not a date-time |
| `NewsTypes.ArticleListIssues` | src/types/news.ts:31 | A list has no issues iff every article in it is valid |
| `NewsTypes.IssueLocatesInvalidArticle` | src/types/news.ts:31 | Every issue is located at `articles[i]` for an article `i` that is invalid, and is one of the five issues the article schema reports for a field of that article |
| `NewsTypes.ParseNewsResponse` | src/types/news.ts:30-33 | A response parses iff every article is valid, and then it is returned unchanged; otherwise it fails with exactly the issues of its article list |
| `NewsService.ValidateCategory` | src/services/news-service.ts:95-103 | Succeeds iff the category is absent, empty or one of the seven; absent or empty gives no category, a member is returned unchanged, anything else fails with the message for that value |
| `NewsService.InvalidCategoryMessage` | src/services/news-service.ts:99 | The rejected value appears in the message directly after "Invalid category: " |
| `NewsService.InvalidCategoryMessageNamesAll` | src/services/news-service.ts:99 | The rejection message contains the rejected value and every one of the seven valid categories |
| `NewsService.JoinPosition` | src/services/news-service.ts:99 | Every category appears in the joined list of categories at a position the lemma returns |
| `NewsService.CategoryEntry` | src/services/news-service.ts:130 | `...(category && { category })` adds at most the key `category`, present iff the validated category is non-empty, holding that category |
| `NewsService.HeadlinesRequest` | src/services/news-service.ts:125-131 | Fails exactly when the category is invalid; otherwise the arguments are the caller's options, every caller field kept with its value, plus `language = "en"` when the caller gave none, with `category` equal to the validated category |
| `NewsService.SourcesRequest` | src/services/news-service.ts:144-149 | Fails exactly when the category is invalid; otherwise the arguments are the caller's options, with nothing added |
| `NewsService.HeadlinesExampleRequest` | src/services/news-service.ts:127-131 | Options `{category: technology, country: us}` become `{language: en, category: technology, country: us}` |
| `NewsService.MapToNewsArticle` | src/services/news-service.ts:84-93 | Fails iff the date cannot be rendered; title, url and image pass through (null stays null, missing stays missing); description is null iff the provider's is null or missing, otherwise unchanged; the date is the rendered one; category is the lower-cased source name |
| `NewsService.SourceNameCategoryExample` | src/services/news-service.ts:91 | An article from "BBC News" gets category "bbc news" |
| `NewsService.MapArticles` | src/services/news-service.ts:115 | All or nothing: succeeds iff every date renders, then yields a list of the same length in the same order with each element the normalisation of the provider's; a failure reports the first article whose date does not render |
| `NewsService.NullSourcesPassKeyTest` | src/services/news-service.ts:105-107 | A body with a `null` sources list passes the `'sources' in response` test, yet `sources` fails with its fixed message because the length read at line 155 throws |
| `NewsService.NormaliseReply` | src/services/news-service.ts:112-115 | Succeeds iff the provider replied with an article list that normalises, and yields that normalisation |
| `NewsService.Rethrow` | src/services/news-service.ts:116-119 | The catch keeps a success and replaces every failure by the fixed message |
| `NewsService.Everything` | src/services/news-service.ts:109-120 | The provider is asked with the caller's options unchanged; success iff that reply normalises, yielding the normalised list; every failure is exactly "Failed to fetch articles" |
| `NewsService.TopHeadlines` | src/services/news-service.ts:122-139 | Success iff the category is valid and the reply to the merged arguments normalises; every failure is exactly "Failed to fetch headlines" |
| `NewsService.Sources` | src/services/news-service.ts:141-161 | Success iff the category is valid, the provider replied, and the body carries a sources list (not missing, not null); the list is returned as sent; every failure is exactly "Failed to fetch sources" |
| `NewsService.FailuresAreGeneric` | src/services/news-service.ts:116-119 | A provider rejection, a body without articles, an invalid category, a body without `sources` or with a null list each end in the operation's fixed message only |
| `NewsRoutes.ReplyWithArticles` | src/routes/news.ts:53-65 | Status is 200, 400 or 500; 500 iff the service failed, with the route's message; 400 iff the output fails the response schema, with exactly that check's issues; 200 carries the articles, all valid, and the timestamp |
| `NewsRoutes.OutputIssueNamesInvalidArticle` | src/routes/news.ts:53-56 | Each issue in an output-check 400 is located at `articles[i]` for a normalised article `i` that fails the schema, and is one of the five issues the article schema reports for a field of it |
| `NewsRoutes.EverythingRoute` | src/routes/news.ts:49-67 | A query failing the search schema is a 400 with its issues; otherwise the reply is the article tail for the service's result on the parsed options |
| `NewsRoutes.HeadlinesRoute` | src/routes/news.ts:70-88 | A query failing the headlines schema is a 400 with its issues; otherwise the reply is the article tail for the headlines result |
| `NewsRoutes.SourcesRoute` | src/routes/news.ts:91-107 | Status is 200, 400 or 500; 400 iff the query fails its schema, with its issues; 200 iff the query parses and the service succeeds, returning the sources with no output check; 500 iff the service failed, with "Failed to fetch sources" |
| `NewsRoutes.ParseEverything` | src/routes/news.ts:19-31 | The search query parses iff every declared field it carries is admitted; the options keep exactly the declared keys the query carries and each holds its field's parsed value; a failure carries exactly the object's issues, never none |
| `NewsRoutes.ParseHeadlines` | src/routes/news.ts:33-40 | The headlines query parses iff every declared field it carries is admitted; the options keep exactly the declared keys the query carries and each holds its field's parsed value; a failure carries exactly the object's issues, never none |
| `NewsRoutes.ParseSources` | src/routes/news.ts:42-46 | The sources query parses iff every declared field it carries is admitted; the options keep exactly the declared keys the query carries and each holds its field's parsed value; a failure carries exactly the object's issues, never none |
| `NewsRoutes.UnknownCategoryIs400` | src/routes/news.ts:38-43 | A `category` outside the seven is a 400 on the headlines and the sources route, with the issue `invalid_enum_value` for that value and the seven options at `category` |
| `NewsRoutes.SchemasWellFormed` | src/routes/news.ts:19-46 | Each schema declares every key once |
| `NewsRoutes.PageSizeRange` | src/routes/news.ts:30 | `pageSize` is admitted iff it coerces to a finite number in [1, 100] |
| `NewsRoutes.PageSizeWholeNumber` | src/routes/news.ts:30 | For a whole number n written in decimal, `pageSize` is admitted iff 1 ≤ n ≤ 100, so 0 and 101 are rejected |
| `NewsRoutes.PageSizeFraction` | src/routes/news.ts:30 | A fractional `pageSize` is admitted iff its value is in [1, 100]: there is no integer check |
| `NewsRoutes.PageUnbounded` | src/routes/news.ts:29 | `page` admits every whole number: it has no bound |
| `NewsRoutes.PageAnyNumber` | src/routes/news.ts:29 | `page` is admitted iff its coercion is not NaN |
| `NewsRoutes.TwoCharCode` | src/routes/news.ts:27 | A language or country code is admitted iff its JavaScript length is exactly two, which for text without astral characters means exactly two characters |
| `NewsRoutes.AstralCharIsTwoUnits` | src/routes/news.ts:27 | A single astral character (an emoji, say) is admitted as a two-character code |
| `NewsRoutes.CategoryListsAgree` | src/routes/news.ts:9-17 | The route's category enum holds the same seven values as the service's list |
| `NewsRoutes.RoutedCategoryIsValid` | src/routes/news.ts:38 | After the headlines or sources schema accepts a query, the service's category check always passes |
| `NewsRoutes.HeadlinesDropsLanguage` | src/routes/news.ts:33-40 | The parsed headlines options never carry `language` |
| `NewsRoutes.HeadlinesAlwaysEnglish` | src/routes/news.ts:33-40 | Through the route, headlines reach the provider with `language = "en"` |
| `NewsRoutes.ExcludeDomainsSpelling` | src/routes/news.ts:24 | Search options never carry `excludeDomains`; a caller's `ExcludeDomains` is forwarded under that key unchanged |
| `NewsRoutes.RejectedQueryNeverReachesProvider` | src/routes/news.ts:51-52 | A query failing its schema is a 400 with the issues on every route, and the reply is the same for any adapter, date formatter and time: the provider is not asked |
| `NewsRoutes.PageSizeOutOfRangeIs400` | src/routes/news.ts:30 | A search with whole-number `pageSize` 0 or above 100 is a 400 with an issue at `pageSize` |
| `NewsRoutes.HeadlinesExampleQuery` | src/routes/news.ts:33-40 | `category=technology&country=us` parses to exactly those two strings |
| `NewsRoutes.HeadlinesExample` | src/routes/news.ts:70-75 | That query reaches the provider as `{language: en, category: technology, country: us}` |
| `NewsRoutes.NormalisedArticleConformance` | src/routes/news.ts:53-56 | A normalised article fails the output check only for a non-URL url, a missing or non-URL image, or a rendered date the schema rejects; the description never causes a failure |

## Left out

- Process setup is not part of this model. That covers the Express app,
  CORS, the listening port and dotenv loading (src/server.ts).
- The documentation endpoint (src/routes/index.ts) is not modelled. Its
  patterns and enums are not enforced anywhere in the code.
- The `NEWS_API_KEY` check in the service constructor is not modelled,
  because it reads the environment.
- Network I/O, `async`/`await`, `console` logging and the value of
  `Date.now()` are not modelled. Time is the `now` parameter.
- `new Date(s).toISOString()` is a given partial function (`DateFormatter`).
  Zod's `.url()` and `.datetime()` are given predicates (`Formats`).
- `Js.ToNumber` covers decimal literals with an optional exponent, plus
  `Infinity`. It gives NaN for hex, octal and binary literals (`0x10`),
  which JavaScript reads as numbers. It uses exact reals, with no binary64
  rounding and no overflow to `Infinity`. It ignores only ASCII white space.
- `Js.ToLower` lower-cases ASCII letters only. JavaScript also lower-cases
  other Unicode letters.
- Query values are single strings. The repeated parameters and nested
  objects Express can produce are not modelled.
- Zod's human-readable issue messages are not modelled. Issues keep only
  their code and path.
- Each raw provider record has the types its interface declares. A provider
  that sends, for example, a null `title` is not modelled.
- `NewsService.CategoryOf` treats a non-string `category` option as absent.
  The service's option type allows only strings there.
- The spread of `category && { category }` is modelled as an entry present
  only for a non-empty validated category. All seven categories are
  non-empty.
