/** The OpenSubtitles.com REST client: the session headers, the choice of search
    criterion, the rule that every failure gives an empty result list, the guards of a
    download, and the flattening of one search result into its details.

    The HTTP exchanges are parameters: the search endpoint is a function from the
    request parameters to a response, the download endpoint a function from the file
    id to a response, and fetching and saving the file a function from its link to
    success. */
module OpenSubtitlesApi {
  import opened Text

  const ApiBaseUrl := "https://api.opensubtitles.com/api/v1"
  const DefaultUserAgent := "KorSub v1.0"

  // ================================================================ API records

  datatype FileEntry = FileEntry(fileId: Option<int>)
  datatype Uploader = Uploader(name: Option<string>)
  datatype FeatureDetails = FeatureDetails(featureType: Option<string>)

  /** The `attributes` object of a search result; a missing key is `None`. */
  datatype Attributes = Attributes(
    files: Option<seq<FileEntry>>,
    language: Option<string>,
    release: Option<string>,
    downloadCount: Option<int>,
    ratings: Option<real>,
    uploader: Option<Uploader>,
    hearingImpaired: Option<bool>,
    foreignPartsOnly: Option<bool>,
    featureDetails: Option<FeatureDetails>)

  /** One element of the search response's `data` list. */
  datatype SubtitleRecord = SubtitleRecord(attributes: Option<Attributes>)

  /** What the search endpoint answers: a JSON body (whose `data` key may be missing),
      an HTTP error status, or a failure to get any response. */
  datatype SearchResponse = Answered(data: Option<seq<SubtitleRecord>>) | HttpError(code: int) | RequestFailed

  /** What the download endpoint answers: a JSON body (whose `link` may be missing),
      an HTTP error status (429 rate limit, 406 daily quota, others), or a failure. */
  datatype LinkResponse = LinkAnswer(link: Option<string>) | LinkHttpError(code: int) | LinkFailed

  /** Request parameters; values are strings or numbers. */
  type Params = map<string, Value>

  // ================================================================ __init__

  /** The session headers: the user agent and JSON content negotiation, and the
      `Api-Key` header exactly when there is a key. */
  function SessionHeaders(apiKey: string, userAgent: string): (h: map<string, string>)
    ensures "Api-Key" in h <==> apiKey != ""
    ensures "Api-Key" in h ==> h["Api-Key"] == apiKey
    ensures "User-Agent" in h && h["User-Agent"] == userAgent
    ensures "Accept" in h && h["Accept"] == "application/json"
    ensures "Content-Type" in h && h["Content-Type"] == "application/json"
    ensures h.Keys <= {"User-Agent", "Accept", "Content-Type", "Api-Key"}
  {
    var base := map["User-Agent" := userAgent, "Accept" := "application/json", "Content-Type" := "application/json"];
    if apiKey != "" then base["Api-Key" := apiKey] else base
  }

  /** The key the client uses: the one given when it is non-empty, otherwise the
      environment's `OPENSUBTITLES_API_KEY` (empty when unset). */
  function EffectiveKey(apiKey: Option<string>, envKey: string): (k: string)
    ensures TruthyStr(apiKey) ==> k == apiKey.value
    ensures !TruthyStr(apiKey) ==> k == envKey
  {
    if TruthyStr(apiKey) then apiKey.value else envKey
  }

  // ================================================================ search_subtitles

  /** The search parameters, or `None` when no criterion is given. `languages` and
      `type` are always sent, with exactly one criterion: the IMDb id with every "tt"
      removed, else the TMDB id, else the query together with the year when it is
      given. */
  function SearchParams(imdb: Option<string>, tmdb: Option<Value>, query: Option<string>,
                        languages: string, year: Option<int>, kind: string): (p: Option<Params>)
    ensures p.None? <==> !TruthyStr(imdb) && !TruthyValue(tmdb) && !TruthyStr(query)
    ensures p.Some? ==> "languages" in p.value && p.value["languages"] == Str(languages)
                        && "type" in p.value && p.value["type"] == Str(kind)
    ensures TruthyStr(imdb) ==>
              p.Some? && p.value.Keys == {"languages", "type", "imdb_id"}
              && p.value["imdb_id"] == Str(RemoveAll(imdb.value, "tt"))
    ensures !TruthyStr(imdb) && TruthyValue(tmdb) ==>
              p.Some? && p.value.Keys == {"languages", "type", "tmdb_id"}
              && p.value["tmdb_id"] == tmdb.value
    ensures !TruthyStr(imdb) && !TruthyValue(tmdb) && TruthyStr(query) ==>
              p.Some? && "query" in p.value && p.value["query"] == Str(query.value)
              && (TruthyInt(year) ==> p.value.Keys == {"languages", "type", "query", "year"}
                                      && p.value["year"] == Num(year.value))
              && (!TruthyInt(year) ==> p.value.Keys == {"languages", "type", "query"})
  {
    var base: Params := map["languages" := Str(languages), "type" := Str(kind)];
    if TruthyStr(imdb) then Some(base["imdb_id" := Str(RemoveAll(imdb.value, "tt"))])
    else if TruthyValue(tmdb) then Some(base["tmdb_id" := tmdb.value])
    else if TruthyStr(query) then
      var q := base["query" := Str(query.value)];
      Some(if TruthyInt(year) then q["year" := Num(year.value)] else q)
    else None
  }

  /** The IMDb id sent never contains "tt", and an id of the usual `tt` + digits form
      is sent as its digits. */
  lemma ImdbIdSentWithoutTt(imdb: string, digits: string, tmdb: Option<Value>, query: Option<string>,
                            languages: string, year: Option<int>, kind: string)
    requires imdb != ""
    requires IsDigits(digits)
    ensures var p := SearchParams(Some(imdb), tmdb, query, languages, year, kind).value;
            p["imdb_id"].Str? && NoDoubleT(p["imdb_id"].s)
    ensures var p := SearchParams(Some("tt" + digits), tmdb, query, languages, year, kind).value;
            p["imdb_id"] == Str(digits)
  {
    RemoveAllTtLeavesNoTt(imdb);
    RemoveAllDigits(digits);
    assert RemoveAll("tt" + digits, "tt") == RemoveAll(digits, "tt");
  }

  lemma {:induction false} RemoveAllDigits(digits: string)
    requires IsDigits(digits)
    ensures RemoveAll(digits, "tt") == digits
  {
    if digits != [] {
      assert digits[0] != 't';
      RemoveAllDigits(digits[1..]);
    }
  }

  /** The results of a search: the response's `data` list, and an empty list for a
      missing criterion, a missing `data` key, an HTTP error or any other failure. */
  function SearchResults(request: Option<Params>, respond: Params -> SearchResponse): (r: seq<SubtitleRecord>)
    ensures r != [] ==> request.Some? && respond(request.value) == Answered(Some(r))
    ensures request.Some? && respond(request.value).Answered? && respond(request.value).data.Some? ==>
              r == respond(request.value).data.value
  {
    if request.None? then []
    else match respond(request.value)
      case Answered(data) => data.GetOr([])
      case HttpError(_) => []
      case RequestFailed => []
  }

  // ================================================================ get_subtitle_details

  /** The flattened details of one search result. */
  datatype Details = Details(
    fileId: Option<int>,
    language: Option<string>,
    release: Option<string>,
    downloads: int,
    ratings: real,
    uploader: string,
    hearingImpaired: bool,
    foreignPartsOnly: bool,
    featureType: Option<string>)

  const NoDetails := Details(None, None, None, 0, 0.0, "Unknown", false, false, None)

  /** `get_subtitle_details`: every missing attribute takes its default (no file id,
      0 downloads, rating 0, uploader "Unknown", both flags false, no feature type),
      present ones are kept, and the file id is the first file's when there are files. */
  function SubtitleDetails(result: SubtitleRecord): (d: Details)
    ensures result.attributes.None? ==> d == NoDetails
    ensures d.fileId.Some? ==> result.attributes.Some? && result.attributes.value.files.Some?
                               && result.attributes.value.files.value != []
                               && d.fileId == result.attributes.value.files.value[0].fileId
    ensures result.attributes.Some? ==>
              var attrs := result.attributes.value;
              && (attrs.files.Some? && attrs.files.value != [] ==> d.fileId == attrs.files.value[0].fileId)
              && d.language == attrs.language && d.release == attrs.release
              && (attrs.downloadCount.None? ==> d.downloads == 0)
              && (attrs.downloadCount.Some? ==> d.downloads == attrs.downloadCount.value)
              && (attrs.ratings.None? ==> d.ratings == 0.0)
              && (attrs.ratings.Some? ==> d.ratings == attrs.ratings.value)
              && (attrs.uploader.None? || attrs.uploader.value.name.None? ==> d.uploader == "Unknown")
              && (attrs.uploader.Some? && attrs.uploader.value.name.Some? ==> d.uploader == attrs.uploader.value.name.value)
              && (attrs.hearingImpaired.None? ==> !d.hearingImpaired)
              && (attrs.hearingImpaired.Some? ==> d.hearingImpaired == attrs.hearingImpaired.value)
              && (attrs.foreignPartsOnly.None? ==> !d.foreignPartsOnly)
              && (attrs.foreignPartsOnly.Some? ==> d.foreignPartsOnly == attrs.foreignPartsOnly.value)
              && (attrs.featureDetails.None? ==> d.featureType.None?)
              && (attrs.featureDetails.Some? ==> d.featureType == attrs.featureDetails.value.featureType)
  {
    var a := result.attributes;
    if a.None? then NoDetails
    else
      var attrs := a.value;
      Details(
        if attrs.files.Some? && attrs.files.value != [] then attrs.files.value[0].fileId else None,
        attrs.language,
        attrs.release,
        attrs.downloadCount.GetOr(0),
        attrs.ratings.GetOr(0.0),
        if attrs.uploader.Some? then attrs.uploader.value.name.GetOr("Unknown") else "Unknown",
        attrs.hearingImpaired.GetOr(false),
        attrs.foreignPartsOnly.GetOr(false),
        if attrs.featureDetails.Some? then attrs.featureDetails.value.featureType else None)
  }

  // ================================================================ download_subtitle

  /** Whether a download succeeds: there is a key, the link request answers with a
      non-empty link, and fetching that link into `savePath` succeeds. */
  function DownloadSucceeds(apiKey: string, fileId: int, savePath: string,
                            linkFor: int -> LinkResponse, fetch: (string, string) -> bool): (ok: bool)
    ensures apiKey == "" ==> !ok
    ensures !linkFor(fileId).LinkAnswer? ==> !ok
    ensures linkFor(fileId).LinkAnswer? && !TruthyStr(linkFor(fileId).link) ==> !ok
    ensures ok ==> fetch(linkFor(fileId).link.value, savePath)
  {
    apiKey != "" && linkFor(fileId).LinkAnswer? && TruthyStr(linkFor(fileId).link)
    && fetch(linkFor(fileId).link.value, savePath)
  }

  // ================================================================ the client

  class Client {
    const apiKey: string
    const userAgent: string
    var headers: map<string, string>

    /** `__init__`: the headers are set first, then the key header when there is a key. */
    constructor(key: Option<string>, envKey: string, agent: string)
      ensures apiKey == EffectiveKey(key, envKey) && userAgent == agent
      ensures headers == SessionHeaders(apiKey, userAgent)
    {
      apiKey := EffectiveKey(key, envKey);
      userAgent := agent;
      new;
      headers := map["User-Agent" := userAgent, "Accept" := "application/json", "Content-Type" := "application/json"];
      if apiKey != "" {
        headers := headers["Api-Key" := apiKey];
      }
    }

    /** `search_subtitles`: builds the parameters, sends them when there is a
        criterion, and turns every failure into an empty list. */
    method SearchSubtitles(imdb: Option<string>, tmdb: Option<Value>, query: Option<string>,
                           languages: string, year: Option<int>, kind: string,
                           respond: Params -> SearchResponse)
      returns (results: seq<SubtitleRecord>, request: Option<Params>)
      ensures request == SearchParams(imdb, tmdb, query, languages, year, kind)
      ensures results == SearchResults(request, respond)
    {
      var params: Params := map["languages" := Str(languages), "type" := Str(kind)];
      if TruthyStr(imdb) {
        params := params["imdb_id" := Str(RemoveAll(imdb.value, "tt"))];
      } else if TruthyValue(tmdb) {
        params := params["tmdb_id" := tmdb.value];
      } else if TruthyStr(query) {
        params := params["query" := Str(query.value)];
        if TruthyInt(year) {
          params := params["year" := Num(year.value)];
        }
      } else {
        return [], None;
      }
      request := Some(params);
      match respond(params)
      case Answered(data) =>
        results := if data.Some? then data.value else [];
      case HttpError(_) =>
        results := [];
      case RequestFailed =>
        results := [];
    }

    /** `download_subtitle`: without a key nothing is requested; otherwise the file's
        link is requested and the download succeeds only when a link comes back and
        fetching it into `savePath` succeeds. */
    method DownloadSubtitle(fileId: int, savePath: string,
                            linkFor: int -> LinkResponse, fetch: (string, string) -> bool)
      returns (ok: bool, requested: Option<int>)
      ensures apiKey == "" ==> !ok && requested.None?
      ensures apiKey != "" ==> requested == Some(fileId)
      ensures ok <==> apiKey != "" && linkFor(fileId).LinkAnswer? && TruthyStr(linkFor(fileId).link)
                      && fetch(linkFor(fileId).link.value, savePath)
      ensures ok == DownloadSucceeds(apiKey, fileId, savePath, linkFor, fetch)
    {
      if apiKey == "" {
        return false, None;
      }
      requested := Some(fileId);
      match linkFor(fileId)
      case LinkAnswer(link) =>
        if !TruthyStr(link) {
          return false, requested;
        }
        ok := fetch(link.value, savePath);
      case LinkHttpError(_) =>
        ok := false;
      case LinkFailed =>
        ok := false;
    }
  }
}
