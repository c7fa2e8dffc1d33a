/** The dual-provider subtitle service: OpenSubtitles.com first and the Cineaste board
    as fallback, the dispatch of a download to the provider that found the result, the
    Radarr and Sonarr webhook processors, the scheduled library scans and their
    counters, and the manual search endpoint.

    Everything the service gets from the network is a parameter: `Net` bundles the
    OpenSubtitles search and download endpoints, the Cineaste board and the file fetch;
    the Radarr and Sonarr libraries are given as lists; the existing subtitle files are
    a set of paths. */
module KorSubDual {
  import opened Text
  import opened OpenSubtitlesApi
  import CineasteScraper

  type BoardResult = CineasteScraper.SubtitleResult

  /** The outside world the service talks to. */
  datatype Net = Net(
    osSearch: Params -> SearchResponse,
    osLink: int -> LinkResponse,
    board: string -> CineasteScraper.BoardPage,
    fetch: (string, string) -> bool)

  const OpenSubtitlesProvider := "opensubtitles"
  const CineasteProvider := "cineaste"
  const SubtitleSuffix := ".ko.srt"

  // ================================================================ search_subtitles

  /** The results of a search with the provider that found them. */
  datatype Hits = OpenSubtitlesHits(records: seq<SubtitleRecord>) | CineasteHits(results: seq<BoardResult>) | NoHits

  function ProviderName(h: Hits): Option<string> {
    match h
    case OpenSubtitlesHits(_) => Some(OpenSubtitlesProvider)
    case CineasteHits(_) => Some(CineasteProvider)
    case NoHits => None
  }

  function HitCount(h: Hits): nat {
    match h
    case OpenSubtitlesHits(rs) => |rs|
    case CineasteHits(rs) => |rs|
    case NoHits => 0
  }

  /** The OpenSubtitles request: Korean, type "movie", and the title as query only
      when there is neither an IMDb nor a TMDB id. */
  function OsRequest(title: Option<string>, year: Option<int>, imdb: Option<string>, tmdb: Option<Value>): (p: Option<Params>)
    ensures p.Some? ==> "languages" in p.value && p.value["languages"] == Str("ko")
                        && "type" in p.value && p.value["type"] == Str("movie")
    ensures TruthyStr(imdb) ==> p.Some? && "imdb_id" in p.value && "query" !in p.value
    ensures !TruthyStr(imdb) && TruthyValue(tmdb) ==> p.Some? && "tmdb_id" in p.value && "query" !in p.value
  {
    var query := if !TruthyStr(imdb) && !TruthyValue(tmdb) then title else None;
    SearchParams(imdb, tmdb, query, "ko", year, "movie")
  }

  /** The title is sent as the query exactly when both ids are absent (and there is a
      title); with an id, the id is the only criterion. */
  lemma QueryOnlyWithoutIds(title: Option<string>, year: Option<int>, imdb: Option<string>, tmdb: Option<Value>)
    ensures var p := OsRequest(title, year, imdb, tmdb);
            (p.Some? && "query" in p.value) <==> !TruthyStr(imdb) && !TruthyValue(tmdb) && TruthyStr(title)
    ensures var p := OsRequest(title, year, imdb, tmdb);
            p.None? <==> !TruthyStr(imdb) && !TruthyValue(tmdb) && !TruthyStr(title)
  {
  }

  /** `SubtitleProcessor.search_subtitles`: OpenSubtitles first, then Cineaste. A
      missing title that reaches the Cineaste fallback raises a `TypeError`. */
  function Search(title: Option<string>, year: Option<int>, imdb: Option<string>, tmdb: Option<Value>, net: Net): (r: Result<Hits>)
    ensures r.Ok? && r.value.OpenSubtitlesHits? ==> r.value.records == SearchResults(OsRequest(title, year, imdb, tmdb), net.osSearch)
    ensures r.Ok? ==> (r.value.NoHits? <==> HitCount(r.value) == 0)
    ensures r.Raised? <==> SearchResults(OsRequest(title, year, imdb, tmdb), net.osSearch) == [] && title.None?
    ensures r.Raised? ==> r.reason == "argument of type 'NoneType' is not iterable"
  {
    var os := SearchResults(OsRequest(title, year, imdb, tmdb), net.osSearch);
    if os != [] then Ok(OpenSubtitlesHits(os))
    else if title.None? then Raised("argument of type 'NoneType' is not iterable")
    else
      var cin := CineasteScraper.Search(title.value, year, net.board);
      if cin != [] then Ok(CineasteHits(cin)) else Ok(NoHits)
  }

  /** The three outcomes: OpenSubtitles hits win and then the board is never consulted;
      otherwise the board's hits; otherwise nothing. */
  lemma SearchFallback(title: Option<string>, year: Option<int>, imdb: Option<string>, tmdb: Option<Value>,
                       net: Net, otherBoard: string -> CineasteScraper.BoardPage)
    ensures var os := SearchResults(OsRequest(title, year, imdb, tmdb), net.osSearch);
            os != [] ==> Search(title, year, imdb, tmdb, net) == Ok(OpenSubtitlesHits(os))
                         && Search(title, year, imdb, tmdb, net.(board := otherBoard)) == Search(title, year, imdb, tmdb, net)
    ensures var os := SearchResults(OsRequest(title, year, imdb, tmdb), net.osSearch);
            os == [] && title.Some? ==>
              var cin := CineasteScraper.Search(title.value, year, net.board);
              Search(title, year, imdb, tmdb, net) == (if cin != [] then Ok(CineasteHits(cin)) else Ok(NoHits))
    ensures var os := SearchResults(OsRequest(title, year, imdb, tmdb), net.osSearch);
            os == [] && title.None? ==> Search(title, year, imdb, tmdb, net).Raised?
  {
  }

  // ================================================================ download_subtitle

  /** A result as the processor hands it to `download_subtitle`. */
  datatype Item = RecordItem(record: SubtitleRecord) | BoardItem(result: BoardResult)

  /** The best match of a search: its first result, with the provider's name. */
  function BestMatch(h: Hits): Option<(Item, string)> {
    match h
    case OpenSubtitlesHits(rs) => if rs == [] then None else Some((RecordItem(rs[0]), OpenSubtitlesProvider))
    case CineasteHits(rs) => if rs == [] then None else Some((BoardItem(rs[0]), CineasteProvider))
    case NoHits => None
  }

  /** The `file_id` the OpenSubtitles branch reads: a board result has no attributes. */
  function ItemFileId(item: Item): Option<int> {
    match item
    case RecordItem(rec) => SubtitleDetails(rec).fileId
    case BoardItem(_) => SubtitleDetails(SubtitleRecord(None)).fileId
  }

  /** The `wr_id` the Cineaste branch reads: a record has none. */
  function ItemWrId(item: Item): Option<string> {
    match item
    case RecordItem(_) => None
    case BoardItem(r) => Some(r.wrId)
  }

  /** `SubtitleProcessor.download_subtitle`: dispatches on the provider name. */
  function DownloadSubtitle(item: Item, provider: Option<string>, savePath: string, osKey: string, net: Net): (ok: bool)
    ensures ok ==> provider == Some(OpenSubtitlesProvider) && TruthyInt(ItemFileId(item))
                   && DownloadSucceeds(osKey, ItemFileId(item).value, savePath, net.osLink, net.fetch)
    ensures provider == Some(OpenSubtitlesProvider) && TruthyInt(ItemFileId(item)) ==>
              ok == DownloadSucceeds(osKey, ItemFileId(item).value, savePath, net.osLink, net.fetch)
  {
    if provider == Some(OpenSubtitlesProvider) then
      var fileId := ItemFileId(item);
      if !TruthyInt(fileId) then false
      else DownloadSucceeds(osKey, fileId.value, savePath, net.osLink, net.fetch)
    else if provider == Some(CineasteProvider) then
      var wrId := ItemWrId(item);
      if !TruthyStr(wrId) then false
      else CineasteScraper.DownloadSubtitle(wrId.value, savePath)
    else false
  }

  /** An unknown provider, a missing `file_id`, a missing key, and any Cineaste result
      all give `False`. */
  lemma DownloadFailures(item: Item, provider: Option<string>, savePath: string, osKey: string, net: Net)
    ensures provider != Some(OpenSubtitlesProvider) && provider != Some(CineasteProvider) ==>
              !DownloadSubtitle(item, provider, savePath, osKey, net)
    ensures provider == Some(CineasteProvider) ==> !DownloadSubtitle(item, provider, savePath, osKey, net)
    ensures !TruthyInt(ItemFileId(item)) ==> !DownloadSubtitle(item, provider, savePath, osKey, net)
    ensures osKey == "" ==> !DownloadSubtitle(item, provider, savePath, osKey, net)
  {
  }

  // ================================================================ process_movie / process_episode

  /** A download the processor started: what, from which provider, and where to. */
  datatype Fetch = Fetch(item: Item, provider: string, savePath: string)

  /** What handling one webhook did: the download it started, if any, and its result. */
  datatype Attempt = Attempt(download: Option<Fetch>, success: bool)

  const NoAttempt := Attempt(None, false)

  /** The common tail of both processors: search, take the best match, derive the
      subtitle path and download. A search that raises, an empty search and a video
      path with no file name (`with_suffix` raises) all give `False`. */
  function SearchAndFetch(title: Option<string>, year: Option<int>, imdb: Option<string>, tmdb: Option<Value>,
                          path: string, osKey: string, net: Net): (a: Attempt)
    ensures a.success ==> a.download.Some?
    ensures a.download.Some? ==>
              && WithSuffix(path, SubtitleSuffix) == Some(a.download.value.savePath)
              && Search(title, year, imdb, tmdb, net).Ok?
              && BestMatch(Search(title, year, imdb, tmdb, net).value)
                   == Some((a.download.value.item, a.download.value.provider))
              && a.success == DownloadSubtitle(a.download.value.item, Some(a.download.value.provider),
                                               a.download.value.savePath, osKey, net)
    ensures (Search(title, year, imdb, tmdb, net).Ok? && BestMatch(Search(title, year, imdb, tmdb, net).value).Some?
             && WithSuffix(path, SubtitleSuffix).Some?) ==> a.download.Some?
  {
    var found := Search(title, year, imdb, tmdb, net);
    if found.Raised? then NoAttempt
    else
      var best := BestMatch(found.value);
      if best.None? then NoAttempt
      else
        var subtitlePath := WithSuffix(path, SubtitleSuffix);
        if subtitlePath.None? then NoAttempt
        else
          var (item, provider) := best.value;
          Attempt(Some(Fetch(item, provider, subtitlePath.value)),
                  DownloadSubtitle(item, Some(provider), subtitlePath.value, osKey, net))
  }

  /** The fields of a Radarr "Download" payload the processor reads; a missing key is `None`. */
  datatype MoviePayload = MoviePayload(title: Option<string>, year: Option<int>, imdb: Option<string>,
                                       tmdb: Option<Value>, path: Option<string>)

  /** `SubtitleProcessor.process_movie`. */
  function ProcessMovie(m: MoviePayload, osKey: string, net: Net): (a: Attempt)
    ensures !TruthyStr(m.path) ==> a == NoAttempt
    ensures a.success ==> a.download.Some?
    ensures a.download.Some? ==>
              && TruthyStr(m.path) && WithSuffix(m.path.value, SubtitleSuffix) == Some(a.download.value.savePath)
              && Search(m.title, m.year, m.imdb, m.tmdb, net).Ok?
              && BestMatch(Search(m.title, m.year, m.imdb, m.tmdb, net).value)
                   == Some((a.download.value.item, a.download.value.provider))
              && a.success == DownloadSubtitle(a.download.value.item, Some(a.download.value.provider),
                                               a.download.value.savePath, osKey, net)
    ensures (TruthyStr(m.path) && Search(m.title, m.year, m.imdb, m.tmdb, net).Ok?
             && BestMatch(Search(m.title, m.year, m.imdb, m.tmdb, net).value).Some?
             && WithSuffix(m.path.value, SubtitleSuffix).Some?) ==> a.download.Some?
  {
    if !TruthyStr(m.path) then NoAttempt
    else SearchAndFetch(m.title, m.year, m.imdb, m.tmdb, m.path.value, osKey, net)
  }

  /** For a movie file in a directory, the subtitle goes next to it, named after the
      video with its extension replaced by ".ko.srt", from the best match. */
  lemma MovieSubtitleBesideVideo(m: MoviePayload, dir: string, stem: string, ext: string, osKey: string, net: Net)
    requires m.path == Some(dir + "/" + stem + "." + ext)
    requires stem != [] && '/' !in stem && '/' !in ext && '.' !in ext && ext != []
    requires Search(m.title, m.year, m.imdb, m.tmdb, net).Ok?
    requires HitCount(Search(m.title, m.year, m.imdb, m.tmdb, net).value) > 0
    ensures var a := ProcessMovie(m, osKey, net);
            a.download.Some? && a.download.value.savePath == dir + "/" + stem + ".ko.srt"
            && BestMatch(Search(m.title, m.year, m.imdb, m.tmdb, net).value)
                 == Some((a.download.value.item, a.download.value.provider))
  {
    WithSuffixReplacesExtension(dir, stem, ext, SubtitleSuffix);
  }

  datatype Episode = Episode(seasonNumber: Option<int>, episodeNumber: Option<int>)

  /** The fields of a Sonarr "Download" payload the processor reads. */
  datatype EpisodePayload = EpisodePayload(seriesTitle: Option<string>, imdb: Option<string>,
                                           path: Option<string>, episodes: seq<Episode>)

  /** `SubtitleProcessor.process_episode`: the series title, the file path and the
      episode list must all be present; formatting a missing season or episode number
      with `:02d` raises. The search uses the series title and IMDb id only. */
  function ProcessEpisode(e: EpisodePayload, osKey: string, net: Net): (a: Attempt)
    ensures !(TruthyStr(e.seriesTitle) && TruthyStr(e.path) && e.episodes != []) ==> a == NoAttempt
    ensures e.episodes != [] && (e.episodes[0].seasonNumber.None? || e.episodes[0].episodeNumber.None?) ==> a == NoAttempt
    ensures a.download.Some? ==>
              && TruthyStr(e.path) && WithSuffix(e.path.value, SubtitleSuffix) == Some(a.download.value.savePath)
              && Search(e.seriesTitle, None, e.imdb, None, net).Ok?
              && BestMatch(Search(e.seriesTitle, None, e.imdb, None, net).value)
                   == Some((a.download.value.item, a.download.value.provider))
              && a.success == DownloadSubtitle(a.download.value.item, Some(a.download.value.provider),
                                               a.download.value.savePath, osKey, net)
    ensures a.success ==> a.download.Some?
    ensures (TruthyStr(e.seriesTitle) && TruthyStr(e.path) && e.episodes != []
             && e.episodes[0].seasonNumber.Some? && e.episodes[0].episodeNumber.Some?
             && Search(e.seriesTitle, None, e.imdb, None, net).Ok?
             && BestMatch(Search(e.seriesTitle, None, e.imdb, None, net).value).Some?
             && WithSuffix(e.path.value, SubtitleSuffix).Some?) ==> a.download.Some?
  {
    if !(TruthyStr(e.seriesTitle) && TruthyStr(e.path) && e.episodes != []) then NoAttempt
    else if e.episodes[0].seasonNumber.None? || e.episodes[0].episodeNumber.None? then NoAttempt
    else SearchAndFetch(e.seriesTitle, None, e.imdb, None, e.path.value, osKey, net)
  }

  // ================================================================ library scans

  /** What one library item does to a scan: it is skipped, it aborts the scan (an
      exception escapes to the scan's handler), or it is checked, with or without a
      download. */
  datatype Step = Skipped | Failed | Checked(downloaded: bool)

  /** The number of checked items. */
  function Processed(steps: seq<Step>): nat {
    if steps == [] then 0
    else Processed(steps[..|steps| - 1]) + (if steps[|steps| - 1].Checked? then 1 else 0)
  }

  /** The number of checked items whose download succeeded. */
  function Downloaded(steps: seq<Step>): nat {
    if steps == [] then 0
    else Downloaded(steps[..|steps| - 1]) + (if steps[|steps| - 1] == Checked(true) then 1 else 0)
  }

  /** A scan never downloads more than it checks, nor checks more items than it sees. */
  lemma {:induction false} CountsBounded(steps: seq<Step>)
    ensures Downloaded(steps) <= Processed(steps) <= |steps|
  {
    if steps != [] {
      CountsBounded(steps[..|steps| - 1]);
    }
  }

  /** Both counters add up over consecutive parts of a scan. */
  lemma {:induction false} CountsAppend(a: seq<Step>, b: seq<Step>)
    ensures Processed(a + b) == Processed(a) + Processed(b)
    ensures Downloaded(a + b) == Downloaded(a) + Downloaded(b)
    decreases |b|
  {
    if b != [] {
      assert (a + b)[..|a + b| - 1] == a + b[..|b| - 1];
      CountsAppend(a, b[..|b| - 1]);
    } else {
      assert a + b == a;
    }
  }

  /** Extending a scan by its next step moves both counters by that step alone. */
  lemma StepAppended(steps: seq<Step>, i: nat)
    requires i < |steps|
    ensures Processed(steps[..i + 1]) == Processed(steps[..i]) + (if steps[i].Checked? then 1 else 0)
    ensures Downloaded(steps[..i + 1]) == Downloaded(steps[..i]) + (if steps[i] == Checked(true) then 1 else 0)
    ensures Failed in steps[..i + 1] <==> Failed in steps[..i] || steps[i] == Failed
  {
    assert steps[..i + 1][..i] == steps[..i];
    assert steps[..i + 1] == steps[..i] + [steps[i]];
  }

  /** What a scan reports: not run without an API key, aborted by an exception, or
      completed with its counters. */
  datatype ScanReport = NotConfigured | Aborted | Completed(processed: nat, downloaded: nat)

  /** The outcome of checking one video that has no subtitle yet: search, and
      download the best match when there is one. A search that raises aborts. */
  function CheckStep(title: Option<string>, year: Option<int>, imdb: Option<string>, tmdb: Option<Value>,
                     subtitlePath: string, osKey: string, net: Net): (s: Step)
    ensures s != Skipped
    ensures s == Failed <==> Search(title, year, imdb, tmdb, net).Raised?
    ensures s.Checked? && s.downloaded ==> HitCount(Search(title, year, imdb, tmdb, net).value) > 0
    ensures Search(title, year, imdb, tmdb, net).Ok? && HitCount(Search(title, year, imdb, tmdb, net).value) == 0
            ==> s == Checked(false)
  {
    match Search(title, year, imdb, tmdb, net)
    case Raised(_) => Failed
    case Ok(h) =>
      var best := BestMatch(h);
      if best.None? then Checked(false)
      else Checked(DownloadSubtitle(best.value.0, Some(best.value.1), subtitlePath, osKey, net))
  }

  datatype MovieFile = MovieFile(path: Option<string>)

  /** A movie of the Radarr library; `title == None` is a missing key. */
  datatype RadarrMovie = RadarrMovie(hasFile: bool, movieFile: Option<MovieFile>, title: Option<string>,
                                     year: Option<int>, imdb: Option<string>, tmdb: Option<Value>)

  /** One movie of the Radarr scan: skipped without a file, a file record or a path,
      or when its subtitle exists; aborting when the path has no file name or the
      title key is missing; otherwise checked. */
  function MovieStep(m: RadarrMovie, existing: set<string>, osKey: string, net: Net): (s: Step)
    ensures !m.hasFile || m.movieFile.None? || !TruthyStr(m.movieFile.value.path) ==> s == Skipped
    ensures s.Checked? ==> m.hasFile && m.movieFile.Some? && TruthyStr(m.movieFile.value.path)
                           && WithSuffix(m.movieFile.value.path.value, SubtitleSuffix).Some?
                           && WithSuffix(m.movieFile.value.path.value, SubtitleSuffix).value !in existing
  {
    if !m.hasFile || m.movieFile.None? || !TruthyStr(m.movieFile.value.path) then Skipped
    else
      var subtitlePath := WithSuffix(m.movieFile.value.path.value, SubtitleSuffix);
      if subtitlePath.None? then Failed
      else if subtitlePath.value in existing then Skipped
      else if m.title.None? then Failed
      else CheckStep(m.title, m.year, m.imdb, m.tmdb, subtitlePath.value, osKey, net)
  }

  function RadarrSteps(movies: seq<RadarrMovie>, existing: set<string>, osKey: string, net: Net): (steps: seq<Step>)
    ensures |steps| == |movies|
    ensures forall i :: 0 <= i < |movies| ==> steps[i] == MovieStep(movies[i], existing, osKey, net)
  {
    seq(|movies|, i requires 0 <= i < |movies| => MovieStep(movies[i], existing, osKey, net))
  }

  /** `scan_radarr_library`: `movies` is the library the Radarr API returned (`None`
      when the request failed) and `existing` the subtitle files already on disk. */
  method ScanRadarrLibrary(radarrKey: string, movies: Option<seq<RadarrMovie>>, existing: set<string>,
                           osKey: string, net: Net)
    returns (report: ScanReport)
    ensures report.NotConfigured? <==> radarrKey == ""
    ensures report.Aborted? <==>
              radarrKey != "" && (movies.None? || Failed in RadarrSteps(movies.value, existing, osKey, net))
    ensures report.Completed? ==>
              && movies.Some?
              && report.processed == Processed(RadarrSteps(movies.value, existing, osKey, net))
              && report.downloaded == Downloaded(RadarrSteps(movies.value, existing, osKey, net))
              && report.downloaded <= report.processed <= |movies.value|
  {
    if radarrKey == "" {
      return NotConfigured;
    }
    if movies.None? {
      return Aborted;
    }
    var library := movies.value;
    ghost var steps := RadarrSteps(library, existing, osKey, net);
    var processed := 0;
    var downloaded := 0;
    for i := 0 to |library|
      invariant Failed !in steps[..i]
      invariant processed == Processed(steps[..i]) && downloaded == Downloaded(steps[..i])
    {
      var movie := library[i];
      ghost var step := MovieStep(movie, existing, osKey, net);
      assert steps[i] == step;
      StepAppended(steps, i);
      if !movie.hasFile {
        continue;
      }
      if movie.movieFile.None? {
        continue;
      }
      var filePath := movie.movieFile.value.path;
      if !TruthyStr(filePath) {
        continue;
      }
      var subtitlePath := WithSuffix(filePath.value, SubtitleSuffix);
      if subtitlePath.None? {
        return Aborted;
      }
      if subtitlePath.value in existing {
        continue;
      }
      if movie.title.None? {
        return Aborted;
      }
      var checked := CheckStep(movie.title, movie.year, movie.imdb, movie.tmdb, subtitlePath.value, osKey, net);
      if checked == Failed {
        return Aborted;
      }
      if checked == Checked(true) {
        downloaded := downloaded + 1;
      }
      processed := processed + 1;
    }
    assert steps[..|library|] == steps;
    CountsBounded(steps);
    report := Completed(processed, downloaded);
  }

  datatype EpisodeFile = EpisodeFile(path: Option<string>)

  /** A series of the Sonarr library; `id == None` and `title == None` are missing keys. */
  datatype Series = Series(id: Option<int>, title: Option<string>, imdb: Option<string>)

  /** One episode file of the Sonarr scan: skipped without a path or when its subtitle
      exists; aborting when the path has no file name or the series has no title key. */
  function FileStep(s: Series, f: EpisodeFile, existing: set<string>, osKey: string, net: Net): (st: Step)
    ensures !TruthyStr(f.path) ==> st == Skipped
    ensures st.Checked? ==> TruthyStr(f.path) && WithSuffix(f.path.value, SubtitleSuffix).Some?
                            && WithSuffix(f.path.value, SubtitleSuffix).value !in existing
  {
    if !TruthyStr(f.path) then Skipped
    else
      var subtitlePath := WithSuffix(f.path.value, SubtitleSuffix);
      if subtitlePath.None? then Failed
      else if subtitlePath.value in existing then Skipped
      else if s.title.None? then Failed
      else CheckStep(s.title, None, s.imdb, None, subtitlePath.value, osKey, net)
  }

  function FileSteps(s: Series, files: seq<EpisodeFile>, existing: set<string>, osKey: string, net: Net): (steps: seq<Step>)
    ensures |steps| == |files|
    ensures forall i :: 0 <= i < |files| ==> steps[i] == FileStep(s, files[i], existing, osKey, net)
  {
    seq(|files|, i requires 0 <= i < |files| => FileStep(s, files[i], existing, osKey, net))
  }

  /** One series: aborting when it has no id or its episode files cannot be fetched. */
  function SeriesSteps(s: Series, episodeFiles: int -> Option<seq<EpisodeFile>>, existing: set<string>,
                       osKey: string, net: Net): seq<Step>
  {
    if s.id.None? then [Failed]
    else match episodeFiles(s.id.value)
      case None => [Failed]
      case Some(files) => FileSteps(s, files, existing, osKey, net)
  }

  /** The steps of the series, one list per series, in library order. */
  function SeriesStepLists(series: seq<Series>, episodeFiles: int -> Option<seq<EpisodeFile>>, existing: set<string>,
                           osKey: string, net: Net): (parts: seq<seq<Step>>)
    ensures |parts| == |series|
    ensures forall i :: 0 <= i < |series| ==> parts[i] == SeriesSteps(series[i], episodeFiles, existing, osKey, net)
  {
    seq(|series|, i requires 0 <= i < |series| => SeriesSteps(series[i], episodeFiles, existing, osKey, net))
  }

  /** The lists of `parts` one after the other. */
  function Concat(parts: seq<seq<Step>>): seq<Step> {
    if parts == [] then [] else Concat(parts[..|parts| - 1]) + parts[|parts| - 1]
  }

  /** The steps of the whole Sonarr scan: every series' steps, in library order. */
  function SonarrSteps(series: seq<Series>, episodeFiles: int -> Option<seq<EpisodeFile>>, existing: set<string>,
                       osKey: string, net: Net): seq<Step>
  {
    Concat(SeriesStepLists(series, episodeFiles, existing, osKey, net))
  }

  /** One more list follows the lists before it. */
  lemma ConcatSnoc(parts: seq<seq<Step>>, i: nat)
    requires i < |parts|
    ensures Concat(parts[..i + 1]) == Concat(parts[..i]) + parts[i]
  {
    assert parts[..i + 1][..i] == parts[..i];
  }

  /** The lists of a prefix begin the concatenation of all lists. */
  lemma {:induction false} ConcatPrefix(parts: seq<seq<Step>>, i: nat)
    requires i <= |parts|
    ensures Concat(parts[..i]) <= Concat(parts)
    decreases |parts|
  {
    if i < |parts| {
      var init := parts[..|parts| - 1];
      assert init[..i] == parts[..i];
      ConcatPrefix(init, i);
    } else {
      assert parts[..i] == parts;
    }
  }

  /** The inner loop of `scan_sonarr_library`, over the episode files of one series:
      it stops at the first step that aborts, and otherwise counts the checked files
      and the downloads. */
  method ScanEpisodeFiles(s: Series, files: seq<EpisodeFile>, existing: set<string>, osKey: string, net: Net)
    returns (failed: bool, processed: nat, downloaded: nat)
    ensures failed <==> Failed in FileSteps(s, files, existing, osKey, net)
    ensures !failed ==> processed == Processed(FileSteps(s, files, existing, osKey, net))
                        && downloaded == Downloaded(FileSteps(s, files, existing, osKey, net))
  {
    ghost var steps := FileSteps(s, files, existing, osKey, net);
    processed, downloaded := 0, 0;
    for j := 0 to |files|
      invariant Failed !in steps[..j]
      invariant processed == Processed(steps[..j]) && downloaded == Downloaded(steps[..j])
    {
      StepAppended(steps, j);
      ghost var step := FileStep(s, files[j], existing, osKey, net);
      assert steps[j] == step;
      var filePath := files[j].path;
      if !TruthyStr(filePath) {
        assert steps[j] == Skipped;
        continue;
      }
      var subtitlePath := WithSuffix(filePath.value, SubtitleSuffix);
      if subtitlePath.None? {
        assert steps[j] == Failed;
        return true, processed, downloaded;
      }
      if subtitlePath.value in existing {
        assert steps[j] == Skipped;
        continue;
      }
      if s.title.None? {
        assert steps[j] == Failed;
        return true, processed, downloaded;
      }
      var checked := CheckStep(s.title, None, s.imdb, None, subtitlePath.value, osKey, net);
      assert steps[j] == checked;
      if checked == Failed {
        return true, processed, downloaded;
      }
      if checked == Checked(true) {
        downloaded := downloaded + 1;
      }
      processed := processed + 1;
    }
    assert steps[..|files|] == steps;
    failed := false;
  }

  /** An aborting step of a prefix of the scan is one of the scan. */
  lemma FailedInPrefixOf(prefix: seq<Step>, all: seq<Step>)
    requires prefix <= all && Failed in prefix
    ensures Failed in all
  {
    var k :| 0 <= k < |prefix| && prefix[k] == Failed;
    FailedInPrefix(prefix, all, k);
  }

  /** A step of a prefix of the scan is a step of the scan. */
  lemma FailedInPrefix(prefix: seq<Step>, all: seq<Step>, k: nat)
    requires prefix <= all && k < |prefix| && prefix[k] == Failed
    ensures Failed in all
  {
    assert all[k] == Failed;
  }

  /** One iteration of the series loop of `scan_sonarr_library`: fetch the episode
      files of the series and scan them. */
  method ScanSeries(s: Series, episodeFiles: int -> Option<seq<EpisodeFile>>, existing: set<string>,
                    osKey: string, net: Net)
    returns (failed: bool, processed: nat, downloaded: nat)
    ensures failed <==> Failed in SeriesSteps(s, episodeFiles, existing, osKey, net)
    ensures !failed ==> processed == Processed(SeriesSteps(s, episodeFiles, existing, osKey, net))
                        && downloaded == Downloaded(SeriesSteps(s, episodeFiles, existing, osKey, net))
  {
    if s.id.None? {
      return true, 0, 0;
    }
    var files := episodeFiles(s.id.value);
    if files.None? {
      return true, 0, 0;
    }
    failed, processed, downloaded := ScanEpisodeFiles(s, files.value, existing, osKey, net);
  }

  /** What one more series adds to the counters: its checked files and downloads. */
  lemma ConcatStepCounts(parts: seq<seq<Step>>, i: nat)
    requires i < |parts|
    ensures Processed(Concat(parts[..i + 1])) == Processed(Concat(parts[..i])) + Processed(parts[i])
    ensures Downloaded(Concat(parts[..i + 1])) == Downloaded(Concat(parts[..i])) + Downloaded(parts[i])
  {
    ConcatSnoc(parts, i);
    CountsAppend(Concat(parts[..i]), parts[i]);
  }

  /** An aborting step of one more series aborts the scan so far. */
  lemma ConcatStepFailed(parts: seq<seq<Step>>, i: nat)
    requires i < |parts|
    ensures Failed in Concat(parts[..i + 1]) <==> Failed in Concat(parts[..i]) || Failed in parts[i]
  {
    ConcatSnoc(parts, i);
    FailedInAppend(Concat(parts[..i]), parts[i]);
  }

  /** An aborting step of any series aborts the whole scan. */
  lemma ConcatStepAborts(parts: seq<seq<Step>>, i: nat)
    requires i < |parts| && Failed in parts[i]
    ensures Failed in Concat(parts)
  {
    ConcatSnoc(parts, i);
    FailedInAppend(Concat(parts[..i]), parts[i]);
    ConcatPrefix(parts, i + 1);
    FailedInPrefixOf(Concat(parts[..i + 1]), Concat(parts));
  }

  /** An aborting step is in two lists joined exactly when it is in one of them. */
  lemma FailedInAppend(a: seq<Step>, b: seq<Step>)
    ensures Failed in a + b <==> Failed in a || Failed in b
  {
    if Failed in a + b {
      var k :| 0 <= k < |a + b| && (a + b)[k] == Failed;
      if k < |a| {
        assert a[k] == Failed;
      } else {
        assert b[k - |a|] == Failed;
      }
    }
  }

  /** The series loop of `scan_sonarr_library`: it stops at the first step that
      aborts, and otherwise counts the checked files and the downloads. */
  method ScanAllSeries(library: seq<Series>, episodeFiles: int -> Option<seq<EpisodeFile>>,
                       existing: set<string>, osKey: string, net: Net)
    returns (failed: bool, processed: nat, downloaded: nat)
    ensures failed <==> Failed in SonarrSteps(library, episodeFiles, existing, osKey, net)
    ensures !failed ==> processed == Processed(SonarrSteps(library, episodeFiles, existing, osKey, net))
                        && downloaded == Downloaded(SonarrSteps(library, episodeFiles, existing, osKey, net))
  {
    ghost var parts := SeriesStepLists(library, episodeFiles, existing, osKey, net);
    processed, downloaded := 0, 0;
    for i := 0 to |library|
      invariant Failed !in Concat(parts[..i])
      invariant processed == Processed(Concat(parts[..i])) && downloaded == Downloaded(Concat(parts[..i]))
    {
      ConcatStepCounts(parts, i);
      ConcatStepFailed(parts, i);
      var failedHere, checkedHere, downloadedHere := ScanSeries(library[i], episodeFiles, existing, osKey, net);
      if failedHere {
        ConcatStepAborts(parts, i);
        return true, processed, downloaded;
      }
      processed := processed + checkedHere;
      downloaded := downloaded + downloadedHere;
    }
    assert parts[..|library|] == parts;
    failed := false;
  }

  /** `scan_sonarr_library`: `series` is the library the Sonarr API returned and
      `episodeFiles` the episode files it returns for a series id (`None` when the
      request fails). */
  method ScanSonarrLibrary(sonarrKey: string, series: Option<seq<Series>>, episodeFiles: int -> Option<seq<EpisodeFile>>,
                           existing: set<string>, osKey: string, net: Net)
    returns (report: ScanReport)
    ensures report.NotConfigured? <==> sonarrKey == ""
    ensures report.Aborted? <==>
              sonarrKey != "" && (series.None? || Failed in SonarrSteps(series.value, episodeFiles, existing, osKey, net))
    ensures report.Completed? ==>
              && series.Some?
              && report.processed == Processed(SonarrSteps(series.value, episodeFiles, existing, osKey, net))
              && report.downloaded == Downloaded(SonarrSteps(series.value, episodeFiles, existing, osKey, net))
              && report.downloaded <= report.processed
  {
    if sonarrKey == "" {
      return NotConfigured;
    }
    if series.None? {
      return Aborted;
    }
    var failed, processed, downloaded := ScanAllSeries(series.value, episodeFiles, existing, osKey, net);
    if failed {
      return Aborted;
    }
    CountsBounded(SonarrSteps(series.value, episodeFiles, existing, osKey, net));
    report := Completed(processed, downloaded);
  }

  // ================================================================ manual_search

  /** The fields of a manual search request. */
  datatype ManualRequest = ManualRequest(title: Option<string>, year: Option<int>, imdb: Option<string>, tmdb: Option<Value>)

  /** The formatted result rows: details for OpenSubtitles, the raw board results for
      Cineaste, nothing when no provider found anything. */
  datatype Rows = DetailRows(details: seq<Details>) | BoardRows(results: seq<BoardResult>) | NoRows

  function RowCount(rows: Rows): nat {
    match rows
    case DetailRows(ds) => |ds|
    case BoardRows(rs) => |rs|
    case NoRows => 0
  }

  datatype ManualReply =
    | BadRequest
    | ServerError(message: string)
    | Answer(query: Value, year: Option<int>, provider: string, resultsCount: nat, rows: Rows)

  const MaxRows := 10

  /** `title or imdb_id or tmdb_id`: the first of them that is truthy. */
  function QueryValue(r: ManualRequest): (v: Value)
    requires TruthyStr(r.title) || TruthyStr(r.imdb) || TruthyValue(r.tmdb)
    ensures Truthy(v)
    ensures TruthyStr(r.title) ==> v == Str(r.title.value)
    ensures !TruthyStr(r.title) && TruthyStr(r.imdb) ==> v == Str(r.imdb.value)
    ensures !TruthyStr(r.title) && !TruthyStr(r.imdb) ==> v == r.tmdb.value
  {
    if TruthyStr(r.title) then Str(r.title.value)
    else if TruthyStr(r.imdb) then Str(r.imdb.value)
    else r.tmdb.value
  }

  /** `manual_search`: 400 without any of title, IMDb id or TMDB id; 500 when the
      search raises; otherwise the first ten results formatted for their provider,
      with the count of all results. */
  method ManualSearch(req: ManualRequest, net: Net) returns (reply: ManualReply)
    ensures reply == BadRequest <==> !TruthyStr(req.title) && !TruthyStr(req.imdb) && !TruthyValue(req.tmdb)
    ensures reply.ServerError? <==> reply != BadRequest && Search(req.title, req.year, req.imdb, req.tmdb, net).Raised?
    ensures reply.ServerError? ==> reply.message == Search(req.title, req.year, req.imdb, req.tmdb, net).reason
    ensures reply.Answer? ==>
              var hits := Search(req.title, req.year, req.imdb, req.tmdb, net).value;
              && reply.query == QueryValue(req) && Truthy(reply.query) && reply.year == req.year
              && reply.resultsCount == HitCount(hits)
              && RowCount(reply.rows) <= MaxRows
              && (reply.provider == "none" <==> hits.NoHits?)
              && (hits.OpenSubtitlesHits? ==>
                    reply.provider == OpenSubtitlesProvider && reply.rows.DetailRows?
                    && |reply.rows.details| == |Take(hits.records, MaxRows)|
                    && forall i :: 0 <= i < |reply.rows.details| ==>
                         reply.rows.details[i] == SubtitleDetails(hits.records[i]))
              && (hits.CineasteHits? ==>
                    reply.provider == CineasteProvider && reply.rows == BoardRows(Take(hits.results, MaxRows)))
              && (hits.NoHits? ==> reply.rows == NoRows)
  {
    if !TruthyStr(req.title) && !TruthyStr(req.imdb) && !TruthyValue(req.tmdb) {
      return BadRequest;
    }
    var found := Search(req.title, req.year, req.imdb, req.tmdb, net);
    if found.Raised? {
      return ServerError(found.reason);
    }
    var hits := found.value;
    var rows: Rows := NoRows;
    match hits {
      case OpenSubtitlesHits(records) =>
        var shown := Take(records, MaxRows);
        var formatted: seq<Details> := [];
        for i := 0 to |shown|
          invariant |formatted| == i
          invariant forall k :: 0 <= k < i ==> formatted[k] == SubtitleDetails(records[k])
        {
          formatted := formatted + [SubtitleDetails(shown[i])];
        }
        rows := DetailRows(formatted);
      case CineasteHits(results) =>
        rows := BoardRows(Take(results, MaxRows));
      case NoHits =>
    }
    var provider := ProviderName(hits);
    reply := Answer(QueryValue(req), req.year, provider.GetOr("none"), HitCount(hits), rows);
  }
}
