/** The single-provider subtitle service: its own Cineaste scraper (search over the
    title and the "title year" variant, parsing of the board's entries, the download
    through the post's attachment link), the Radarr and Sonarr webhook processors with
    the episode-title fallback, the webhook event filter and the manual search.

    The board, the post pages and the file download are parameters of `Site`. */
module KorSubService {
  import opened Text
  import CineasteScraper

  type Link = CineasteScraper.Link
  type SubtitleResult = CineasteScraper.SubtitleResult

  const BaseUrl := "https://cineaste.co.kr"
  const SubtitleBoardUrl := "https://cineaste.co.kr/bbs/board.php?bo_table=psd_caption"
  const SourceName := "cineaste.co.kr"
  const SubtitleSuffix := ".ko.srt"

  /** One entry of a board page (a `div.list-item` or a table row) with its anchors. */
  datatype Entry = Entry(links: seq<Link>)

  /** A fetched board page: its `div.list-item` entries and its table rows. */
  datatype BoardPage = BoardPage(listItems: seq<Entry>, rows: seq<Entry>) | BoardFailed

  /** A fetched post page with its anchors. */
  datatype PostPage = PostPage(links: seq<Link>) | PostFailed

  /** The site as the service sees it: the board's answer to a search term, the post
      page at a URL, and fetching a URL into a file. */
  datatype Site = Site(board: string -> BoardPage, post: string -> PostPage, fetch: (string, string) -> bool)

  // ================================================================ _parse_search_results

  /** The entries the parser walks: the list items when there are any, else the rows. */
  function Entries(page: BoardPage): (es: seq<Entry>)
    requires page.BoardPage?
    ensures page.listItems != [] ==> es == page.listItems
    ensures page.listItems == [] ==> es == page.rows
  {
    if page.listItems != [] then page.listItems else page.rows
  }

  /** The first anchor whose href contains the key (`find('a', href=re.compile(key))`). */
  function FirstLinkWith(links: seq<Link>, key: string): (r: Option<Link>)
    ensures r.Some? ==> r.value in links && Contains(r.value.href, key)
    ensures r.None? ==> forall l :: l in links ==> !Contains(l.href, key)
  {
    if links == [] then None
    else if Contains(links[0].href, key) then Some(links[0])
    else FirstLinkWith(links[1..], key)
  }

  /** The link found is the first in document order: every link before it lacks the key. */
  lemma {:induction false} FirstLinkWithIsFirst(links: seq<Link>, key: string)
    ensures var r := FirstLinkWith(links, key);
            r.Some? ==> exists i :: 0 <= i < |links| && links[i] == r.value
                                    && forall j :: 0 <= j < i ==> !Contains(links[j].href, key)
  {
    if links != [] && !Contains(links[0].href, key) {
      var r := FirstLinkWith(links[1..], key);
      FirstLinkWithIsFirst(links[1..], key);
      if r.Some? {
        var i :| 0 <= i < |links[1..]| && links[1..][i] == r.value
                 && forall j :: 0 <= j < i ==> !Contains(links[1..][j].href, key);
        assert links[i + 1] == r.value;
        assert forall j :: 1 <= j < i + 1 ==> links[j] == links[1..][j - 1];
      }
    }
  }

  /** The result of one entry, if its first `wr_id=` anchor has digits after `wr_id=`. */
  function EntryResult(e: Entry): (r: Option<SubtitleResult>)
    ensures r.Some? ==> FirstLinkWith(e.links, "wr_id=").Some?
    ensures r.Some? ==> var l := FirstLinkWith(e.links, "wr_id=").value;
                        && r.value.title == l.text && r.value.url == UrlJoin(BaseUrl, l.href)
                        && r.value.source == SourceName
                        && r.value.wrId != [] && IsDigits(r.value.wrId) && Contains(l.href, "wr_id=" + r.value.wrId)
                        && DigitsAfter(l.href, "wr_id=") == Some(r.value.wrId)
    ensures FirstLinkWith(e.links, "wr_id=").Some? && HasKeyDigit(FirstLinkWith(e.links, "wr_id=").value.href, "wr_id=")
            ==> r.Some?
  {
    var link := FirstLinkWith(e.links, "wr_id=");
    if link.None? then None
    else
      DigitsAfterFound(link.value.href, "wr_id=");
      var wrId := DigitsAfter(link.value.href, "wr_id=");
      if wrId.None? then None
      else Some(CineasteScraper.SubtitleResult(link.value.text, UrlJoin(BaseUrl, link.value.href), wrId.value, SourceName))
  }

  /** The `wr_id` of an entry's result is the whole digit run after the first
      "wr_id=" of its first `wr_id=` anchor that is followed by a digit. */
  lemma EntryResultWrId(e: Entry)
    ensures var r := EntryResult(e);
            r.Some? ==> IsFirstDigitRun(FirstLinkWith(e.links, "wr_id=").value.href, "wr_id=", r.value.wrId)
  {
    var r := EntryResult(e);
    if r.Some? {
      DigitsAfterFirstRun(FirstLinkWith(e.links, "wr_id=").value.href, "wr_id=");
    }
  }

  /** The results of a list of entries: each entry's result, if it has one, in order. */
  function ParsedEntries(entries: seq<Entry>): seq<SubtitleResult> {
    FilterMap(EntryResult, entries)
  }

  /** Every parsed result is the result of one of the entries, with the board's source
      name and a non-empty digit `wr_id`. */
  lemma ParsedEntriesSpec(entries: seq<Entry>)
    ensures forall r :: r in ParsedEntries(entries) ==>
              r.source == SourceName && r.wrId != [] && IsDigits(r.wrId)
              && exists i :: 0 <= i < |entries| && EntryResult(entries[i]) == Some(r)
  {
    FilterMapSound(EntryResult, entries);
    forall r | r in ParsedEntries(entries)
      ensures r.source == SourceName && r.wrId != [] && IsDigits(r.wrId)
    {
      var i :| 0 <= i < |entries| && EntryResult(entries[i]) == Some(r);
    }
  }

  /** Every entry with a result contributes it, right after the results of the
      entries before it: page order is kept. */
  lemma ParsedEntriesComplete(entries: seq<Entry>)
    ensures forall i :: 0 <= i < |entries| && EntryResult(entries[i]).Some? ==>
              |ParsedEntries(entries[..i])| < |ParsedEntries(entries)|
              && ParsedEntries(entries)[|ParsedEntries(entries[..i])|] == EntryResult(entries[i]).value
  {
    FilterMapPosition(EntryResult, entries);
  }

  /** `CineasteScraper._parse_search_results`. */
  method ParseSearchResults(page: BoardPage) returns (results: seq<SubtitleResult>)
    requires page.BoardPage?
    ensures results == ParsedEntries(Entries(page))
  {
    var entries := if page.listItems != [] then page.listItems else page.rows;
    results := [];
    for i := 0 to |entries|
      invariant results == ParsedEntries(entries[..i])
    {
      assert entries[..i + 1][..i] == entries[..i];
      var titleElem := FirstLinkWith(entries[i].links, "wr_id=");
      if titleElem.None? {
        continue;
      }
      var title := titleElem.value.text;
      var href := titleElem.value.href;
      var fullUrl := UrlJoin(BaseUrl, href);
      var wrIdMatch := DigitsAfter(href, "wr_id=");
      if wrIdMatch.None? {
        continue;
      }
      results := results + [CineasteScraper.SubtitleResult(title, fullUrl, wrIdMatch.value, SourceName)];
    }
    assert entries[..|entries|] == entries;
  }

  /** `CineasteScraper._search_with_term`: a failed fetch gives no results. */
  function SearchWithTerm(term: string, site: Site): (rs: seq<SubtitleResult>)
    ensures site.board(term).BoardFailed? ==> rs == []
    ensures site.board(term).BoardPage? ==> |rs| <= |Entries(site.board(term))|
  {
    match site.board(term)
    case BoardPage(_, _) => ParsedEntries(Entries(site.board(term)))
    case BoardFailed => []
  }

  // ================================================================ search_subtitles

  /** The two terms tried: the title, then "title year" (the title again without a year). */
  function SearchTerms(title: string, year: Option<int>): (terms: seq<string>)
    ensures |terms| == 2 && terms[0] == title
    ensures TruthyInt(year) ==> terms[1] == title + " " + IntToString(year.value)
    ensures !TruthyInt(year) ==> terms[1] == title
  {
    [title, if TruthyInt(year) then title + " " + IntToString(year.value) else title]
  }

  function TermPages(terms: seq<string>, site: Site): (pages: seq<seq<SubtitleResult>>)
    ensures |pages| == |terms|
    ensures forall i :: 0 <= i < |terms| ==> pages[i] == SearchWithTerm(terms[i], site)
  {
    seq(|terms|, i requires 0 <= i < |terms| => SearchWithTerm(terms[i], site))
  }

  /** What the search returns: the results of the first term that finds anything. */
  function Search(title: string, year: Option<int>, site: Site): (rs: seq<SubtitleResult>)
    ensures rs == SearchWithTerm(title, site) || rs == SearchWithTerm(SearchTerms(title, year)[1], site)
    ensures rs == [] <==> SearchWithTerm(title, site) == [] && SearchWithTerm(SearchTerms(title, year)[1], site) == []
  {
    var pages := TermPages(SearchTerms(title, year), site);
    FirstNonEmptySpec(pages, 0);
    FirstNonEmpty(pages, 0)
  }

  /** The search returns the title's results when there are any, otherwise the
      second term's, which may be empty. */
  lemma SearchSpec(title: string, year: Option<int>, site: Site)
    ensures SearchWithTerm(title, site) != [] ==> Search(title, year, site) == SearchWithTerm(title, site)
    ensures SearchWithTerm(title, site) == [] ==> Search(title, year, site) == SearchWithTerm(SearchTerms(title, year)[1], site)
  {
    var pages := TermPages(SearchTerms(title, year), site);
    FirstNonEmptySpec(pages, 0);
    if pages[0] == [] {
      FirstNonEmptySpec(pages, 1);
    }
  }

  /** `CineasteScraper.search_subtitles`. */
  method SearchSubtitles(title: string, year: Option<int>, site: Site) returns (allResults: seq<SubtitleResult>)
    ensures allResults == Search(title, year, site)
  {
    var searchTerms := [title, if TruthyInt(year) then title + " " + IntToString(year.value) else title];
    assert searchTerms == SearchTerms(title, year);
    ghost var pages := TermPages(searchTerms, site);
    allResults := [];
    var i := 0;
    while i < |searchTerms|
      invariant 0 <= i <= |searchTerms|
      invariant allResults == []
      invariant Search(title, year, site) == FirstNonEmpty(pages, i)
    {
      var results := SearchWithTerm(searchTerms[i], site);
      allResults := allResults + results;
      if results != [] {
        break;
      }
      i := i + 1;
    }
  }

  // ================================================================ download_subtitle

  /** `CineasteScraper.download_subtitle`: the post page's first `download.php` anchor is
      fetched into `savePath`; a failed page, a page without such an anchor or a failed
      fetch give `False`. */
  function DownloadSubtitle(wrId: string, savePath: string, site: Site): (ok: bool)
    ensures ok ==> site.post(SubtitleBoardUrl + "&wr_id=" + wrId).PostPage?
    ensures ok <==> site.post(SubtitleBoardUrl + "&wr_id=" + wrId).PostPage?
                    && FirstLinkWith(site.post(SubtitleBoardUrl + "&wr_id=" + wrId).links, "download.php").Some?
                    && site.fetch(UrlJoin(BaseUrl, FirstLinkWith(site.post(SubtitleBoardUrl + "&wr_id=" + wrId).links, "download.php").value.href), savePath)
  {
    match site.post(SubtitleBoardUrl + "&wr_id=" + wrId)
    case PostFailed => false
    case PostPage(links) =>
      var link := FirstLinkWith(links, "download.php");
      if link.None? then false
      else site.fetch(UrlJoin(BaseUrl, link.value.href), savePath)
  }

  // ================================================================ SubtitleProcessor

  /** A download the processor started: which post, and where to. */
  datatype Fetch = Fetch(wrId: string, savePath: string)

  /** What handling one webhook did. */
  datatype Attempt = Attempt(download: Option<Fetch>, success: bool)

  const NoAttempt := Attempt(None, false)

  /** Download the first result next to the video; a video path without a file name
      makes `with_suffix` raise, which gives `False`. */
  function FetchBest(results: seq<SubtitleResult>, path: string, site: Site): (a: Attempt)
    ensures a.success ==> a.download.Some?
    ensures a.download.Some? ==> results != [] && a.download.value.wrId == results[0].wrId
                                 && WithSuffix(path, SubtitleSuffix) == Some(a.download.value.savePath)
                                 && a.success == DownloadSubtitle(results[0].wrId, a.download.value.savePath, site)
    ensures results != [] && WithSuffix(path, SubtitleSuffix).Some? ==> a.download.Some?
  {
    if results == [] then NoAttempt
    else
      var subtitlePath := WithSuffix(path, SubtitleSuffix);
      if subtitlePath.None? then NoAttempt
      else Attempt(Some(Fetch(results[0].wrId, subtitlePath.value)), DownloadSubtitle(results[0].wrId, subtitlePath.value, site))
  }

  /** The fields of a Radarr payload the processor reads; a missing key is `None`. */
  datatype MoviePayload = MoviePayload(title: Option<string>, year: Option<int>, folderPath: Option<string>, path: Option<string>)

  /** `SubtitleProcessor.process_movie`: title, folder path and file path must all be
      present; the first result of the title search is downloaded. */
  function ProcessMovie(m: MoviePayload, site: Site): (a: Attempt)
    ensures !(TruthyStr(m.title) && TruthyStr(m.folderPath) && TruthyStr(m.path)) ==> a == NoAttempt
    ensures a.download.Some? ==>
              && TruthyStr(m.title) && TruthyStr(m.path)
              && Search(m.title.value, m.year, site) != []
              && a.download.value.wrId == Search(m.title.value, m.year, site)[0].wrId
              && WithSuffix(m.path.value, SubtitleSuffix) == Some(a.download.value.savePath)
              && a.success == DownloadSubtitle(a.download.value.wrId, a.download.value.savePath, site)
    ensures a.success ==> a.download.Some?
    ensures (TruthyStr(m.title) && TruthyStr(m.folderPath) && TruthyStr(m.path)
             && Search(m.title.value, m.year, site) != []
             && WithSuffix(m.path.value, SubtitleSuffix).Some?) ==> a.download.Some?
  {
    if !(TruthyStr(m.title) && TruthyStr(m.folderPath) && TruthyStr(m.path)) then NoAttempt
    else FetchBest(Search(m.title.value, m.year, site), m.path.value, site)
  }

  datatype Episode = Episode(seasonNumber: Option<int>, episodeNumber: Option<int>)

  /** The fields of a Sonarr payload the processor reads. */
  datatype EpisodePayload = EpisodePayload(seriesTitle: Option<string>, path: Option<string>, episodes: seq<Episode>)

  /** `"{series} S{season:02d}E{episode:02d}"`. */
  function EpisodeTitle(series: string, season: int, episode: int): (t: string)
    ensures |t| >= |series| + 6 && t[..|series|] == series && t[|series|..|series| + 2] == " S"
  {
    series + " S" + Pad2(season) + "E" + Pad2(episode)
  }

  /** For non-negative numbers the title is the series, " S", the season, "E" and the
      episode, each number written in decimal digits that read back as it, two digits
      long below 100 and with a leading zero exactly below 10. */
  lemma EpisodeTitleDigits(series: string, season: nat, episode: nat)
    ensures exists a, b ::
              && EpisodeTitle(series, season, episode) == series + " S" + a + "E" + b
              && IsDigits(a) && DecimalValue(a) == season && (season < 100 ==> |a| == 2) && (a[0] == '0' <==> season < 10)
              && IsDigits(b) && DecimalValue(b) == episode && (episode < 100 ==> |b| == 2) && (b[0] == '0' <==> episode < 10)
  {
    Pad2Value(season);
    Pad2Value(episode);
    var a, b := Pad2(season), Pad2(episode);
    assert EpisodeTitle(series, season, episode) == series + " S" + a + "E" + b;
  }

  /** Season and episode numbers below 10 are zero-padded to two digits. */
  lemma EpisodeTitleOneDigit(series: string, season: int, episode: int)
    requires 0 <= season < 10 && 0 <= episode < 10
    ensures EpisodeTitle(series, season, episode)
            == series + " S0" + [DigitChar(season)] + "E0" + [DigitChar(episode)]
  {
  }

  /** The results the episode processor downloads from: those of the episode title,
      or else those of the series title. */
  function EpisodeResults(series: string, season: int, episode: int, site: Site): (rs: seq<SubtitleResult>)
    ensures Search(EpisodeTitle(series, season, episode), None, site) != [] ==>
              rs == Search(EpisodeTitle(series, season, episode), None, site)
    ensures Search(EpisodeTitle(series, season, episode), None, site) == [] ==> rs == Search(series, None, site)
  {
    var results := Search(EpisodeTitle(series, season, episode), None, site);
    if results != [] then results else Search(series, None, site)
  }

  /** What `process_episode` does: series title, file path and episodes must all be
      present; a missing season or episode number makes the `:02d` format raise. */
  function EpisodeAttempt(e: EpisodePayload, site: Site): (a: Attempt)
    ensures !(TruthyStr(e.seriesTitle) && TruthyStr(e.path) && e.episodes != []) ==> a == NoAttempt
    ensures e.episodes != [] && (e.episodes[0].seasonNumber.None? || e.episodes[0].episodeNumber.None?) ==> a == NoAttempt
    ensures a.download.Some? ==>
              var ep := e.episodes[0];
              var rs := EpisodeResults(e.seriesTitle.value, ep.seasonNumber.value, ep.episodeNumber.value, site);
              rs != [] && a.download.value.wrId == rs[0].wrId
              && WithSuffix(e.path.value, SubtitleSuffix) == Some(a.download.value.savePath)
              && a.success == DownloadSubtitle(a.download.value.wrId, a.download.value.savePath, site)
    ensures a.success ==> a.download.Some?
    ensures (TruthyStr(e.seriesTitle) && TruthyStr(e.path) && e.episodes != []
             && e.episodes[0].seasonNumber.Some? && e.episodes[0].episodeNumber.Some?
             && EpisodeResults(e.seriesTitle.value, e.episodes[0].seasonNumber.value,
                               e.episodes[0].episodeNumber.value, site) != []
             && WithSuffix(e.path.value, SubtitleSuffix).Some?) ==> a.download.Some?
  {
    if !(TruthyStr(e.seriesTitle) && TruthyStr(e.path) && e.episodes != []) then NoAttempt
    else
      var ep := e.episodes[0];
      if ep.seasonNumber.None? || ep.episodeNumber.None? then NoAttempt
      else FetchBest(EpisodeResults(e.seriesTitle.value, ep.seasonNumber.value, ep.episodeNumber.value, site),
                     e.path.value, site)
  }

  /** `SubtitleProcessor.process_episode`: the episode-title search, then the
      series-title search when that found nothing. */
  method ProcessEpisode(e: EpisodePayload, site: Site) returns (a: Attempt)
    ensures a == EpisodeAttempt(e, site)
  {
    if !(TruthyStr(e.seriesTitle) && TruthyStr(e.path) && e.episodes != []) {
      return NoAttempt;
    }
    var episode := e.episodes[0];
    if episode.seasonNumber.None? || episode.episodeNumber.None? {
      return NoAttempt;
    }
    var searchTitle := e.seriesTitle.value + " S" + Pad2(episode.seasonNumber.value) + "E" + Pad2(episode.episodeNumber.value);
    var results := SearchSubtitles(searchTitle, None, site);
    if results == [] {
      results := SearchSubtitles(e.seriesTitle.value, None, site);
    }
    if results == [] {
      return NoAttempt;
    }
    a := FetchBest(results, e.path.value, site);
  }

  // ================================================================ routes

  /** A webhook's reply: the processor's result, or `{'ignored': True}`. */
  datatype WebhookReply = Handled(success: bool) | Ignored

  /** `radarr_webhook`: only "Download" events are processed. */
  function RadarrWebhook(eventType: Option<string>, m: MoviePayload, site: Site): (r: WebhookReply)
    ensures r == Ignored <==> eventType != Some("Download")
    ensures r.Handled? ==> r.success == ProcessMovie(m, site).success
  {
    if eventType == Some("Download") then Handled(ProcessMovie(m, site).success) else Ignored
  }

  /** `sonarr_webhook`: only "Download" events are processed. */
  function SonarrWebhook(eventType: Option<string>, e: EpisodePayload, site: Site): (r: WebhookReply)
    ensures r == Ignored <==> eventType != Some("Download")
    ensures r.Handled? ==> r.success == EpisodeAttempt(e, site).success
  {
    if eventType == Some("Download") then Handled(EpisodeAttempt(e, site).success) else Ignored
  }

  datatype ManualReply = TitleRequired | Answer(title: string, year: Option<int>, results: seq<SubtitleResult>)

  /** `manual_search`: 400 without a title, otherwise the search's results. */
  function ManualSearch(title: Option<string>, year: Option<int>, site: Site): (r: ManualReply)
    ensures r == TitleRequired <==> !TruthyStr(title)
    ensures r.Answer? ==> r.title == title.value && r.year == year && r.results == Search(title.value, year, site)
  {
    if !TruthyStr(title) then TitleRequired else Answer(title.value, year, Search(title.value, year, site))
  }
}
