# HealthWatch and KorSub, modelled in Dafny

This project models two services of a home media-server stack.

**HealthWatch** watches the stack's Docker containers and e-mails the admins
when one goes down. The model covers:
- the verdict for one container: its runtime state, with an optional HTTP reachability probe on top;
- the check cycle, which builds a fresh status map over the ten configured services;
- the cooldown-gated alert ledger. It holds the last alert time per service and the alert history, and its saved form keeps only the last 100 alerts;
- the preconditions of the Mailgun notifier, and the state it records after a successful send;
- the two dashboard summaries (`/api/status`, `/api/history`);
- the start-up readiness gate: the cold-boot wait, then 15-second polls until 80% of the services are up or 15 minutes have passed.

**KorSub** fetches Korean subtitles for movies and episodes that Radarr and Sonarr download. The model covers:
- the Cineaste board scraper: the search-term list, the first-hit search, link filtering, `wr_id` extraction and order-preserving de-duplication;
- the OpenSubtitles REST client: session headers, request-parameter selection, errors mapped to an empty result, the download guards, and result details with their defaults;
- the dual-provider service: the OpenSubtitles-then-Cineaste fallback, download dispatch, the `.ko.srt` path beside the video, the webhook processors, the two library scans and their counters, and the manual search with its 400 and its 10-row cap;
- the older Cineaste-only service: its two-term search, search-page parsing, post-page download, the episode-title fallback and the webhook event filter.

The outside world enters the model as inputs:
- container lookups, HTTP status codes and mail answers are datatypes;
- whether writing the state file succeeded is a flag;
- the clock is an integer number of seconds;
- fetched pages are total functions from a URL or search term to a parsed page. A parsed page is a list of `(href, text)` links.

Modules, one per source file:
- `Text` (`text.dfy`): the Python string, path and truthiness semantics the other modules share;
- `HealthWatch` (`healthwatch.dfy`);
- `CineasteScraper` (`cineaste.dfy`);
- `OpenSubtitlesApi` (`opensubtitles.dfy`);
- `KorSubDual` (`korsub_dual.dfy`);
- `KorSubService` (`korsub_service.dfy`).

The model follows each source file's own form:
- **Classes with mutable fields:**
  - `HealthWatch.HealthMonitor` holds the monitor's global state: `service_status`, `last_alert_time`, `alert_history` and the state file;
  - `OpenSubtitlesApi.Client` holds the session headers.
- **Loops become methods with invariants, each proved equal to a specification function:**
  - the check cycle, `monitor_services` and the readiness gate;
  - the Cineaste search, de-duplication and page parsing;
  - the library scans and the manual-search formatting.
- **Pure rules become functions**, and lemmas state what the code promises about them.

Three behaviours of the code are worth stating outright:
- **Stopped but healthy.** A container that is not running but whose `Health.Status` is `"healthy"` gets a healthy verdict; the verdict follows the health check, not `running`. `StoppedContainerCanBeHealthy` exhibits the case.
- **Readiness timeout.** The gate compares elapsed time with `>` on 15-second steps after a 120-second wait. On the model's clock, which only the sleeps advance, its timeout exit therefore comes 915 seconds after start, not at 15 minutes. On a real clock each poll's Docker calls add their own time, so the real exit comes at the first poll more than 15 minutes after start.
- **Missing `Status` key.** A `Health` entry without a `Status` key raises `KeyError('Status')` inside `check_container_health`. The generic handler then reports it as status `"error"` with error text `'Status'`.

## Model

| member | source | states |
|---|---|---|
| HealthWatch.ContainerVerdict | healthwatch/healthwatch.py:90-129 | A missing container gets the fixed `not_found` record and a lookup error the fixed `error` record (not running, unhealthy, health "N/A"). Without a Health entry, healthy equals running. With one, healthy holds iff its status is "healthy", whatever `running` says. A Health entry without Status gives the `error` record. In every other found case the status text is Docker's `Status` as given (even when that text is "error"), there is no error, and `started_at` is the state's `StartedAt` or "Unknown". |
| HealthWatch.CheckHttpEndpoint | healthwatch/healthwatch.py:131-138 | The probe succeeds exactly on a 200 answer; any other status or an exception is a failure. |
| HealthWatch.ServiceVerdict | healthwatch/healthwatch.py:145-156 | The probe runs iff the container runs and the service has a probe URL. The final verdict is healthy iff the container verdict is healthy and the probe did not fail. The entry carries the configured description. |
| HealthWatch.FailedProbeMeansUnhealthy | healthwatch/healthwatch.py:150-153 | A running container whose probe fails is unhealthy and records `http_healthy = False`. |
| HealthWatch.StoppedContainerCanBeHealthy | healthwatch/healthwatch.py:102-107 | A stopped container with a "healthy" health check is reported healthy. |
| HealthWatch.Persisted | healthwatch/healthwatch.py:78-84 | The saved record keeps every last-alert time and exactly the last min(n, 100) alerts of the history, in order. |
| HealthWatch.Loaded | healthwatch/healthwatch.py:65-76 | A missing or unreadable file leaves the state unchanged. A readable one replaces the last-alert times with its `last_alert_time` (empty when the key is missing) and the history with its `alert_history` (empty when missing); nothing else changes. |
| HealthWatch.SaveThenLoad | healthwatch/healthwatch.py:65-84 | Loading the saved record gives back every last-alert time and the last 100 alerts; a history of at most 100 comes back whole. |
| HealthWatch.PersistedWindowSlides | healthwatch/healthwatch.py:83 | Once the history holds 100 alerts, each new alert drops the oldest from the saved window. |
| HealthWatch.ShouldSendAlert | healthwatch/healthwatch.py:161-167 | A service never alerted may alert; within the cooldown since its last alert it may not; strictly after it, it may. |
| HealthWatch.CooldownBoundary | healthwatch/healthwatch.py:161-167 | With an earlier alert, alerting is refused at exactly the cooldown and allowed strictly after it. |
| HealthWatch.ErrorDetail | healthwatch/healthwatch.py:186-190 | The detail line in priority order: not running, then HTTP probe failed, then the record's error, then "Service is not responding". |
| HealthWatch.ErrorDetailIsFixedText | healthwatch/healthwatch.py:186-190 | For records the check cycle produces, the detail is always one of the three fixed texts. |
| HealthWatch.Notify | healthwatch/healthwatch.py:169-250 | The alert state changes only when the mail is configured, the cooldown allows and the answer is 200; then this service's time becomes now and exactly one alert record (name, time, status, detail) is appended. |
| HealthWatch.NotifyFailureChangesNothing | healthwatch/healthwatch.py:171-181 | Missing mail settings or recipients, an active cooldown, or a non-200 answer leave the whole alert state unchanged. |
| HealthWatch.NotifySuccess | healthwatch/healthwatch.py:233-245 | A 200 answer appends exactly one alert and sets this service's time to now; no other service's time changes. Alerts are then suppressed through the cooldown and allowed after it; the file holds the saved record. |
| HealthWatch.CooldownScenario | healthwatch/healthwatch.py:161-181 | An alert at T0, a suppressed one at T0+30 min, and a sent one at T0+61 min that moves the cooldown. |
| HealthWatch.UnhealthyNames | healthwatch/healthwatch.py:259-263 | The failed-services list is never longer than the cycle's results. |
| HealthWatch.UnhealthyNamesSpec | healthwatch/healthwatch.py:259-263 | A name is in the failed list iff some unhealthy result carries it, and each unhealthy result's name sits right after the names of the unhealthy results before it (cycle order). |
| HealthWatch.NotifyAll | healthwatch/healthwatch.py:259-264 | Notifying a cycle keeps the old history as a prefix and adds at most one alert per result. |
| HealthWatch.NotifyAllAlertsDue | healthwatch/healthwatch.py:259-264 | An unhealthy service whose name occurs once in the cycle, which is due (no alert within the cooldown), with mail and recipients configured and a 200 answer, is alerted: its time becomes `now` and its alert record is in the history. |
| HealthWatch.NotifyAllOnlyUnhealthy | healthwatch/healthwatch.py:259-264 | A cycle never touches the ledger entry of a healthy service. The old history stays a prefix; every new alert names an unhealthy service, and there are at most as many new alerts as unhealthy services. |
| HealthWatch.CountHealthy | healthwatch/healthwatch.py:283 | The healthy count never exceeds the number of services. |
| HealthWatch.StatusSummary | healthwatch/healthwatch.py:283-295 | healthy + unhealthy == total == number of records, with both counts non-negative. |
| HealthWatch.UnhealthyCountMatchesFailed | healthwatch/healthwatch.py:259-263 | The dashboard's unhealthy count equals the number of services the cycle passed to the notifier. |
| HealthWatch.HistoryView | healthwatch/healthwatch.py:297-303 | At most the last 50 alerts, in order, with total = length of the history. |
| HealthWatch.HealthMonitor.constructor | healthwatch/healthwatch.py:61-63 | Starts from empty globals and loads the state file. |
| HealthWatch.HealthMonitor.LoadState | healthwatch/healthwatch.py:65-76 | The new state is `Loaded` of the old one; the status map is untouched. |
| HealthWatch.HealthMonitor.SaveState | healthwatch/healthwatch.py:78-88 | A successful write stores the persisted record; a failed one leaves the file unchanged. The in-memory history is never truncated. |
| HealthWatch.HealthMonitor.CheckAllServices | healthwatch/healthwatch.py:140-159 | One verdict per configured service, in order. The status map is replaced by them; the alert state is unchanged. |
| HealthWatch.HealthMonitor.SendEmailAlert | healthwatch/healthwatch.py:169-250 | The new alert state is the notifier's fold step `Notify` applied to the old one. |
| HealthWatch.HealthMonitor.MonitorServices | healthwatch/healthwatch.py:252-271 | One verdict per service. The failed list is exactly the unhealthy names in order; the notifier ran for exactly those services, in order. |
| HealthWatch.OneVerdictPerService | healthwatch/healthwatch.py:144-158 | Each configured service has exactly one record, under its own name, and the summary total is the number of services. |
| HealthWatch.ReadyCount | healthwatch/healthwatch.py:359-373 | The ready count never exceeds the number of services. |
| HealthWatch.WaitForServicesReady | healthwatch/healthwatch.py:328-389 | The gate always returns, between start+150 s and start+930 s. A ready exit is at the first poll reaching 80%, plus the grace period. A timeout exit means no poll up to 15 minutes reached 80%; on the model's clock, which only the sleeps advance, it comes at start+915 s. |
| Text.TrimStartSpec | korsub/cineaste_scraper.py:54 | `lstrip` removes a whitespace prefix and stops at the first non-space. |
| Text.TrimEndSpec | korsub/cineaste_scraper.py:54 | `rstrip` removes a whitespace suffix and stops at the last non-space. |
| Text.Strip | korsub/cineaste_scraper.py:54 | `strip()` never lengthens the term, and the result is empty or has no whitespace at either end. |
| Text.StripSpec | korsub/cineaste_scraper.py:54 | The stripped term occurs in the original, framed only by whitespace, and has no whitespace at either end. |
| Text.FirstNonEmptySpec | korsub/cineaste_scraper.py:52-58 | The first non-empty page is returned, every earlier page is empty, and the result is empty iff all pages are. |
| Text.PrefixBefore | korsub/cineaste_scraper.py:44-45 | `split(c)[0]` is a prefix without `c`, ending just before the first `c`, or the whole string. |
| Text.RemoveAll | korsub/opensubtitles_api.py:77 | `replace('tt', '')` removes characters in pairs: the length drops by an even number. |
| Text.RemoveAllTtLeavesNoTt | korsub/opensubtitles_api.py:77 | After `replace('tt', '')` no "tt" remains. |
| Text.DigitsAfter | korsub/cineaste_scraper.py:109-113 | A match is a non-empty digit string that occurs right after the key in the href. |
| Text.DigitsAfterFound | korsub/cineaste_scraper.py:109-113 | `wr_id=(\d+)` matches iff some `wr_id=` is followed by a digit; the captured run is non-empty, all digits, and occurs after the key. |
| Text.DigitsAfterFirstRun | korsub/cineaste_scraper.py:109-113 | The captured `wr_id` is the maximal digit run after the first `wr_id=` that is followed by a digit: no earlier occurrence is, and the run stops at the first non-digit. |
| Text.FilterMapSound | korsub/cineaste_scraper.py:97-127 | An append-if-kept loop only appends values that come from its input. |
| Text.FilterMapComplete | korsub/cineaste_scraper.py:97-127 | An append-if-kept loop appends the value of every kept input. |
| Text.FilterMapPosition | korsub/cineaste_scraper.py:97-127 | The value of a kept input sits right after the values of the kept inputs before it, so the loop keeps the input order. |
| Text.LastN | healthwatch/healthwatch.py:83 | The last n items, in order (all when fewer). |
| Text.Take | korsub/korsub_service_dual.py:448-452 | The first n items (all when fewer). |
| Text.Pad2 | korsub/korsub_service.py:263 | `:02d` gives at least two characters; one-digit numbers get a leading zero, and every other number is its plain decimal text. |
| Text.NatToStringValue | korsub/korsub_service.py:263 | The decimal text of a number reads back as that number. |
| Text.Pad2Value | korsub/korsub_service.py:263 | For a non-negative number, `:02d` is a digit string that reads back as the number, two digits long below 100, with a leading '0' exactly below 10. |
| Text.UrlJoin | korsub/cineaste_scraper.py:120 | `urljoin` on the site's bare origin: an empty href gives the base, an href with a scheme is kept, a `//host` href takes the base's scheme, and any other href is resolved under the base, dot segments removed. |
| Text.UrlJoinAbsolute | korsub/cineaste_scraper.py:120 | `http://` and `https://` links are kept as they are. |
| Text.UrlJoinPlain | korsub/cineaste_scraper.py:120 | A relative link of plain segments (no dot segments, ':', '?' or '#') with its query is appended to the base after a '/'. |
| Text.UrlJoinPlainRooted | korsub/cineaste_scraper.py:120 | A site-relative link `/path?query` is appended to the base. |
| Text.UrlJoinDotSlash | korsub/cineaste_scraper.py:120 | A leading `./` does not change where a relative link resolves. |
| Text.UrlJoinDotSlashPlain | korsub/cineaste_scraper.py:120 | `./path?query` resolves to the base, '/', the path and the query. |
| Text.UrlJoinDotDotPlain | korsub/cineaste_scraper.py:120 | `../path?query` resolves to the base, '/', the path and the query: the root has no parent to climb to. |
| Text.WithSuffix | korsub/korsub_service_dual.py:146-147 | `with_suffix` raises iff the path has no file name; otherwise it returns a prefix of the path followed by the suffix. |
| Text.WithSuffixReplacesExtension | korsub/korsub_service_dual.py:146-147 | `dir/stem.ext` becomes `dir/stem` plus the new suffix. |
| Text.WithSuffixAppends | korsub/korsub_service_dual.py:146-147 | A file name with no '.' in it gets the new suffix appended: `dir/name` becomes `dir/name` plus the suffix. |
| CineasteScraper.ParseLink | korsub/cineaste_scraper.py:97-127 | A link is kept iff its href has `wr_id=` and digits, no `#c_`, contains `psd_caption`, and its text has at least 3 characters. A kept link's result has source "cineaste.co.kr", the link text as title and the regex's capture as `wr_id`. |
| CineasteScraper.ParseLinkWrId | korsub/cineaste_scraper.py:109-113 | A kept link's `wr_id` is the maximal digit run after the first `wr_id=` that is followed by a digit. |
| CineasteScraper.ParsedLinksSpec | korsub/cineaste_scraper.py:97-127 | Every parsed result is the result of a kept link: source "cineaste.co.kr", a non-empty digit `wr_id` and a title of at least 3 characters. |
| CineasteScraper.ParsedLinksComplete | korsub/cineaste_scraper.py:97-127 | Every kept link yields its result on the page, right after the results of the kept links before it. |
| CineasteScraper.ParseResults | korsub/cineaste_scraper.py:91-130 | The loop yields the filtered links in order: source "cineaste.co.kr", a digit `wr_id` and a title of at least 3 characters. |
| CineasteScraper.SearchTerms | korsub/cineaste_scraper.py:42-50 | With a year: "title year", the title, the part before the first ':' and the part before the first '-'. Without a year: the last three. |
| CineasteScraper.FirstHitSpec | korsub/cineaste_scraper.py:52-58 | Only the first term that finds anything counts; later terms add nothing. The result is empty iff every term finds nothing. |
| CineasteScraper.Dedup | korsub/cineaste_scraper.py:60-68 | De-duplication gives distinct `wr_id`s, as an ordered subsequence of the input with exactly the input's set of ids. |
| CineasteScraper.DedupFromSpec | korsub/cineaste_scraper.py:60-68 | De-duplication gives distinct `wr_id`s, none already seen. It is an ordered subsequence of the input that covers every input id, and keeps the first entry of each id. |
| CineasteScraper.SubsequenceIds | korsub/cineaste_scraper.py:60-68 | A subsequence only has ids of the sequence it came from. |
| CineasteScraper.RemoveDuplicates | korsub/cineaste_scraper.py:60-68 | The loop with its `seen_ids` set computes exactly `Dedup`, whose properties `DedupFromSpec` states. |
| CineasteScraper.SearchTermsInOrder | korsub/cineaste_scraper.py:52-58 | The term loop, stripping each term and stopping at the first that finds anything, yields exactly the first hit. |
| CineasteScraper.SearchSubtitles | korsub/cineaste_scraper.py:28-68 | The term loop with `break`, followed by de-duplication, computes exactly `Search`. |
| CineasteScraper.Search | korsub/cineaste_scraper.py:28-68 | The result is empty iff every term finds nothing; otherwise it has exactly the ids of the first hit. |
| CineasteScraper.SearchSpec | korsub/cineaste_scraper.py:28-68 | The search result has distinct ids and exactly the ids of the first hit. It is in order, and each entry is the first of its id. |
| CineasteScraper.DownloadSubtitle | korsub/cineaste_scraper.py:132-152 | Always `False`. |
| OpenSubtitlesApi.SessionHeaders | korsub/opensubtitles_api.py:32-44 | User-Agent, Accept and Content-Type are always set; Api-Key is set iff the key is non-empty; the client sets no other header itself. |
| OpenSubtitlesApi.EffectiveKey | korsub/opensubtitles_api.py:29 | The given key when truthy, otherwise the environment's. |
| OpenSubtitlesApi.SearchParams | korsub/opensubtitles_api.py:69-89 | No request without a criterion. `languages` and `type` are always sent, plus exactly one criterion in priority order: the IMDb id with "tt" removed, the TMDB id, or the query (with the year only when truthy). |
| OpenSubtitlesApi.ImdbIdSentWithoutTt | korsub/opensubtitles_api.py:76-77 | The sent IMDb id contains no "tt"; "tt" followed by digits is sent as the digits. |
| OpenSubtitlesApi.RemoveAllDigits | korsub/opensubtitles_api.py:77 | Removing "tt" from a digit string leaves it unchanged. |
| OpenSubtitlesApi.SearchResults | korsub/opensubtitles_api.py:87-109 | A non-empty result means a request was sent and answered with exactly that data. Errors and exceptions give `[]`. |
| OpenSubtitlesApi.SubtitleDetails | korsub/opensubtitles_api.py:168-190 | `file_id` is the first file's id when files exist. Each present attribute is kept as given: language, release, download count, ratings, uploader name, `hearing_impaired`, `foreign_parts_only` and the feature type from `feature_details`. Each missing one takes its default: downloads 0, ratings 0, uploader "Unknown", both flags `False`, no feature type. |
| OpenSubtitlesApi.DownloadSucceeds | korsub/opensubtitles_api.py:111-166 | No key, an error answer or a missing or empty link gives `False`; `True` means the link's content was fetched and saved. |
| OpenSubtitlesApi.Client.constructor | korsub/opensubtitles_api.py:21-44 | The key is the argument or the environment's; the headers are `SessionHeaders` of it. |
| OpenSubtitlesApi.Client.SearchSubtitles | korsub/opensubtitles_api.py:46-109 | The parameters filled step by step equal `SearchParams`, and the result is `SearchResults` of that request. |
| OpenSubtitlesApi.Client.DownloadSubtitle | korsub/opensubtitles_api.py:111-166 | With no key: `False` and no request. Otherwise the file id is requested, and the result is `True` iff a link comes back and its fetch succeeds. |
| KorSubDual.OsRequest | korsub/korsub_service_dual.py:66-74 | Every request asks for Korean ("ko") movies ("movie"); with an IMDb or a TMDB id that id is the criterion and no query is sent. |
| KorSubDual.QueryOnlyWithoutIds | korsub/korsub_service_dual.py:68-74 | The title is sent as a query iff neither id is given; no request at all without title and ids. |
| KorSubDual.Search | korsub/korsub_service_dual.py:55-89 | OpenSubtitles hits are exactly the client's results, and "no hits" means a zero count. It raises iff OpenSubtitles found nothing and the title is missing, and the raised text is then "argument of type 'NoneType' is not iterable". |
| KorSubDual.SearchFallback | korsub/korsub_service_dual.py:66-89 | OpenSubtitles hits win and the board is never consulted. Otherwise come the board's hits, then nothing. A missing title at the fallback raises. |
| KorSubDual.DownloadSubtitle | korsub/korsub_service_dual.py:91-110 | Success requires the "opensubtitles" provider and a truthy file id, and then equals the client's download. |
| KorSubDual.DownloadFailures | korsub/korsub_service_dual.py:91-110 | `False` for an unknown provider, for Cineaste, without a file id, and without an API key. |
| KorSubDual.SearchAndFetch | korsub/korsub_service_dual.py:131-150 | A download happens exactly when the search found a best match and the path has a file name. It goes to the `.ko.srt` path of the best match and reports the dispatcher's result. |
| KorSubDual.ProcessMovie | korsub/korsub_service_dual.py:112-167 | No path, no attempt. With a path, a best match and a file name in the path, the best match is downloaded to the video path with its suffix replaced by `.ko.srt`, and the result is the dispatcher's; a download happens only then. |
| KorSubDual.MovieSubtitleBesideVideo | korsub/korsub_service_dual.py:142-150 | With hits, `dir/stem.ext` downloads the best match to `dir/stem.ko.srt`. |
| KorSubDual.ProcessEpisode | korsub/korsub_service_dual.py:169-218 | No title, path or episode means no attempt, as does a missing season or episode number. Otherwise, when the series-title search has a best match and the path a file name, that match is downloaded to the `.ko.srt` path and the result is the dispatcher's; a download happens only then. |
| KorSubDual.CountsBounded | korsub/korsub_service_dual.py:244-287 | downloaded <= processed <= number of items. |
| KorSubDual.CountsAppend | korsub/korsub_service_dual.py:315-361 | Both counters add up over concatenated step lists. |
| KorSubDual.CheckStep | korsub/korsub_service_dual.py:270-287 | Checking a movie fails iff the search raises; otherwise it counts as checked, downloading only when the search found something. |
| KorSubDual.MovieStep | korsub/korsub_service_dual.py:247-287 | A movie without a file, file record or path is skipped; a checked movie has all three and no existing subtitle. |
| KorSubDual.ScanRadarrLibrary | korsub/korsub_service_dual.py:226-294 | No key: not configured. A failed library fetch or an aborting movie: aborted. Otherwise the counters are those of the per-movie steps, with downloaded <= processed <= movies. |
| KorSubDual.FileStep | korsub/korsub_service_dual.py:331-361 | A file without a path is skipped; a checked file has a path with a file name. |
| KorSubDual.ScanSeries | korsub/korsub_service_dual.py:318-361 | One series aborts iff fetching its episode files fails or one of its files aborts. Otherwise it counts exactly that series' steps. |
| KorSubDual.ConcatStepCounts | korsub/korsub_service_dual.py:318-361 | Each further series adds its own checked files and downloads to the counters. |
| KorSubDual.ConcatStepFailed | korsub/korsub_service_dual.py:318-361 | The scan so far has an aborting step iff the scan before it or the further series has one. |
| KorSubDual.ConcatStepAborts | korsub/korsub_service_dual.py:318-361 | An aborting step in any series aborts the whole scan. |
| KorSubDual.ScanAllSeries | korsub/korsub_service_dual.py:318-361 | The series loop aborts iff some step of the scan aborts. Otherwise the counters are those of all series' steps. |
| KorSubDual.ScanEpisodeFiles | korsub/korsub_service_dual.py:331-361 | The inner loop over one series' files aborts iff some step aborts; otherwise it counts exactly that series' steps. |
| KorSubDual.ScanSonarrLibrary | korsub/korsub_service_dual.py:297-368 | No key: not configured. A failed fetch or an aborting step: aborted. Otherwise the counters are those of all series' steps, with downloaded <= processed. |
| KorSubDual.ManualSearch | korsub/korsub_service_dual.py:425-464 | 400 iff no title, IMDb id or TMDB id is truthy; 500 iff the search raises, with the search's raised text as the message. Otherwise the query is `title or imdb_id or tmdb_id` (`QueryValue`: title first, then the IMDb id, then the TMDB id), the year as requested, the count of all results and at most 10 rows (details for OpenSubtitles, raw rows for Cineaste), and provider "none" iff nothing was found. |
| KorSubService.Entries | korsub/korsub_service.py:111 | The list items when there are any, else the table rows. |
| KorSubService.FirstLinkWith | korsub/korsub_service.py:116 | A link found contains the key; none is found only when no link contains it. |
| KorSubService.FirstLinkWithIsFirst | korsub/korsub_service.py:116 | The link found is the first one in document order: every link before it lacks the key. |
| KorSubService.EntryResult | korsub/korsub_service.py:113-140 | An entry yields a result iff its first `wr_id=` link has digits after `wr_id=`. The title is the link text, the URL is joined to the base and the `wr_id` is the regex's capture. |
| KorSubService.EntryResultWrId | korsub/korsub_service.py:125-129 | A result's `wr_id` is the maximal digit run after the first `wr_id=` that is followed by a digit in its link. |
| KorSubService.ParsedEntriesSpec | korsub/korsub_service.py:105-142 | Every result has source "cineaste.co.kr" and a non-empty digit `wr_id`, and is the result of some entry. |
| KorSubService.ParsedEntriesComplete | korsub/korsub_service.py:105-142 | Every entry that yields a result contributes it, right after the results of the entries before it. |
| KorSubService.ParseSearchResults | korsub/korsub_service.py:105-142 | The parsing loop computes exactly `ParsedEntries` of the page's entries. |
| KorSubService.SearchWithTerm | korsub/korsub_service.py:77-103 | A failed fetch gives no results; a page gives at most one result per entry. |
| KorSubService.SearchTerms | korsub/korsub_service.py:59-62 | Two terms: the title, then "title year" when the year is truthy, else the title again. |
| KorSubService.Search | korsub/korsub_service.py:59-75 | The result is one of the two terms' results, and it is empty iff both are. |
| KorSubService.SearchSpec | korsub/korsub_service.py:59-75 | The first term's results when non-empty, else the second term's. |
| KorSubService.SearchSubtitles | korsub/korsub_service.py:45-75 | The term loop with `break` computes exactly `Search`. |
| KorSubService.DownloadSubtitle | korsub/korsub_service.py:144-187 | `True` iff the post page loads, has a `download.php` link, and fetching that link succeeds. |
| KorSubService.FetchBest | korsub/korsub_service.py:220-235 | The first result is downloaded to the `.ko.srt` path; with results and a file name a download always happens. |
| KorSubService.ProcessMovie | korsub/korsub_service.py:196-239 | Title, folder path and file path are all required. When they are present, the search finds results and the path has a file name, the first result is downloaded to the `.ko.srt` path and the result is that download's; a download happens only then. |
| KorSubService.EpisodeTitle | korsub/korsub_service.py:263 | The title starts with the series name followed by " S". |
| KorSubService.EpisodeTitleDigits | korsub/korsub_service.py:263 | For non-negative numbers the title is the series, " S", the season digits, "E" and the episode digits; each reads back as its number, is two digits below 100 and starts with '0' exactly below 10. |
| KorSubService.EpisodeTitleOneDigit | korsub/korsub_service.py:263 | One-digit season and episode numbers are zero-padded: `S0sE0e`. |
| KorSubService.EpisodeResults | korsub/korsub_service.py:263-268 | The episode-title results, or the series-title results when those are empty. |
| KorSubService.EpisodeAttempt | korsub/korsub_service.py:241-293 | Series, path and episodes are required; a missing season or episode number raises and gives `False`. Otherwise, when the episode results are non-empty and the path has a file name, the first of them is downloaded to the `.ko.srt` path and the result is that download's; a download happens only then. |
| KorSubService.ProcessEpisode | korsub/korsub_service.py:241-293 | The processor with its reassigned fallback equals `EpisodeAttempt`. |
| KorSubService.RadarrWebhook | korsub/korsub_service.py:306-325 | Ignored iff the event is not "Download"; otherwise the processor's result. |
| KorSubService.SonarrWebhook | korsub/korsub_service.py:328-347 | Ignored iff the event is not "Download"; otherwise the processor's result. |
| KorSubService.ManualSearch | korsub/korsub_service.py:350-372 | 400 iff the title is not truthy; otherwise the title and year as requested and the search's results. |

## Left out

- **Docker, HTTP, Mailgun and HTML.** These are inputs, not models:
  - Docker SDK calls, `requests` calls, the Mailgun POST and BeautifulSoup parsing become abstract outcomes;
  - a parsed page is its list of `(href, text)` links, with `get_text(strip=True)` already applied;
  - the element selection is an input: a page's entries are its `div` elements of class `list-item`, or else its `tr` rows (korsub/korsub_service.py:111), and each is given as its links. The regex filters on `href` are modelled: `wr_id=` (korsub/korsub_service.py:116), `download\.php` (korsub/korsub_service.py:164) and `wr_id=\d+` (korsub/cineaste_scraper.py:97).
- **Flask, threads and schedulers.** Flask routing, the dashboard template, the health endpoints, threading, the `schedule`/APScheduler loops and `time.sleep` are left out. The readiness gate's sleeps only advance the integer clock.
- **The dual service's routes.** Its webhook routes and its `/scan` trigger routes are not modelled. They only dispatch to the processors and scans, which are modelled.
- **Malformed request bodies.** A body that is not JSON gives a 500 in every route; this is not modelled.
- **Floating point.** The 0.8 threshold and elapsed minutes are restated as `5 * count >= 4 * total` and integer seconds. OpenSubtitles ratings are a `real` that is passed through.
- **JSON and time formats.** JSON files, ISO timestamp formatting and JSON `null` values are not modelled. A missing key is `None`; a present key holds a value of the expected type.
- **E-mail body and logging.** The HTML body of the alert e-mail and all logging are not modelled.
- Text.UrlJoin: only the site's bare-origin base is modelled. An href whose scheme is `https` in any letter case is kept as written, while `urljoin` lower-cases that scheme and resolves such an href against the base when it has no host. Also not modelled: parameters after ';', the removal of tab and newline characters by `urlsplit`, and the re-assembly of the parts of a `//host` link and of an href with a scheme.
- OpenSubtitlesApi.SessionHeaders: the default headers a `requests.Session()` starts with (`Accept-Encoding`, `Connection` and so on) are not modelled; the map holds only the headers the client sets itself.
- **Path normalisation.** `pathlib` normalisation is not modelled. `with_suffix` is taken on the path as given, and a trailing '/' gives an empty file name.
- **Unicode digits.** `\d` is taken as ASCII digits only; Unicode digits are not modelled.
- **Legacy search request.** The request parameters that `KorSubService.SearchWithTerm` sends to the board are not modelled, only the page it gets back.
- **Files outside the model.** `korsub/korsub_service_v2.py` is not part of this model; its only decision, a query only without ids, is `KorSubDual.QueryOnlyWithoutIds`. `korsub/debug_cineaste.py` is not part of this model.
- **Other exceptions.** Exceptions other than those named in the contracts are not modelled. This covers a processor's generic handler and a write to disk that fails.
- CineasteScraper.ParseLink: the link selection by the `wr_id=\d+` regex and the later `wr_id=(\d+)` search are the same test here, so the "no match" branch at 110-111 is not separate.
- HealthWatch.HealthMonitor.MonitorServices: one time `now` serves the whole cycle. The source reads `datetime.now()` separately for the cooldown test (healthwatch/healthwatch.py:166), the recorded alert time (:235) and the history timestamp (:240), so on a real clock these can differ by the time the Mailgun call takes.
- HealthWatch.WaitForServicesReady: an exception while counting (the generic handler at 386-387) is modelled only as the client being unavailable at that poll (`clientUp`).
