/** The Cineaste.co.kr subtitle-board scraper: the list of search terms, the search
    that keeps only the first term with hits, de-duplication by post id (`wr_id`),
    the link filters that turn a board page into results, and the download stub.

    A board page is modelled as the anchors it contains, each an `(href, text)` pair
    with the text already extracted; a fetch that raises is `FetchFailed`. */
module CineasteScraper {
  import opened Text

  const BaseUrl := "https://cineaste.co.kr"
  const SourceName := "cineaste.co.kr"

  datatype Link = Link(href: string, text: string)

  /** What fetching the board for one search term gives. */
  datatype BoardPage = Page(links: seq<Link>) | FetchFailed

  datatype SubtitleResult = SubtitleResult(title: string, url: string, wrId: string, source: string)

  // ================================================================ _parse_results

  /** The anchors `find_all` selects: those whose href matches `wr_id=\d+`. */
  ghost predicate Selected(link: Link) {
    HasKeyDigit(link.href, "wr_id=")
  }

  /** Whether one anchor becomes a result: it is selected, it is not a comment link,
      it points into the subtitle board, and its text has at least 3 characters. */
  ghost predicate Kept(link: Link) {
    Selected(link) && !Contains(link.href, "#c_") && Contains(link.href, "psd_caption") && |link.text| >= 3
  }

  /** One anchor's result, if it passes the filters. */
  function ParseLink(link: Link): (r: Option<SubtitleResult>)
    ensures r.Some? <==> Kept(link)
    ensures r.Some? ==> r.value.source == SourceName && r.value.title == link.text
                        && r.value.url == UrlJoin(BaseUrl, link.href)
                        && r.value.wrId != [] && IsDigits(r.value.wrId)
                        && Contains(link.href, "wr_id=" + r.value.wrId)
                        && DigitsAfter(link.href, "wr_id=") == Some(r.value.wrId)
  {
    DigitsAfterFound(link.href, "wr_id=");
    var wrId := DigitsAfter(link.href, "wr_id=");
    if wrId.None? then None
    else if Contains(link.href, "#c_") then None
    else if !Contains(link.href, "psd_caption") then None
    else if |link.text| < 3 then None
    else Some(SubtitleResult(link.text, UrlJoin(BaseUrl, link.href), wrId.value, SourceName))
  }

  /** The `wr_id` of a result is the whole digit run after the first "wr_id=" of the
      href that is followed by a digit. */
  lemma ParseLinkWrId(link: Link)
    ensures var r := ParseLink(link);
            r.Some? ==> IsFirstDigitRun(link.href, "wr_id=", r.value.wrId)
  {
    DigitsAfterFirstRun(link.href, "wr_id=");
  }

  /** The results of a page: the kept anchors, in document order. */
  function ParsedLinks(links: seq<Link>): seq<SubtitleResult> {
    FilterMap(ParseLink, links)
  }

  /** Every result of a page is a kept anchor's, and carries the board's source name,
      a non-empty digit `wr_id` and a title of at least 3 characters. */
  lemma ParsedLinksSpec(links: seq<Link>)
    ensures forall r :: r in ParsedLinks(links) ==>
              r.source == SourceName && r.wrId != [] && IsDigits(r.wrId) && |r.title| >= 3
              && exists i :: 0 <= i < |links| && Kept(links[i]) && ParseLink(links[i]) == Some(r)
  {
    FilterMapSound(ParseLink, links);
    forall r | r in ParsedLinks(links)
      ensures r.source == SourceName && r.wrId != [] && IsDigits(r.wrId) && |r.title| >= 3
      ensures exists i :: 0 <= i < |links| && Kept(links[i]) && ParseLink(links[i]) == Some(r)
    {
      var i :| 0 <= i < |links| && ParseLink(links[i]) == Some(r);
      assert Kept(links[i]);
    }
  }

  /** Every kept anchor of a page gives a result, placed right after the results of
      the anchors before it: document order is kept. */
  lemma ParsedLinksComplete(links: seq<Link>)
    ensures forall i :: 0 <= i < |links| && Kept(links[i]) ==> ParseLink(links[i]).value in ParsedLinks(links)
    ensures forall i :: 0 <= i < |links| && Kept(links[i]) ==>
              |ParsedLinks(links[..i])| < |ParsedLinks(links)|
              && ParsedLinks(links)[|ParsedLinks(links[..i])|] == ParseLink(links[i]).value
  {
    FilterMapComplete(ParseLink, links);
    FilterMapPosition(ParseLink, links);
  }

  /** `_parse_results`. */
  method ParseResults(links: seq<Link>) returns (results: seq<SubtitleResult>)
    ensures results == ParsedLinks(links)
    ensures forall r :: r in results ==> r.source == SourceName && IsDigits(r.wrId) && |r.title| >= 3
  {
    results := [];
    for i := 0 to |links|
      invariant results == ParsedLinks(links[..i])
    {
      assert links[..i + 1][..i] == links[..i];
      var href := links[i].href;
      if Contains(href, "#c_") {
        continue;
      }
      if !Contains(href, "psd_caption") {
        continue;
      }
      var wrIdMatch := DigitsAfter(href, "wr_id=");
      if wrIdMatch.None? {
        continue;
      }
      var title := links[i].text;
      if |title| < 3 {
        continue;
      }
      results := results + [SubtitleResult(title, UrlJoin(BaseUrl, href), wrIdMatch.value, SourceName)];
    }
    assert links[..|links|] == links;
    ParsedLinksSpec(links);
  }

  /** `_search_board`: a fetch that raises gives no results. */
  function SearchBoard(term: string, board: string -> BoardPage): seq<SubtitleResult> {
    match board(term)
    case Page(links) => ParsedLinks(links)
    case FetchFailed => []
  }

  // ================================================================ search_subtitles

  predicate YearGiven(year: Option<int>) {
    TruthyInt(year)
  }

  /** The search terms, in the order they are tried: "title year" when a year is
      given, the full title, the part before the first ':', the part before the
      first '-'. */
  function SearchTerms(title: string, year: Option<int>): (terms: seq<string>)
    ensures |terms| == if YearGiven(year) then 4 else 3
    ensures YearGiven(year) ==> terms[0] == title + " " + IntToString(year.value)
    ensures terms[|terms| - 3] == title
    ensures terms[|terms| - 2] == PrefixBefore(title, ':')
    ensures terms[|terms| - 1] == PrefixBefore(title, '-')
  {
    var base := [title, PrefixBefore(title, ':'), PrefixBefore(title, '-')];
    if YearGiven(year) then [title + " " + IntToString(year.value)] + base else base
  }

  /** The results of searching the board for one term, stripped first. */
  function TermResults(term: string, board: string -> BoardPage): seq<SubtitleResult> {
    SearchBoard(Strip(term), board)
  }

  /** The results of each term's search, in order. */
  function Pages(terms: seq<string>, board: string -> BoardPage): (pages: seq<seq<SubtitleResult>>)
    ensures |pages| == |terms|
  {
    seq(|terms|, i requires 0 <= i < |terms| => TermResults(terms[i], board))
  }

  /** The results of the first term whose search finds anything. */
  function FirstHit(terms: seq<string>, board: string -> BoardPage): seq<SubtitleResult> {
    FirstNonEmpty(Pages(terms, board), 0)
  }

  /** The search stops at the first term whose (stripped) search finds anything and
      returns exactly its results; it returns nothing only when no term finds anything. */
  lemma FirstHitSpec(terms: seq<string>, board: string -> BoardPage)
    ensures var r := FirstHit(terms, board);
            && (r == [] <==> forall j :: 0 <= j < |terms| ==> TermResults(terms[j], board) == [])
            && (r != [] ==> exists k :: 0 <= k < |terms| && r == TermResults(terms[k], board)
                                       && forall j :: 0 <= j < k ==> TermResults(terms[j], board) == [])
  {
    var pages := Pages(terms, board);
    FirstNonEmptySpec(pages, 0);
    assert forall j :: 0 <= j < |terms| ==> pages[j] == TermResults(terms[j], board);
  }

  function WrIds(rs: seq<SubtitleResult>): set<string> {
    set r | r in rs :: r.wrId
  }

  /** The de-duplication loop: an entry is kept when its `wr_id` has not been seen. */
  function DedupFrom(rs: seq<SubtitleResult>, seen: set<string>): seq<SubtitleResult> {
    if rs == [] then []
    else if rs[0].wrId in seen then DedupFrom(rs[1..], seen)
    else [rs[0]] + DedupFrom(rs[1..], seen + {rs[0].wrId})
  }

  /** De-duplication by `wr_id`: distinct ids, in input order, and no id lost. */
  function Dedup(rs: seq<SubtitleResult>): (d: seq<SubtitleResult>)
    ensures forall i, j :: 0 <= i < j < |d| ==> d[i].wrId != d[j].wrId
    ensures IsSubsequence(d, rs)
    ensures WrIds(d) == WrIds(rs)
  {
    DedupFromSpec(rs, {});
    SubsequenceIds(DedupFrom(rs, {}), rs);
    DedupFrom(rs, {})
  }

  /** `a` is `b` with some elements left out, the order kept. */
  predicate IsSubsequence<T(==)>(a: seq<T>, b: seq<T>) {
    if a == [] then true
    else if b == [] then false
    else if a[0] == b[0] then IsSubsequence(a[1..], b[1..])
    else IsSubsequence(a, b[1..])
  }

  /** A subsequence of `b` is one of `[x] + b`. */
  lemma {:induction false} IsSubsequenceSkip<T>(a: seq<T>, b: seq<T>, x: T)
    requires IsSubsequence(a, b)
    ensures IsSubsequence(a, [x] + b)
    decreases |a| + |b|, 1
  {
    assert ([x] + b)[1..] == b;
    if a != [] && a[0] == x {
      IsSubsequenceTail(a, b);
    }
  }

  /** Dropping the head of a subsequence leaves a subsequence. */
  lemma {:induction false} IsSubsequenceTail<T>(a: seq<T>, b: seq<T>)
    requires a != [] && IsSubsequence(a, b)
    ensures IsSubsequence(a[1..], b)
    decreases |a| + |b|, 0
  {
    assert [b[0]] + b[1..] == b;
    if a[0] == b[0] {
      IsSubsequenceSkip(a[1..], b[1..], b[0]);
    } else {
      IsSubsequenceTail(a, b[1..]);
      IsSubsequenceSkip(a[1..], b[1..], b[0]);
    }
  }

  /** De-duplication keeps one entry per `wr_id` not already seen, each entry from the
      input, in input order, and the first entry of the input for each id. */
  lemma {:induction false} DedupFromSpec(rs: seq<SubtitleResult>, seen: set<string>)
    ensures var d := DedupFrom(rs, seen);
            && (forall i, j :: 0 <= i < j < |d| ==> d[i].wrId != d[j].wrId)
            && (forall r :: r in d ==> r.wrId !in seen)
            && IsSubsequence(d, rs)
            && WrIds(rs) <= seen + WrIds(d)
            && (forall r :: r in d ==> FirstWithId(rs, r.wrId) == Some(r))
  {
    if rs != [] {
      var tail := rs[1..];
      assert rs == [rs[0]] + tail;
      if rs[0].wrId in seen {
        DedupFromSpec(tail, seen);
        IsSubsequenceSkip(DedupFrom(tail, seen), tail, rs[0]);
        forall r | r in DedupFrom(tail, seen) ensures FirstWithId(rs, r.wrId) == Some(r) {
          assert r.wrId != rs[0].wrId;
        }
      } else {
        var seen' := seen + {rs[0].wrId};
        DedupFromSpec(tail, seen');
        var d := DedupFrom(rs, seen);
        assert d == [rs[0]] + DedupFrom(tail, seen');
        assert d[1..] == DedupFrom(tail, seen');
        forall r | r in DedupFrom(tail, seen') ensures FirstWithId(rs, r.wrId) == Some(r) {
          assert r.wrId != rs[0].wrId;
        }
      }
    }
  }

  /** The first entry of `rs` with the given `wr_id`. */
  function FirstWithId(rs: seq<SubtitleResult>, id: string): Option<SubtitleResult> {
    if rs == [] then None
    else if rs[0].wrId == id then Some(rs[0])
    else FirstWithId(rs[1..], id)
  }

  /** The search's result: the first term's hits, de-duplicated. */
  function Search(title: string, year: Option<int>, board: string -> BoardPage): (r: seq<SubtitleResult>)
    ensures r == [] <==> forall j :: 0 <= j < |SearchTerms(title, year)| ==>
                           TermResults(SearchTerms(title, year)[j], board) == []
    ensures WrIds(r) == WrIds(FirstHit(SearchTerms(title, year), board))
  {
    var hits := FirstHit(SearchTerms(title, year), board);
    FirstHitSpec(SearchTerms(title, year), board);
    assert hits != [] ==> hits[0].wrId in WrIds(hits);
    Dedup(hits)
  }

  /** The de-duplication loop of `search_subtitles`, with its `seen_ids` set. */
  method RemoveDuplicates(allResults: seq<SubtitleResult>) returns (uniqueResults: seq<SubtitleResult>)
    ensures uniqueResults == Dedup(allResults)
  {
    var seenIds: set<string> := {};
    uniqueResults := [];
    for j := 0 to |allResults|
      invariant uniqueResults + DedupFrom(allResults[j..], seenIds) == Dedup(allResults)
    {
      assert allResults[j..][1..] == allResults[j + 1..];
      if allResults[j].wrId !in seenIds {
        seenIds := seenIds + {allResults[j].wrId};
        uniqueResults := uniqueResults + [allResults[j]];
      }
    }
  }

  /** The term loop of `search_subtitles`: each term is stripped and searched, and the
      loop stops at the first that finds anything. */
  method SearchTermsInOrder(searchTerms: seq<string>, board: string -> BoardPage)
    returns (allResults: seq<SubtitleResult>)
    ensures allResults == FirstHit(searchTerms, board)
  {
    ghost var pages := Pages(searchTerms, board);
    allResults := [];
    var i := 0;
    while i < |searchTerms|
      invariant 0 <= i <= |searchTerms|
      invariant allResults == []
      invariant FirstHit(searchTerms, board) == FirstNonEmpty(pages, i)
    {
      var results := SearchBoard(Strip(searchTerms[i]), board);
      assert results == pages[i];
      if results != [] {
        allResults := allResults + results;
        return;
      }
      i := i + 1;
    }
  }

  /** `search_subtitles`. */
  method SearchSubtitles(title: string, year: Option<int>, board: string -> BoardPage)
    returns (uniqueResults: seq<SubtitleResult>)
    ensures uniqueResults == Search(title, year, board)
  {
    var searchTerms := [title, PrefixBefore(title, ':'), PrefixBefore(title, '-')];
    if YearGiven(year) {
      searchTerms := [title + " " + IntToString(year.value)] + searchTerms;
    }
    assert searchTerms == SearchTerms(title, year);

    var allResults := SearchTermsInOrder(searchTerms, board);
    uniqueResults := RemoveDuplicates(allResults);
  }

  /** The search returns distinct `wr_id`s, taken in order from the first term that
      finds anything, covering every id that term found, each the first of its id. */
  lemma SearchSpec(title: string, year: Option<int>, board: string -> BoardPage)
    ensures var hits := FirstHit(SearchTerms(title, year), board);
            var r := Search(title, year, board);
            && (forall i, j :: 0 <= i < j < |r| ==> r[i].wrId != r[j].wrId)
            && IsSubsequence(r, hits)
            && WrIds(r) == WrIds(hits)
            && (forall x :: x in r ==> FirstWithId(hits, x.wrId) == Some(x))
  {
    var hits := FirstHit(SearchTerms(title, year), board);
    DedupFromSpec(hits, {});
    SubsequenceIds(Dedup(hits), hits);
  }

  lemma {:induction false} SubsequenceIds(a: seq<SubtitleResult>, b: seq<SubtitleResult>)
    requires IsSubsequence(a, b)
    ensures WrIds(a) <= WrIds(b)
  {
    if a != [] && b != [] {
      if a[0] == b[0] {
        SubsequenceIds(a[1..], b[1..]);
        forall id | id in WrIds(a) ensures id in WrIds(b) {
          var r :| r in a && r.wrId == id;
          if r == a[0] {
            assert b[0] in b;
          } else {
            assert r in a[1..];
            assert id in WrIds(a[1..]);
            var r' :| r' in b[1..] && r'.wrId == id;
            assert r' in b;
          }
        }
      } else {
        SubsequenceIds(a, b[1..]);
      }
    }
  }

  /** `download_subtitle`: downloads are behind a CAPTCHA, so it never succeeds. */
  function DownloadSubtitle(wrId: string, savePath: string): (ok: bool)
    ensures !ok
  {
    false
  }
}
