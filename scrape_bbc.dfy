/**
 * The URL utilities of the BBC scraper: the topics file, one `url pages` line per topic;
 * the page URLs `{topic}?page={i}` requested for each topic; and the order-preserving
 * removal of repeated article URLs. The page requests and the HTML parsing behind them
 * are one oracle, `fetch`, from a page URL to the article URLs on it.
 */
module ScrapeBbc {
  import opened Wrappers
  import opened Strings

  // ---------------------------------------------------------------- dedup_urls

  /** Each URL at its first occurrence, in input order: later repeats are dropped. */
  function FirstOccurrences(urls: seq<string>): seq<string>
  {
    if urls == [] then []
    else
      var init := urls[..|urls| - 1];
      var last := urls[|urls| - 1];
      if last in init then FirstOccurrences(init) else FirstOccurrences(init) + [last]
  }

  /** `dedup_urls`: a URL already in `seen` is skipped; any other is recorded and kept. */
  method DedupUrls(urls: seq<string>) returns (result: seq<string>)
    ensures result == FirstOccurrences(urls)
  {
    result := [];
    var seen: set<string> := {};
    for i := 0 to |urls|
      invariant result == FirstOccurrences(urls[..i])
      invariant seen == set u | u in result
    {
      var url := urls[i];
      assert urls[..i + 1][..i] == urls[..i] && urls[..i + 1][i] == url;
      FirstOccurrencesElements(urls[..i]);
      if url in seen {
        continue;
      }
      seen := seen + {url};
      result := result + [url];
    }
    assert urls[..|urls|] == urls;
  }

  /** Nothing is lost and nothing is invented: the output holds exactly the input's URLs. */
  lemma {:induction false} FirstOccurrencesElements(urls: seq<string>)
    ensures forall u :: u in FirstOccurrences(urls) <==> u in urls
  {
    if urls != [] {
      var init := urls[..|urls| - 1];
      FirstOccurrencesElements(init);
      assert urls == init + [urls[|urls| - 1]];
    }
  }

  /** No URL occurs twice in the output. */
  lemma {:induction false} FirstOccurrencesDistinct(urls: seq<string>)
    ensures Distinct(FirstOccurrences(urls))
  {
    if urls != [] {
      var init := urls[..|urls| - 1];
      FirstOccurrencesDistinct(init);
      FirstOccurrencesElements(init);
    }
  }

  /** The output is never longer than the input. */
  lemma {:induction false} FirstOccurrencesShorter(urls: seq<string>)
    ensures |FirstOccurrences(urls)| <= |urls|
  {
    if urls != [] {
      FirstOccurrencesShorter(urls[..|urls| - 1]);
    }
  }

  /** A list without repeats comes through unchanged. */
  lemma {:induction false} FirstOccurrencesOfDistinct(urls: seq<string>)
    requires Distinct(urls)
    ensures FirstOccurrences(urls) == urls
  {
    if urls != [] {
      var init := urls[..|urls| - 1];
      assert Distinct(init) by {
        forall i, j | 0 <= i < j < |init| ensures init[i] != init[j] {
          assert init[i] == urls[i] && init[j] == urls[j];
        }
      }
      FirstOccurrencesOfDistinct(init);
      assert urls[|urls| - 1] !in init by {
        forall i | 0 <= i < |init| ensures init[i] != urls[|urls| - 1] {
          assert init[i] == urls[i];
        }
      }
      assert urls == init + [urls[|urls| - 1]];
    }
  }

  /** Deduplicating twice is deduplicating once. */
  lemma FirstOccurrencesIdempotent(urls: seq<string>)
    ensures FirstOccurrences(FirstOccurrences(urls)) == FirstOccurrences(urls)
  {
    FirstOccurrencesDistinct(urls);
    FirstOccurrencesOfDistinct(FirstOccurrences(urls));
  }

  // ---------------------------------------------------------------- numbers

  predicate IsDigit(c: char)
  {
    '0' <= c <= '9'
  }

  predicate AllDigits(s: string)
  {
    forall k :: 0 <= k < |s| ==> IsDigit(s[k])
  }

  /** The number a string of decimal digits denotes; leading zeros are allowed. */
  function DigitsValue(s: string): nat
    requires AllDigits(s)
  {
    if s == [] then 0
    else DigitsValue(s[..|s| - 1]) * 10 + (s[|s| - 1] as int - '0' as int)
  }

  /**
   * `str::parse::<usize>`: an optional `+`, then at least one decimal digit, denoting
   * at most `usize::MAX`. Anything else, a `-` sign included, is an error.
   */
  function ParseUsize(s: string): (r: Option<nat>)
    ensures r.Some? ==> r.value <= UsizeMax
    ensures r.Some? <==> var digits := if s != [] && s[0] == '+' then s[1..] else s;
      digits != [] && AllDigits(digits) && DigitsValue(digits) <= UsizeMax
  {
    var digits := if s != [] && s[0] == '+' then s[1..] else s;
    if digits == [] || !AllDigits(digits) || DigitsValue(digits) > UsizeMax then None
    else Some(DigitsValue(digits))
  }

  /** The decimal form of `n`, without leading zeros: `usize`'s `Display`. */
  function ShowNat(n: nat): (s: string)
    ensures s != [] && AllDigits(s)
  {
    var digit := [(48 + n % 10) as char];
    assert IsDigit(digit[0]);
    if n < 10 then digit else ShowNat(n / 10) + digit
  }

  /** Reading the decimal form gives the number back. */
  lemma {:induction false} ShowNatValue(n: nat)
    ensures DigitsValue(ShowNat(n)) == n
  {
    var s := ShowNat(n);
    if n >= 10 {
      ShowNatValue(n / 10);
      assert s[..|s| - 1] == ShowNat(n / 10);
    }
  }

  /** Parsing a displayed `usize` gives it back. */
  lemma ParseShowNat(n: nat)
    requires n <= UsizeMax
    ensures ParseUsize(ShowNat(n)) == Some(n)
  {
    ShowNatValue(n);
    assert IsDigit(ShowNat(n)[0]);
  }

  /** Different numbers are displayed differently. */
  lemma ShowNatInjective(a: nat, b: nat)
    requires ShowNat(a) == ShowNat(b)
    ensures a == b
  {
    ShowNatValue(a);
    ShowNatValue(b);
  }

  // ---------------------------------------------------------------- load_urls

  /**
   * One line of the topics file: the text before the first space is the URL, and the
   * next space-separated word is the page count. `None` stands for the panic on a line
   * without a second word or whose second word is not a `usize`; words after the second
   * are ignored.
   */
  function ParseLine(line: string): (r: Option<(string, nat)>)
    ensures r.Some? ==> ' ' !in r.value.0 && r.value.1 <= UsizeMax
    ensures r.Some? ==> r.value.0 == Split(line, ' ')[0]
  {
    var words := Split(line, ' ');
    if |words| < 2 then None
    else match ParseUsize(words[1])
      case None => None
      case Some(n) => Some((words[0], n))
  }

  /** The line the topics file holds for a topic. */
  function FormatLine(url: string, pages: nat): string
  {
    url + " " + ShowNat(pages)
  }

  /** A topic line is read back as its URL and page count. */
  lemma ParseFormatLine(url: string, pages: nat)
    requires ' ' !in url && pages <= UsizeMax
    ensures ParseLine(FormatLine(url, pages)) == Some((url, pages))
  {
    var eq := (x: char) => x == ' ';
    assert NoneWhere(url, eq);
    assert NoneWhere(ShowNat(pages), eq) by {
      forall k | 0 <= k < |ShowNat(pages)| ensures ShowNat(pages)[k] != ' ' {
        assert IsDigit(ShowNat(pages)[k]);
      }
    }
    SplitByAt(url, ' ', ShowNat(pages), eq);
    SplitBySingle(url, eq);
    SplitBySingle(ShowNat(pages), eq);
    assert FormatLine(url, pages) == url + [' '] + ShowNat(pages);
    assert Split(FormatLine(url, pages), ' ') == [url, ShowNat(pages)];
    ParseShowNat(pages);
  }

  /** Parses every line in order; any bad line makes the whole load fail. */
  function ParseLines(lines: seq<string>): (r: Option<seq<(string, nat)>>)
    ensures r.Some? ==> |r.value| == |lines|
    ensures r.Some? ==> forall i :: 0 <= i < |lines| ==> ParseLine(lines[i]) == Some(r.value[i])
    ensures r.None? ==> exists i :: 0 <= i < |lines| && ParseLine(lines[i]).None?
  {
    if lines == [] then Some([])
    else match ParseLine(lines[0])
      case None => None
      case Some(entry) =>
        match ParseLines(lines[1..])
        case None => None
        case Some(rest) => Some([entry] + rest)
  }

  /** `load_urls`: one entry per line of the file's text. */
  function LoadUrls(text: string): (r: Option<seq<(string, nat)>>)
    ensures r.Some? ==> |r.value| == |Lines(text)|
  {
    ParseLines(Lines(text))
  }

  /** The lines of a topics file holding `topics`, one per topic. */
  function FormatLines(topics: seq<(string, nat)>): (r: seq<string>)
    ensures |r| == |topics|
    ensures forall i :: 0 <= i < |topics| ==> r[i] == FormatLine(topics[i].0, topics[i].1)
  {
    if topics == [] then [] else [FormatLine(topics[0].0, topics[0].1)] + FormatLines(topics[1..])
  }

  /** Every line parses when every line is a formatted topic line. */
  lemma {:induction false} ParseFormattedLines(topics: seq<(string, nat)>)
    requires forall i :: 0 <= i < |topics| ==> ' ' !in topics[i].0 && topics[i].1 <= UsizeMax
    ensures ParseLines(FormatLines(topics)) == Some(topics)
  {
    if topics != [] {
      ParseFormatLine(topics[0].0, topics[0].1);
      ParseFormattedLines(topics[1..]);
      assert FormatLines(topics)[1..] == FormatLines(topics[1..]);
      assert [topics[0]] + topics[1..] == topics;
    }
  }

  /** Formatted topic lines hold no line break, and each has at least the space. */
  lemma FormatLinesClean(topics: seq<(string, nat)>)
    requires forall i :: 0 <= i < |topics| ==> '\n' !in topics[i].0 && '\r' !in topics[i].0
    ensures forall i :: 0 <= i < |topics| ==>
      var line := FormatLines(topics)[i]; line != "" && '\n' !in line && '\r' !in line
  {
    forall i | 0 <= i < |topics|
      ensures var line := FormatLines(topics)[i]; line != "" && '\n' !in line && '\r' !in line
    {
      var digits := ShowNat(topics[i].1);
      assert FormatLines(topics)[i] == topics[i].0 + " " + digits;
      forall k | 0 <= k < |digits| ensures digits[k] != '\n' && digits[k] != '\r' {
        assert IsDigit(digits[k]);
      }
    }
  }

  /**
   * A topics file written one `url pages` line per topic, separated by line feeds, loads
   * back as the same topics in the same order.
   */
  lemma LoadFormattedTopics(topics: seq<(string, nat)>)
    requires forall i :: 0 <= i < |topics| ==>
      ' ' !in topics[i].0 && '\n' !in topics[i].0 && '\r' !in topics[i].0 && topics[i].1 <= UsizeMax
    ensures LoadUrls(Join(FormatLines(topics), '\n')) == Some(topics)
  {
    if topics != [] {
      FormatLinesClean(topics);
      LinesJoin(FormatLines(topics));
    }
    ParseFormattedLines(topics);
  }

  // ---------------------------------------------------------------- scrape_topic

  /** The pages of a topic: `{topic}?page=1` up to `{topic}?page={pages}`, in increasing order. */
  function PageUrls(topic: string, pages: nat): (r: seq<string>)
    ensures |r| == pages
  {
    seq(pages, i requires 0 <= i < pages => topic + "?page=" + ShowNat(i + 1))
  }

  /** The `i`-th page URL carries page number `i + 1`, which reads back as that number. */
  lemma PageUrlNumber(topic: string, pages: nat, i: nat)
    requires i < pages <= UsizeMax
    ensures var url := PageUrls(topic, pages)[i];
      && url[..|topic| + 6] == topic + "?page="
      && ParseUsize(url[|topic| + 6..]) == Some(i + 1)
  {
    var url := PageUrls(topic, pages)[i];
    assert url == (topic + "?page=") + ShowNat(i + 1);
    ParseShowNat(i + 1);
  }

  /** No page is requested twice. */
  lemma PageUrlsDistinct(topic: string, pages: nat)
    ensures Distinct(PageUrls(topic, pages))
  {
    var r := PageUrls(topic, pages);
    forall i, j | 0 <= i < j < pages ensures r[i] != r[j] {
      if r[i] == r[j] {
        var prefix := topic + "?page=";
        assert r[i] == prefix + ShowNat(i + 1) && r[j] == prefix + ShowNat(j + 1);
        assert ShowNat(i + 1) == r[i][|prefix|..];
        assert ShowNat(j + 1) == r[j][|prefix|..];
        ShowNatInjective(i + 1, j + 1);
      }
    }
  }

  /**
   * Fetching a series of pages, as `flatten_ok` followed by `collect` does: the article
   * URLs of every page concatenated in page order, or the first page's error.
   */
  function Gather(pages: seq<string>, fetch: string -> Result<seq<string>>): Result<seq<string>>
  {
    if pages == [] then Ok([])
    else match fetch(pages[0])
      case Err(e) => Err(e)
      case Ok(first) =>
        match Gather(pages[1..], fetch)
        case Err(e) => Err(e)
        case Ok(rest) => Ok(first + rest)
  }

  /** Gathering succeeds exactly when every page is fetched. */
  lemma {:induction false} GatherOk(pages: seq<string>, fetch: string -> Result<seq<string>>)
    ensures Gather(pages, fetch).Ok? <==> forall i :: 0 <= i < |pages| ==> fetch(pages[i]).Ok?
  {
    if pages != [] {
      GatherOk(pages[1..], fetch);
      assert forall i :: 1 <= i < |pages| ==> pages[i] == pages[1..][i - 1];
    }
  }

  /** A successful gathering holds each page's articles, in page order. */
  lemma {:induction false} GatherConcatenates(pages: seq<string>, more: string, fetch: string -> Result<seq<string>>)
    requires Gather(pages + [more], fetch).Ok?
    ensures Gather(pages, fetch).Ok? && fetch(more).Ok?
    ensures Gather(pages + [more], fetch).value == Gather(pages, fetch).value + fetch(more).value
  {
    if pages == [] {
      assert [] + [more] == [more];
    } else {
      assert (pages + [more])[1..] == pages[1..] + [more];
      GatherConcatenates(pages[1..], more, fetch);
    }
  }

  /** `scrape_topic`: the article URLs of all of a topic's pages, or the first failure. */
  function ScrapeTopic(topic: string, pages: nat, fetch: string -> Result<seq<string>>): Result<seq<string>>
  {
    Gather(PageUrls(topic, pages), fetch)
  }

  /**
   * The body of `main` between reading the topics and writing the output: every topic is
   * scraped in order, the first failure ends the run, and repeated article URLs are
   * removed.
   */
  method ScrapeAll(topics: seq<(string, nat)>, fetch: string -> Result<seq<string>>) returns (r: Result<seq<string>>)
    ensures r.Ok? <==> Scraped(topics, fetch).Ok?
    ensures r.Err? ==> r == Scraped(topics, fetch)
    ensures r.Ok? ==> r.value == FirstOccurrences(Scraped(topics, fetch).value)
  {
    r := ScrapeTopics(topics, fetch);
    if r.Ok? {
      var deduped := DedupUrls(r.value);
      r := Ok(deduped);
    }
  }

  /** The loop over the topics: their article URLs in topic order, or the first failure. */
  method ScrapeTopics(topics: seq<(string, nat)>, fetch: string -> Result<seq<string>>) returns (r: Result<seq<string>>)
    ensures r == Scraped(topics, fetch)
  {
    var all: seq<string> := [];
    for i := 0 to |topics|
      invariant Scraped(topics[..i], fetch) == Ok(all)
    {
      var scraped := ScrapeTopic(topics[i].0, topics[i].1, fetch);
      assert topics[..i + 1][..i] == topics[..i] && topics[..i + 1][i] == topics[i];
      if scraped.Err? {
        ScrapedFailure(topics, i + 1, fetch);
        return Err(scraped.error);
      }
      all := all + scraped.value;
    }
    assert topics[..|topics|] == topics;
    r := Ok(all);
  }

  /**
   * The topics scraped in order: the article URLs of all of them concatenated, or the
   * error of the first topic that fails.
   */
  function Scraped(topics: seq<(string, nat)>, fetch: string -> Result<seq<string>>): Result<seq<string>>
  {
    if topics == [] then Ok([])
    else
      match Scraped(topics[..|topics| - 1], fetch)
      case Err(e) => Err(e)
      case Ok(earlier) =>
        var last := topics[|topics| - 1];
        match ScrapeTopic(last.0, last.1, fetch)
        case Err(e) => Err(e)
        case Ok(urls) => Ok(earlier + urls)
  }

  /** Once a prefix of the topics fails, all of them fail with the same error. */
  lemma {:induction false} ScrapedFailure(topics: seq<(string, nat)>, k: nat, fetch: string -> Result<seq<string>>)
    requires k <= |topics| && Scraped(topics[..k], fetch).Err?
    ensures Scraped(topics, fetch) == Scraped(topics[..k], fetch)
    decreases |topics| - k
  {
    if k < |topics| {
      assert topics[..k + 1][..k] == topics[..k];
      ScrapedFailure(topics, k + 1, fetch);
    } else {
      assert topics[..k] == topics;
    }
  }

  /** Scraping succeeds exactly when every topic does. */
  lemma {:induction false} ScrapedOk(topics: seq<(string, nat)>, fetch: string -> Result<seq<string>>)
    ensures Scraped(topics, fetch).Ok? <==> forall i :: 0 <= i < |topics| ==> ScrapeTopic(topics[i].0, topics[i].1, fetch).Ok?
  {
    if topics != [] {
      var init := topics[..|topics| - 1];
      ScrapedOk(init, fetch);
      assert forall i :: 0 <= i < |init| ==> init[i] == topics[i];
    }
  }
}
