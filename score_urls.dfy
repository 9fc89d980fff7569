/**
 * The `score_urls` program: each URL of the input list, up to an optional limit, goes
 * through three stages (fetch the Chinese description of the page, translate it,
 * score the translations) and becomes exactly one CSV row. A failed stage never
 * aborts the batch: it only leaves the row's later columns empty.
 *
 * Reading the page, the translation services and Google Trends are oracles collected
 * in `Services`; the URLs run one after another (the concurrent fan-out of the
 * program is not modelled).
 */
module ScoreUrls {
  import opened Wrappers
  import opened Strings
  import opened Translate
  import opened TrendCache
  import opened Scoring
  import opened Csv
  import opened Output

  /** The outside world a row depends on. */
  datatype Services = Services(
    describe: string -> Result<string>,
    googleTranslate: string -> Result<string>,
    askChatgpt: string -> Result<string>,
    up: Upstream)

  /** The page's description is found and every translation call for it succeeds. */
  predicate Translated(url: string, prompts: map<string, Prompt>, services: Services)
  {
    && services.describe(url).Ok?
    && Succeeds(services.describe(url).value, prompts, services.googleTranslate, services.askChatgpt)
  }

  /** The translations of the page's description. */
  function TranslationOf(url: string, prompts: map<string, Prompt>, services: Services): Translations
    requires Translated(url, prompts, services)
  {
    Assemble(services.describe(url).value, prompts, services.googleTranslate, services.askChatgpt)
  }

  /**
   * `row` is the row for `url`: it carries the URL, it has translations exactly when
   * every call before scoring succeeds, and any scores it has are those of its
   * translations over `cache`.
   */
  ghost predicate RowFor(row: CsvRow, url: string, functionWords: set<string>, prompts: map<string, Prompt>,
                         services: Services, cache: map<ScoreKey, real>)
  {
    && row.url == url
    && (row.translations.Some? <==> Translated(url, prompts, services))
    && (row.translations.Some? ==> row.translations.value == TranslationOf(url, prompts, services))
    && (row.scores.Some? ==>
          row.translations.Some? && ScoredFrom(row.scores.value, row.translations.value, functionWords, cache))
  }

  /** A row stays the row for its URL as the cache grows. */
  lemma RowForExtends(row: CsvRow, url: string, functionWords: set<string>, prompts: map<string, Prompt>,
                      services: Services, earlier: map<ScoreKey, real>, later: map<ScoreKey, real>)
    requires RowFor(row, url, functionWords, prompts, services, earlier) && Extends(earlier, later)
    ensures RowFor(row, url, functionWords, prompts, services, later)
  {
    if row.scores.Some? {
      ScoredFromExtends(row.scores.value, row.translations.value, functionWords, earlier, later);
    }
  }

  /** A row's ChatGPT maps hold one entry per prompt wherever its blocks are present. */
  lemma RowForWidth(row: CsvRow, url: string, functionWords: set<string>, prompts: map<string, Prompt>,
                    services: Services, cache: map<ScoreKey, real>)
    requires RowFor(row, url, functionWords, prompts, services, cache)
    ensures row.translations.Some? ==> row.translations.value.chatgpt.Keys == prompts.Keys
    ensures row.scores.Some? ==> row.scores.value.chatgptScores.Keys == prompts.Keys
  {
  }

  /**
   * `process_row`: a missing description or a failed translation gives a row with the
   * URL alone; a failed scoring, which happens exactly when the lookup of some uncached
   * word fails, keeps the translations without scores; otherwise the row has both. It
   * never fails, and the cache and table change only as a run of lookups allows.
   */
  method ProcessRow(url: string, functionWords: set<string>, trends: Trends, prompts: map<string, Prompt>,
                    services: Services)
    returns (r: Result<CsvRow>)
    requires trends.Valid() && WellFormed(services.up)
    modifies trends
    ensures trends.Valid() && Extends(old(trends.cache), trends.cache)
    ensures r.Ok?
    ensures RowFor(r.value, url, functionWords, prompts, services, trends.cache)
    ensures r.value.translations.Some? && AllCovered(r.value.translations.value, functionWords, old(trends.cache))
            ==> r.value.scores.Some?
    ensures r.value.translations.Some? ==>
      (r.value.scores.None? <==>
         ScoringFails(r.value.translations.value, functionWords, old(trends.cache), old(trends.db), services.up))
    ensures !Translated(url, prompts, services) ==> unchanged(trends)
    ensures Since(old(trends.cache), old(trends.db), trends.cache, trends.db, services.up)
  {
    SinceStart(trends.cache, trends.db, services.up);
    var description := services.describe(url);
    if description.Err? {
      return Ok(CsvRow(url, None, None));
    }
    var translations := Translate.Translate(description.value, prompts, services.googleTranslate, services.askChatgpt);
    if translations.Err? {
      return Ok(CsvRow(url, None, None));
    }
    var scores := ScoreTranslations(trends, translations.value, functionWords, services.up);
    if scores.Err? {
      return Ok(CsvRow(url, Some(translations.value), None));
    }
    return Ok(CsvRow(url, Some(translations.value), Some(scores.value)));
  }

  /**
   * The rows of `urls`, one per URL and in the same order, all sharing one score cache.
   * A translated row lacks scores exactly when its scoring would already have failed
   * against the cache and table the batch started from.
   */
  method ProcessUrls(urls: seq<string>, functionWords: set<string>, trends: Trends, prompts: map<string, Prompt>,
                     services: Services)
    returns (rows: seq<CsvRow>)
    requires trends.Valid() && WellFormed(services.up)
    modifies trends
    ensures trends.Valid() && Extends(old(trends.cache), trends.cache)
    ensures |rows| == |urls|
    ensures forall i :: 0 <= i < |urls| ==> RowFor(rows[i], urls[i], functionWords, prompts, services, trends.cache)
    ensures forall i :: 0 <= i < |urls| && rows[i].translations.Some? ==>
      (rows[i].scores.None? <==>
         ScoringFails(rows[i].translations.value, functionWords, old(trends.cache), old(trends.db), services.up))
    ensures Since(old(trends.cache), old(trends.db), trends.cache, trends.db, services.up)
  {
    rows := [];
    SinceStart(trends.cache, trends.db, services.up);
    for i := 0 to |urls|
      invariant trends.Valid() && Extends(old(trends.cache), trends.cache)
      invariant |rows| == i
      invariant forall j :: 0 <= j < i ==> RowFor(rows[j], urls[j], functionWords, prompts, services, trends.cache)
      invariant forall j :: 0 <= j < i && rows[j].translations.Some? ==>
        (rows[j].scores.None? <==>
           ScoringFails(rows[j].translations.value, functionWords, old(trends.cache), old(trends.db), services.up))
      invariant Since(old(trends.cache), old(trends.db), trends.cache, trends.db, services.up)
    {
      ghost var before, beforeDb := trends.cache, trends.db;
      var row := ProcessRow(urls[i], functionWords, trends, prompts, services);
      ExtendsTransitive(old(trends.cache), before, trends.cache);
      SinceTransitive(old(trends.cache), old(trends.db), before, beforeDb, trends.cache, trends.db, services.up);
      RowsStep(rows, urls, row.value, functionWords, prompts, services, before, trends.cache);
      ScoresStep(rows, row.value, functionWords, old(trends.cache), old(trends.db), before, beforeDb, services.up);
      rows := rows + [row.value];
    }
  }

  /** Earlier rows stay the rows of their URLs while the next row is added. */
  lemma RowsStep(rows: seq<CsvRow>, urls: seq<string>, row: CsvRow, functionWords: set<string>,
                 prompts: map<string, Prompt>, services: Services,
                 before: map<ScoreKey, real>, after: map<ScoreKey, real>)
    requires |rows| < |urls| && Extends(before, after)
    requires forall j :: 0 <= j < |rows| ==> RowFor(rows[j], urls[j], functionWords, prompts, services, before)
    requires RowFor(row, urls[|rows|], functionWords, prompts, services, after)
    ensures forall j :: 0 <= j <= |rows| ==>
      RowFor((rows + [row])[j], urls[j], functionWords, prompts, services, after)
  {
    forall j | 0 <= j <= |rows|
      ensures RowFor((rows + [row])[j], urls[j], functionWords, prompts, services, after)
    {
      if j < |rows| {
        RowForExtends(rows[j], urls[j], functionWords, prompts, services, before, after);
      }
    }
  }

  /**
   * A row whose scoring was decided partway through the batch was decided as at the
   * batch's start, so the earlier rows and the new one all agree with the start.
   */
  lemma ScoresStep(rows: seq<CsvRow>, row: CsvRow, functionWords: set<string>,
                   cache0: map<ScoreKey, real>, db0: seq<Row>, cache: map<ScoreKey, real>, db: seq<Row>,
                   up: Upstream)
    requires Since(cache0, db0, cache, db, up)
    requires forall j :: 0 <= j < |rows| && rows[j].translations.Some? ==>
      (rows[j].scores.None? <==> ScoringFails(rows[j].translations.value, functionWords, cache0, db0, up))
    requires row.translations.Some? ==>
      (row.scores.None? <==> ScoringFails(row.translations.value, functionWords, cache, db, up))
    ensures forall j :: 0 <= j <= |rows| && (rows + [row])[j].translations.Some? ==>
      ((rows + [row])[j].scores.None? <==>
         ScoringFails((rows + [row])[j].translations.value, functionWords, cache0, db0, up))
  {
    if row.translations.Some? {
      ScoringFailsSince(row.translations.value, functionWords, cache0, db0, cache, db, up);
    }
    forall j | 0 <= j <= |rows| && (rows + [row])[j].translations.Some?
      ensures (rows + [row])[j].scores.None? <==>
                ScoringFails((rows + [row])[j].translations.value, functionWords, cache0, db0, up)
    {
      if j < |rows| {
        assert (rows + [row])[j] == rows[j];
      }
    }
  }

  /** `take(limit.unwrap_or(usize::MAX))`: the URLs that are processed. */
  function Taken(urls: seq<string>, limit: Option<nat>): (r: seq<string>)
    ensures r <= urls
    ensures limit.Some? && limit.value <= |urls| ==> |r| == limit.value
    ensures limit.Some? && limit.value > |urls| ==> r == urls
    ensures limit.None? && |urls| <= UsizeMax ==> r == urls
  {
    var n := if limit.Some? then limit.value else UsizeMax;
    if n < |urls| then urls[..n] else urls
  }

  /** The function words: the lines of the file when a path is given, none otherwise. */
  function FunctionWords(file: Option<string>): (r: set<string>)
    ensures file.None? ==> r == {}
    ensures file.Some? ==> forall w :: w in r <==> w in Strings.Lines(file.value)
  {
    if file.None? then {} else set w | w in Strings.Lines(file.value)
  }

  /** One hash-map order per row for each of its ChatGPT maps. */
  method RowOrders(rows: seq<CsvRow>) returns (orders: seq<(seq<string>, seq<string>)>)
    ensures |orders| == |rows|
    ensures forall i :: 0 <= i < |rows| ==> FitsOrders(rows[i], orders[i].0, orders[i].1)
  {
    orders := [];
    for i := 0 to |rows|
      invariant |orders| == i
      invariant forall j :: 0 <= j < i ==> FitsOrders(rows[j], orders[j].0, orders[j].1)
    {
      var translationOrder := [];
      if rows[i].translations.Some? {
        translationOrder := ListKeys(rows[i].translations.value.chatgpt.Keys);
      }
      var scoreOrder := [];
      if rows[i].scores.Some? {
        scoreOrder := ListKeys(rows[i].scores.value.chatgptScores.Keys);
      }
      orders := orders + [(translationOrder, scoreOrder)];
    }
  }

  /**
   * `main` once its files are read: the cache starts from the database, the first
   * `limit` URLs become rows, and the rows are written after the header. Row `i` is
   * the row of URL `i` over the final cache `cache`, and it lacks scores exactly when
   * its scoring would fail against the database the run started from. The file holds
   * the header and the rows' records, with the prompt names in the order `names` and
   * each row's maps in its `orders` entry. Every record of the file is as wide as the
   * header, and record `i + 1` starts with URL `i`.
   */
  method Run(urlsFile: string, functionWordsFile: Option<string>, prompts: map<string, Prompt>,
             limit: Option<nat>, db: seq<Row>, services: Services, show: real -> string)
    returns (rows: seq<CsvRow>, names: seq<string>, orders: seq<(seq<string>, seq<string>)>, w: Writer,
             ghost cache: map<ScoreKey, real>)
    requires Readable(db) && WellFormed(services.up)
    ensures |rows| == |Taken(Strings.Lines(urlsFile), limit)|
    ensures forall i :: 0 <= i < |rows| ==> rows[i].url == Taken(Strings.Lines(urlsFile), limit)[i]
    ensures Extends(Prime(db), cache)
    ensures forall i :: 0 <= i < |rows| ==>
      RowFor(rows[i], Taken(Strings.Lines(urlsFile), limit)[i], FunctionWords(functionWordsFile), prompts, services,
             cache)
    ensures forall i :: 0 <= i < |rows| && rows[i].translations.Some? ==>
      (rows[i].scores.None? <==>
         ScoringFails(rows[i].translations.value, FunctionWords(functionWordsFile), Prime(db), db, services.up))
    ensures Enumerates(names, prompts.Keys)
    ensures |orders| == |rows| && forall i :: 0 <= i < |rows| ==> FitsOrders(rows[i], orders[i].0, orders[i].1)
    ensures w.records == Records(names, rows, orders, show)
    ensures |w.records| == |rows| + 1 && w.current == []
    ensures forall k :: 0 <= k < |w.records| ==> |w.records[k]| == 2 * |prompts| + 5
    ensures forall i :: 0 <= i < |rows| ==> w.records[i + 1][0] == rows[i].url
  {
    var urls := Taken(Strings.Lines(urlsFile), limit);
    var functionWords := FunctionWords(functionWordsFile);
    var trends := new Trends(db);
    rows := ProcessUrls(urls, functionWords, trends, prompts, services);
    cache := trends.cache;
    names := ListKeys(prompts.Keys);
    orders := RowOrders(rows);
    w := WriteCsv(prompts, names, rows, orders, show);
    EnumerationLength(names, prompts.Keys);
    forall i | 0 <= i < |rows|
      ensures rows[i].translations.Some? ==> |rows[i].translations.value.chatgpt| == |names|
      ensures rows[i].scores.Some? ==> |rows[i].scores.value.chatgptScores| == |names|
    {
      RowForWidth(rows[i], urls[i], functionWords, prompts, services, trends.cache);
    }
    RecordsRectangular(names, rows, orders, show);
  }
}
