/**
 * The CSV file of results: a header naming the columns, then one record per URL holding
 * the URL, a translation block and a score block. A block that could not be computed is
 * written as `P + 2` empty fields, `P` being the number of prompts, so that a row whose
 * maps hold one entry per prompt lines up with the header.
 *
 * The ChatGPT translations and scores are written in the iteration order of their own
 * hash maps, which is given as data (`Enumerates`); nothing ties it to the order of the
 * prompt names in the header.
 */
module Output {
  import opened Wrappers
  import opened Floats
  import opened Csv
  import opened Regions
  import opened Translate
  import opened Scoring

  datatype CsvRow = CsvRow(url: string, translations: Option<Translations>, scores: Option<TranslationScores>)

  /** One `{name}_score` column per prompt name. */
  function ScoreColumns(names: seq<string>): (r: seq<string>)
    ensures |r| == |names|
    ensures forall i :: 0 <= i < |names| ==> r[i] == names[i] + "_score"
  {
    seq(|names|, i requires 0 <= i < |names| => names[i] + "_score")
  }

  /** The header record for prompts listed in the order `names`. */
  function Header(names: seq<string>): (h: seq<string>)
    ensures |h| == 2 * |names| + 5
  {
    ["url", "chinese_text", "google"] + names + ["google_us_score", "google_uk_score"] + ScoreColumns(names)
  }

  /**
   * The header names the URL, the text and the Google translation, each prompt, the two
   * Google scores and each prompt's score, in that order.
   */
  lemma HeaderLayout(names: seq<string>)
    ensures var h := Header(names);
      && h[..3] == ["url", "chinese_text", "google"]
      && h[3..3 + |names|] == names
      && h[3 + |names|..5 + |names|] == ["google_us_score", "google_uk_score"]
      && h[5 + |names|..] == ScoreColumns(names)
  {
    var front := ["url", "chinese_text", "google"] + names;
    var back := ["google_us_score", "google_uk_score"] + ScoreColumns(names);
    assert Header(names) == front + back;
  }

  /** How a score is written: NaN as an empty field, any other value as its `Display` form. */
  function ScoreField(x: Float, show: real -> string): (f: string)
    ensures x.NaN? ==> f == ""
    ensures NonEmptyDisplay(show) ==> (f == "" <==> x.NaN?)
  {
    if x.NaN? then "" else Display(x, show)
  }

  /** Every finite value is displayed with at least one character. */
  ghost predicate NonEmptyDisplay(show: real -> string)
  {
    forall v :: show(v) != ""
  }

  /** The hash-map orders a row is written in enumerate that row's ChatGPT maps. */
  predicate FitsOrders(row: CsvRow, translationOrder: seq<string>, scoreOrder: seq<string>)
  {
    && (row.translations.Some? ==> Enumerates(translationOrder, row.translations.value.chatgpt.Keys))
    && (row.scores.Some? ==> Enumerates(scoreOrder, row.scores.value.chatgptScores.Keys))
  }

  /** The ChatGPT translations, listed in `order`. */
  function Texts(m: map<string, (string, Region)>, order: seq<string>): (r: seq<string>)
    requires forall i :: 0 <= i < |order| ==> order[i] in m
    ensures |r| == |order|
    ensures forall i :: 0 <= i < |order| ==> r[i] == m[order[i]].0
  {
    if order == [] then []
    else Texts(m, order[..|order| - 1]) + [m[order[|order| - 1]].0]
  }

  /** The ChatGPT scores, listed in `order` and written as score fields. */
  function ScoreFields(m: map<string, Float>, order: seq<string>, show: real -> string): (r: seq<string>)
    requires forall i :: 0 <= i < |order| ==> order[i] in m
    ensures |r| == |order|
    ensures forall i :: 0 <= i < |order| ==> r[i] == ScoreField(m[order[i]], show)
  {
    if order == [] then []
    else ScoreFields(m, order[..|order| - 1], show) + [ScoreField(m[order[|order| - 1]], show)]
  }

  /** The translation block: the Chinese text, the Google translation, then each ChatGPT translation. */
  function TranslationBlock(t: Translations, order: seq<string>): (b: seq<string>)
    requires forall i :: 0 <= i < |order| ==> order[i] in t.chatgpt
    ensures |b| == |order| + 2
  {
    [t.chineseText, t.google] + Texts(t.chatgpt, order)
  }

  /** The score block: the US score, the UK score, then each ChatGPT score. */
  function ScoreBlock(s: TranslationScores, order: seq<string>, show: real -> string): (b: seq<string>)
    requires forall i :: 0 <= i < |order| ==> order[i] in s.chatgptScores
    ensures |b| == |order| + 2
  {
    [ScoreField(s.googleUsScore, show), ScoreField(s.googleUkScore, show)] + ScoreFields(s.chatgptScores, order, show)
  }

  /** What `write_row` writes for the translations: their block, or `P + 2` empty fields. */
  function TranslationPart(row: CsvRow, promptCount: nat, translationOrder: seq<string>): (b: seq<string>)
    requires row.translations.Some? ==> Enumerates(translationOrder, row.translations.value.chatgpt.Keys)
  {
    if row.translations.Some? then TranslationBlock(row.translations.value, translationOrder)
    else Blanks(promptCount + 2)
  }

  /** What `write_row` writes for the scores: their block, or `P + 2` empty fields. */
  function ScorePart(row: CsvRow, promptCount: nat, scoreOrder: seq<string>, show: real -> string): (b: seq<string>)
    requires row.scores.Some? ==> Enumerates(scoreOrder, row.scores.value.chatgptScores.Keys)
  {
    if row.scores.Some? then ScoreBlock(row.scores.value, scoreOrder, show)
    else Blanks(promptCount + 2)
  }

  /** The fields `write_row` writes for `row` when there are `promptCount` prompts. */
  function RowFields(row: CsvRow, promptCount: nat, translationOrder: seq<string>, scoreOrder: seq<string>,
                     show: real -> string): (r: seq<string>)
    requires FitsOrders(row, translationOrder, scoreOrder)
    ensures |r| > 0 && r[0] == row.url
  {
    [row.url] + TranslationPart(row, promptCount, translationOrder) + ScorePart(row, promptCount, scoreOrder, show)
  }

  /** The width of a row's translation block: `P + 2` fields when the translation is missing. */
  function TranslationWidth(row: CsvRow, promptCount: nat, translationOrder: seq<string>): nat
  {
    if row.translations.Some? then |translationOrder| + 2 else promptCount + 2
  }

  /** A row without translations has `P + 2` empty fields after the URL. */
  lemma MissingTranslationsBlank(row: CsvRow, promptCount: nat, translationOrder: seq<string>, scoreOrder: seq<string>,
                                 show: real -> string)
    requires FitsOrders(row, translationOrder, scoreOrder) && row.translations.None?
    ensures var r := RowFields(row, promptCount, translationOrder, scoreOrder, show);
      |r| > promptCount + 2 && r[1..promptCount + 3] == Blanks(promptCount + 2)
  {
    var tb := Blanks(promptCount + 2);
    assert RowFields(row, promptCount, translationOrder, scoreOrder, show)
      == [row.url] + tb + ScorePart(row, promptCount, scoreOrder, show);
  }

  /** A row with translations holds the text, the Google translation and each ChatGPT translation after the URL. */
  lemma TranslationsWritten(row: CsvRow, promptCount: nat, translationOrder: seq<string>, scoreOrder: seq<string>,
                            show: real -> string)
    requires FitsOrders(row, translationOrder, scoreOrder) && row.translations.Some?
    ensures var r := RowFields(row, promptCount, translationOrder, scoreOrder, show);
      var t := row.translations.value;
      |r| > |translationOrder| + 2
      && r[1..|translationOrder| + 3] == [t.chineseText, t.google] + Texts(t.chatgpt, translationOrder)
  {
    var tb := TranslationBlock(row.translations.value, translationOrder);
    assert RowFields(row, promptCount, translationOrder, scoreOrder, show)
      == [row.url] + tb + ScorePart(row, promptCount, scoreOrder, show);
  }

  /** A row without scores ends with `P + 2` empty fields, right after its translation block. */
  lemma MissingScoresBlank(row: CsvRow, promptCount: nat, translationOrder: seq<string>, scoreOrder: seq<string>,
                           show: real -> string)
    requires FitsOrders(row, translationOrder, scoreOrder) && row.scores.None?
    ensures var r := RowFields(row, promptCount, translationOrder, scoreOrder, show);
      var t := TranslationWidth(row, promptCount, translationOrder);
      |r| == 1 + t + promptCount + 2 && r[1 + t..] == Blanks(promptCount + 2)
  {
    var tb := TranslationPart(row, promptCount, translationOrder);
    assert RowFields(row, promptCount, translationOrder, scoreOrder, show)
      == ([row.url] + tb) + Blanks(promptCount + 2);
  }

  /**
   * A row with scores continues after its translation block with the US score, the UK
   * score and each ChatGPT score, and ends there.
   */
  lemma ScoresWritten(row: CsvRow, promptCount: nat, translationOrder: seq<string>, scoreOrder: seq<string>,
                      show: real -> string)
    requires FitsOrders(row, translationOrder, scoreOrder) && row.scores.Some?
    ensures var r := RowFields(row, promptCount, translationOrder, scoreOrder, show);
      var t := TranslationWidth(row, promptCount, translationOrder);
      var s := row.scores.value;
      |r| == 1 + t + |scoreOrder| + 2
      && r[1 + t..] == [ScoreField(s.googleUsScore, show), ScoreField(s.googleUkScore, show)]
        + ScoreFields(s.chatgptScores, scoreOrder, show)
  {
    var tb := TranslationPart(row, promptCount, translationOrder);
    assert RowFields(row, promptCount, translationOrder, scoreOrder, show)
      == ([row.url] + tb) + ScoreBlock(row.scores.value, scoreOrder, show);
  }

  /**
   * A row is as wide as the header when each of its blocks is missing or has one entry
   * per prompt.
   */
  lemma RowMatchesHeader(row: CsvRow, names: seq<string>, translationOrder: seq<string>, scoreOrder: seq<string>,
                         show: real -> string)
    requires FitsOrders(row, translationOrder, scoreOrder)
    requires row.translations.Some? ==> |row.translations.value.chatgpt| == |names|
    requires row.scores.Some? ==> |row.scores.value.chatgptScores| == |names|
    ensures |RowFields(row, |names|, translationOrder, scoreOrder, show)| == |Header(names)|
  {
    if row.translations.Some? {
      EnumerationLength(translationOrder, row.translations.value.chatgpt.Keys);
    }
    if row.scores.Some? {
      EnumerationLength(scoreOrder, row.scores.value.chatgptScores.Keys);
    }
  }

  /** `write_header`: the header fields, then the end of the record. */
  method WriteHeader(w: Writer, names: seq<string>)
    modifies w
    ensures w.records == old(w.records) + [old(w.current) + Header(names)]
    ensures w.current == []
  {
    w.WriteField("url");
    w.WriteField("chinese_text");
    w.WriteField("google");
    for i := 0 to |names|
      invariant w.records == old(w.records)
      invariant w.current == old(w.current) + ["url", "chinese_text", "google"] + names[..i]
    {
      assert names[..i + 1] == names[..i] + [names[i]];
      w.WriteField(names[i]);
    }
    assert names[..|names|] == names;
    w.WriteField("google_us_score");
    w.WriteField("google_uk_score");
    ghost var before := w.current;
    for i := 0 to |names|
      invariant w.records == old(w.records)
      invariant w.current == before + ScoreColumns(names)[..i]
    {
      assert ScoreColumns(names)[..i + 1] == ScoreColumns(names)[..i] + [names[i] + "_score"];
      w.WriteField(names[i] + "_score");
    }
    assert ScoreColumns(names)[..|names|] == ScoreColumns(names);
    assert w.current == old(w.current) + Header(names);
    w.EndRecord();
  }

  /** `write_float`: an empty field for NaN, the value's `Display` form otherwise. */
  method WriteScore(w: Writer, x: Float, show: real -> string)
    modifies w
    ensures w.records == old(w.records)
    ensures w.current == old(w.current) + [ScoreField(x, show)]
  {
    if x.NaN? {
      w.WriteField("");
    } else {
      w.WriteField(Display(x, show));
    }
  }

  /** `write_row`: the URL, the translation block, the score block, then the end of the record. */
  method WriteRow(w: Writer, row: CsvRow, promptCount: nat, translationOrder: seq<string>, scoreOrder: seq<string>,
                  show: real -> string)
    requires FitsOrders(row, translationOrder, scoreOrder)
    modifies w
    ensures w.records == old(w.records) + [old(w.current) + RowFields(row, promptCount, translationOrder, scoreOrder, show)]
    ensures w.current == []
  {
    w.WriteField(row.url);
    WriteTranslationPart(w, row, promptCount, translationOrder);
    WriteScorePart(w, row, promptCount, scoreOrder, show);
    assert w.current == old(w.current) + RowFields(row, promptCount, translationOrder, scoreOrder, show);
    w.EndRecord();
  }

  method WriteTranslationPart(w: Writer, row: CsvRow, promptCount: nat, translationOrder: seq<string>)
    requires row.translations.Some? ==> Enumerates(translationOrder, row.translations.value.chatgpt.Keys)
    modifies w
    ensures w.records == old(w.records)
    ensures w.current == old(w.current) + TranslationPart(row, promptCount, translationOrder)
  {
    if row.translations.Some? {
      WriteTranslations(w, row.translations.value, translationOrder);
    } else {
      w.WriteBlanks(promptCount + 2);
    }
  }

  method WriteScorePart(w: Writer, row: CsvRow, promptCount: nat, scoreOrder: seq<string>, show: real -> string)
    requires row.scores.Some? ==> Enumerates(scoreOrder, row.scores.value.chatgptScores.Keys)
    modifies w
    ensures w.records == old(w.records)
    ensures w.current == old(w.current) + ScorePart(row, promptCount, scoreOrder, show)
  {
    if row.scores.Some? {
      WriteScores(w, row.scores.value, scoreOrder, show);
    } else {
      w.WriteBlanks(promptCount + 2);
    }
  }

  /** The `Some` branch of the translation block. */
  method WriteTranslations(w: Writer, t: Translations, order: seq<string>)
    requires forall i :: 0 <= i < |order| ==> order[i] in t.chatgpt
    modifies w
    ensures w.records == old(w.records)
    ensures w.current == old(w.current) + TranslationBlock(t, order)
  {
    w.WriteField(t.chineseText);
    w.WriteField(t.google);
    for i := 0 to |order|
      invariant w.records == old(w.records)
      invariant w.current == old(w.current) + [t.chineseText, t.google] + Texts(t.chatgpt, order[..i])
    {
      assert order[..i + 1][..i] == order[..i];
      w.WriteField(t.chatgpt[order[i]].0);
    }
    assert order[..|order|] == order;
  }

  /** The `Some` branch of the score block: US, UK, then the ChatGPT scores, each through `write_float`. */
  method WriteScores(w: Writer, s: TranslationScores, order: seq<string>, show: real -> string)
    requires forall i :: 0 <= i < |order| ==> order[i] in s.chatgptScores
    modifies w
    ensures w.records == old(w.records)
    ensures w.current == old(w.current) + ScoreBlock(s, order, show)
  {
    WriteScore(w, s.googleUsScore, show);
    WriteScore(w, s.googleUkScore, show);
    for i := 0 to |order|
      invariant w.records == old(w.records)
      invariant w.current == old(w.current) + [ScoreField(s.googleUsScore, show), ScoreField(s.googleUkScore, show)]
        + ScoreFields(s.chatgptScores, order[..i], show)
    {
      assert order[..i + 1][..i] == order[..i];
      WriteScore(w, s.chatgptScores[order[i]], show);
    }
    assert order[..|order|] == order;
  }

  /** One record per row, in order. */
  function RowRecords(promptCount: nat, rows: seq<CsvRow>, orders: seq<(seq<string>, seq<string>)>,
                      show: real -> string): (r: seq<seq<string>>)
    requires |orders| == |rows|
    requires forall i :: 0 <= i < |rows| ==> FitsOrders(rows[i], orders[i].0, orders[i].1)
    ensures |r| == |rows|
    ensures forall i :: 0 <= i < |rows| ==> r[i] == RowFields(rows[i], promptCount, orders[i].0, orders[i].1, show)
  {
    if rows == [] then []
    else
      var n := |rows| - 1;
      assert forall i :: 0 <= i < n ==> rows[..n][i] == rows[i] && orders[..n][i] == orders[i];
      var earlier := RowRecords(promptCount, rows[..n], orders[..n], show);
      earlier + [RowFields(rows[n], promptCount, orders[n].0, orders[n].1, show)]
  }

  /** The records of the whole file: the header, then one record per row in input order. */
  function Records(names: seq<string>, rows: seq<CsvRow>, orders: seq<(seq<string>, seq<string>)>,
                   show: real -> string): (r: seq<seq<string>>)
    requires |orders| == |rows|
    requires forall i :: 0 <= i < |rows| ==> FitsOrders(rows[i], orders[i].0, orders[i].1)
    ensures |r| == |rows| + 1
    ensures r[0] == Header(names)
    ensures r[1..] == RowRecords(|names|, rows, orders, show)
  {
    [Header(names)] + RowRecords(|names|, rows, orders, show)
  }

  /**
   * `write_csv`: a fresh writer receives the header, with the prompt names in the map's
   * key order, and then every row in turn.
   */
  method WriteCsv(prompts: map<string, Prompt>, names: seq<string>, rows: seq<CsvRow>,
                  orders: seq<(seq<string>, seq<string>)>, show: real -> string)
    returns (w: Writer)
    requires Enumerates(names, prompts.Keys)
    requires |orders| == |rows|
    requires forall i :: 0 <= i < |rows| ==> FitsOrders(rows[i], orders[i].0, orders[i].1)
    ensures w.records == Records(names, rows, orders, show)
    ensures w.current == []
  {
    EnumerationLength(names, prompts.Keys);
    w := new Writer();
    WriteHeader(w, names);
    assert [] + Header(names) == Header(names);
    WriteRows(w, |prompts|, rows, orders, show);
  }

  /** The loop of `write_csv`: one record per row, in order. */
  method WriteRows(w: Writer, promptCount: nat, rows: seq<CsvRow>, orders: seq<(seq<string>, seq<string>)>,
                   show: real -> string)
    requires w.current == []
    requires |orders| == |rows|
    requires forall i :: 0 <= i < |rows| ==> FitsOrders(rows[i], orders[i].0, orders[i].1)
    modifies w
    ensures w.records == old(w.records) + RowRecords(promptCount, rows, orders, show)
    ensures w.current == []
  {
    assert RowRecords(promptCount, rows[..0], orders[..0], show) == [];
    for i := 0 to |rows|
      invariant w.current == []
      invariant w.records == old(w.records) + RowRecords(promptCount, rows[..i], orders[..i], show)
    {
      WriteRow(w, rows[i], promptCount, orders[i].0, orders[i].1, show);
      RowRecordsStep(promptCount, rows, orders, show, i);
    }
    assert rows[..|rows|] == rows && orders[..|rows|] == orders;
  }

  /** Writing one more row adds its record at the end. */
  lemma RowRecordsStep(promptCount: nat, rows: seq<CsvRow>, orders: seq<(seq<string>, seq<string>)>,
                       show: real -> string, i: nat)
    requires |orders| == |rows| && i < |rows|
    requires forall i :: 0 <= i < |rows| ==> FitsOrders(rows[i], orders[i].0, orders[i].1)
    ensures RowRecords(promptCount, rows[..i + 1], orders[..i + 1], show)
      == RowRecords(promptCount, rows[..i], orders[..i], show) + [[] + RowFields(rows[i], promptCount, orders[i].0, orders[i].1, show)]
  {
    assert rows[..i + 1][..i] == rows[..i] && orders[..i + 1][..i] == orders[..i];
    assert rows[..i + 1][i] == rows[i] && orders[..i + 1][i] == orders[i];
    assert [] + RowFields(rows[i], promptCount, orders[i].0, orders[i].1, show)
      == RowFields(rows[i], promptCount, orders[i].0, orders[i].1, show);
  }

  /**
   * Every record of the file is as wide as the header when each row's maps hold one
   * entry per prompt wherever its blocks are present.
   */
  lemma RecordsRectangular(names: seq<string>, rows: seq<CsvRow>, orders: seq<(seq<string>, seq<string>)>,
                           show: real -> string)
    requires |orders| == |rows|
    requires forall i :: 0 <= i < |rows| ==> FitsOrders(rows[i], orders[i].0, orders[i].1)
    requires forall i :: 0 <= i < |rows| ==>
      && (rows[i].translations.Some? ==> |rows[i].translations.value.chatgpt| == |names|)
      && (rows[i].scores.Some? ==> |rows[i].scores.value.chatgptScores| == |names|)
    ensures forall k :: 0 <= k < |Records(names, rows, orders, show)| ==>
      |Records(names, rows, orders, show)[k]| == 2 * |names| + 5
  {
    var r := Records(names, rows, orders, show);
    forall k | 0 <= k < |r| ensures |r[k]| == 2 * |names| + 5 {
      if k > 0 {
        RowMatchesHeader(rows[k - 1], names, orders[k - 1].0, orders[k - 1].1, show);
      }
    }
  }
}
