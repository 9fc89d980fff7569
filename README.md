# A verified model of the dissertation pipeline's core

The repository measures how search-engine-friendly different English translations of
Chinese news descriptions are. Its programs:

- `scrape_bbc` collects article URLs from BBC topic pages;
- `score_urls` fetches each article's Chinese description, translates it with Google
  Translate and with one ChatGPT prompt per configured prompt, extracts the words of
  every translation, removes the words all translations share, scores each word set as
  the mean Google Trends score of its words (through a cache backed by an SQLite
  table), and writes one CSV row per URL;
- `analyze` compares the score columns pairwise with a two-sample z statistic and
  writes z and p-value tables.

This project models that core in Dafny, one module per source file:

| module | file | models |
|---|---|---|
| `Tokens` | tokens.dfy | word extraction (`extract`, `extract_chatgpt`) |
| `Dedup` | dedup.dfy | `dedup_sets`, in place on an array of sets |
| `Regions` | regions.dfy | the `Region` text codec |
| `TrendCache` | trends.dfy | the `Trends` cache as a class: a cache map, the table as a sequence of rows, and a ghost log of table and network accesses |
| `Scoring` | scoring.dfy | `score_words`, `score_chatgpt`, `score_translations` |
| `Translate` | translate.dfy | `translate`: prompt substitution and map assembly |
| `Chatgpt` | chatgpt.dfy | the retry loop of `ask_chatgpt` and the clean-up of its reply |
| `Csv`, `Output` | csv.dfy, output.dfy | the CSV writer as a class holding finished records and the open record; `write_csv`, `write_header`, `write_row` |
| `ScrapeBbc` | scrape_bbc.dfy | `dedup_urls`, `load_urls`, the page URLs of `scrape_topic`, and the topic loop of `main` |
| `ScoreUrls` | score_urls.dfy | `process_row` and the row loop of `main` |
| `Analyze` | analyze.dfy | the z and p formulas, the flag loop, the matrices, `write_table` |
| `Wrappers`, `Floats`, `Strings` | wrappers.dfy, floats.dfy, strings.dfy | `Option`/`Result`, hash-map key orders, `f64` values, and the `str` methods used |

The outside world is modelled as data or as function-valued parameters:
- the SQLite table is a sequence of rows, with `readOk`/`writeOk` oracles for failures;
- Google Trends, Google Translate, ChatGPT and the article pages are functions from request to outcome;
- each oracle gives the same answer to the same request for the whole run: the table's `readOk`/`writeOk`, the Trends `http` reply, the page's description and both translators; the lemmas that compare a lookup at different points of a run (`FailsEarlier`, `SinceMiss`, `LookupTwice`) and every `r.Err? <==> …` contract rest on this;
- the order in which a `HashMap` hands out its keys is an explicit sequence that enumerates the keys;
- an `f64` is `Finite(real) | PosInf | NegInf | NaN`, with exact arithmetic on finite values.

Where the code calls `unwrap` or indexes out of range on an input it accepts, the model
mostly puts a `requires` on that input, with two exceptions: the `unwrap`s of `load_urls`
(src/bin/scrape_bbc.rs:67-68) make `ParseLine` return `None`, and the `panic!` on a fatal
ChatGPT code (src/translate/chatgpt.rs:39) is the `Aborted` outcome of `Settle`. Where the
code returns an error, the model returns `Err`/`None`, except for the CSV writer's
unequal-length error listed under "Left out".

## Model

| member | source | states |
|---|---|---|
| Floats.Div | src/scoring/mod.rs:46-52 | dividing by a non-zero count gives the exact quotient; the result is NaN exactly for 0/0, so an empty word set scores NaN |
| Floats.Neg | src/bin/analyze.rs:110 | negation keeps NaN exactly NaN and negates finite values |
| Floats.Abs | src/bin/analyze.rs:110 | `abs` is never negative and never -inf |
| Floats.DivNeg | src/bin/analyze.rs:119 | negating the numerator negates the quotient, including the infinities and NaN |
| Floats.AbsNeg | src/bin/analyze.rs:110 | the absolute value of a negated value is its absolute value |
| Floats.Display | src/bin/analyze.rs:141 | `Display` of `f64` writes "inf", "-inf" and "NaN" for the special values |
| Wrappers.ListKeys | src/output.rs:110-119 | iterating a hash map's keys lists every key exactly once |
| Wrappers.EnumerationLength | src/output.rs:63 | such a listing has exactly as many entries as the map |
| Strings.SplitBy | src/scoring/tokens.rs:17-18 | splitting on a character class gives at least one piece, and no piece contains a separator |
| Strings.SplitBySingle | src/scoring/tokens.rs:17-18 | a string without separators splits into itself alone |
| Strings.SplitByAt | src/scoring/tokens.rs:17-18 | splitting at a separator splits the two sides independently |
| Strings.Split | src/bin/scrape_bbc.rs:65 | `split(' ')` gives at least one piece, and no piece contains a space |
| Strings.SplitJoin | src/bin/scrape_bbc.rs:65 | splitting the join of pieces that avoid the separator gives the pieces back |
| Strings.Replace | src/translate/mod.rs:20 | `str::replace`: every non-overlapping occurrence of the pattern, scanning left to right, becomes the replacement; its properties are the `Replace…` lemmas and `PlaceholderFirst` below |
| Strings.ReplaceHit | src/translate/mod.rs:20 | an occurrence at the front is replaced and the scan resumes after it |
| Strings.ReplaceSkip | src/translate/mod.rs:20 | a first character that cannot start an occurrence is copied |
| Strings.DropFirstAbsent | src/translate/mod.rs:20 | a string without the pattern still lacks it after its first character is dropped |
| Strings.ReplaceStepFront | src/translate/mod.rs:20 | when no occurrence starts at the front, the first character is copied and the rest still has no occurrence starting before the next one |
| Strings.ReplaceStep | src/translate/mod.rs:20 | text in which no occurrence starts (it may hold any other characters) is copied, the first occurrence after it is replaced, and the rest is replaced in turn, so an occurrence anywhere is replaced |
| Strings.ReplaceAbsent | src/translate/mod.rs:20 | `replace` leaves a string without the pattern unchanged |
| Strings.ReplaceSelf | src/translate/mod.rs:20 | replacing a pattern by itself changes nothing |
| Strings.PlaceholderFirst | src/translate/mod.rs:20 | a string that starts with its only occurrence of the pattern gets the replacement in front of the rest |
| Strings.LeadingRun | src/translate/chatgpt.rs:50 | the length of the longest prefix made only of the trimmed character |
| Strings.TrailingRun | src/translate/chatgpt.rs:50 | the length of the longest suffix made only of the trimmed character |
| Strings.TrimMatches | src/translate/chatgpt.rs:50 | `trim_matches(c)`: both runs of `c` removed; its properties are the four `TrimMatches…` lemmas below |
| Strings.TrimMatchesInfix | src/translate/chatgpt.rs:50 | `trim_matches` keeps exactly the infix between the leading and the trailing run |
| Strings.TrimMatchesStripsOnlyC | src/translate/chatgpt.rs:50 | only occurrences of the trimmed character are removed; interior ones stay |
| Strings.TrimMatchesEnds | src/translate/chatgpt.rs:50 | the result neither starts nor ends with the trimmed character |
| Strings.TrimMatchesIdempotent | src/translate/chatgpt.rs:50 | trimming twice is trimming once |
| Strings.Lines | src/input.rs:14-17 | `lines()` yields lines without line feeds |
| Strings.StripCarriageReturn | src/input.rs:16 | dropping the `\r` of a `\r\n` ending adds no line feed |
| Strings.LinesJoin | src/bin/scrape_bbc.rs:63 | the lines of lines joined by line feeds are those lines, when they hold no line break and the last is non-empty |
| Regions.ToStr | src/scoring/mod.rs:77-82 | a region is stored as "britain" or "america" |
| Regions.FromStr | src/scoring/mod.rs:85-91 | decoding succeeds exactly for "britain" and "america" |
| Regions.FromStrToStr | src/scoring/mod.rs:77-91 | decoding an encoded region gives it back |
| Regions.ToStrFromStr | src/scoring/mod.rs:77-91 | every accepted string is the encoding of its decoding |
| Regions.ToStrInjective | src/scoring/mod.rs:77-82 | the two regions are stored differently |
| Regions.RegionOrDefault | src/input.rs:43-52 | a prompt without a region is scored for America |
| Tokens.IsWhitespace | src/scoring/tokens.rs:15 | the `\s` class: Unicode `White_Space` characters |
| Tokens.IsSeparator | src/scoring/tokens.rs:15 | the regex class: whitespace and `,.:;[](){}` |
| Tokens.IsAlphabetic | src/scoring/tokens.rs:22 | `is_alphabetic`, restricted to ASCII letters |
| Tokens.Keep | src/scoring/tokens.rs:21-23 | the three filters: non-empty, only letters or apostrophes, not a function word; `Extract` states the set they produce |
| Tokens.LowerChar | src/scoring/tokens.rs:20 | lowercasing keeps letters letters and separators separators, and leaves no upper-case ASCII letter |
| Tokens.Lower | src/scoring/tokens.rs:20 | `to_lowercase` keeps the length and lowercases each character |
| Tokens.TrimStartWhitespace | src/scoring/tokens.rs:19 | trimming the start keeps a suffix |
| Tokens.TrimEndWhitespace | src/scoring/tokens.rs:19 | trimming the end keeps a prefix |
| Tokens.Trim | src/scoring/tokens.rs:19 | `trim` keeps only characters of its input |
| Tokens.Pieces | src/scoring/tokens.rs:15-18 | no piece of the regex split contains a separator |
| Tokens.Normalize | src/scoring/tokens.rs:19-20 | trimming and lowercasing a piece introduces no separator |
| Tokens.Extract | src/scoring/tokens.rs:11-25 | every word is non-empty, only letters or apostrophes, no function word, lowercase and free of separators, and comes from a piece of the text; conversely every kept piece is in the set |
| Tokens.LowerIdempotent | src/scoring/tokens.rs:20 | lowercasing twice is lowercasing once, so every extracted word is its own lowercase |
| Tokens.ExtractAt | src/scoring/tokens.rs:15-18 | extraction splits at any separator: the words of `a c b` are those of `a` and of `b` |
| Tokens.ExtractChatgpt | src/scoring/tokens.rs:28-39 | the same prompt names, each region unchanged, each text replaced by its extracted words |
| Dedup.Common | src/scoring/dedup.rs:8-14 | a word is common exactly when every set of the family contains it |
| Dedup.Deduped | src/scoring/dedup.rs:16-20 | the family keeps its number and order of sets |
| Dedup.AllContain | src/scoring/dedup.rs:11 | the check is true exactly when every set contains the word |
| Dedup.DedupSets | src/scoring/dedup.rs:4-21 | in place, with at least one set required: the array becomes its old family with the common words removed from every set |
| Dedup.DedupedDropsCommon | src/scoring/dedup.rs:10-20 | a word that was in every set is in no set afterwards |
| Dedup.DedupedKeepsOthers | src/scoring/dedup.rs:10-20 | a word missing from some set stays everywhere it was |
| Dedup.DedupedShrinks | src/scoring/dedup.rs:16-20 | each set afterwards is a subset of its old contents |
| Dedup.DedupedSingle | src/scoring/dedup.rs:6-20 | a lone set is emptied |
| Dedup.DedupedIdempotent | src/scoring/dedup.rs:10-20 | afterwards nothing is common, so a second pass changes nothing |
| Dedup.DedupedExample | src/scoring/dedup.rs:23-40 | the repository's test: only "hello" is removed from the three sets |
| TrendCache.KeyOf | src/scoring/trends.rs:110-116 | a stored row with a decodable region matches exactly one key |
| TrendCache.FirstMatch | src/scoring/trends.rs:69-83 | the first matching row's score, or none exactly when no row matches |
| TrendCache.Prime | src/scoring/trends.rs:27-37 | the start-up cache: every row inserted in table order; `PrimeKeys`, `PrimeLastWins` and `PrimeConsistent` state what it holds |
| TrendCache.PrimeKeys | src/scoring/trends.rs:27-37 | after start-up the cache holds exactly the keys that have rows |
| TrendCache.PrimeLastWins | src/scoring/trends.rs:32-34 | for a key stored twice, the later row's score wins |
| TrendCache.PrimeConsistent | src/scoring/trends.rs:27-37 | every cached score at start-up is the score of some row of its key |
| TrendCache.RestartKeepsScores | src/scoring/trends.rs:27-37 | a restart finds every cached key again, with the same score when keys are not repeated in the table |
| TrendCache.GeoCode | src/scoring/trends.rs:133-136 | Britain is "GB" and America is "US" |
| TrendCache.TrendsUrlGeo | src/scoring/trends.rs:137 | the request ends in the region's geo code |
| TrendCache.TrendsUrl | src/scoring/trends.rs:137 | the Trends API request for a word, the secret and the region's geo code; `TrendsUrlGeo` states that the regions never share a request |
| TrendCache.ScoreFromReply | src/scoring/trends.rs:141-148 | a reply with lines yields the last point of its first line; an error body is an error |
| TrendCache.FetchScore | src/scoring/trends.rs:131-149 | `fetch_score_from_trends`: a transport or decoding error, or the score of the reply as `ScoreFromReply` states it |
| TrendCache.StoredRow | src/scoring/trends.rs:90-96 | the inserted row matches its key and carries the score |
| TrendCache.MissResult | src/scoring/trends.rs:58-67 | a miss: a read error; else the first stored score; else the fetch error, a write error or the fetched score; `MissAppendsIffFetched` and `Trends.Miss` state it |
| TrendCache.MissAccesses | src/scoring/trends.rs:58-67 | a miss reads the table, fetches only when the read found nothing, and writes only a fetched score |
| TrendCache.MissAppendsIffFetched | src/scoring/trends.rs:58-67 | a miss appends a row exactly when the table has none for the key and the fetched score is returned; it fetches exactly when the read succeeded and found nothing |
| TrendCache.Trends.constructor | src/scoring/trends.rs:27-37 | the cache starts as every table row inserted in table order |
| TrendCache.Trends.LoadScoreFromDb | src/scoring/trends.rs:69-83 | one table read, giving the first matching row's score or an error |
| TrendCache.Trends.StoreScoreToDb | src/scoring/trends.rs:85-103 | one table write that appends the row, or an error with the table unchanged |
| TrendCache.Trends.GetScoreAndCache | src/scoring/trends.rs:58-67 | the table first, the network only if the table has nothing, and a stored row only for a fetched score |
| TrendCache.Trends.Score | src/scoring/trends.rs:47-56 | a cached key is answered from the cache with nothing else touched; a miss is resolved and cached only on success; cached scores never change and the table only grows |
| TrendCache.Trends.Miss | src/scoring/trends.rs:47-67 | the miss path of `score`: result, accesses, cache and table as above, keeping the cache consistent with the table |
| TrendCache.AfterMiss | src/scoring/trends.rs:58-67 | a successful miss keeps every cached score backed by a table row and adds no repeated key |
| TrendCache.LookupTwice | src/scoring/trends.rs:47-56 | once a lookup has succeeded, the same lookup returns the same score with no table or network access |
| TrendCache.FirstMatchAppend | src/scoring/trends.rs:69-83 | rows appended under other keys do not change what a read of a key finds |
| TrendCache.Since | src/scoring/trends.rs:47-67 | what a run of `score` calls leaves behind: the cache only grows, each new entry is what a miss at the start would give, and new rows are stored under keys now cached |
| TrendCache.SinceStart | src/scoring/trends.rs:47-67 | an empty run changes nothing |
| TrendCache.SinceMiss | src/scoring/trends.rs:58-83 | a key still uncached misses exactly as it would have at the start of the run |
| TrendCache.SinceTransitive | src/scoring/trends.rs:47-67 | two runs one after the other are one run |
| TrendCache.SinceScore | src/scoring/trends.rs:47-67 | one `score` call is a run |
| Chatgpt.Retryable | src/translate/chatgpt.rs:37-38 | no code, or a code from 500 to 599 |
| Chatgpt.Classify | src/translate/chatgpt.rs:34-41 | choices end the loop; no code or a 5xx code is retried; any other code is fatal |
| Chatgpt.ReplyText | src/translate/chatgpt.rs:44-50 | the choices' contents joined by line feeds, with the surrounding quotes trimmed; the `ReplyText…` lemmas state it |
| Chatgpt.ReplyTextClean | src/translate/chatgpt.rs:44-50 | the reply text neither starts nor ends with a quote, and cleaning it again changes nothing |
| Chatgpt.ReplyTextSingle | src/translate/chatgpt.rs:50 | one choice without surrounding quotes is the reply itself |
| Chatgpt.ReplyTextSplits | src/translate/chatgpt.rs:44-48 | the choices come back from the reply, in order, when none contains a line feed or a quote |
| Chatgpt.JoinAvoids | src/translate/chatgpt.rs:44-48 | joining adds no character other than the separator |
| Chatgpt.Settle | src/translate/chatgpt.rs:25-50 | the outcome of a series of attempts: a transport error, the fatal-code abort, the cleaned reply, or still retrying; `SettleSkipsRetries` and `SettleRepliedClean` state it |
| Chatgpt.SettleSkipsRetries | src/translate/chatgpt.rs:25-42 | retried responses leave no trace in the outcome |
| Chatgpt.SettleRepliedClean | src/translate/chatgpt.rs:25-50 | a successful exchange gives a clean reply text |
| Chatgpt.AskChatgpt | src/translate/chatgpt.rs:13-51 | the loop's outcome over a series of attempts is their settlement |
| Translate.PromptMessage | src/translate/mod.rs:20 | the message sent for a prompt: the template with every `{chinese}` replaced by the text |
| Translate.PromptWithoutPlaceholder | src/translate/mod.rs:20 | a template without `{chinese}` is sent unchanged |
| Translate.PromptLeadingPlaceholder | src/translate/mod.rs:20 | a template starting with its only `{chinese}` sends the text followed by the rest |
| Translate.NoPlaceholderIn | src/translate/mod.rs:20 | no `{chinese}` starts inside the text, though it may hold other braces (`BraceFreeHasNoPlaceholder`, `PromptAfterBrace`) |
| Translate.PromptPlaceholderStep | src/translate/mod.rs:20 | the first placeholder anywhere in the template gets the text and the rest is substituted in turn, so every placeholder gets it |
| Translate.PromptSinglePlaceholder | src/translate/mod.rs:20 | a template with one placeholder anywhere, after any text in which none starts, sends the text in its place |
| Translate.BraceFreeHasNoPlaceholder | src/translate/mod.rs:20 | text without `{` has no placeholder starting in it |
| Translate.PromptAfterBrace | src/translate/mod.rs:20 | a brace before the placeholder does not stop the substitution: `{x} {chinese}` sends `{x} ` followed by the text |
| Translate.Assemble | src/translate/mod.rs:14-30 | the input text, its Google translation, and one entry per prompt name carrying that prompt's region |
| Translate.Translate | src/translate/mod.rs:14-30 | succeeds exactly when the Google call and every prompt's call succeed, and then returns the assembled translations |
| Scoring.Total | src/scoring/mod.rs:47-48 | the sum of a covered set's cached scores, independent of the order the words are taken in (`TotalRemove`) |
| Scoring.TotalRemove | src/scoring/mod.rs:46-52 | the sum of scores splits off any one word |
| Scoring.TotalExtends | src/scoring/mod.rs:46-52 | the sum over a covered set is unchanged as the cache grows |
| Scoring.TotalStep | src/scoring/mod.rs:46-52 | scoring one more word adds its score to the sum |
| Scoring.TotalBounds | src/scoring/mod.rs:46-52 | the sum lies between the count times the smallest and times the largest score |
| Scoring.Average | src/scoring/mod.rs:46-52 | the sum over the number of words; the `Average…` lemmas state its bounds and stability |
| Scoring.MeanIsAverage | src/scoring/mod.rs:46-52 | the computed sum over the count is the set's average |
| Scoring.AverageExtends | src/scoring/mod.rs:46-52 | a set's average is unchanged as the cache grows |
| Scoring.AverageWithin | src/scoring/mod.rs:46-52 | the average of a non-empty set is finite and lies between its smallest and largest score |
| Scoring.AverageSingle | src/scoring/mod.rs:46-52 | the average of one word is its score |
| Scoring.LookUp | src/scoring/mod.rs:47 | a successful lookup leaves the word's score in the cache; a failure means it was not cached |
| Scoring.SomeLookupFails | src/scoring/mod.rs:47 | some word of the set has no cached score and its lookup against the table fails |
| Scoring.FailsEarlier | src/scoring/mod.rs:47 | a lookup that fails later in a run would already have failed at its start |
| Scoring.CoveredNotFailing | src/scoring/mod.rs:47 | a set whose words all end up cached had no failing lookup at the start: a failed key is never cached |
| Scoring.SumScores | src/scoring/mod.rs:47-48 | the summing loop: on success the sum of the set's scores, every word cached; a failure only for a lookup that fails at the start |
| Scoring.ScoreWords | src/scoring/mod.rs:46-52 | on success every word is scored and the result is the mean; it fails exactly when the lookup of some uncached word fails, so it succeeds when every word is already cached |
| Scoring.ChatgptLookupFails | src/scoring/mod.rs:54-67 | some prompt's set has a failing lookup |
| Scoring.ScoreChatgpt | src/scoring/mod.rs:54-67 | on success one score per prompt name, each the mean of that set under its own region; it fails exactly when some set has a failing lookup |
| Scoring.Shared | src/scoring/mod.rs:29-35 | the words common to the Google set and every ChatGPT set |
| Scoring.DistinctiveGoogle | src/scoring/mod.rs:29-35 | the Google set without the shared words; `SharedIsCommon` and the `Distinctive…` lemmas state it |
| Scoring.DistinctiveChatgpt | src/scoring/mod.rs:29-35 | the ChatGPT sets keep their prompt names |
| Scoring.DistinctiveDropsShared | src/scoring/mod.rs:29-35 | a word in every set is removed from all of them |
| Scoring.DistinctiveKeepsUnshared | src/scoring/mod.rs:29-35 | a word missing from some set stays everywhere it was |
| Scoring.NoPromptsEmptiesGoogle | src/scoring/mod.rs:29-35 | with no prompts the Google set is alone and is emptied |
| Scoring.DistinctiveIdempotent | src/scoring/mod.rs:29-35 | deduplicating the result again changes nothing |
| Scoring.SharedIsCommon | src/scoring/mod.rs:32-35 | the family handed to `dedup_sets` has exactly the shared words as its common words |
| Scoring.BuildFamily | src/scoring/mod.rs:32 | the Google set first, then each ChatGPT set in the map's order |
| Scoring.ReadBack | src/scoring/mod.rs:32-35 | each deduplicated set goes back under its prompt name with its region |
| Scoring.DedupTranslations | src/scoring/mod.rs:29-35 | the in-place deduplication computes the distinctive Google and ChatGPT sets |
| Scoring.ChatgptWords | src/scoring/mod.rs:29-35 | the scored ChatGPT sets are keyed by the prompt names |
| Scoring.ScoredFrom | src/scoring/mod.rs:37-41 | the scores of a translation over a cache: the Google set's average under America and under Britain, and each ChatGPT set's average under its prompt's region |
| Scoring.ScoredFromExtends | src/scoring/mod.rs:24-44 | scores computed over a cache stay correct as the cache grows |
| Scoring.ScoringFails | src/scoring/mod.rs:37-41 | a failing lookup in one of the three scorings |
| Scoring.ChatgptFailsEarlier | src/scoring/mod.rs:54-67 | a ChatGPT lookup that fails later in a run would already have failed at its start |
| Scoring.ScoredNotFailing | src/scoring/mod.rs:24-44 | computed scores rule out any of their lookups having failed at the start |
| Scoring.FailsLater | src/scoring/mod.rs:47 | a lookup that fails at the start of a run still fails after it, since a failed key is never cached |
| Scoring.ChatgptFailsLater | src/scoring/mod.rs:54-67 | a ChatGPT lookup that fails at the start of a run still fails after it |
| Scoring.FailsSince | src/scoring/mod.rs:47 | whether some word's lookup fails is the same at any point of a run, both ways |
| Scoring.ChatgptFailsSince | src/scoring/mod.rs:54-67 | whether some ChatGPT lookup fails is the same at any point of a run, both ways |
| Scoring.ScoringFailsSince | src/scoring/mod.rs:24-44 | whether scoring a row's translations fails is the same at any point of a run, both ways |
| Scoring.ScoreTranslations | src/scoring/mod.rs:24-44 | on success the Google set is averaged under America and Britain and each ChatGPT set under its prompt's region; it fails exactly when some lookup of one of the three scorings fails; cached scores never change |
| Csv.Writer.constructor | src/output.rs:31 | a new writer has written nothing |
| Csv.Writer.WriteField | src/output.rs:47 | one more field in the open record |
| Csv.Writer.EndRecord | src/output.rs:100 | the open record is finished |
| Csv.Writer.WriteBlanks | src/output.rs:63-67 | `n` empty fields |
| Csv.Writer.WriteFields | src/output.rs:59-61 | every field in order |
| Csv.Blanks | src/output.rs:63-67 | exactly `n` fields, all empty |
| Output.ScoreColumns | src/output.rs:117-119 | each prompt name with `_score` appended, in order |
| Output.Header | src/output.rs:105-125 | the header has `2P + 5` fields for `P` prompts |
| Output.HeaderLayout | src/output.rs:105-125 | url, chinese_text, google, the prompt names, the two Google score columns, then the prompts' score columns |
| Output.ScoreField | src/output.rs:77-83 | NaN is written as an empty field, and with a non-empty decimal form only NaN is |
| Output.Texts | src/output.rs:59-61 | the ChatGPT translations in the map's order |
| Output.ScoreFields | src/output.rs:88-90 | the ChatGPT scores in the map's order |
| Output.TranslationBlock | src/output.rs:56-61 | the translation block has one field per prompt plus two |
| Output.ScoreBlock | src/output.rs:85-90 | the score block has one field per prompt plus two |
| Output.RowFields | src/output.rs:42-103 | every row starts with its URL |
| Output.MissingTranslationsBlank | src/output.rs:62-68 | a row without translations has `P + 2` empty fields after the URL |
| Output.TranslationsWritten | src/output.rs:49-61 | a row with translations holds the text, the Google translation and each ChatGPT translation after the URL |
| Output.MissingScoresBlank | src/output.rs:91-97 | a row without scores ends with `P + 2` empty fields after its translation block |
| Output.ScoresWritten | src/output.rs:70-90 | a row with scores ends with the US score, the UK score and each ChatGPT score |
| Output.RowMatchesHeader | src/output.rs:42-125 | a row whose maps hold one entry per prompt is as wide as the header |
| Output.WriteHeader | src/output.rs:105-125 | the header record is appended |
| Output.WriteScore | src/output.rs:77-83 | the score's field is written |
| Output.WriteRow | src/output.rs:42-103 | the row's record is appended |
| Output.WriteTranslationPart | src/output.rs:49-68 | the translation block or its blanks |
| Output.WriteScorePart | src/output.rs:70-97 | the score block or its blanks |
| Output.WriteTranslations | src/output.rs:56-61 | the translation block |
| Output.WriteScores | src/output.rs:85-90 | the score block |
| Output.RowRecords | src/output.rs:35-37 | one record per row, in row order |
| Output.Records | src/output.rs:30-40 | the header first, then the rows' records |
| Output.WriteCsv | src/output.rs:30-40 | a new writer ends with the header and then one record per row, in order |
| Output.WriteRows | src/output.rs:35-37 | the rows' records are appended in order |
| Output.RowRecordsStep | src/output.rs:35-37 | one more row appends its record |
| Output.RecordsRectangular | src/output.rs:30-125 | every record is as wide as the header when each row's maps have one entry per prompt |
| ScrapeBbc.FirstOccurrences | src/bin/scrape_bbc.rs:44-58 | the first occurrence of each URL in order; the `FirstOccurrences…` lemmas state it |
| ScrapeBbc.DedupUrls | src/bin/scrape_bbc.rs:44-58 | the first occurrence of each URL, in the original order |
| ScrapeBbc.FirstOccurrencesElements | src/bin/scrape_bbc.rs:44-58 | no URL is lost or invented |
| ScrapeBbc.FirstOccurrencesDistinct | src/bin/scrape_bbc.rs:44-58 | no URL appears twice in the result |
| ScrapeBbc.FirstOccurrencesShorter | src/bin/scrape_bbc.rs:44-58 | the result is never longer than the input |
| ScrapeBbc.FirstOccurrencesOfDistinct | src/bin/scrape_bbc.rs:44-58 | a list without repeats is kept as it is |
| ScrapeBbc.FirstOccurrencesIdempotent | src/bin/scrape_bbc.rs:44-58 | deduplicating twice is deduplicating once |
| ScrapeBbc.ParseUsize | src/bin/scrape_bbc.rs:68 | `parse::<usize>`: an optional `+` and then only decimal digits, with a value that fits a 64-bit `usize` |
| ScrapeBbc.ShowNat | src/bin/scrape_bbc.rs:80 | a number is written as a non-empty string of digits |
| ScrapeBbc.ShowNatValue | src/bin/scrape_bbc.rs:80 | the digits written for a number have that number as their value |
| ScrapeBbc.ParseShowNat | src/bin/scrape_bbc.rs:68-80 | parsing a written page number gives the number back |
| ScrapeBbc.ShowNatInjective | src/bin/scrape_bbc.rs:80 | different numbers are written differently |
| ScrapeBbc.ParseLine | src/bin/scrape_bbc.rs:64-70 | a topic line gives its first space-separated word and a number that fits `usize`, or nothing where the source panics |
| ScrapeBbc.ParseFormatLine | src/bin/scrape_bbc.rs:64-70 | a line written as `url pages` reads back as that topic |
| ScrapeBbc.ParseLines | src/bin/scrape_bbc.rs:62-72 | one topic per line, or nothing exactly when some line does not parse |
| ScrapeBbc.LoadUrls | src/bin/scrape_bbc.rs:60-75 | one topic per line of the file |
| ScrapeBbc.FormatLines | src/bin/scrape_bbc.rs:64-70 | one `url pages` line per topic |
| ScrapeBbc.ParseFormattedLines | src/bin/scrape_bbc.rs:62-72 | formatted topic lines parse back to the topics |
| ScrapeBbc.LoadFormattedTopics | src/bin/scrape_bbc.rs:60-75 | a topics file written one `url pages` line per topic loads back as those topics |
| ScrapeBbc.PageUrls | src/bin/scrape_bbc.rs:77-80 | a topic with `n` pages gives `n` page URLs |
| ScrapeBbc.PageUrlNumber | src/bin/scrape_bbc.rs:78-80 | the `i`-th URL is the topic, `?page=`, and page number `i + 1` |
| ScrapeBbc.PageUrlsDistinct | src/bin/scrape_bbc.rs:78-80 | no page is requested twice |
| ScrapeBbc.Gather | src/bin/scrape_bbc.rs:78-86 | the pages fetched in order and their articles concatenated, or the first fetch error |
| ScrapeBbc.ScrapeTopic | src/bin/scrape_bbc.rs:77-86 | `scrape_topic`: `Gather` over the topic's page URLs |
| ScrapeBbc.GatherOk | src/bin/scrape_bbc.rs:78-86 | a topic is scraped exactly when every page is fetched |
| ScrapeBbc.GatherConcatenates | src/bin/scrape_bbc.rs:78-86 | the articles of the pages are concatenated in page order |
| ScrapeBbc.ScrapeAll | src/bin/scrape_bbc.rs:29-35 | the run fails with the first failing topic's error, or yields the scraped URLs without repeats |
| ScrapeBbc.ScrapeTopics | src/bin/scrape_bbc.rs:29-33 | the topics are scraped in order up to the first failure |
| ScrapeBbc.Scraped | src/bin/scrape_bbc.rs:29-33 | the first failing topic's error, or every topic's URLs concatenated in order |
| ScrapeBbc.ScrapedFailure | src/bin/scrape_bbc.rs:29-33 | once a topic fails, later topics cannot change the outcome |
| ScrapeBbc.ScrapedOk | src/bin/scrape_bbc.rs:29-33 | the run succeeds exactly when every topic does |
| ScoreUrls.Translated | src/bin/score_urls.rs:91-98 | the page description is found and every translation call succeeds |
| ScoreUrls.TranslationOf | src/bin/score_urls.rs:96 | the translations of the page description |
| ScoreUrls.RowFor | src/bin/score_urls.rs:84-109 | a row carries its URL, has translations exactly when `Translated`, and any scores are its translations' averages |
| ScoreUrls.RowForExtends | src/bin/score_urls.rs:71-76 | a finished row stays correct while later rows grow the cache |
| ScoreUrls.RowForWidth | src/bin/score_urls.rs:84-109 | a row's translations and scores are keyed by exactly the prompt names |
| ScoreUrls.ProcessRow | src/bin/score_urls.rs:84-109 | never fails; the row has translations exactly when the page and every translation call succeed; a translated row lacks scores exactly when some lookup of its scoring fails, and any scores are its translations' averages; the cache and table change only as a run of lookups (`Since`) allows |
| ScoreUrls.ProcessUrls | src/bin/score_urls.rs:71-76 | one row per URL, in input order, each correct for its URL; a translated row lacks scores exactly when its scoring fails against the cache and table the batch started from |
| ScoreUrls.RowsStep | src/bin/score_urls.rs:71-76 | adding a row keeps the earlier rows correct |
| ScoreUrls.ScoresStep | src/bin/score_urls.rs:71-76 | a row whose scoring was decided partway through the batch agrees with the batch's start, as the earlier rows do |
| ScoreUrls.Taken | src/bin/score_urls.rs:73 | only a prefix is processed: the first `limit` URLs, or all of them without a limit |
| ScoreUrls.FunctionWords | src/bin/score_urls.rs:59-63 | no function words without a path, otherwise exactly the file's lines |
| ScoreUrls.RowOrders | src/bin/score_urls.rs:79 | one key order per row for each of its maps |
| ScoreUrls.Run | src/bin/score_urls.rs:58-79 | row `i` is the row of processed URL `i` over the final cache, which extends the cache primed from the database; a translated row lacks scores exactly when its scoring fails against that database; the file's records are exactly the header and the rows' records (`Records`), each as wide as the header, record `i + 1` starting with URL `i` |
| Analyze.Z | src/bin/analyze.rs:114-120 | `z_score`: the difference of the means over the square root of the summed variances divided by `n`; `ZAntisymmetric` and `ZDiagonal` state it |
| Analyze.ZAntisymmetric | src/bin/analyze.rs:114-120 | swapping the columns negates z |
| Analyze.ZDiagonal | src/bin/analyze.rs:114-120 | a column against itself gives 0, or NaN exactly when the denominator is 0 |
| Analyze.PValue | src/bin/analyze.rs:109-112 | the CDF at minus the absolute value of z |
| Analyze.PValueEven | src/bin/analyze.rs:109-112 | the p-value depends only on the absolute value of z |
| Analyze.PValueSymmetric | src/bin/analyze.rs:109-120 | both orders of a pair have the same p-value |
| Analyze.ZMatrix | src/bin/analyze.rs:71-79 | an 8 by 8 matrix, diagonal included, of the pairs' z values |
| Analyze.PMatrix | src/bin/analyze.rs:86-97 | an 8 by 8 matrix of the p-values of those z values |
| Analyze.ZMatrixAntisymmetric | src/bin/analyze.rs:71-79 | the z matrix is antisymmetric, with 0 or NaN on the diagonal |
| Analyze.PMatrixSymmetric | src/bin/analyze.rs:86-97 | the p matrix is symmetric |
| Analyze.Flagged | src/bin/analyze.rs:56-65 | distinct columns, neither containing "google", and \|z\| > 2 |
| Analyze.RowFlags | src/bin/analyze.rs:55-68 | the printed lines of one column, in column order |
| Analyze.Flags | src/bin/analyze.rs:54-69 | the printed lines of every column, in row-major order |
| Analyze.RowFlagsSound | src/bin/analyze.rs:55-68 | every line printed for one column is a flagged pair with its z |
| Analyze.RowFlagsComplete | src/bin/analyze.rs:55-68 | every flagged pair starting at that column is printed |
| Analyze.FlagsSound | src/bin/analyze.rs:54-69 | a printed pair has distinct columns, neither naming "google", and \|z\| > 2 |
| Analyze.FlagsComplete | src/bin/analyze.rs:54-69 | every such pair is printed |
| Analyze.GoogleNeverFlagged | src/bin/analyze.rs:60-62 | the two Google columns never appear in a printed line |
| Analyze.FlagPairs | src/bin/analyze.rs:54-69 | the nested loop prints the flagged pairs in row-major order |
| Analyze.Cells | src/bin/analyze.rs:140-142 | each cell written in its `Display` form |
| Analyze.TableRows | src/bin/analyze.rs:137-145 | record `i` is the name of column `i` followed by row `i`'s cells |
| Analyze.Table | src/bin/analyze.rs:127-148 | an empty corner and the column names, then the data rows |
| Analyze.TableWidth | src/bin/analyze.rs:127-148 | a square table gives records of one field more than there are columns |
| Analyze.TableRecord | src/bin/analyze.rs:137-145 | record `i + 1` starts with column `i`'s name, followed by its cells |
| Analyze.WriteCells | src/bin/analyze.rs:140-142 | the row's cells are written in order |
| Analyze.WriteTableHeader | src/bin/analyze.rs:130-135 | the header record is appended |
| Analyze.WriteTableRow | src/bin/analyze.rs:137-145 | one data record is appended |
| Analyze.WriteTable | src/bin/analyze.rs:127-148 | a new writer ends with exactly the table's records |
| Analyze.Analyze | src/bin/analyze.rs:54-102 | the flags, then the z table and the p table, each with nine records |

## Left out

- Concurrency. This covers `try_join_all`, tokio tasks and `spawn_blocking`. The cache's single-flight `or_try_insert_with` is modelled as sequential calls. The guarantee that concurrent callers share one fetch cannot be stated in a sequential model. `LookupTwice` states its sequential form.
- Transient failures, such as a pool time-out or a rate-limited request that would succeed a moment later. Every oracle answers the same request the same way throughout a run.
- The cache's capacity of 10,000,000 entries and its eviction.
- The rate limiters in src/rate_limiter.rs: they only delay requests.
- HTTP, HTML parsing (`articles`, `description_of_page`), the Google Translate client, JSON decoding and the environment variables. Each is an oracle or a parameter.
- SQLite is a sequence of rows, with read and write failures as oracles. The `CREATE TABLE` script is not part of this model.
- File, console and command-line I/O: reading the input files, progress bars, `println!`, creating output files.
- The polars data-frame work in src/bin/analyze.rs:22-52 (means, sample deviations, `analysis.csv`) is abstracted. The means and deviations are a given `Summary` of real numbers.
- `Analyze.Z`: does not model NaN inputs.
- `Analyze.Z`: the square root is an abstract parameter.
- `Analyze.PValue`: the standard normal CDF is an abstract parameter.
- `Display` of a finite `f64` is an abstract parameter `show`, so the decimal text itself is not modelled.
- CSV quoting, escaping and bytes: a file is its sequence of records.
- Floating-point rounding: finite arithmetic is exact. The sum in `score_words` is therefore independent of the order of the words.
- The order of a `HashMap`'s keys is given as data. Nothing ties the ChatGPT columns of a row to the header's prompt order; the source does not ensure it either.
- Unicode: letters are the ASCII letters and lowercasing is ASCII-only. Whitespace is the Unicode `White_Space` set.
- The test at src/scoring/tokens.rs:41-51 expects "foo123", "234" and "345" to be kept. The filter at line 22 drops them. The model follows the filter.
- `dedup_sets` follows the code: the true intersection is removed from every set, so a single set is emptied (`DedupedSingle`).
- `usize` is 64 bits wide.
- `ScoreUrls.Taken`: with no limit, `take(usize::MAX)` is stated to keep all URLs only for lists of at most `usize::MAX` entries, which every real list is.
- `Scoring.ScoreTranslations`: states the table's growth only through `TrendCache.Since`: rows are only appended, each under a key that is now cached. `TrendCache.Trends.Score` states the table row by row.
- `Scoring.ScoreWords` and `Scoring.ScoreChatgpt`: the error message is not tied to a particular failing word; the contract states only that some uncached word's lookup fails. The source's `try_join_all` returns whichever failure comes first.
- `Chatgpt.AskChatgpt`: the endless retry loop is modelled over a finite series of attempts. A series that only retries ends as `StillRetrying`.
- The split of a ChatGPT reply into the translation's words is `extract`; no separate single-word extraction is modelled.
- `Csv.Writer.EndRecord`: never fails. The source's `csv::Writer` (src/output.rs:31) is not flexible: `write_record` returns an unequal-lengths error when a record's width differs from the first record's. This model does not produce that error.
- `Output.WriteCsv`: on rows whose ChatGPT maps do not hold one entry per prompt, it returns records of different widths where `write_csv` would fail with that unequal-lengths error. `Output.RecordsRectangular` shows that the rows `ScoreUrls.Run` produces are never such rows.
- `ScoreUrls.ProcessRow`: `ensures r.Ok?` holds only for runs without a fatal ChatGPT code. The ChatGPT oracle of `Services` returns only a reply or an error. In the source, a code outside 500-599 panics (src/translate/chatgpt.rs:39), which ends the whole run through `try_join_all` in `main`, and no CSV is written. An endless run of 5xx responses never returns. `Chatgpt.Settle` models both cases, as `Aborted` and `StillRetrying`, but `Translate.Translate` does not use them.
