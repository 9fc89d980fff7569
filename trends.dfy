/**
 * The trend score cache: an in-memory map from (word, region) to a Google Trends score,
 * primed at start-up from an append-only database table and filled on a miss from the
 * table or, failing that, from one request to the Trends API that is then stored.
 *
 * The database is the sequence of its rows, the network is the `Upstream` oracle, and
 * calls are sequential: the concurrent single-flight behaviour of the in-memory cache
 * and its 10,000,000-entry capacity are not modelled.
 */
module TrendCache {
  import opened Wrappers
  import opened Regions

  datatype ScoreKey = ScoreKey(word: string, region: Region)

  /** A row of the `trends` table; the region column holds the region's text code. */
  datatype Row = Row(text: string, region: string, score: real)

  /** What a Trends API request answers once decoded: score lines, or an error body. */
  datatype TrendsReply = Lines(lines: seq<seq<real>>) | ErrorBody(body: string)

  /**
   * The world outside the process: the `GCLOUD_KEY` secret, whether a database read or
   * write for a key succeeds, and what the Trends API answers for a URL (`Err` for a
   * transport or decoding failure).
   */
  datatype Upstream = Upstream(
    secret: string,
    readOk: ScoreKey -> bool,
    http: string -> Result<TrendsReply>,
    writeOk: ScoreKey -> bool)

  /** Accesses to the database and to the network, in the order they happen. */
  datatype Access = DbRead(key: ScoreKey) | Fetch(key: ScoreKey) | DbWrite(key: ScoreKey)

  /**
   * A reply whose first line is missing or has no points makes the fetch panic
   * (`lines[0]`, `last().unwrap()`); the model only covers upstreams that never send one.
   */
  ghost predicate WellFormed(up: Upstream)
  {
    forall url :: up.http(url).Ok? ==> Usable(up.http(url).value)
  }

  predicate Usable(reply: TrendsReply)
  {
    reply.Lines? ==> |reply.lines| > 0 && |reply.lines[0]| > 0
  }

  /** The row is stored under key `k`. */
  predicate Matches(row: Row, k: ScoreKey)
  {
    row.text == k.word && row.region == ToStr(k.region)
  }

  /** Every row's region column decodes; loading the table unwraps the decoded region. */
  predicate Readable(db: seq<Row>)
  {
    forall i :: 0 <= i < |db| ==> FromStr(db[i].region).Some?
  }

  function KeyOf(row: Row): (k: ScoreKey)
    requires FromStr(row.region).Some?
    ensures Matches(row, k)
    ensures forall k' :: Matches(row, k') ==> k' == k
  {
    ToStrFromStr(row.region);
    forall k' | Matches(row, k') ensures k' == ScoreKey(row.text, FromStr(row.region).value) {
      FromStrToStr(k'.region);
    }
    ScoreKey(row.text, FromStr(row.region).value)
  }

  /** `SELECT * FROM trends WHERE text = ? AND region = ?`, first row: the first score stored for `k`. */
  function FirstMatch(db: seq<Row>, k: ScoreKey): (r: Option<real>)
    ensures r.None? <==> forall i :: 0 <= i < |db| ==> !Matches(db[i], k)
    ensures r.Some? ==> exists i :: (0 <= i < |db| && Matches(db[i], k) && db[i].score == r.value
      && forall j :: 0 <= j < i ==> !Matches(db[j], k))
  {
    if db == [] then None
    else if Matches(db[0], k) then Some(db[0].score)
    else
      var r := FirstMatch(db[1..], k);
      assert forall i :: 1 <= i < |db| ==> db[i] == db[1..][i - 1];
      r
  }

  /** No two rows are stored under the same key. */
  predicate DistinctKeys(db: seq<Row>)
  {
    forall i, j :: 0 <= i < j < |db| ==> db[i].text != db[j].text || db[i].region != db[j].region
  }

  /** The cache `new` builds: every row inserted in table order, so a later row overwrites an earlier one. */
  function Prime(rows: seq<Row>): (m: map<ScoreKey, real>)
    requires Readable(rows)
  {
    if rows == [] then map[]
    else
      var last := rows[|rows| - 1];
      Prime(rows[..|rows| - 1])[KeyOf(last) := last.score]
  }

  /** The primed cache holds exactly the keys of the table. */
  lemma {:induction false} PrimeKeys(rows: seq<Row>, k: ScoreKey)
    requires Readable(rows)
    ensures k in Prime(rows) <==> exists i :: 0 <= i < |rows| && Matches(rows[i], k)
  {
    if rows != [] {
      var init := rows[..|rows| - 1];
      PrimeKeys(init, k);
      if exists i :: 0 <= i < |rows| && Matches(rows[i], k) {
        var i :| 0 <= i < |rows| && Matches(rows[i], k);
        if i < |rows| - 1 {
          assert Matches(init[i], k);
        }
      }
    }
  }

  /** For a key stored more than once, the primed cache holds the score of its last row. */
  lemma {:induction false} PrimeLastWins(rows: seq<Row>, k: ScoreKey, i: int)
    requires Readable(rows)
    requires 0 <= i < |rows| && Matches(rows[i], k)
    requires forall j :: i < j < |rows| ==> !Matches(rows[j], k)
    ensures k in Prime(rows) && Prime(rows)[k] == rows[i].score
  {
    var last := rows[|rows| - 1];
    if i < |rows| - 1 {
      var init := rows[..|rows| - 1];
      assert KeyOf(last) != k;
      PrimeLastWins(init, k, i);
    }
  }

  /** Every cached score is the score of some row stored under its key. */
  predicate Consistent(cache: map<ScoreKey, real>, db: seq<Row>)
  {
    forall k :: k in cache ==> StoredAs(db, k, cache[k])
  }

  /** Some row of `db` holds `score` under key `k`. */
  predicate StoredAs(db: seq<Row>, k: ScoreKey, score: real)
  {
    exists i :: 0 <= i < |db| && Matches(db[i], k) && db[i].score == score
  }

  lemma {:induction false} PrimeConsistent(rows: seq<Row>)
    requires Readable(rows)
    ensures Consistent(Prime(rows), rows)
  {
    if rows != [] {
      var init := rows[..|rows| - 1];
      PrimeConsistent(init);
      var last := rows[|rows| - 1];
      forall k | k in Prime(rows)
        ensures exists i :: 0 <= i < |rows| && Matches(rows[i], k) && rows[i].score == Prime(rows)[k]
      {
        if k != KeyOf(last) {
          var i :| 0 <= i < |init| && Matches(init[i], k) && init[i].score == Prime(init)[k];
          assert rows[i] == init[i];
        } else {
          assert Matches(rows[|rows| - 1], k);
        }
      }
    }
  }

  /**
   * Durability: a cache consistent with the table loses nothing on a restart, since the
   * cache primed from the table holds every key it held; when the table stores each key
   * once, the primed cache also holds the same scores.
   */
  lemma RestartKeepsScores(cache: map<ScoreKey, real>, db: seq<Row>, k: ScoreKey)
    requires Readable(db) && Consistent(cache, db) && k in cache
    ensures k in Prime(db)
    ensures DistinctKeys(db) ==> Prime(db)[k] == cache[k]
  {
    var i :| 0 <= i < |db| && Matches(db[i], k) && db[i].score == cache[k];
    PrimeKeys(db, k);
    if DistinctKeys(db) {
      PrimeLastWins(db, k, i);
    }
  }

  /** The `restrictions_geo` code of a region. */
  function GeoCode(region: Region): (geo: string)
    ensures |geo| == 2
    ensures geo == "GB" <==> region == Britain
    ensures geo == "US" <==> region == America
  {
    match region
    case Britain => "GB"
    case America => "US"
  }

  /** The Trends API request for a word in a region. */
  function TrendsUrl(word: string, region: Region, secret: string): string
  {
    "https://www.googleapis.com/trends/v1beta/graph?terms=" + word + "&key=" + secret
      + "&restrictions_geo=" + GeoCode(region)
  }

  /** The request ends in the region's geo code, so the two regions never share a request. */
  lemma TrendsUrlGeo(word: string, region: Region, secret: string)
    ensures var url := TrendsUrl(word, region, secret);
      |url| >= 2 && url[|url| - 2..] == GeoCode(region)
  {
  }

  /** The score a reply carries: the last point of its first line; an error body is an error. */
  function ScoreFromReply(reply: TrendsReply): (r: Result<real>)
    requires Usable(reply)
    ensures r.Ok? <==> reply.Lines?
    ensures r.Ok? ==> var first := reply.lines[0]; r.value == first[|first| - 1]
  {
    match reply
    case Lines(lines) => Ok(lines[0][|lines[0]| - 1])
    case ErrorBody(body) => Err(body)
  }

  /** `fetch_score_from_trends`: one request, then the score of the reply. */
  function FetchScore(k: ScoreKey, up: Upstream): (r: Result<real>)
    requires WellFormed(up)
  {
    match up.http(TrendsUrl(k.word, k.region, up.secret))
    case Err(e) => Err(e)
    case Ok(reply) => ScoreFromReply(reply)
  }

  /** The row `store_score_to_db` inserts. */
  function StoredRow(k: ScoreKey, score: real): (row: Row)
    ensures Matches(row, k) && row.score == score
  {
    Row(k.word, ToStr(k.region), score)
  }

  /** The result of a lookup that misses the cache: `get_score_and_cache`. */
  function MissResult(db: seq<Row>, k: ScoreKey, up: Upstream): Result<real>
    requires WellFormed(up)
  {
    if !up.readOk(k) then Err("database read failed")
    else match FirstMatch(db, k)
      case Some(score) => Ok(score)
      case None =>
        match FetchScore(k, up)
        case Err(e) => Err(e)
        case Ok(score) => if up.writeOk(k) then Ok(score) else Err("database write failed")
  }

  /** The database and network accesses of a lookup that misses the cache, in order. */
  function MissAccesses(db: seq<Row>, k: ScoreKey, up: Upstream): seq<Access>
    requires WellFormed(up)
  {
    if !up.readOk(k) || FirstMatch(db, k).Some? then [DbRead(k)]
    else if FetchScore(k, up).Err? then [DbRead(k), Fetch(k)]
    else [DbRead(k), Fetch(k), DbWrite(k)]
  }

  /** Whether a lookup that misses the cache appends a row: it read nothing, fetched a score and stored it. */
  predicate Appends(db: seq<Row>, k: ScoreKey, up: Upstream)
    requires WellFormed(up)
  {
    up.readOk(k) && FirstMatch(db, k).None? && FetchScore(k, up).Ok? && up.writeOk(k)
  }

  /** A miss succeeds with a fetched score exactly when it appends that score's row. */
  lemma MissAppendsIffFetched(db: seq<Row>, k: ScoreKey, up: Upstream)
    requires WellFormed(up)
    ensures Appends(db, k, up) <==> MissResult(db, k, up).Ok? && FirstMatch(db, k).None?
    ensures Appends(db, k, up) ==> MissResult(db, k, up) == FetchScore(k, up)
    ensures Fetch(k) in MissAccesses(db, k, up) <==> up.readOk(k) && FirstMatch(db, k).None?
  {
  }

  class Trends {
    var cache: map<ScoreKey, real>
    var db: seq<Row>
    ghost var log: seq<Access>

    ghost predicate Valid()
      reads this
    {
      Readable(db) && Consistent(cache, db)
    }

    /**
     * `Trends::new`: loads every row and inserts it into the cache in table order. A row
     * whose region column does not decode makes the start-up panic.
     */
    constructor (rows: seq<Row>)
      requires Readable(rows)
      ensures Valid()
      ensures db == rows && cache == Prime(rows) && log == []
    {
      var primed := map[];
      var i := 0;
      while i < |rows|
        invariant 0 <= i <= |rows|
        invariant primed == Prime(rows[..i])
      {
        var row := rows[i];
        primed := primed[ScoreKey(row.text, FromStr(row.region).value) := row.score];
        i := i + 1;
        assert rows[..i][..i - 1] == rows[..i - 1];
      }
      assert rows[..|rows|] == rows;
      PrimeConsistent(rows);
      cache := primed;
      db := rows;
      log := [];
    }

    /** `load_score_from_db`: the first stored score for `k`, if the read succeeds. */
    method LoadScoreFromDb(k: ScoreKey, up: Upstream) returns (r: Result<Option<real>>)
      modifies this`log
      ensures log == old(log) + [DbRead(k)]
      ensures up.readOk(k) ==> r == Ok(FirstMatch(db, k))
      ensures !up.readOk(k) ==> r == Err("database read failed")
    {
      log := log + [DbRead(k)];
      if up.readOk(k) {
        r := Ok(FirstMatch(db, k));
      } else {
        r := Err("database read failed");
      }
    }

    /** `store_score_to_db`: appends one row; the table is never updated or deleted from. */
    method StoreScoreToDb(k: ScoreKey, score: real, up: Upstream) returns (r: Result<()>)
      modifies this`db, this`log
      ensures log == old(log) + [DbWrite(k)]
      ensures up.writeOk(k) ==> r.Ok? && db == old(db) + [StoredRow(k, score)]
      ensures !up.writeOk(k) ==> r == Err("database write failed") && db == old(db)
    {
      log := log + [DbWrite(k)];
      if up.writeOk(k) {
        db := db + [StoredRow(k, score)];
        r := Ok(());
      } else {
        r := Err("database write failed");
      }
    }

    /** `get_score_and_cache`: the table first; otherwise one fetch, stored before it is returned. */
    method GetScoreAndCache(k: ScoreKey, up: Upstream) returns (r: Result<real>)
      requires WellFormed(up)
      modifies this`db, this`log
      ensures r == MissResult(old(db), k, up)
      ensures log == old(log) + MissAccesses(old(db), k, up)
      ensures db == if Appends(old(db), k, up) then old(db) + [StoredRow(k, r.value)] else old(db)
    {
      var loaded := LoadScoreFromDb(k, up);
      if loaded.Err? {
        return Err(loaded.error);
      }
      if loaded.value.Some? {
        return Ok(loaded.value.value);
      }
      log := log + [Fetch(k)];
      var fetched := FetchScore(k, up);
      if fetched.Err? {
        return Err(fetched.error);
      }
      var stored := StoreScoreToDb(k, fetched.value, up);
      if stored.Err? {
        return Err(stored.error);
      }
      return Ok(fetched.value);
    }

    /**
     * `score`: a cached key is answered from memory without touching the database or the
     * network; a miss is resolved by `GetScoreAndCache` and, only if that succeeds,
     * inserted into the cache. Failures are never cached.
     */
    method Score(word: string, region: Region, up: Upstream) returns (r: Result<real>)
      requires Valid() && WellFormed(up)
      modifies this
      ensures Valid()
      ensures ScoreKey(word, region) in old(cache) ==>
        r == Ok(old(cache)[ScoreKey(word, region)]) && cache == old(cache) && db == old(db) && log == old(log)
      ensures ScoreKey(word, region) !in old(cache) ==>
        r == MissResult(old(db), ScoreKey(word, region), up)
        && log == old(log) + MissAccesses(old(db), ScoreKey(word, region), up)
      ensures ScoreKey(word, region) !in old(cache) && r.Ok? ==> cache == old(cache)[ScoreKey(word, region) := r.value]
      ensures r.Err? ==> cache == old(cache) && db == old(db)
      ensures r.Ok? ==> ScoreKey(word, region) in cache && cache[ScoreKey(word, region)] == r.value
      ensures db == if ScoreKey(word, region) !in old(cache) && Appends(old(db), ScoreKey(word, region), up)
        then old(db) + [StoredRow(ScoreKey(word, region), r.value)] else old(db)
      ensures forall k :: k in old(cache) ==> k in cache && cache[k] == old(cache)[k]
      ensures DistinctKeys(old(db)) ==> DistinctKeys(db)
    {
      var k := ScoreKey(word, region);
      if k in cache {
        return Ok(cache[k]);
      }
      r := Miss(k, up);
    }

    /** The miss branch of `score`: resolve the key, and cache the score only on success. */
    method Miss(k: ScoreKey, up: Upstream) returns (r: Result<real>)
      requires Valid() && WellFormed(up) && k !in cache
      modifies this
      ensures Valid()
      ensures r == MissResult(old(db), k, up) && log == old(log) + MissAccesses(old(db), k, up)
      ensures cache == if r.Ok? then old(cache)[k := r.value] else old(cache)
      ensures db == if Appends(old(db), k, up) then old(db) + [StoredRow(k, r.value)] else old(db)
      ensures r.Err? ==> db == old(db)
      ensures DistinctKeys(old(db)) ==> DistinctKeys(db)
    {
      ghost var db0 := db;
      r := GetScoreAndCache(k, up);
      if r.Ok? {
        AfterMiss(cache, db0, db, k, r.value, up);
        cache := cache[k := r.value];
      } else {
        assert !Appends(db0, k, up) by { MissAppendsIffFetched(db0, k, up); }
      }
    }
  }

  /** A successful miss keeps the cache consistent with the table, and the table free of repeated keys. */
  lemma AfterMiss(cache: map<ScoreKey, real>, db0: seq<Row>, db: seq<Row>, k: ScoreKey, v: real, up: Upstream)
    requires WellFormed(up) && Readable(db0) && Consistent(cache, db0)
    requires MissResult(db0, k, up) == Ok(v)
    requires db == if Appends(db0, k, up) then db0 + [StoredRow(k, v)] else db0
    ensures Readable(db) && Consistent(cache[k := v], db)
    ensures DistinctKeys(db0) ==> DistinctKeys(db)
  {
    if Appends(db0, k, up) {
      FromStrToStr(k.region);
      assert Matches(db[|db0|], k) && db[|db0|].score == v;
      forall k' | k' in cache && k' != k
        ensures exists i :: 0 <= i < |db| && Matches(db[i], k') && db[i].score == cache[k']
      {
        var i :| 0 <= i < |db0| && Matches(db0[i], k') && db0[i].score == cache[k'];
        assert db[i] == db0[i];
      }
      if DistinctKeys(db0) {
        forall i, j | 0 <= i < j < |db| ensures db[i].text != db[j].text || db[i].region != db[j].region {
          if j == |db0| {
            assert db[i] == db0[i];
            assert !Matches(db0[i], k);
          }
        }
      }
    }
  }

  /** Rows added after `db0` that are not stored under `k` do not change what a read of `k` finds. */
  lemma {:induction false} FirstMatchAppend(db0: seq<Row>, tail: seq<Row>, k: ScoreKey)
    requires forall i :: 0 <= i < |tail| ==> !Matches(tail[i], k)
    ensures FirstMatch(db0 + tail, k) == FirstMatch(db0, k)
    decreases |db0|
  {
    if db0 == [] {
      assert db0 + tail == tail;
    } else {
      assert (db0 + tail)[0] == db0[0];
      assert (db0 + tail)[1..] == db0[1..] + tail;
      FirstMatchAppend(db0[1..], tail, k);
    }
  }

  /**
   * What a run of lookups leaves behind, seen from the state (`cache0`, `db0`) it
   * started in: the cache only grew, every key it gained holds the score a miss
   * against `db0` gives, and the table only gained rows whose keys are now cached.
   */
  ghost predicate Since(cache0: map<ScoreKey, real>, db0: seq<Row>, cache: map<ScoreKey, real>, db: seq<Row>,
                        up: Upstream)
  {
    && WellFormed(up)
    && (forall k :: k in cache0 ==> k in cache && cache[k] == cache0[k])
    && (forall k :: k in cache && k !in cache0 ==> MissResult(db0, k, up) == Ok(cache[k]))
    && |db0| <= |db| && db[..|db0|] == db0
    && (forall i, k :: |db0| <= i < |db| && Matches(db[i], k) ==> k in cache)
  }

  /** Nothing has happened yet. */
  lemma SinceStart(cache: map<ScoreKey, real>, db: seq<Row>, up: Upstream)
    requires WellFormed(up)
    ensures Since(cache, db, cache, db, up)
  {
    assert db[..|db|] == db;
  }

  /** A key that is still not cached misses exactly as it would have at the start. */
  lemma SinceMiss(cache0: map<ScoreKey, real>, db0: seq<Row>, cache: map<ScoreKey, real>, db: seq<Row>,
                  k: ScoreKey, up: Upstream)
    requires Since(cache0, db0, cache, db, up) && k !in cache
    ensures MissResult(db, k, up) == MissResult(db0, k, up)
  {
    var tail := db[|db0|..];
    assert db == db0 + tail;
    forall i | 0 <= i < |tail| ensures !Matches(tail[i], k) {
      assert tail[i] == db[|db0| + i];
    }
    FirstMatchAppend(db0, tail, k);
  }

  /** Two runs of lookups, one after the other, are one run. */
  lemma SinceTransitive(cache0: map<ScoreKey, real>, db0: seq<Row>, cache1: map<ScoreKey, real>, db1: seq<Row>,
                        cache2: map<ScoreKey, real>, db2: seq<Row>, up: Upstream)
    requires Since(cache0, db0, cache1, db1, up) && Since(cache1, db1, cache2, db2, up)
    ensures Since(cache0, db0, cache2, db2, up)
  {
    forall k | k in cache2 && k !in cache0 ensures MissResult(db0, k, up) == Ok(cache2[k]) {
      if k !in cache1 {
        SinceMiss(cache0, db0, cache1, db1, k, up);
      }
    }
    assert db2[..|db0|] == db2[..|db1|][..|db0|];
    forall i, k | |db0| <= i < |db2| && Matches(db2[i], k) ensures k in cache2 {
      if i < |db1| {
        assert db2[i] == db1[i];
      }
    }
  }

  /** One `score` call: the cache and the table change only as a miss of that key allows. */
  lemma SinceScore(cache0: map<ScoreKey, real>, db0: seq<Row>, cache: map<ScoreKey, real>, db: seq<Row>,
                   k: ScoreKey, r: Result<real>, up: Upstream)
    requires WellFormed(up)
    requires k in cache0 ==> cache == cache0 && db == db0
    requires k !in cache0 ==> r == MissResult(db0, k, up)
    requires r.Err? ==> cache == cache0 && db == db0
    requires k !in cache0 && r.Ok? ==> cache == cache0[k := r.value]
    requires db == if k !in cache0 && Appends(db0, k, up) then db0 + [StoredRow(k, r.value)] else db0
    ensures Since(cache0, db0, cache, db, up)
  {
    if cache == cache0 && db == db0 {
      SinceStart(cache0, db0, up);
    } else {
      assert k !in cache0 && r.Ok?;
      assert db[..|db0|] == db0;
      forall i, k' | |db0| <= i < |db| && Matches(db[i], k') ensures k' in cache {
        FromStrToStr(k.region);
        FromStrToStr(k'.region);
      }
    }
  }

  /**
   * Sequential single-flight: once a lookup has succeeded, the same lookup is answered
   * from the cache with the same score and no further database or network access.
   */
  method LookupTwice(t: Trends, word: string, region: Region, up: Upstream)
    returns (first: Result<real>, second: Result<real>)
    requires t.Valid() && WellFormed(up)
    modifies t
    ensures first.Ok? ==> second == first
    ensures var k := ScoreKey(word, region);
      first.Ok? ==> t.log == old(t.log) + (if k in old(t.cache) then [] else MissAccesses(old(t.db), k, up))
  {
    first := t.Score(word, region, up);
    ghost var mid := t.log;
    second := t.Score(word, region, up);
    if first.Ok? {
      assert t.log == mid;
    }
  }
}
