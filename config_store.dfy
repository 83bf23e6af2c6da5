/**
 * The strategy configuration table of the web backend: one row per key, the
 * key being unique, so the table is a map from key to its stored text. Two
 * writers are modelled: the background task that upserts one key, and the
 * management command that inserts the five default keys when they are missing.
 */
module StrategyConfigStore {
  import opened Common

  type Table = map<string, string>

  /** The default rows of the initialisation command, in the order it writes them. */
  const DefaultConfig: seq<(string, string)> := [
    ("risk_factor", "1.0"),
    ("position_size_limit", "0.1"),
    ("confidence_threshold", "0.7"),
    ("max_drawdown_limit", "0.05"),
    ("volatility_multiplier", "1.0")
  ]

  /**
   * The rows the initialisation loop gets through: every row up to the first
   * one whose database call fails (failsAt), or all of them when none fails.
   */
  function Reached(defaults: seq<(string, string)>, failsAt: nat): seq<(string, string)>
  {
    defaults[..if failsAt < |defaults| then failsAt else |defaults|]
  }

  /** Insert-or-update of one key: the meaning of get_or_create followed by save. */
  function Upsert(t: Table, key: string, value: string): (r: Table)
    ensures key in r && r[key] == value
    ensures r.Keys == t.Keys + {key}
  {
    t[key := value]
  }

  /** get_or_create with a default and nothing else: an existing row is left alone. */
  function InsertIfMissing(t: Table, key: string, value: string): (r: Table)
    ensures key in t ==> r == t
    ensures key !in t ==> key in r && r[key] == value && r.Keys == t.Keys + {key}
  {
    if key in t then t else t[key := value]
  }

  /** The initialisation command's loop over its default rows, as a fold. */
  function InitDefaults(t: Table, defaults: seq<(string, string)>): (r: Table)
    ensures t.Keys <= r.Keys
    decreases |defaults|
  {
    if defaults == [] then t
    else InitDefaults(InsertIfMissing(t, defaults[0].0, defaults[0].1), defaults[1..])
  }

  function KeysOf(defaults: seq<(string, string)>): set<string>
  {
    set i | 0 <= i < |defaults| :: defaults[i].0
  }

  lemma KeysOfCons(defaults: seq<(string, string)>)
    requires defaults != []
    ensures KeysOf(defaults) == {defaults[0].0} + KeysOf(defaults[1..])
  {
    forall k | k in KeysOf(defaults) ensures k in {defaults[0].0} + KeysOf(defaults[1..]) {
      var i :| 0 <= i < |defaults| && defaults[i].0 == k;
      if i > 0 { assert defaults[1..][i - 1].0 == k; }
    }
    forall k | k in KeysOf(defaults[1..]) ensures k in KeysOf(defaults) {
      var i :| 0 <= i < |defaults[1..]| && defaults[1..][i].0 == k;
      assert defaults[i + 1].0 == k;
    }
  }

  predicate DistinctKeys(defaults: seq<(string, string)>)
  {
    forall i, j :: 0 <= i < j < |defaults| ==> defaults[i].0 != defaults[j].0
  }

  /** What the command reports for one default row, and its closing success line. */
  datatype InitReport =
    | Created(key: string, value: string)
    | AlreadyExists(key: string, value: string)
    | Initialized

  /** The report line for one default row against the table as it stands when the row is reached. */
  function ReportFor(t: Table, key: string, value: string): InitReport
  {
    if key in t then AlreadyExists(key, t[key]) else Created(key, value)
  }

  /** The command's report lines: one per default row, in order. */
  function InitReports(t: Table, defaults: seq<(string, string)>): (r: seq<InitReport>)
    ensures |r| == |defaults|
    decreases |defaults|
  {
    if defaults == [] then []
    else [ReportFor(t, defaults[0].0, defaults[0].1)]
         + InitReports(InsertIfMissing(t, defaults[0].0, defaults[0].1), defaults[1..])
  }

  /** One iteration of the initialisation loop, seen from the remaining rows. */
  lemma InitStep(t: Table, defaults: seq<(string, string)>, i: nat)
    requires i < |defaults|
    ensures InitDefaults(t, defaults[i..])
         == InitDefaults(InsertIfMissing(t, defaults[i].0, defaults[i].1), defaults[i + 1..])
    ensures InitReports(t, defaults[i..])
         == [ReportFor(t, defaults[i].0, defaults[i].1)]
            + InitReports(InsertIfMissing(t, defaults[i].0, defaults[i].1), defaults[i + 1..])
  {
    assert defaults[i..][1..] == defaults[i + 1..];
  }

  // ---------------------------------------------------------------------------
  // Properties of the upsert

  /** After the upsert the key holds the new value and no other key's entry changed. */
  lemma UpsertSetsOnlyKey(t: Table, key: string, value: string)
    ensures var r := Upsert(t, key, value);
      && key in r && r[key] == value
      && r.Keys == t.Keys + {key}
      && (forall k :: k in t && k != key ==> r[k] == t[k])
  {
  }

  /** Upserting the same pair twice leaves the table as one upsert does. */
  lemma UpsertIdempotent(t: Table, key: string, value: string)
    ensures Upsert(Upsert(t, key, value), key, value) == Upsert(t, key, value)
  {
  }

  // ---------------------------------------------------------------------------
  // Properties of the initialisation fold

  /** Every default key is present afterwards, and no key is ever removed. */
  lemma {:induction false} InitDefaultsKeys(t: Table, defaults: seq<(string, string)>)
    ensures InitDefaults(t, defaults).Keys == t.Keys + KeysOf(defaults)
    decreases |defaults|
  {
    if defaults != [] {
      var t' := InsertIfMissing(t, defaults[0].0, defaults[0].1);
      InitDefaultsKeys(t', defaults[1..]);
      KeysOfCons(defaults);
    }
  }

  /** A row that already exists keeps its stored value: defaults never overwrite. */
  lemma {:induction false} InitDefaultsKeepsExisting(t: Table, defaults: seq<(string, string)>, k: string)
    requires k in t
    ensures k in InitDefaults(t, defaults) && InitDefaults(t, defaults)[k] == t[k]
    decreases |defaults|
  {
    if defaults != [] {
      InitDefaultsKeepsExisting(InsertIfMissing(t, defaults[0].0, defaults[0].1), defaults[1..], k);
    }
  }

  /** A key outside the default rows is untouched, present or not. */
  lemma {:induction false} InitDefaultsOtherKeys(t: Table, defaults: seq<(string, string)>, k: string)
    requires k !in KeysOf(defaults)
    ensures (k in InitDefaults(t, defaults)) == (k in t)
    ensures k in t ==> InitDefaults(t, defaults)[k] == t[k]
    decreases |defaults|
  {
    if defaults != [] {
      KeysOfCons(defaults);
      InitDefaultsOtherKeys(InsertIfMissing(t, defaults[0].0, defaults[0].1), defaults[1..], k);
    }
  }

  /** A default key that was missing is inserted with its default text. */
  lemma {:induction false} InitDefaultsInsertsMissing(t: Table, defaults: seq<(string, string)>, i: nat)
    requires DistinctKeys(defaults)
    requires i < |defaults| && defaults[i].0 !in t
    ensures defaults[i].0 in InitDefaults(t, defaults)
    ensures InitDefaults(t, defaults)[defaults[i].0] == defaults[i].1
    decreases |defaults|
  {
    var t' := InsertIfMissing(t, defaults[0].0, defaults[0].1);
    if i == 0 {
      InitDefaultsKeepsExisting(t', defaults[1..], defaults[0].0);
    } else {
      assert defaults[1..][i - 1] == defaults[i];
      assert defaults[i].0 !in t';
      InitDefaultsInsertsMissing(t', defaults[1..], i - 1);
    }
  }

  /** Once every default key is present, the command changes nothing. */
  lemma {:induction false} InitDefaultsNoOpWhenPresent(t: Table, defaults: seq<(string, string)>)
    requires KeysOf(defaults) <= t.Keys
    ensures InitDefaults(t, defaults) == t
    decreases |defaults|
  {
    if defaults != [] {
      KeysOfCons(defaults);
      InitDefaultsNoOpWhenPresent(t, defaults[1..]);
    }
  }

  /** Running the command twice gives the table that running it once gives. */
  lemma InitDefaultsIdempotent(t: Table, defaults: seq<(string, string)>)
    ensures InitDefaults(InitDefaults(t, defaults), defaults) == InitDefaults(t, defaults)
  {
    InitDefaultsKeys(t, defaults);
    InitDefaultsNoOpWhenPresent(InitDefaults(t, defaults), defaults);
  }

  /** One report per default row, in order: Created exactly for the rows that were missing. */
  lemma {:induction false} InitReportsShape(t: Table, defaults: seq<(string, string)>)
    requires DistinctKeys(defaults)
    ensures var rs := InitReports(t, defaults);
      && |rs| == |defaults|
      && forall i :: 0 <= i < |defaults| ==>
           rs[i] == (if defaults[i].0 in t then AlreadyExists(defaults[i].0, t[defaults[i].0])
                     else Created(defaults[i].0, defaults[i].1))
    decreases |defaults|
  {
    if defaults != [] {
      var t' := InsertIfMissing(t, defaults[0].0, defaults[0].1);
      InitReportsShape(t', defaults[1..]);
      var rs := InitReports(t, defaults);
      forall i | 0 <= i < |defaults|
        ensures rs[i] == (if defaults[i].0 in t then AlreadyExists(defaults[i].0, t[defaults[i].0])
                          else Created(defaults[i].0, defaults[i].1))
      {
        if i > 0 {
          assert defaults[1..][i - 1] == defaults[i];
          assert defaults[i].0 != defaults[0].0;
          assert rs[i] == InitReports(t', defaults[1..])[i - 1];
        }
      }
    }
  }

  /** The five default keys are distinct, so each missing one gets exactly its own default. */
  lemma DefaultConfigDistinct()
    ensures DistinctKeys(DefaultConfig)
    ensures KeysOf(DefaultConfig) ==
      {"risk_factor", "position_size_limit", "confidence_threshold", "max_drawdown_limit", "volatility_multiplier"}
  {
    assert DefaultConfig[0].0 == "risk_factor";
    assert DefaultConfig[1].0 == "position_size_limit";
    assert DefaultConfig[2].0 == "confidence_threshold";
    assert DefaultConfig[3].0 == "max_drawdown_limit";
    assert DefaultConfig[4].0 == "volatility_multiplier";
  }

  /** The table as the web backend stores it. */
  class StrategyConfigTable {
    var rows: Table

    constructor (initial: Table)
      ensures rows == initial
    {
      rows := initial;
    }

    /**
     * The background task: create the row or overwrite its value. When the
     * database call fails (dbOk false) the task raises: no row changes and no
     * message is returned.
     */
    method UpdateStrategyConfig(key: string, value: string, dbOk: bool) returns (message: Option<string>)
      modifies this
      ensures dbOk ==> rows == Upsert(old(rows), key, value)
      ensures dbOk ==> key in rows && rows[key] == value
      ensures forall k :: k in old(rows) && k != key ==> k in rows && rows[k] == old(rows)[k]
      ensures dbOk ==> rows.Keys == old(rows).Keys + {key}
      ensures !dbOk ==> rows == old(rows)
      ensures message == if dbOk then Some("Updated " + key) else None
    {
      if !dbOk {
        return None;
      }
      // A new row is created with the value as its default and an existing row
      // is overwritten: either way the key now holds the value.
      rows := rows[key := value];
      message := Some("Updated " + key);
    }

    /**
     * The initialisation command: insert each default row that is missing, then
     * report success. A failing database call on row failsAt raises: the rows
     * before it stay inserted, the rest are skipped and no success line follows.
     */
    method InitStrategyConfig(failsAt: nat) returns (reports: seq<InitReport>)
      modifies this
      ensures rows == InitDefaults(old(rows), Reached(DefaultConfig, failsAt))
      ensures reports == InitReports(old(rows), Reached(DefaultConfig, failsAt))
                         + (if failsAt >= |DefaultConfig| then [Initialized] else [])
      ensures failsAt >= |DefaultConfig| ==> KeysOf(DefaultConfig) <= rows.Keys
      ensures forall k :: k in old(rows) ==> k in rows && rows[k] == old(rows)[k]
    {
      var completed;
      reports, completed := InsertMissing(DefaultConfig, failsAt);
      if completed {
        reports := reports + [Initialized];
      }
    }

    /** The command's loop over a list of default rows, reporting on each, up to a failing row. */
    method InsertMissing(defaults: seq<(string, string)>, failsAt: nat) returns (reports: seq<InitReport>, completed: bool)
      modifies this
      ensures completed <==> failsAt >= |defaults|
      ensures rows == InitDefaults(old(rows), Reached(defaults, failsAt))
      ensures reports == InitReports(old(rows), Reached(defaults, failsAt))
      ensures KeysOf(Reached(defaults, failsAt)) <= rows.Keys
      ensures forall k :: k in old(rows) ==> k in rows && rows[k] == old(rows)[k]
    {
      ghost var initial := rows;
      ghost var done := Reached(defaults, failsAt);
      reports := [];
      var i := 0;
      while i < |defaults| && i != failsAt
        invariant 0 <= i <= |done|
        invariant InitDefaults(initial, done) == InitDefaults(rows, done[i..])
        invariant InitReports(initial, done) == reports + InitReports(rows, done[i..])
      {
        var key, value := defaults[i].0, defaults[i].1;
        assert done[i] == defaults[i];
        InitStep(rows, done, i);
        if key in rows {
          reports := reports + [AlreadyExists(key, rows[key])];
        } else {
          rows := rows[key := value];
          reports := reports + [Created(key, value)];
        }
        i := i + 1;
      }
      completed := i == |defaults|;
      assert i == |done| && done[i..] == [];
      InitDefaultsKeys(initial, done);
      forall k | k in initial ensures k in rows && rows[k] == initial[k] {
        InitDefaultsKeepsExisting(initial, done, k);
      }
    }
  }
}
