/**
 * The time-series ingest: for every time step of the instant-variables file whose timestamp is
 * not yet stored, insert a timestamp row and one data row per cell of the thinned grid, latitude
 * outer and longitude inner, and count the rows inserted.
 */
module Ingest {
  import opened Wrappers
  import opened Seqs

  /** A variable's values on the full grid at one time, `[latitude][longitude]`; None where the file holds NaN. */
  type Field = seq<seq<Option<real>>>

  /** One time step: its timestamp and the variables present at it (precipitation merged in from the accumulated file). */
  datatype TimeStep = TimeStep(time: int, fields: map<string, Field>)

  /** The merged source: coordinate arrays and the time steps in file order. */
  datatype Source = Source(latitudes: seq<real>, longitudes: seq<real>, steps: seq<TimeStep>)

  /** Every field of every step spans the full grid. */
  predicate Shaped(src: Source) {
    forall s <- src.steps, name | name in s.fields ::
      |s.fields[name]| == |src.latitudes| && forall row <- s.fields[name] :: |row| == |src.longitudes|
  }

  /** A row of the `weather_data` table. */
  datatype Record = Record(
    timestampId: nat, latitude: real, longitude: real,
    temperatureK: Option<real>, precipitationM: Option<real>, pressurePa: Option<real>,
    windU: Option<real>, windV: Option<real>)

  /** The stored timestamps (timestamp to row id), the id the next timestamp row receives, and the data rows. */
  datatype TableState = TableState(ids: map<int, nat>, nextId: nat, records: seq<Record>)

  /** Row `i`, column `j` of the grid thinned to every `k`-th latitude and longitude. */
  predicate OnThinnedGrid(src: Source, k: nat, i: nat, j: nat)
    requires k >= 1
  {
    i < |Stride(src.latitudes, k)| && j < |Stride(src.longitudes, k)|
  }

  /**
   * `float(v[i, j]) if v is not None and not isnan(v[i, j]) else None` on the thinned arrays: cell
   * `(i, j)` of the variable thinned as `[::k, ::k]`, which is cell `(i * k, j * k)` of the full one.
   */
  function FieldAt(src: Source, step: TimeStep, name: string, k: nat, i: nat, j: nat): (v: Option<real>)
    requires k >= 1 && Shaped(src) && step in src.steps && OnThinnedGrid(src, k, i, j)
    ensures name !in step.fields ==> v.None?
    ensures name in step.fields ==>
              var f := step.fields[name];
              && i < |Stride(f, k)| && j < |Stride(Stride(f, k)[i], k)|
              && v == Stride(Stride(f, k)[i], k)[j]
    ensures name in step.fields ==>
              var f := step.fields[name];
              i * k < |f| && j * k < |f[i * k]| && v == f[i * k][j * k]
  {
    StrideAt(src.latitudes, k, i);
    StrideAt(src.longitudes, k, j);
    if name in step.fields then
      var f := step.fields[name];
      assert f[i * k] in f;
      ThinnedIndices(f, k, i, j, |src.latitudes|, |src.longitudes|);
      ThinnedCell(f, k, i, j);
      f[i * k][j * k]
    else None
  }

  /** On a full `rows` x `cols` field, a cell of the thinned grid is a cell of the thinned field. */
  lemma ThinnedIndices(f: Field, k: nat, i: nat, j: nat, rows: nat, cols: nat)
    requires k >= 1 && |f| == rows && forall row <- f :: |row| == cols
    requires i < |Stride(f, k)| && i < StrideLen(rows, k) && j < StrideLen(cols, k)
    ensures j < |Stride(Stride(f, k)[i], k)|
  {
    StrideAt(f, k, i);
    var row := f[i * k];
    assert row in f;
    assert |Stride(row, k)| == StrideLen(cols, k);
  }

  /** The cell of the thinned array is the cell at `(i * k, j * k)` of the full one. */
  lemma ThinnedCell(f: Field, k: nat, i: nat, j: nat)
    requires k >= 1 && i < |Stride(f, k)| && j < |Stride(Stride(f, k)[i], k)|
    ensures i * k < |f| && j * k < |f[i * k]|
    ensures Stride(Stride(f, k)[i], k)[j] == f[i * k][j * k]
  {
    StrideAt(f, k, i);
    StrideAt(Stride(f, k)[i], k, j);
  }

  function MakeRecord(id: nat, src: Source, step: TimeStep, k: nat, i: nat, j: nat): (r: Record)
    requires k >= 1 && Shaped(src) && step in src.steps && OnThinnedGrid(src, k, i, j)
    ensures r.timestampId == id
    ensures r.latitude == Stride(src.latitudes, k)[i] && r.longitude == Stride(src.longitudes, k)[j]
    ensures r.temperatureK == FieldAt(src, step, "t2m", k, i, j)
    ensures r.precipitationM == FieldAt(src, step, "tp", k, i, j)
    ensures r.pressurePa == FieldAt(src, step, "sp", k, i, j)
    ensures r.windU == FieldAt(src, step, "u10", k, i, j) && r.windV == FieldAt(src, step, "v10", k, i, j)
  {
    StrideAt(src.latitudes, k, i);
    StrideAt(src.longitudes, k, j);
    Record(id, Stride(src.latitudes, k)[i], Stride(src.longitudes, k)[j],
           FieldAt(src, step, "t2m", k, i, j), FieldAt(src, step, "tp", k, i, j), FieldAt(src, step, "sp", k, i, j),
           FieldAt(src, step, "u10", k, i, j), FieldAt(src, step, "v10", k, i, j))
  }

  /** The records of thinned row `i`, in longitude order. */
  function RowRecords(id: nat, src: Source, step: TimeStep, k: nat, i: nat): (rs: seq<Record>)
    requires k >= 1 && Shaped(src) && step in src.steps && i < |Stride(src.latitudes, k)|
    ensures |rs| == |Stride(src.longitudes, k)|
  {
    seq(|Stride(src.longitudes, k)|, j requires 0 <= j < |Stride(src.longitudes, k)| => MakeRecord(id, src, step, k, i, j))
  }

  /** The records of the first `n` thinned rows. */
  function StepRecords(id: nat, src: Source, step: TimeStep, k: nat, n: nat): (rs: seq<Record>)
    requires k >= 1 && Shaped(src) && step in src.steps && n <= |Stride(src.latitudes, k)|
  {
    if n == 0 then [] else StepRecords(id, src, step, k, n - 1) + RowRecords(id, src, step, k, n - 1)
  }

  /** Every record of a step references that step's timestamp row. */
  lemma {:induction false} StepRecordsReference(id: nat, src: Source, step: TimeStep, k: nat, n: nat)
    requires k >= 1 && Shaped(src) && step in src.steps && n <= |Stride(src.latitudes, k)|
    ensures forall r <- StepRecords(id, src, step, k, n) :: r.timestampId == id
  {
    if n > 0 {
      StepRecordsReference(id, src, step, k, n - 1);
    }
  }

  /** Processing one time step: an already stored timestamp changes nothing. */
  function IngestStep(st: TableState, src: Source, step: TimeStep, k: nat): (r: TableState)
    requires k >= 1 && Shaped(src) && step in src.steps
    ensures step.time in st.ids ==> r == st
    ensures step.time !in st.ids ==> r.ids == st.ids[step.time := st.nextId] && r.nextId == st.nextId + 1
  {
    if step.time in st.ids then st
    else TableState(st.ids[step.time := st.nextId], st.nextId + 1,
                    st.records + StepRecords(st.nextId, src, step, k, |Stride(src.latitudes, k)|))
  }

  /**
   * A new timestamp receives the next id, existing rows are kept as they are, and every appended
   * row references the new timestamp row.
   */
  lemma NewTimestampAppends(st: TableState, src: Source, step: TimeStep, k: nat)
    requires k >= 1 && Shaped(src) && step in src.steps && step.time !in st.ids
    ensures var r := IngestStep(st, src, step, k);
            && r.ids[step.time] == st.nextId
            && |st.records| <= |r.records|
            && r.records[..|st.records|] == st.records
            && forall x <- r.records[|st.records|..] :: x.timestampId == r.ids[step.time]
  {
    var added := StepRecords(st.nextId, src, step, k, |Stride(src.latitudes, k)|);
    StepRecordsReference(st.nextId, src, step, k, |Stride(src.latitudes, k)|);
    assert (st.records + added)[..|st.records|] == st.records;
    assert (st.records + added)[|st.records|..] == added;
  }

  /** The table after the first `n` time steps. */
  function Ingested(st: TableState, src: Source, k: nat, n: nat): TableState
    requires k >= 1 && Shaped(src) && n <= |src.steps|
  {
    if n == 0 then st else IngestStep(Ingested(st, src, k, n - 1), src, src.steps[n - 1], k)
  }

  /** The timestamps of the first `n` time steps. */
  function Times(src: Source, n: nat): set<int>
    requires n <= |src.steps|
  {
    if n == 0 then {} else Times(src, n - 1) + {src.steps[n - 1].time}
  }

  /** `a` copies of `c` added up; kept apart from `*` so that the counting proofs stay linear. */
  function Repeat(a: nat, c: nat): nat {
    if a == 0 then 0 else Repeat(a - 1, c) + c
  }

  /** The number of cells of the thinned grid. */
  function CellsPerStep(src: Source, k: nat): nat
    requires k >= 1
  {
    Repeat(|Stride(src.latitudes, k)|, |Stride(src.longitudes, k)|)
  }

  /* ---------- properties ---------- */

  lemma {:induction false} RepeatIsProduct(a: nat, c: nat)
    ensures Repeat(a, c) == a * c
  {
    if a > 0 {
      RepeatIsProduct(a - 1, c);
    }
  }

  /** The thinned coordinates of a record are the full coordinates at `(i * k, j * k)`. */
  lemma ThinnedCoordinates(id: nat, src: Source, step: TimeStep, k: nat, i: nat, j: nat)
    requires k >= 1 && Shaped(src) && step in src.steps && OnThinnedGrid(src, k, i, j)
    ensures i * k < |src.latitudes| && j * k < |src.longitudes|
    ensures var r := MakeRecord(id, src, step, k, i, j);
            r.latitude == src.latitudes[i * k] && r.longitude == src.longitudes[j * k]
  {
    StrideAt(src.latitudes, k, i);
    StrideAt(src.longitudes, k, j);
  }

  /** The first `n` rows hold `n` rows' worth of records. */
  lemma {:induction false} StepRecordsCount(id: nat, src: Source, step: TimeStep, k: nat, n: nat)
    requires k >= 1 && Shaped(src) && step in src.steps && n <= |Stride(src.latitudes, k)|
    ensures |StepRecords(id, src, step, k, n)| == Repeat(n, |Stride(src.longitudes, k)|)
  {
    if n > 0 {
      StepRecordsCount(id, src, step, k, n - 1);
    }
  }

  /** Row `i` occupies the positions after the records of the rows before it. */
  lemma {:induction false} RowAt(id: nat, src: Source, step: TimeStep, k: nat, n: nat, i: nat, j: nat)
    requires k >= 1 && Shaped(src) && step in src.steps && n <= |Stride(src.latitudes, k)|
    requires i < n && j < |Stride(src.longitudes, k)|
    ensures |StepRecords(id, src, step, k, i)| + j < |StepRecords(id, src, step, k, n)|
    ensures StepRecords(id, src, step, k, n)[|StepRecords(id, src, step, k, i)| + j] == MakeRecord(id, src, step, k, i, j)
  {
    if i < n - 1 {
      RowAt(id, src, step, k, n - 1, i, j);
    }
  }

  /** Records are enumerated row-major: thinned cell `(i, j)` is record `i * |lons| + j`. */
  lemma RowMajor(id: nat, src: Source, step: TimeStep, k: nat, i: nat, j: nat)
    requires k >= 1 && Shaped(src) && step in src.steps && OnThinnedGrid(src, k, i, j)
    ensures var rs := StepRecords(id, src, step, k, |Stride(src.latitudes, k)|);
            i * |Stride(src.longitudes, k)| + j < |rs| &&
            rs[i * |Stride(src.longitudes, k)| + j] == MakeRecord(id, src, step, k, i, j)
  {
    RowAt(id, src, step, k, |Stride(src.latitudes, k)|, i, j);
    StepRecordsCount(id, src, step, k, i);
    RepeatIsProduct(i, |Stride(src.longitudes, k)|);
  }

  /** One time step adds its timestamp and, when that timestamp is new, one thinned grid of records. */
  lemma IngestStepCount(st: TableState, src: Source, step: TimeStep, k: nat)
    requires k >= 1 && Shaped(src) && step in src.steps
    ensures IngestStep(st, src, step, k).ids.Keys == st.ids.Keys + {step.time}
    ensures |IngestStep(st, src, step, k).records| ==
              |st.records| + (if step.time in st.ids then 0 else CellsPerStep(src, k))
  {
    if step.time !in st.ids {
      StepRecordsCount(st.nextId, src, step, k, |Stride(src.latitudes, k)|);
    }
  }

  /** How many of the first `n` time steps carry a timestamp neither stored before nor seen earlier in the file. */
  function NewCount(stored: set<int>, src: Source, n: nat): nat
    requires n <= |src.steps|
  {
    if n == 0 then 0
    else NewCount(stored, src, n - 1) + (if src.steps[n - 1].time in stored + Times(src, n - 1) then 0 else 1)
  }

  /** Over a run, the timestamps stored are the old ones plus every timestamp of the file. */
  lemma {:induction false} IngestedKeys(st: TableState, src: Source, k: nat, n: nat)
    requires k >= 1 && Shaped(src) && n <= |src.steps|
    ensures Ingested(st, src, k, n).ids.Keys == st.ids.Keys + Times(src, n)
  {
    if n > 0 {
      IngestedKeys(st, src, k, n - 1);
      IngestStepCount(Ingested(st, src, k, n - 1), src, src.steps[n - 1], k);
    }
  }

  /** The steps counted as new are as many as the file's timestamps that were not stored. */
  lemma {:induction false} NewCountIsNewTimes(stored: set<int>, src: Source, n: nat)
    requires n <= |src.steps|
    ensures NewCount(stored, src, n) == |Times(src, n) - stored|
  {
    if n > 0 {
      NewCountIsNewTimes(stored, src, n - 1);
      var t := src.steps[n - 1].time;
      var before := Times(src, n - 1) - stored;
      if t in stored + Times(src, n - 1) {
        assert Times(src, n) - stored == before;
      } else {
        assert Times(src, n) - stored == before + {t};
      }
    } else {
      assert Times(src, 0) - stored == {};
    }
  }

  /** Over a run, one thinned grid of records is inserted per time step whose timestamp was new. */
  lemma {:induction false} IngestedCount(st: TableState, src: Source, k: nat, n: nat)
    requires k >= 1 && Shaped(src) && n <= |src.steps|
    ensures |Ingested(st, src, k, n).records| == |st.records| + Repeat(NewCount(st.ids.Keys, src, n), CellsPerStep(src, k))
  {
    if n > 0 {
      IngestedCount(st, src, k, n - 1);
      IngestedKeys(st, src, k, n - 1);
      IngestStepCount(Ingested(st, src, k, n - 1), src, src.steps[n - 1], k);
    }
  }

  lemma RepeatOfRepeat(a: nat, rows: nat, cols: nat)
    ensures Repeat(a, Repeat(rows, cols)) == a * rows * cols
  {
    RepeatIsProduct(rows, cols);
    RepeatIsProduct(a, rows * cols);
    assert a * (rows * cols) == a * rows * cols;
  }

  /** The count `merge_and_ingest` reports: new timestamps times thinned rows times thinned columns. */
  lemma RecordsInserted(st: TableState, src: Source, k: nat)
    requires k >= 1 && Shaped(src)
    ensures var r := Ingested(st, src, k, |src.steps|);
            |r.records| - |st.records| ==
              |r.ids.Keys - st.ids.Keys| * |Stride(src.latitudes, k)| * |Stride(src.longitudes, k)|
  {
    var n := |src.steps|;
    IngestedCount(st, src, k, n);
    IngestedKeys(st, src, k, n);
    NewCountIsNewTimes(st.ids.Keys, src, n);
    assert Ingested(st, src, k, n).ids.Keys - st.ids.Keys == Times(src, n) - st.ids.Keys;
    RepeatOfRepeat(NewCount(st.ids.Keys, src, n), |Stride(src.latitudes, k)|, |Stride(src.longitudes, k)|);
  }

  /** A timestamp that is already stored is skipped: it adds no records and changes nothing. */
  lemma ExistingTimestampSkipped(st: TableState, src: Source, k: nat, n: nat)
    requires k >= 1 && Shaped(src) && n < |src.steps|
    requires src.steps[n].time in Ingested(st, src, k, n).ids
    ensures Ingested(st, src, k, n + 1) == Ingested(st, src, k, n)
  {}

  /** A field missing from the file, or a NaN cell, is stored as None. */
  lemma MissingFieldIsNone(id: nat, src: Source, step: TimeStep, k: nat, i: nat, j: nat)
    requires k >= 1 && Shaped(src) && step in src.steps && OnThinnedGrid(src, k, i, j)
    requires "tp" !in step.fields
    ensures MakeRecord(id, src, step, k, i, j).precipitationM == None
  {}

  /* ---------- the table and the loop ---------- */

  /** The two tables, as the loop sees them. */
  class Table {
    var ids: map<int, nat>
    var nextId: nat
    var records: seq<Record>

    function State(): TableState
      reads this
    {
      TableState(ids, nextId, records)
    }

    constructor(ids: map<int, nat>, nextId: nat, records: seq<Record>)
      ensures State() == TableState(ids, nextId, records)
    {
      this.ids := ids;
      this.nextId := nextId;
      this.records := records;
    }
  }

  /** The nested latitude/longitude loops that build one time step's records. */
  method BuildRecords(id: nat, src: Source, step: TimeStep, k: nat) returns (batch: seq<Record>)
    requires k >= 1 && Shaped(src) && step in src.steps
    ensures batch == StepRecords(id, src, step, k, |Stride(src.latitudes, k)|)
  {
    var lats := Stride(src.latitudes, k);
    var lons := Stride(src.longitudes, k);
    batch := [];
    var i := 0;
    while i < |lats|
      invariant 0 <= i <= |lats|
      invariant batch == StepRecords(id, src, step, k, i)
    {
      var row := [];
      var j := 0;
      while j < |lons|
        invariant 0 <= j <= |lons|
        invariant row == RowRecords(id, src, step, k, i)[..j]
      {
        ghost var full := RowRecords(id, src, step, k, i);
        assert full[..j + 1] == full[..j] + [MakeRecord(id, src, step, k, i, j)];
        row := row + [MakeRecord(id, src, step, k, i, j)];
        j := j + 1;
      }
      batch := batch + row;
      i := i + 1;
    }
  }

  /** The thinning step `merge_and_ingest` uses when called without one. */
  const DEFAULT_DOWNSAMPLE: nat := 8

  /**
   * `merge_and_ingest(downsample)`: walks the time steps in order, skipping stored timestamps,
   * inserting a timestamp row and its grid of records otherwise, and returns the number of records
   * inserted. A file without time steps fails (None) before touching the tables: the progress
   * line reads the first timestamp.
   */
  method MergeAndIngest(table: Table, src: Source, downsample: nat) returns (inserted: Option<nat>)
    requires downsample >= 1 && Shaped(src)
    modifies table
    ensures inserted.None? <==> |src.steps| == 0
    ensures inserted.None? ==> table.State() == old(table.State())
    ensures inserted.Some? ==> table.State() == Ingested(old(table.State()), src, downsample, |src.steps|)
    ensures inserted.Some? ==> |table.records| == |old(table.records)| + inserted.value
  {
    if |src.steps| == 0 {
      return None;
    }
    ghost var st0 := table.State();
    var total: nat := 0;
    var n := 0;
    while n < |src.steps|
      invariant 0 <= n <= |src.steps|
      invariant table.State() == Ingested(st0, src, downsample, n)
      invariant |table.records| == |st0.records| + total
    {
      var step := src.steps[n];
      assert Ingested(st0, src, downsample, n + 1) == IngestStep(table.State(), src, step, downsample);
      if step.time in table.ids {
        n := n + 1;
        continue;
      }
      var batch := BuildRecords(table.nextId, src, step, downsample);
      table.ids := table.ids[step.time := table.nextId];
      table.records := table.records + batch;
      table.nextId := table.nextId + 1;
      total := total + |batch|;
      n := n + 1;
    }
    inserted := Some(total);
  }
}
