// Analyses carried forward.
module CarryForward {
  // app/services/analysis.py: analyses reused for pages that barely changed, and what they were copied from.
  // Every database transaction is one step; runs, page edits and deletions may come in any order.

  import opened Sequences
  import opened Wrappers
  import opened WordDiff

  /** A captured version of a page. It is never changed; an edit captures another one. */
  datatype Version = Version(item: nat, text: string, title: Option<string>)

  /** A carried-forward analysis names the model-made one it copies, until that one is deleted. */
  datatype Method = Llm | CarriedForward(source: Option<nat>)

  datatype Row = Row(item: nat, version: nat, how: Method, analyzer: string, created: int, fields: string)

  /** `content_versions`, each page's current version, and `content_analyses`. Identities are never used twice. */
  datatype Store = Store(versions: map<nat, Version>, lastVersion: nat, current: map<nat, nat>, rows: map<nat, Row>,
                         lastRow: nat)

  datatype Previous = Previous(analysis: nat, text: string, title: Option<string>)

  /** A page selected for a run, with the version and the earlier analysis as they were then. */
  datatype Candidate = Candidate(item: nat, version: nat, text: string, title: Option<string>,
                                 previous: Option<Previous>) {
    predicate CarriesForward(sp: Splitter) {
      previous.Some? && DiffTexts(sp, previous.value.text, text, previous.value.title, title).IsMinor()
    }
  }

  datatype Failure = VersionIsGone | AlreadyAnalyzed

  // ---------- selection ----------

  /** An item's latest analysis by this analyzer among rows 1..n: by time, and the higher id among equals. */
  function Latest(rows: map<nat, Row>, item: nat, analyzer: string, n: nat): Option<nat> {
    if n == 0 then None
    else
      var earlier := Latest(rows, item, analyzer, n - 1);
      if n in rows && rows[n].item == item && rows[n].analyzer == analyzer
         && (earlier.None? || earlier.value !in rows || rows[n].created >= rows[earlier.value].created) then Some(n)
      else earlier
  }

  lemma {:induction false} LatestIsOurs(rows: map<nat, Row>, item: nat, analyzer: string, n: nat)
    ensures var r := Latest(rows, item, analyzer, n);
            r.Some? ==>
              && 1 <= r.value <= n && r.value in rows && rows[r.value].item == item
              && rows[r.value].analyzer == analyzer
  {
    if n > 0 {
      LatestIsOurs(rows, item, analyzer, n - 1);
    }
  }

  /** No other analysis of the item by this analyzer is newer. */
  lemma {:induction false} LatestIsLatest(rows: map<nat, Row>, item: nat, analyzer: string, n: nat, id: nat)
    requires 1 <= id <= n && id in rows && rows[id].item == item && rows[id].analyzer == analyzer
    ensures var r := Latest(rows, item, analyzer, n);
            r.Some? && r.value in rows
            && (rows[id].created < rows[r.value].created
                || (rows[id].created == rows[r.value].created && id <= r.value))
  {
    LatestIsOurs(rows, item, analyzer, n - 1);
    if id < n {
      LatestIsLatest(rows, item, analyzer, n - 1, id);
    }
  }

  /** The analysis a row's results come from. */
  function RootOf(id: nat, row: Row): Option<nat> {
    match row.how
    case Llm => Some(id)
    case CarriedForward(source) => source
  }

  function LatestRoot(st: Store, item: nat, analyzer: string): Option<nat> {
    var latest := Latest(st.rows, item, analyzer, st.lastRow);
    if latest.None? || latest.value !in st.rows then None else RootOf(latest.value, st.rows[latest.value])
  }

  /** `root`'s text and title, if it is a stored model-made analysis. */
  function RootText(st: Store, root: nat): Option<Previous> {
    if root in st.rows && st.rows[root].how.Llm? && st.rows[root].version in st.versions then
      var v := st.versions[st.rows[root].version];
      Some(Previous(root, v.text, v.title))
    else None
  }

  function PreviousOf(st: Store, item: nat, analyzer: string): Option<Previous> {
    match LatestRoot(st, item, analyzer)
    case None => None
    case Some(root) => RootText(st, root)
  }

  predicate HasAnalysis(st: Store, version: nat, analyzer: string) {
    exists id | id in st.rows :: st.rows[id].version == version && st.rows[id].analyzer == analyzer
  }

  function Select(st: Store, items: seq<nat>, analyzer: string, reanalyze: bool): seq<Candidate> {
    if items == [] then []
    else
      var rest := Select(st, items[1..], analyzer, reanalyze);
      var item := items[0];
      if item in st.current && st.current[item] in st.versions
          && (reanalyze || !HasAnalysis(st, st.current[item], analyzer)) then
        var v := st.versions[st.current[item]];
        [Candidate(item, st.current[item], v.text, v.title, if reanalyze then None else PreviousOf(st, item, analyzer))]
            + rest
      else rest
  }

  // ---------- writing analyses ----------

  function AddRow(st: Store, row: Row): Result<Store, Failure> {
    if row.version !in st.versions then Err(VersionIsGone)
    else if HasAnalysis(st, row.version, row.analyzer) then Err(AlreadyAnalyzed)
    else Ok(st.(rows := st.rows[st.lastRow + 1 := row], lastRow := st.lastRow + 1))
  }

  function Unlinked(row: Row, gone: set<nat>): Row {
    if row.how.CarriedForward? && row.how.source.Some? && row.how.source.value in gone
        then row.(how := CarriedForward(None))
    else row
  }

  /** Deleting an analysis leaves its copies, without their source. */
  function DeleteRows(rows: map<nat, Row>, gone: set<nat>): map<nat, Row> {
    map id | id in rows && id !in gone :: Unlinked(rows[id], gone)
  }

  /** One page of `_carry_forward`: nothing when its earlier analysis is gone. */
  function CarryOne(st: Store, c: Candidate, now: int): Result<Store, Failure> {
    if c.previous.None? || c.previous.value.analysis !in st.rows then Ok(st)
    else
      var root := c.previous.value.analysis;
      AddRow(st, Row(c.item, c.version, CarriedForward(Some(root)), st.rows[root].analyzer, now, st.rows[root].fields))
  }

  function CarryAll(st: Store, cs: seq<Candidate>, now: int): Result<Store, Failure>
    decreases |cs|
  {
    if cs == [] then Ok(st)
    else
      var next :- CarryOne(st, cs[0], now);
      CarryAll(next, cs[1..], now)
  }

  function Existing(st: Store, version: nat, analyzer: string): set<nat> {
    set id | id in st.rows && st.rows[id].version == version && st.rows[id].analyzer == analyzer
  }

  /** One page of `_persist`: an analysis already stored is kept, or replaced when reanalyzing. */
  function PersistOne(st: Store, c: Candidate, fields: string, analyzer: string, reanalyze: bool,
                      now: int): Result<Store, Failure> {
    var existing := Existing(st, c.version, analyzer);
    if existing != {} && !reanalyze then Ok(st)
    else AddRow(st.(rows := DeleteRows(st.rows, existing)), Row(c.item, c.version, Llm, analyzer, now, fields))
  }

  datatype Output = Output(candidate: Candidate, fields: string)

  function PersistAll(st: Store, outs: seq<Output>, analyzer: string, reanalyze: bool, now: int): Result<Store, Failure>
    decreases |outs|
  {
    if outs == [] then Ok(st)
    else
      var next :- PersistOne(st, outs[0].candidate, outs[0].fields, analyzer, reanalyze, now);
      PersistAll(next, outs[1..], analyzer, reanalyze, now)
  }

  /** A transaction that fails changes nothing. */
  function Commit(st: Store, r: Result<Store, Failure>): Store {
    match r
    case Ok(next) => next
    case Err(_) => st
  }

  // ---------- runs and edits ----------

  datatype Run = Run(analyzer: string, reanalyze: bool, candidates: seq<Candidate>)

  datatype System = System(store: Store, runs: seq<Run>)

  datatype Step =
    | Capture(item: nat, text: string, title: Option<string>)    // a page is fetched and differs from its last version
    | Forget(versions: set<nat>)                                 // versions deleted, with their analyses
    | Begin(analyzer: string, reanalyze: bool, items: seq<nat>)  // a run selects its pages
    | Carry(run: nat, now: int)                                  // a run copies what it can
    // a run stores the model's analyses of some of its pages
    | Persist(run: nat, outs: seq<(nat, string)>, now: int)

  function Filter(sp: Splitter, cs: seq<Candidate>): seq<Candidate> {
    if cs == [] then [] else (if cs[0].CarriesForward(sp) then [cs[0]] else []) + Filter(sp, cs[1..])
  }

  function Outputs(cs: seq<Candidate>, outs: seq<(nat, string)>): seq<Output> {
    if outs == [] then []
    else (if outs[0].0 < |cs| then [Output(cs[outs[0].0], outs[0].1)] else []) + Outputs(cs, outs[1..])
  }

  function RowsOf(rows: map<nat, Row>, versions: set<nat>): set<nat> {
    set id | id in rows && rows[id].version in versions
  }

  function Next(sp: Splitter, s: System, step: Step): System {
    var st := s.store;
    match step
    case Capture(item, text, title) =>
      var v := st.lastVersion + 1;
      s.(store := st.(versions := st.versions[v := Version(item, text, title)], lastVersion := v,
                      current := st.current[item := v]))
    case Forget(versions) =>
      s.(store := st.(versions := st.versions - versions, rows := DeleteRows(st.rows, RowsOf(st.rows, versions))))
    case Begin(analyzer, reanalyze, items) =>
      s.(runs := s.runs + [Run(analyzer, reanalyze, Select(st, items, analyzer, reanalyze))])
    case Carry(run, now) =>
      if run < |s.runs| && !s.runs[run].reanalyze then
        s.(store := Commit(st, CarryAll(st, Filter(sp, s.runs[run].candidates), now)))
      else s
    case Persist(run, outs, now) =>
      if run < |s.runs| then
        var r := s.runs[run];
        s.(store := Commit(st, PersistAll(st, Outputs(r.candidates, outs), r.analyzer, r.reanalyze, now)))
      else s
  }

  function After(sp: Splitter, s: System, steps: seq<Step>): System
    decreases |steps|
  {
    if steps == [] then s else After(sp, Next(sp, s, steps[0]), steps[1..])
  }

  const EMPTY := System(Store(map[], 0, map[], map[], 0), [])

  // ---------- what every history keeps ----------

  /** The two versions differ by at most a minor edit. */
  predicate Close(sp: Splitter, a: Version, b: Version) {
    DiffTexts(sp, a.text, b.text, a.title, b.title).IsMinor()
  }

  ghost predicate Stored(st: Store, id: nat)
    requires id in st.rows
  {
    var row := st.rows[id];
    1 <= id <= st.lastRow && row.version in st.versions && st.versions[row.version].item == row.item
  }

  /** A copy and the model-made analysis it names: same page, same analyzer, same results, close texts. */
  ghost predicate Rooted(sp: Splitter, st: Store, id: nat)
    requires id in st.rows
  {
    var row := st.rows[id];
    row.how.CarriedForward? && row.how.source.Some? ==>
      var root := row.how.source.value;
      && root in st.rows && st.rows[root].how.Llm?
      && st.rows[root].item == row.item && st.rows[root].analyzer == row.analyzer && st.rows[root].fields == row.fields
      && st.rows[root].version in st.versions && row.version in st.versions
      && Close(sp, st.versions[st.rows[root].version], st.versions[row.version])
  }

  ghost predicate Unique(rows: map<nat, Row>) {
    forall x, y | x in rows && y in rows && rows[x].version == rows[y].version
        && rows[x].analyzer == rows[y].analyzer :: x == y
  }

  /** What a candidate remembers of its version and its earlier analysis still holds of whatever is left of them. */
  ghost predicate Remembers(st: Store, analyzer: string, c: Candidate) {
    && c.version <= st.lastVersion
    && (c.version in st.versions ==> st.versions[c.version] == Version(c.item, c.text, c.title))
    && (c.previous.Some? ==> RemembersRoot(st, analyzer, c.item, c.previous.value))
  }

  ghost predicate RemembersRoot(st: Store, analyzer: string, item: nat, p: Previous) {
    && p.analysis <= st.lastRow
    && (p.analysis in st.rows ==>
          var root := st.rows[p.analysis];
          && root.how.Llm? && root.item == item && root.analyzer == analyzer
          && root.version in st.versions && st.versions[root.version] == Version(item, p.text, p.title))
  }

  ghost predicate SoundRun(st: Store, r: Run) {
    forall c | c in r.candidates :: Remembers(st, r.analyzer, c)
  }

  ghost predicate SoundStore(sp: Splitter, st: Store) {
    && (forall v | v in st.versions :: v <= st.lastVersion)
    && (forall i | i in st.current :: CurrentIs(st, i))
    && (forall id | id in st.rows :: Stored(st, id))
    && (forall id | id in st.rows :: Rooted(sp, st, id))
    && Unique(st.rows)
  }

  ghost predicate CurrentIs(st: Store, item: nat)
    requires item in st.current
  {
    var v := st.current[item];
    v <= st.lastVersion && (v in st.versions ==> st.versions[v].item == item)
  }

  ghost predicate Sound(sp: Splitter, s: System) {
    SoundStore(sp, s.store) && forall r | r in s.runs :: SoundRun(s.store, r)
  }

  /**
   * Rows and versions only appear under new identities; what is left of the old ones is unchanged, but for a lost
   * source.
   */
  ghost predicate Grows(st: Store, next: Store) {
    && st.lastRow <= next.lastRow && st.lastVersion <= next.lastVersion
    && (forall id | id in next.rows && id <= st.lastRow :: id in st.rows && KeepsRow(st.rows[id], next.rows[id]))
    && (forall v | v in next.versions && v <= st.lastVersion :: v in st.versions && next.versions[v] == st.versions[v])
  }

  ghost predicate KeepsRow(row: Row, next: Row) {
    next == row || (row.how.CarriedForward? && next == row.(how := CarriedForward(None)))
  }

  lemma StillRemembers(sp: Splitter, st: Store, next: Store, analyzer: string, c: Candidate)
    requires Grows(st, next) && SoundStore(sp, st) && SoundStore(sp, next) && Remembers(st, analyzer, c)
    ensures Remembers(next, analyzer, c)
  {
    if c.previous.Some? && c.previous.value.analysis in next.rows {
      var root := c.previous.value.analysis;
      assert KeepsRow(st.rows[root], next.rows[root]) && Stored(st, root);
      assert Stored(next, root);
    }
  }

  lemma AddRowKeeps(sp: Splitter, st: Store, row: Row)
    requires SoundStore(sp, st) && AddRow(st, row).Ok?
    requires st.versions[row.version].item == row.item
    requires var id, next := st.lastRow + 1, AddRow(st, row).value; next.rows[id] == row ==> Rooted(sp, next, id)
    ensures var next := AddRow(st, row).value; SoundStore(sp, next) && Grows(st, next)
  {
    var id, next := st.lastRow + 1, AddRow(st, row).value;
    forall x | x in st.rows ensures x != id {
      assert Stored(st, x);
    }
    forall x | x in next.rows ensures Stored(next, x) && Rooted(sp, next, x) {
      if x != id {
        assert Stored(st, x) && Rooted(sp, st, x);
      }
    }
  }

  lemma DeleteKeeps(sp: Splitter, st: Store, versions: set<nat>, gone: set<nat>)
    requires SoundStore(sp, st) && RowsOf(st.rows, versions) <= gone
    ensures var next := st.(versions := st.versions - versions, rows := DeleteRows(st.rows, gone));
            SoundStore(sp, next) && Grows(st, next)
  {
    var next := st.(versions := st.versions - versions, rows := DeleteRows(st.rows, gone));
    forall x | x in next.rows ensures Stored(next, x) && Rooted(sp, next, x) {
      assert Stored(st, x) && Rooted(sp, st, x);
    }
  }

  lemma CarryOneKeeps(sp: Splitter, st: Store, c: Candidate, analyzer: string, now: int)
    requires SoundStore(sp, st) && Remembers(st, analyzer, c) && c.CarriesForward(sp) && CarryOne(st, c, now).Ok?
    ensures var next := CarryOne(st, c, now).value; SoundStore(sp, next) && Grows(st, next)
  {
    if c.previous.value.analysis in st.rows {
      var root := c.previous.value.analysis;
      AddRowKeeps(sp, st, Row(c.item, c.version, CarriedForward(Some(root)), st.rows[root].analyzer, now,
                              st.rows[root].fields));
    }
  }

  lemma {:induction false} CarryAllKeeps(sp: Splitter, st: Store, cs: seq<Candidate>, analyzer: string, now: int)
    requires SoundStore(sp, st) && CarryAll(st, cs, now).Ok?
    requires forall c | c in cs :: Remembers(st, analyzer, c) && c.CarriesForward(sp)
    ensures var next := CarryAll(st, cs, now).value; SoundStore(sp, next) && Grows(st, next)
    decreases |cs|
  {
    if cs != [] {
      CarryOneKeeps(sp, st, cs[0], analyzer, now);
      var mid := CarryOne(st, cs[0], now).value;
      forall c | c in cs[1..] ensures Remembers(mid, analyzer, c) {
        StillRemembers(sp, st, mid, analyzer, c);
      }
      CarryAllKeeps(sp, mid, cs[1..], analyzer, now);
    }
  }

  lemma PersistOneKeeps(sp: Splitter, st: Store, c: Candidate, fields: string, analyzer: string, reanalyze: bool,
                        now: int)
    requires SoundStore(sp, st) && Remembers(st, analyzer, c) && PersistOne(st, c, fields, analyzer, reanalyze, now).Ok?
    ensures var next := PersistOne(st, c, fields, analyzer, reanalyze, now).value;
           SoundStore(sp, next) && Grows(st, next)
  {
    var existing := Existing(st, c.version, analyzer);
    if existing == {} || reanalyze {
      var mid := st.(rows := DeleteRows(st.rows, existing));
      var row := Row(c.item, c.version, Llm, analyzer, now, fields);
      DeleteRowsKeeps(sp, st, existing);
      AddRowKeeps(sp, mid, row);
      GrowsOn(st, mid, AddRow(mid, row).value);
    }
  }

  lemma DeleteRowsKeeps(sp: Splitter, st: Store, gone: set<nat>)
    requires SoundStore(sp, st)
    ensures var next := st.(rows := DeleteRows(st.rows, gone)); SoundStore(sp, next) && Grows(st, next)
  {
    DeleteKeeps(sp, st, {}, gone);
    assert st.versions - {} == st.versions;
  }

  lemma GrowsOn(a: Store, b: Store, c: Store)
    requires Grows(a, b) && Grows(b, c)
    ensures Grows(a, c)
  {
  }

  lemma {:induction false} PersistAllKeeps(sp: Splitter, st: Store, outs: seq<Output>, analyzer: string,
                                           reanalyze: bool, now: int)
    requires SoundStore(sp, st) && PersistAll(st, outs, analyzer, reanalyze, now).Ok?
    requires forall o | o in outs :: Remembers(st, analyzer, o.candidate)
    ensures var next := PersistAll(st, outs, analyzer, reanalyze, now).value; SoundStore(sp, next) && Grows(st, next)
    decreases |outs|
  {
    if outs != [] {
      var o := outs[0];
      PersistOneKeeps(sp, st, o.candidate, o.fields, analyzer, reanalyze, now);
      var mid := PersistOne(st, o.candidate, o.fields, analyzer, reanalyze, now).value;
      forall p | p in outs[1..] ensures Remembers(mid, analyzer, p.candidate) {
        StillRemembers(sp, st, mid, analyzer, p.candidate);
      }
      PersistAllKeeps(sp, mid, outs[1..], analyzer, reanalyze, now);
    }
  }

  lemma {:induction false} FilterIsPart(sp: Splitter, cs: seq<Candidate>)
    ensures forall c | c in Filter(sp, cs) :: c in cs && c.CarriesForward(sp)
  {
    if cs != [] {
      FilterIsPart(sp, cs[1..]);
    }
  }

  lemma {:induction false} OutputsArePart(cs: seq<Candidate>, outs: seq<(nat, string)>)
    ensures forall o | o in Outputs(cs, outs) :: o.candidate in cs
  {
    if outs != [] {
      OutputsArePart(cs, outs[1..]);
    }
  }

  /** A page's earlier analysis, as selected, is a stored model-made one of that page by that analyzer. */
  lemma PreviousIsRemembered(sp: Splitter, st: Store, item: nat, analyzer: string)
    requires SoundStore(sp, st)
    ensures var p := PreviousOf(st, item, analyzer); p.Some? ==> RemembersRoot(st, analyzer, item, p.value)
  {
    LatestIsOurs(st.rows, item, analyzer, st.lastRow);
    var latest := Latest(st.rows, item, analyzer, st.lastRow);
    if latest.Some? {
      assert Stored(st, latest.value) && Rooted(sp, st, latest.value);
      var root := RootOf(latest.value, st.rows[latest.value]);
      if root.Some? {
        assert Stored(st, root.value);
      }
    }
  }

  lemma {:induction false} SelectRemembers(sp: Splitter, st: Store, items: seq<nat>, analyzer: string, reanalyze: bool)
    requires SoundStore(sp, st)
    ensures forall c | c in Select(st, items, analyzer, reanalyze) :: Remembers(st, analyzer, c)
  {
    if items != [] {
      SelectRemembers(sp, st, items[1..], analyzer, reanalyze);
      PreviousIsRemembered(sp, st, items[0], analyzer);
      assert items[0] in st.current ==> CurrentIs(st, items[0]);
    }
  }

  lemma CaptureKeeps(sp: Splitter, st: Store, item: nat, text: string, title: Option<string>)
    requires SoundStore(sp, st)
    ensures var v := st.lastVersion + 1;
            var next := st.(versions := st.versions[v := Version(item, text, title)], lastVersion := v,
                            current := st.current[item := v]);
            SoundStore(sp, next) && Grows(st, next)
  {
    var v := st.lastVersion + 1;
    var next := st.(versions := st.versions[v := Version(item, text, title)], lastVersion := v,
                    current := st.current[item := v]);
    forall x | x in next.rows ensures Stored(next, x) && Rooted(sp, next, x) {
      assert Stored(st, x) && Rooted(sp, st, x);
    }
    forall i | i in next.current ensures CurrentIs(next, i) {
      assert i != item ==> CurrentIs(st, i);
    }
  }

  /** Every step keeps the store sound, and only ever adds under new identities. */
  lemma StoreKeeps(sp: Splitter, s: System, step: Step)
    requires Sound(sp, s)
    ensures SoundStore(sp, Next(sp, s, step).store) && Grows(s.store, Next(sp, s, step).store)
  {
    var st := s.store;
    match step
    case Capture(item, text, title) => CaptureKeeps(sp, st, item, text, title);
    case Forget(versions) => DeleteKeeps(sp, st, versions, RowsOf(st.rows, versions));
    case Begin(analyzer, reanalyze, items) =>
    case Carry(run, now) => if run < |s.runs| { CarryRunKeeps(sp, s, run, now); }
    case Persist(run, outs, now) => if run < |s.runs| { PersistRunKeeps(sp, s, run, outs, now); }
  }

  lemma CarryRunKeeps(sp: Splitter, s: System, run: nat, now: int)
    requires Sound(sp, s) && run < |s.runs|
    ensures var carried := CarryAll(s.store, Filter(sp, s.runs[run].candidates), now);
            carried.Ok? ==> SoundStore(sp, carried.value) && Grows(s.store, carried.value)
  {
    var r := s.runs[run];
    if CarryAll(s.store, Filter(sp, r.candidates), now).Ok? {
      FilterIsPart(sp, r.candidates);
      assert SoundRun(s.store, r);
      CarryAllKeeps(sp, s.store, Filter(sp, r.candidates), r.analyzer, now);
    }
  }

  lemma PersistRunKeeps(sp: Splitter, s: System, run: nat, outs: seq<(nat, string)>, now: int)
    requires Sound(sp, s) && run < |s.runs|
    ensures var r := s.runs[run];
            var stored := PersistAll(s.store, Outputs(r.candidates, outs), r.analyzer, r.reanalyze, now);
            stored.Ok? ==> SoundStore(sp, stored.value) && Grows(s.store, stored.value)
  {
    var r := s.runs[run];
    if PersistAll(s.store, Outputs(r.candidates, outs), r.analyzer, r.reanalyze, now).Ok? {
      OutputsArePart(r.candidates, outs);
      assert SoundRun(s.store, r);
      PersistAllKeeps(sp, s.store, Outputs(r.candidates, outs), r.analyzer, r.reanalyze, now);
    }
  }

  lemma StepKeeps(sp: Splitter, s: System, step: Step)
    requires Sound(sp, s)
    ensures Sound(sp, Next(sp, s, step))
  {
    StoreKeeps(sp, s, step);
    var next := Next(sp, s, step);
    forall r | r in next.runs ensures SoundRun(next.store, r) {
      if r in s.runs {
        assert SoundRun(s.store, r);
        forall c | c in r.candidates ensures Remembers(next.store, r.analyzer, c) {
          StillRemembers(sp, s.store, next.store, r.analyzer, c);
        }
      } else {
        SelectRemembers(sp, s.store, step.items, step.analyzer, step.reanalyze);
      }
    }
  }

  lemma {:induction false} HistoryKeeps(sp: Splitter, s: System, steps: seq<Step>)
    requires Sound(sp, s)
    ensures Sound(sp, After(sp, s, steps))
    decreases |steps|
  {
    if steps != [] {
      StepKeeps(sp, s, steps[0]);
      HistoryKeeps(sp, Next(sp, s, steps[0]), steps[1..]);
    }
  }

  /**
   * Carrying forward never drifts. In every history of captures, deletions and interleaved runs, a copy that names a
   * source names a stored model-made analysis of the same page, with the same results, whose text it differs from by
   * at most twelve words and whose title it shares: however many minor edits came in between.
   */
  lemma NeverDrifts(sp: Splitter, steps: seq<Step>, id: nat)
    requires var rows := After(sp, EMPTY, steps).store.rows;
             id in rows && rows[id].how.CarriedForward? && rows[id].how.source.Some?
    ensures var st := After(sp, EMPTY, steps).store;
            var row := st.rows[id];
            && row.how.source.value in st.rows
            && var root := st.rows[row.how.source.value];
            && root.how.Llm? && root.item == row.item && root.analyzer == row.analyzer && root.fields == row.fields
            && root.version in st.versions && row.version in st.versions
            && var was, now := st.versions[root.version], st.versions[row.version];
            var diff := DiffTexts(sp, was.text, now.text, was.title, now.title);
            && was.item == now.item == row.item
            && diff.wordsAdded + diff.wordsRemoved <= 12
            && TitleOf(sp, was.title) == TitleOf(sp, now.title)
  {
    HistoryKeeps(sp, EMPTY, steps);
    var st := After(sp, EMPTY, steps).store;
    assert Stored(st, id) && Rooted(sp, st, id);
    assert Stored(st, st.rows[id].how.source.value);
  }

  /** And no version is ever analysed twice by one analyzer. */
  lemma NeverTwice(sp: Splitter, steps: seq<Step>, x: nat, y: nat)
    requires var rows := After(sp, EMPTY, steps).store.rows;
             x in rows && y in rows && rows[x].version == rows[y].version && rows[x].analyzer == rows[y].analyzer
    ensures x == y
  {
    HistoryKeeps(sp, EMPTY, steps);
  }

  // ---------- a run nobody disturbs ----------

  /** A candidate that can be copied now: its version has no analysis yet and its earlier one is stored. */
  ghost predicate Ready(st: Store, analyzer: string, c: Candidate) {
    && c.version in st.versions && st.versions[c.version].item == c.item && !HasAnalysis(st, c.version, analyzer)
    && c.previous.Some? && c.previous.value.analysis in st.rows
        && st.rows[c.previous.value.analysis].analyzer == analyzer
  }

  ghost predicate Copied(st: Store, analyzer: string, c: Candidate) {
    c.previous.Some? && exists id | id in st.rows ::
        CopyOf(st.rows[id], analyzer, c.item, c.version, c.previous.value.analysis)
  }

  predicate CopyOf(row: Row, analyzer: string, item: nat, version: nat, root: nat) {
    row.item == item && row.version == version && row.analyzer == analyzer && row.how == CarriedForward(Some(root))
  }

  lemma {:induction false} SelectedOnce(sp: Splitter, st: Store, items: seq<nat>, analyzer: string)
    requires SoundStore(sp, st) && Distinct(items)
    ensures var cs := Filter(sp, Select(st, items, analyzer, false));
            (forall c | c in cs :: Ready(st, analyzer, c) && c.item in items) && OneEach(cs)
  {
    if items != [] {
      SelectedOnce(sp, st, items[1..], analyzer);
      PreviousIsRemembered(sp, st, items[0], analyzer);
      assert items[0] in st.current ==> CurrentIs(st, items[0]);
      var cs, rest := Select(st, items, analyzer, false), Select(st, items[1..], analyzer, false);
      if cs != rest {
        assert cs == [cs[0]] + rest;
        assert cs[1..] == rest;
      }
    }
  }

  ghost predicate OneEach(cs: seq<Candidate>) {
    forall i, j | 0 <= i < j < |cs| :: cs[i].item != cs[j].item
  }

  lemma CarryOneReady(sp: Splitter, st: Store, c: Candidate, analyzer: string, now: int)
    requires SoundStore(sp, st) && Ready(st, analyzer, c)
    ensures CarryOne(st, c, now).Ok?
    ensures var next := CarryOne(st, c, now).value;
            && next.versions == st.versions && next.lastRow == st.lastRow + 1 && st.lastRow + 1 !in st.rows
            && var root := c.previous.value.analysis;
               next.rows == st.rows[st.lastRow + 1 := Row(c.item, c.version, CarriedForward(Some(root)), analyzer, now,
                                                          st.rows[root].fields)]
  {
    forall x | x in st.rows ensures x != st.lastRow + 1 {
      assert Stored(st, x);
    }
  }

  lemma StaysReady(st: Store, next: Store, analyzer: string, row: Row, c: Candidate)
    requires Ready(st, analyzer, c) && st.lastRow + 1 !in st.rows && row.version in st.versions
    requires next.versions == st.versions && next.rows == st.rows[st.lastRow + 1 := row]
    requires st.versions[row.version].item != c.item
    ensures Ready(next, analyzer, c)
  {
  }

  ghost predicate Extends(st: Store, next: Store) {
    forall id | id in st.rows :: id in next.rows && next.rows[id] == st.rows[id]
  }

  lemma {:induction false} CarryAllReady(sp: Splitter, st: Store, cs: seq<Candidate>, analyzer: string, now: int)
    requires SoundStore(sp, st) && OneEach(cs)
    requires forall c | c in cs :: Ready(st, analyzer, c) && Remembers(st, analyzer, c) && c.CarriesForward(sp)
    ensures CarryAll(st, cs, now).Ok?
    ensures var next := CarryAll(st, cs, now).value;
            next.lastRow == st.lastRow + |cs| && Extends(st, next) && forall c | c in cs :: Copied(next, analyzer, c)
    decreases |cs|
  {
    if cs != [] {
      var c := cs[0];
      CarryOneReady(sp, st, c, analyzer, now);
      CarryOneKeeps(sp, st, c, analyzer, now);
      var mid := CarryOne(st, c, now).value;
      var row := mid.rows[mid.lastRow];
      forall d | d in cs[1..] ensures Ready(mid, analyzer, d) && Remembers(mid, analyzer, d) && d.CarriesForward(sp) {
        var k :| 0 <= k < |cs[1..]| && cs[1..][k] == d;
        assert cs[k + 1] == d && cs[0].item != cs[k + 1].item;
        StaysReady(st, mid, analyzer, row, d);
        StillRemembers(sp, st, mid, analyzer, d);
      }
      CarryAllReady(sp, mid, cs[1..], analyzer, now);
      var next := CarryAll(st, cs, now).value;
      assert CopyOf(next.rows[mid.lastRow], analyzer, c.item, c.version, c.previous.value.analysis);
      forall d | d in cs ensures Copied(next, analyzer, d) {
        assert d == c || d in cs[1..];
      }
    }
  }

  /** A run whose copying directly follows its selection never fails, and copies every page with a minor edit. */
  lemma UndisturbedRunCarries(sp: Splitter, st: Store, items: seq<nat>, analyzer: string, now: int)
    requires SoundStore(sp, st) && Distinct(items)
    ensures var cs := Filter(sp, Select(st, items, analyzer, false));
            && CarryAll(st, cs, now).Ok? && CarryAll(st, cs, now).value.lastRow == st.lastRow + |cs|
            && forall c | c in cs :: Copied(CarryAll(st, cs, now).value, analyzer, c)
  {
    var all := Select(st, items, analyzer, false);
    SelectedOnce(sp, st, items, analyzer);
    SelectRemembers(sp, st, items, analyzer, false);
    FilterIsPart(sp, all);
    CarryAllReady(sp, st, Filter(sp, all), analyzer, now);
  }

  /** Two pages never share a root, so keying earlier analyses by their root loses none. */
  lemma RootsDiffer(sp: Splitter, st: Store, i: nat, j: nat, analyzer: string)
    requires SoundStore(sp, st) && LatestRoot(st, i, analyzer).Some?
    requires LatestRoot(st, i, analyzer) == LatestRoot(st, j, analyzer)
    ensures i == j && LatestRoot(st, i, analyzer).value in st.rows
            && st.rows[LatestRoot(st, i, analyzer).value].how.Llm?
    ensures 1 <= LatestRoot(st, i, analyzer).value <= st.lastRow
            && RootText(st, LatestRoot(st, i, analyzer).value).Some?
  {
    forall k | k == i || k == j
      ensures var root := LatestRoot(st, k, analyzer).value;
             root in st.rows && st.rows[root].item == k && st.rows[root].how.Llm?
    {
      LatestIsOurs(st.rows, k, analyzer, st.lastRow);
      var latest := Latest(st.rows, k, analyzer, st.lastRow).value;
      assert Rooted(sp, st, latest);
    }
    assert Stored(st, LatestRoot(st, i, analyzer).value);
  }

  // ---------- the database, changed in place ----------

  class Analyses {
    const sp: Splitter
    var store: Store

    constructor (sp: Splitter)
      ensures this.sp == sp && store == EMPTY.store && SoundStore(sp, store)
    {
      this.sp, store := sp, EMPTY.store;
    }

    /** `_previous`: the latest analyses' roots first, by root, then the texts of those that are model-made. */
    method PreviousFor(items: seq<nat>, analyzer: string) returns (previous: map<nat, Previous>)
      requires SoundStore(sp, store)
      ensures forall i :: i in previous <==> i in items && PreviousOf(store, i, analyzer).Some?
      ensures forall i | i in previous :: Some(previous[i]) == PreviousOf(store, i, analyzer)
    {
      var roots := RootsFor(items, analyzer);
      previous := map[];
      for id := 1 to store.lastRow + 1
        invariant forall i | i in previous :: i in items && Some(previous[i]) == PreviousOf(store, i, analyzer)
        invariant forall r | r in roots && r < id && RootText(store, r).Some? :: roots[r] in previous
      {
        if id in roots {
          var text := RootText(store, id);
          if text.Some? {
            previous := previous[roots[id] := text.value];
          }
        }
      }
      forall i | i in items && PreviousOf(store, i, analyzer).Some? ensures i in previous {
        RootsDiffer(sp, store, i, i, analyzer);
        assert roots[LatestRoot(store, i, analyzer).value] == i;
      }
    }

    /** Each item's root, keyed by the root. */
    method RootsFor(items: seq<nat>, analyzer: string) returns (roots: map<nat, nat>)
      requires SoundStore(sp, store)
      ensures forall r | r in roots :: roots[r] in items && LatestRoot(store, roots[r], analyzer) == Some(r)
      ensures forall i | i in items && LatestRoot(store, i, analyzer).Some? ::
                LatestRoot(store, i, analyzer).value in roots && roots[LatestRoot(store, i, analyzer).value] == i
    {
      roots := map[];
      for k := 0 to |items|
        invariant forall r | r in roots :: roots[r] in items[..k] && LatestRoot(store, roots[r], analyzer) == Some(r)
        invariant forall i | i in items[..k] && LatestRoot(store, i, analyzer).Some? ::
                    LatestRoot(store, i, analyzer).value in roots && roots[LatestRoot(store, i, analyzer).value] == i
      {
        var root := LatestRoot(store, items[k], analyzer);
        assert items[..k + 1] == items[..k] + [items[k]];
        if root.Some? {
          if root.value in roots {
            RootsDiffer(sp, store, items[k], roots[root.value], analyzer);
          }
          roots := roots[root.value := items[k]];
        }
      }
      assert items[..|items|] == items;
    }

    /** `_carry_forward`, in one transaction. */
    method CarryForward(candidates: seq<Candidate>, now: int) returns (carried: Result<nat, Failure>)
      modifies this
      ensures store == Commit(old(store), CarryAll(old(store), candidates, now))
      ensures carried.Ok?
              ==> CarryAll(old(store), candidates, now).Ok? && carried.value == store.lastRow - old(store.lastRow)
      ensures carried.Err? ==> CarryAll(old(store), candidates, now) == carried.PropagateFailure()
    {
      var working, count := store, 0;
      for k := 0 to |candidates|
        invariant store == old(store) && CarryAll(store, candidates, now) == CarryAll(working, candidates[k..], now)
        invariant working.lastRow == store.lastRow + count
      {
        var c := candidates[k];
        assert candidates[k..][0] == c && candidates[k..][1..] == candidates[k + 1..];
        if c.previous.None? || c.previous.value.analysis !in working.rows {
          continue;
        }
        var root := c.previous.value.analysis;
        var added := AddRow(working, Row(c.item, c.version, CarriedForward(Some(root)), working.rows[root].analyzer,
                                         now, working.rows[root].fields));
        if added.IsFailure() {
          return added.PropagateFailure();
        }
        working, count := added.value, count + 1;
      }
      store := working;
      carried := Ok(count);
    }

    /** `_persist`, in one transaction: no version ever gets a second analysis. */
    method Persist(outs: seq<Output>, analyzer: string, reanalyze: bool, now: int)
      returns (analyzed: Result<nat, Failure>)
      modifies this
      ensures store == Commit(old(store), PersistAll(old(store), outs, analyzer, reanalyze, now))
      ensures analyzed.Ok? ==> PersistAll(old(store), outs, analyzer, reanalyze, now).Ok?
                               && analyzed.value == store.lastRow - old(store.lastRow)
      ensures analyzed.Err? ==> PersistAll(old(store), outs, analyzer, reanalyze, now) == analyzed.PropagateFailure()
    {
      var working, count := store, 0;
      for k := 0 to |outs|
        invariant store == old(store)
        invariant PersistAll(store, outs, analyzer, reanalyze, now)
                  == PersistAll(working, outs[k..], analyzer, reanalyze, now)
        invariant working.lastRow == store.lastRow + count
      {
        var c := outs[k].candidate;
        assert outs[k..][0] == outs[k] && outs[k..][1..] == outs[k + 1..];
        var existing := Existing(working, c.version, analyzer);
        if existing != {} {
          if !reanalyze {
            continue;
          }
        }
        working := working.(rows := DeleteRows(working.rows, existing));
        var added := AddRow(working, Row(c.item, c.version, Llm, analyzer, now, outs[k].fields));
        if added.IsFailure() {
          return added.PropagateFailure();
        }
        working, count := added.value, count + 1;
      }
      store := working;
      analyzed := Ok(count);
    }
  }
}
