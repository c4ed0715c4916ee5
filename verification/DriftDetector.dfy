/** Tool baselines and what sightings of a server's tool list make of them
    (services/gateway/drift_detector.py, DriftDetector.check, _first_sighting and approve). */
module DriftDetector {
  import opened Values
  import opened DriftClassifier

  /** Stored as the observed hash while a baselined tool is missing from the list. */
  const SENTINEL := "----------------------------------------------------------------"

  /** Hashing, the rename heuristic's shape, the listed name, the content heuristics and
      the configured severity of a description change. */
  datatype Settings = Settings(
    hash: Object -> string,
    shape: Object -> string,
    name: Object -> string,
    suspicious: Object -> bool,
    textual: Drift)

  ghost predicate Sensible(st: Settings) {
    Injective(st.hash) && Configured(st.textual) && forall t :: st.hash(t) != SENTINEL
  }

  /** The accepted definition of a tool, and the latest one that differs from it. */
  datatype Baseline = Baseline(
    approvedSchema: Object,
    approvedHash: string,
    blocked: bool,
    observedSchema: Option<Object>,
    observedHash: Option<string>,
    suspicious: bool)

  /** Audit rows of the detector. */
  datatype Entry =
    | Drifted(tool: string, severity: Drift, blocked: bool, approved: string, observed: string)
    | RenamedFrom(tool: string, source: string, observed: string)
    | Gone(tool: string)
    | Flagged(tool: string)
    | Approved(tool: string, oldHash: string, newHash: string)

  type Baselines = map<string, Baseline>

  function Live(st: Settings, tools: seq<Object>): map<string, Object> {
    if tools == [] then map[]
    else Live(st, tools[..|tools| - 1])[st.name(tools[|tools| - 1]) := tools[|tools| - 1]]
  }

  // ----- what a sighting does to one tool -----

  /** The severity of a sighting whose hash is not the approved one. */
  ghost function DriftOf(st: Settings, row: Baseline, tool: Object): Drift {
    var d := ToolDrift(st.hash, st.textual, row.approvedSchema, tool);
    if d == Same then High else d
  }

  /** An already reported drift is not reported again, unless it should block and does not yet. */
  ghost predicate Known(st: Settings, row: Baseline, tool: Object) {
    row.observedHash == Some(st.hash(tool)) && (row.blocked || !Blocks(DriftOf(st, row, tool)))
  }

  ghost function Sighted(st: Settings, row: Baseline, tool: Object): Baseline {
    if st.hash(tool) == row.approvedHash then
      (if row.observedHash.Some? then row.(observedHash := None, observedSchema := None, blocked := false) else row)
    else if Known(st, row, tool) then row
    else row.(observedSchema := Some(tool), observedHash := Some(st.hash(tool)),
              blocked := row.blocked || Blocks(DriftOf(st, row, tool)))
  }

  ghost function SightedEntries(st: Settings, name: string, row: Baseline, tool: Object): seq<Entry> {
    if st.hash(tool) == row.approvedHash || Known(st, row, tool) then []
    else [Drifted(name, DriftOf(st, row, tool), Blocks(DriftOf(st, row, tool)), row.approvedHash, st.hash(tool))]
  }

  /** The severity of the sighting can be told, or is not asked for. */
  ghost predicate Classified(st: Settings, row: Baseline, tool: Object) {
    st.hash(tool) == row.approvedHash || ToolDrift(st.hash, st.textual, row.approvedSchema, tool) != Raised
  }

  /** So with every listed tool of the given ones that has a baseline. */
  ghost predicate AllClassified(st: Settings, b: Baselines, live: map<string, Object>, names: set<string>) {
    forall n :: n in names && n in live && n in b ==> Classified(st, b[n], live[n])
  }

  lemma OneMoreClassified(st: Settings, b: Baselines, live: map<string, Object>, names: set<string>, n: string)
    requires n in live
    ensures AllClassified(st, b, live, names + {n}) <==> AllClassified(st, b, live, names) && (n in b ==> Classified(st, b[n], live[n]))
    ensures AllClassified(st, b, live, live.Keys) && n in b ==> Classified(st, b[n], live[n])
  {
    hide Classified;
  }

  lemma NoneClassified(st: Settings, b: Baselines, live: map<string, Object>)
    ensures AllClassified(st, b, live, {})
  {
  }

  /** The new baseline: trusted as it is, or blocked when it looks like a renamed tool. */
  function First(st: Settings, tool: Object, source: Option<string>): Baseline {
    if source.None? then Baseline(tool, st.hash(tool), false, None, None, st.suspicious(tool))
    else Baseline(tool, st.hash(tool), true, Some(tool), Some(st.hash(tool)), st.suspicious(tool))
  }

  function FirstEntries(st: Settings, name: string, tool: Object, source: Option<string>): seq<Entry> {
    (if st.suspicious(tool) then [Flagged(name)] else [])
    + (if source.Some? then [RenamedFrom(name, source.value, st.hash(tool))] else [])
  }

  function Missing(row: Baseline): Baseline {
    if row.observedHash == Some(SENTINEL) then row else row.(observedHash := Some(SENTINEL), observedSchema := None)
  }

  function MissingEntries(name: string, row: Baseline): seq<Entry> {
    if row.observedHash == Some(SENTINEL) then [] else [Gone(name)]
  }

  // ----- what a check does to all of them -----

  /** Which baselined tool each new tool was taken for. */
  type Sources = map<string, Option<string>>

  predicate LooksLike(st: Settings, b: Baselines, live: map<string, Object>, tool: Object, source: string) {
    source in b && source !in live && st.shape(b[source].approvedSchema) == st.shape(tool)
  }

  /** A new tool is taken for some missing tool of the same shape, if there is one. */
  ghost predicate Chosen(st: Settings, b: Baselines, live: map<string, Object>, sources: Sources) {
    && sources.Keys == live.Keys - b.Keys
    && SourcesFit(st, b, live, sources)
  }

  function Renamed(sources: Sources): set<string> {
    set n | n in sources && sources[n].Some? :: sources[n].value
  }

  ghost function Outcome(st: Settings, b: Baselines, live: map<string, Object>, sources: Sources, n: string): Baseline
    requires n in live && n !in b ==> n in sources
    requires n in live || n in b
  {
    if n in live then (if n in b then Sighted(st, b[n], live[n]) else First(st, live[n], sources[n]))
    else if n in Renamed(sources) then b[n]
    else Missing(b[n])
  }

  ghost function EntriesAt(st: Settings, b: Baselines, live: map<string, Object>, sources: Sources, n: string): seq<Entry>
    requires n in live && n !in b ==> n in sources
  {
    if n in live then
      (if n in b then SightedEntries(st, n, b[n], live[n]) else FirstEntries(st, n, live[n], sources[n]))
    else if n !in b || n in Renamed(sources) then []
    else MissingEntries(n, b[n])
  }

  /** The baselines after a completed check. */
  ghost predicate Checked(st: Settings, b: Baselines, live: map<string, Object>, sources: Sources, after: Baselines) {
    && Chosen(st, b, live, sources)
    && after.Keys == b.Keys + live.Keys
    && forall n :: n in after ==> after[n] == Outcome(st, b, live, sources, n)
  }

  /** The rows about one tool. */
  function OfTool(log: seq<Entry>, n: string): seq<Entry> {
    if log == [] then []
    else OfTool(log[..|log| - 1], n) + if log[|log| - 1].tool == n then [log[|log| - 1]] else []
  }

  /** The rows a completed check writes, tool by tool. */
  ghost predicate Reported(st: Settings, b: Baselines, live: map<string, Object>, sources: Sources, rows: seq<Entry>)
    requires Chosen(st, b, live, sources)
  {
    forall n :: OfTool(rows, n) == EntriesAt(st, b, live, sources, n)
  }

  lemma {:induction false} OfToolConcat(a: seq<Entry>, b: seq<Entry>, n: string)
    ensures OfTool(a + b, n) == OfTool(a, n) + OfTool(b, n)
  {
    if b == [] {
      assert a + b == a;
    } else {
      var k := |b| - 1;
      assert (a + b)[..|a + b| - 1] == a + b[..k];
      OfToolConcat(a, b[..k], n);
    }
  }

  lemma {:induction false} OfToolAlone(rows: seq<Entry>, name: string, n: string)
    requires forall e :: e in rows ==> e.tool == name
    ensures OfTool(rows, n) == if n == name then rows else []
  {
    if rows != [] {
      var k := |rows| - 1;
      assert rows == rows[..k] + [rows[k]];
      OfToolAlone(rows[..k], name, n);
      assert rows[k] in rows;
    }
  }

  lemma Appended(log: seq<Entry>, a: seq<Entry>, b: seq<Entry>)
    ensures log + a + b == log + (a + b)
  {
  }

  lemma NoRowsYet()
    ensures forall n :: OfTool([], n) == []
  {
  }

  /** Appending the rows of one tool adds them to that tool's and to no other's. */
  lemma RowsGrow(rows: seq<Entry>, more: seq<Entry>, name: string)
    requires forall e :: e in more ==> e.tool == name
    ensures forall n :: OfTool(rows + more, n) == OfTool(rows, n) + if n == name then more else []
  {
    forall n ensures OfTool(rows + more, n) == OfTool(rows, n) + if n == name then more else [] {
      OfToolConcat(rows, more, n);
      OfToolAlone(more, name, n);
    }
  }

  /** How far the first loop of a check has come: the listed tools in `done` are dealt with. */
  ghost predicate Progress(st: Settings, b: Baselines, live: map<string, Object>, sources: Sources, done: set<string>,
                           after: Baselines, rows: seq<Entry>) {
    && done <= live.Keys && sources.Keys == done - b.Keys
    && SourcesFit(st, b, live, sources)
    && AfterFits(st, b, live, sources, done, after)
    && RowsFit(st, b, live, sources, done, rows)
  }

  ghost predicate SourceFits(st: Settings, b: Baselines, live: map<string, Object>, tool: Object, source: Option<string>) {
    if source.Some? then LooksLike(st, b, live, tool, source.value)
    else forall s :: !LooksLike(st, b, live, tool, s)
  }

  ghost predicate SourcesFit(st: Settings, b: Baselines, live: map<string, Object>, sources: Sources) {
    forall n :: n in sources ==> n in live && SourceFits(st, b, live, live[n], sources[n])
  }

  ghost predicate AfterFits(st: Settings, b: Baselines, live: map<string, Object>, sources: Sources, done: set<string>,
                            after: Baselines)
    requires done <= live.Keys && sources.Keys == done - b.Keys
  {
    && after.Keys == b.Keys + done
    && forall n :: n in after ==> after[n] == if n in done then Outcome(st, b, live, sources, n) else b[n]
  }

  ghost predicate RowsFit(st: Settings, b: Baselines, live: map<string, Object>, sources: Sources, done: set<string>,
                          rows: seq<Entry>)
    requires done <= live.Keys && sources.Keys == done - b.Keys
  {
    forall n :: OfTool(rows, n) == if n in done then EntriesAt(st, b, live, sources, n) else []
  }

  lemma NothingDoneYet(st: Settings, b: Baselines, live: map<string, Object>)
    ensures Progress(st, b, live, map[], {}, b, [])
  {
    NoRowsYet();
  }

  lemma AfterFitsMore(st: Settings, b: Baselines, live: map<string, Object>, sources: Sources, done: set<string>,
                      after: Baselines, more: Sources, name: string)
    requires done <= live.Keys && sources.Keys == done - b.Keys && AfterFits(st, b, live, sources, done, after)
    requires name in live && name !in done && more.Keys == done + {name} - b.Keys
    requires forall n :: n in done ==> Outcome(st, b, live, more, n) == Outcome(st, b, live, sources, n)
    ensures AfterFits(st, b, live, more, done + {name}, after[name := Outcome(st, b, live, more, name)])
  {
    hide Outcome;
  }

  lemma RowsFitMore(st: Settings, b: Baselines, live: map<string, Object>, sources: Sources, done: set<string>,
                    rows: seq<Entry>, more: Sources, name: string)
    requires done <= live.Keys && sources.Keys == done - b.Keys && RowsFit(st, b, live, sources, done, rows)
    requires name in live && name !in done && more.Keys == done + {name} - b.Keys
    requires forall n :: n in done ==> EntriesAt(st, b, live, more, n) == EntriesAt(st, b, live, sources, n)
    requires forall e :: e in EntriesAt(st, b, live, more, name) ==> e.tool == name
    ensures RowsFit(st, b, live, more, done + {name}, rows + EntriesAt(st, b, live, more, name))
  {
    hide EntriesAt, OfTool;
    RowsGrow(rows, EntriesAt(st, b, live, more, name), name);
  }

  lemma ProgressOnKnown(st: Settings, b: Baselines, live: map<string, Object>, sources: Sources, done: set<string>,
                        after: Baselines, rows: seq<Entry>, name: string)
    requires Progress(st, b, live, sources, done, after, rows) && name in live && name in b && name !in done
    ensures Progress(st, b, live, sources, done + {name}, after[name := Sighted(st, b[name], live[name])],
                     rows + SightedEntries(st, name, b[name], live[name]))
  {
    hide AfterFits, RowsFit, SourcesFit, Sighted, First, FirstEntries, DriftOf, Known;
    AfterFitsMore(st, b, live, sources, done, after, sources, name);
    RowsFitMore(st, b, live, sources, done, rows, sources, name);
  }

  /** The source of one new tool is no other listed tool's business. */
  lemma OthersUnmoved(st: Settings, b: Baselines, live: map<string, Object>, sources: Sources, name: string,
                      source: Option<string>, n: string)
    requires n in live && n != name && (n !in b ==> n in sources)
    ensures Outcome(st, b, live, sources[name := source], n) == Outcome(st, b, live, sources, n)
    ensures EntriesAt(st, b, live, sources[name := source], n) == EntriesAt(st, b, live, sources, n)
  {
    hide Sighted, SightedEntries, First, FirstEntries;
  }

  lemma ProgressOnNew(st: Settings, b: Baselines, live: map<string, Object>, sources: Sources, done: set<string>,
                      after: Baselines, rows: seq<Entry>, name: string, source: Option<string>)
    requires Progress(st, b, live, sources, done, after, rows) && name in live && name !in b && name !in done
    requires SourceFits(st, b, live, live[name], source)
    ensures Progress(st, b, live, sources[name := source], done + {name}, after[name := First(st, live[name], source)],
                     rows + FirstEntries(st, name, live[name], source))
  {
    hide AfterFits, RowsFit, SourceFits, First, Outcome, EntriesAt;
    var more := sources[name := source];
    FirstIs(st, b, live, more, name);
    forall n | n in done
      ensures Outcome(st, b, live, more, n) == Outcome(st, b, live, sources, n)
      ensures EntriesAt(st, b, live, more, n) == EntriesAt(st, b, live, sources, n)
    {
      OthersUnmoved(st, b, live, sources, name, source, n);
    }
    AfterFitsMore(st, b, live, sources, done, after, more, name);
    RowsFitMore(st, b, live, sources, done, rows, more, name);
  }

  lemma FirstIs(st: Settings, b: Baselines, live: map<string, Object>, sources: Sources, name: string)
    requires name in live && name !in b && name in sources
    ensures Outcome(st, b, live, sources, name) == First(st, live[name], sources[name])
    ensures EntriesAt(st, b, live, sources, name) == FirstEntries(st, name, live[name], sources[name])
  {
  }

  /** How far the second loop has come: the listed tools and the baselines in `seen` are
      dealt with. */
  ghost predicate Swept(st: Settings, b: Baselines, live: map<string, Object>, sources: Sources, seen: set<string>,
                        after: Baselines, rows: seq<Entry>) {
    && Chosen(st, b, live, sources)
    && SweptAfter(st, b, live, sources, seen, after)
    && SweptRows(st, b, live, sources, seen, rows)
  }

  ghost predicate SweptAfter(st: Settings, b: Baselines, live: map<string, Object>, sources: Sources, seen: set<string>,
                             after: Baselines)
    requires sources.Keys == live.Keys - b.Keys
  {
    && after.Keys == b.Keys + live.Keys
    && forall n :: n in after ==> after[n] == if n in live || n in seen then Outcome(st, b, live, sources, n) else b[n]
  }

  ghost predicate SweptRows(st: Settings, b: Baselines, live: map<string, Object>, sources: Sources, seen: set<string>,
                            rows: seq<Entry>)
    requires sources.Keys == live.Keys - b.Keys
  {
    forall n :: OfTool(rows, n) == if n in live || n in seen then EntriesAt(st, b, live, sources, n) else []
  }

  lemma ListedAreDone(st: Settings, b: Baselines, live: map<string, Object>, sources: Sources, after: Baselines, rows: seq<Entry>)
    requires Progress(st, b, live, sources, live.Keys, after, rows)
    ensures Swept(st, b, live, sources, {}, after, rows)
  {
    hide Outcome, EntriesAt, OfTool;
  }

  lemma AllAreDone(st: Settings, b: Baselines, live: map<string, Object>, sources: Sources, after: Baselines, rows: seq<Entry>)
    requires Swept(st, b, live, sources, b.Keys, after, rows)
    ensures Checked(st, b, live, sources, after) && Reported(st, b, live, sources, rows)
  {
    hide Outcome, OfTool;
    forall n ensures OfTool(rows, n) == EntriesAt(st, b, live, sources, n) {}
  }

  /** What the second loop makes of one baseline. */
  lemma SweptOne(st: Settings, b: Baselines, live: map<string, Object>, sources: Sources, name: string)
    requires name in b && name !in live
    ensures name in Renamed(sources) ==>
      Outcome(st, b, live, sources, name) == b[name] && EntriesAt(st, b, live, sources, name) == []
    ensures name !in Renamed(sources) ==>
      Outcome(st, b, live, sources, name) == Missing(b[name])
      && EntriesAt(st, b, live, sources, name) == MissingEntries(name, b[name])
  {
  }

  lemma SweptMore(st: Settings, b: Baselines, live: map<string, Object>, sources: Sources, seen: set<string>,
                  after: Baselines, rows: seq<Entry>, name: string)
    requires Swept(st, b, live, sources, seen, after, rows) && name in b && name !in seen
    ensures name in live || name in Renamed(sources) ==> Swept(st, b, live, sources, seen + {name}, after, rows)
    ensures name !in live && name !in Renamed(sources) ==>
      Swept(st, b, live, sources, seen + {name}, after[name := Missing(b[name])], rows + MissingEntries(name, b[name]))
  {
    hide SweptAfter, SweptRows, Outcome, EntriesAt, SourcesFit, Missing, Renamed;
    SweptAfterMore(st, b, live, sources, seen, after, name);
    SweptRowsMore(st, b, live, sources, seen, rows, name);
    if name !in live {
      SweptOne(st, b, live, sources, name);
    }
  }

  lemma SweptAfterMore(st: Settings, b: Baselines, live: map<string, Object>, sources: Sources, seen: set<string>,
                       after: Baselines, name: string)
    requires sources.Keys == live.Keys - b.Keys && SweptAfter(st, b, live, sources, seen, after) && name in b
    ensures name in live || (name !in seen && Outcome(st, b, live, sources, name) == b[name]) ==>
      SweptAfter(st, b, live, sources, seen + {name}, after)
    ensures name !in live ==>
      SweptAfter(st, b, live, sources, seen + {name}, after[name := Outcome(st, b, live, sources, name)])
  {
    hide Outcome;
  }

  lemma SweptRowsMore(st: Settings, b: Baselines, live: map<string, Object>, sources: Sources, seen: set<string>,
                      rows: seq<Entry>, name: string)
    requires sources.Keys == live.Keys - b.Keys && SweptRows(st, b, live, sources, seen, rows) && name in b && name !in seen
    ensures name in live || EntriesAt(st, b, live, sources, name) == [] ==>
      SweptRows(st, b, live, sources, seen + {name}, rows)
    ensures name !in live && (forall e :: e in EntriesAt(st, b, live, sources, name) ==> e.tool == name) ==>
      SweptRows(st, b, live, sources, seen + {name}, rows + EntriesAt(st, b, live, sources, name))
  {
    hide EntriesAt, OfTool;
    var more := EntriesAt(st, b, live, sources, name);
    if forall e :: e in more ==> e.tool == name {
      RowsGrow(rows, more, name);
    }
  }

  // ----- invariants -----

  /** Hashes match their schemas, and only a baseline with something observed is blocked. */
  ghost predicate Coherent(hash: Object -> string, b: Baselines) {
    forall n :: n in b ==> CoherentRow(hash, b[n])
  }

  ghost predicate CoherentRow(hash: Object -> string, row: Baseline) {
    && row.approvedHash == hash(row.approvedSchema)
    && (row.observedSchema.Some? ==> row.observedHash == Some(hash(row.observedSchema.value)))
    && (row.observedHash.Some? && row.observedSchema.None? ==> row.observedHash.value == SENTINEL)
    && (row.blocked ==> row.observedHash.Some?)
  }

  lemma CheckKeepsCoherent(st: Settings, b: Baselines, live: map<string, Object>, sources: Sources, after: Baselines)
    requires Coherent(st.hash, b) && Checked(st, b, live, sources, after)
    ensures Coherent(st.hash, after)
  {
    forall n | n in after ensures CoherentRow(st.hash, after[n]) {
      OutcomeIsCoherent(st, b, live, sources, n);
    }
  }

  lemma OutcomeIsCoherent(st: Settings, b: Baselines, live: map<string, Object>, sources: Sources, n: string)
    requires n in live && n !in b ==> n in sources
    requires n in live || n in b
    requires n in b ==> CoherentRow(st.hash, b[n])
    ensures CoherentRow(st.hash, Outcome(st, b, live, sources, n))
  {
    hide ToolDrift;
  }

  lemma SightingIsSafe(st: Settings, row: Baseline, tool: Object)
    requires Sensible(st) && CoherentRow(st.hash, row)
    ensures
      var after := Sighted(st, row, tool);
      && CoherentRow(st.hash, after) && after.approvedSchema == row.approvedSchema
      && (!after.blocked ==> !Blocks(ToolDrift(st.hash, st.textual, row.approvedSchema, tool)))
      && (row.blocked && !after.blocked ==> tool == row.approvedSchema)
  {
    hide Worst, Combined;
    NoDriftExactlyWhenEqual(st.hash, st.textual, row.approvedSchema, tool);
  }

  /** What a completed check guarantees about every tool it was shown. */
  lemma UnblockedMeansMild(st: Settings, b: Baselines, live: map<string, Object>, sources: Sources, after: Baselines, n: string)
    requires Sensible(st) && Coherent(st.hash, b) && Checked(st, b, live, sources, after)
    requires n in live && n in b
    ensures after[n].approvedSchema == b[n].approvedSchema
    ensures !after[n].blocked ==> !Blocks(ToolDrift(st.hash, st.textual, b[n].approvedSchema, live[n]))
    ensures b[n].blocked && !after[n].blocked ==> live[n] == b[n].approvedSchema
  {
    hide ToolDrift, Sighted;
    assert CoherentRow(st.hash, b[n]) && after[n] == Outcome(st, b, live, sources, n);
    SightingIsSafe(st, b[n], live[n]);
  }

  // ----- what a check tells -----

  /** The list as the check reads it: of tools listed under one name the last one counts. */
  lemma {:induction false} LastListedCounts(st: Settings, tools: seq<Object>, n: string)
    ensures n in Live(st, tools) <==> exists i :: 0 <= i < |tools| && st.name(tools[i]) == n
    ensures forall i :: 0 <= i < |tools| && st.name(tools[i]) == n && (forall j :: i < j < |tools| ==> st.name(tools[j]) != n) ==>
      n in Live(st, tools) && Live(st, tools)[n] == tools[i]
  {
    if tools != [] {
      LastListedCounts(st, tools[..|tools| - 1], n);
    }
  }

  /** A completed check reports a changed definition exactly once: one row, with the severity
      of the change against the approved definition and the two hashes, unless the very
      definition was reported before and needs no block that it does not have. It reports
      nothing else about a listed tool that has a baseline. */
  lemma ChangeIsReportedExactlyWhen(st: Settings, b: Baselines, live: map<string, Object>, sources: Sources, rows: seq<Entry>, n: string)
    requires Sensible(st) && Coherent(st.hash, b) && Chosen(st, b, live, sources) && Reported(st, b, live, sources, rows)
    requires n in live && n in b
    ensures
      var d := ToolDrift(st.hash, st.textual, b[n].approvedSchema, live[n]);
      OfTool(rows, n) ==
        if live[n] == b[n].approvedSchema || (b[n].observedSchema == Some(live[n]) && (b[n].blocked || !Blocks(d))) then []
        else [Drifted(n, d, Blocks(d), st.hash(b[n].approvedSchema), st.hash(live[n]))]
  {
    hide ToolDrift;
    NoDriftExactlyWhenEqual(st.hash, st.textual, b[n].approvedSchema, live[n]);
    assert CoherentRow(st.hash, b[n]) && OfTool(rows, n) == EntriesAt(st, b, live, sources, n);
  }

  /** What becomes of the baseline: the approved definition stays; seeing it again clears what
      was observed and any block; any other definition is kept as observed, and blocks if
      it is no mild change or the tool was blocked already. */
  lemma ListedToolExactly(st: Settings, b: Baselines, live: map<string, Object>, sources: Sources, after: Baselines, n: string)
    requires Sensible(st) && Coherent(st.hash, b) && Checked(st, b, live, sources, after) && n in live && n in b
    ensures
      var d := ToolDrift(st.hash, st.textual, b[n].approvedSchema, live[n]);
      && n in after && after[n].approvedSchema == b[n].approvedSchema && after[n].suspicious == b[n].suspicious
      && after[n].observedSchema == (if live[n] == b[n].approvedSchema then None else Some(live[n]))
      && (after[n].blocked <==> live[n] != b[n].approvedSchema && (b[n].blocked || Blocks(d)))
  {
    hide ToolDrift;
    NoDriftExactlyWhenEqual(st.hash, st.textual, b[n].approvedSchema, live[n]);
    assert CoherentRow(st.hash, b[n]) && after[n] == Outcome(st, b, live, sources, n);
  }

  /** A listed tool without a baseline gets one of what was listed. It is blocked, and
      reported as renamed, exactly when some tool that is no longer listed was approved in
      the same shape; a suspicious one is flagged either way. */
  lemma NewToolExactly(st: Settings, b: Baselines, live: map<string, Object>, sources: Sources, after: Baselines, rows: seq<Entry>, n: string)
    requires Checked(st, b, live, sources, after) && Reported(st, b, live, sources, rows) && n in live && n !in b
    ensures n in after && after[n].approvedSchema == live[n] && after[n].approvedHash == st.hash(live[n])
    ensures after[n].blocked <==> exists s :: s in b && s !in live && st.shape(b[s].approvedSchema) == st.shape(live[n])
    ensures after[n].blocked ==> after[n].observedSchema == Some(live[n])
    ensures after[n].suspicious == st.suspicious(live[n])
    ensures exists s ::
      && (after[n].blocked ==> s in b && s !in live && st.shape(b[s].approvedSchema) == st.shape(live[n]))
      && OfTool(rows, n) ==
           (if st.suspicious(live[n]) then [Flagged(n)] else [])
           + if after[n].blocked then [RenamedFrom(n, s, st.hash(live[n]))] else []
  {
    assert SourceFits(st, b, live, live[n], sources[n]);
    assert after[n] == Outcome(st, b, live, sources, n) && OfTool(rows, n) == EntriesAt(st, b, live, sources, n);
    var s := if sources[n].Some? then sources[n].value else "";
    assert sources[n].Some? ==> LooksLike(st, b, live, live[n], s);
    if exists s :: s in b && s !in live && st.shape(b[s].approvedSchema) == st.shape(live[n]) {
      var s :| s in b && s !in live && st.shape(b[s].approvedSchema) == st.shape(live[n]);
      assert LooksLike(st, b, live, live[n], s);
    }
  }

  /** A baselined tool that is not listed and was not taken for the source of a rename is
      reported missing, unless it already was, and keeps its approved definition and block. */
  lemma MissingToolExactly(st: Settings, b: Baselines, live: map<string, Object>, sources: Sources, after: Baselines, rows: seq<Entry>, n: string)
    requires Checked(st, b, live, sources, after) && Reported(st, b, live, sources, rows) && n in b && n !in live
    ensures n in after && after[n].approvedSchema == b[n].approvedSchema && after[n].blocked == b[n].blocked
    ensures forall m :: m in sources && sources[m] == Some(n) ==> after[n] == b[n] && OfTool(rows, n) == []
    ensures (forall m :: m in sources ==> sources[m] != Some(n)) ==>
      && after[n].observedHash == Some(SENTINEL) && (b[n].observedHash != Some(SENTINEL) ==> after[n].observedSchema.None?)
      && OfTool(rows, n) == if b[n].observedHash == Some(SENTINEL) then [] else [Gone(n)]
  {
    assert after[n] == Outcome(st, b, live, sources, n) && OfTool(rows, n) == EntriesAt(st, b, live, sources, n);
    forall m | m in sources && sources[m] == Some(n) ensures n in Renamed(sources) {
      assert sources[m].value == n;
    }
  }

  // ----- runs -----

  /** A completed operation; the settings of a check are those in force at the time. */
  datatype Action =
    | Check(settings: Settings, tools: seq<Object>, sources: Sources)
    | Approve(settings: Settings, tool: string)

  ghost function ApprovedRow(st: Settings, row: Baseline): Baseline
    requires row.observedSchema.Some?
  {
    Baseline(row.observedSchema.value,
             if row.observedHash.Some? && row.observedHash.value != "" then row.observedHash.value else st.hash(row.observedSchema.value),
             false, None, None, st.suspicious(row.observedSchema.value))
  }

  ghost predicate Becomes(b: Baselines, a: Action, after: Baselines) {
    match a
    case Check(st, tools, sources) => Checked(st, b, Live(st, tools), sources, after)
    case Approve(st, n) => n in b && b[n].observedSchema.Some? && after == b[n := ApprovedRow(st, b[n])]
  }

  /** States s[0], s[1], ... with the actions between them, all under one hash. */
  ghost predicate IsRun(st: Settings, s: seq<Baselines>, actions: seq<Action>) {
    && Sensible(st)
    && |s| == |actions| + 1
    && forall i :: 0 <= i < |actions| ==>
         actions[i].settings.hash == st.hash && Sensible(actions[i].settings) && Becomes(s[i], actions[i], s[i + 1])
  }

  lemma StepKeepsCoherent(st: Settings, b: Baselines, a: Action, after: Baselines)
    requires Coherent(st.hash, b) && a.settings.hash == st.hash && Becomes(b, a, after)
    ensures Coherent(st.hash, after) && b.Keys <= after.Keys
  {
    if a.Check? {
      CheckKeepsCoherent(a.settings, b, Live(a.settings, a.tools), a.sources, after);
    }
  }

  lemma {:induction false} RunKeepsCoherent(st: Settings, s: seq<Baselines>, actions: seq<Action>)
    requires IsRun(st, s, actions) && Coherent(st.hash, s[0])
    ensures forall i :: 0 <= i < |s| ==> Coherent(st.hash, s[i]) && s[0].Keys <= s[i].Keys
    decreases |actions|
  {
    hide Becomes, Coherent;
    if |actions| > 0 {
      var n := |actions| - 1;
      RunKeepsCoherent(st, s[..n + 1], actions[..n]);
      assert forall i :: 0 <= i <= n ==> s[..n + 1][i] == s[i];
      StepKeepsCoherent(st, s[n], actions[n], s[n + 1]);
    }
  }

  /** In every run a block is lifted only by an approval of that tool, or by a check that
      saw exactly the approved definition. */
  lemma BlocksAreLiftedOnlyBy(st: Settings, s: seq<Baselines>, actions: seq<Action>, i: nat, n: string)
    requires IsRun(st, s, actions) && Coherent(st.hash, s[0]) && i < |actions|
    requires n in s[i] && n in s[i + 1] && s[i][n].blocked && !s[i + 1][n].blocked
    ensures match actions[i]
            case Approve(_, tool) => tool == n
            case Check(now, tools, _) => n in Live(now, tools) && Live(now, tools)[n] == s[i][n].approvedSchema
  {
    RunKeepsCoherent(st, s, actions);
    match actions[i] {
      case Approve(_, _) =>
      case Check(now, tools, sources) =>
        if n in Live(now, tools) {
          UnblockedMeansMild(now, s[i], Live(now, tools), sources, s[i + 1], n);
        }
    }
  }

  lemma StepKeepsApproved(b: Baselines, a: Action, after: Baselines, n: string)
    requires Becomes(b, a, after) && n in b && (a.Approve? ==> a.tool != n)
    ensures n in after && after[n].approvedSchema == b[n].approvedSchema
  {
  }

  lemma {:induction false} ApprovedStands(st: Settings, s: seq<Baselines>, actions: seq<Action>, n: string)
    requires IsRun(st, s, actions) && n in s[0]
    requires forall i :: 0 <= i < |actions| && actions[i].Approve? ==> actions[i].tool != n
    ensures forall i :: 0 <= i < |s| ==> n in s[i] && s[i][n].approvedSchema == s[0][n].approvedSchema
    decreases |actions|
  {
    hide Becomes;
    if |actions| > 0 {
      var k := |actions| - 1;
      ApprovedStands(st, s[..k + 1], actions[..k], n);
      assert forall i :: 0 <= i <= k ==> s[..k + 1][i] == s[i];
      StepKeepsApproved(s[k], actions[k], s[k + 1], n);
    }
  }

  /** Small steps do not add up: after any run without an approval of the tool, however its
      definition crept, if the last check listed it and left it unblocked then what was
      listed is a mild change of the definition that was approved at the start. */
  lemma SmallStepsDoNotAddUp(st: Settings, s: seq<Baselines>, actions: seq<Action>, n: string)
    requires IsRun(st, s, actions) && Coherent(st.hash, s[0]) && n in s[0] && |actions| > 0
    requires forall i :: 0 <= i < |actions| && actions[i].Approve? ==> actions[i].tool != n
    requires actions[|actions| - 1].Check? && n in s[|actions|] && !s[|actions|][n].blocked
    requires n in Live(actions[|actions| - 1].settings, actions[|actions| - 1].tools)
    ensures
      var last := actions[|actions| - 1];
      !Blocks(ToolDrift(st.hash, last.settings.textual, s[0][n].approvedSchema, Live(last.settings, last.tools)[n]))
  {
    hide ToolDrift, Becomes;
    var k := |actions| - 1;
    RunKeepsCoherent(st, s, actions);
    ApprovedStands(st, s, actions, n);
    LastCheck(s[k], actions[k], s[k + 1], n);
  }

  lemma LastCheck(b: Baselines, last: Action, after: Baselines, n: string)
    requires last.Check? && Sensible(last.settings) && Coherent(last.settings.hash, b) && Becomes(b, last, after)
    requires n in b && n in after && !after[n].blocked && n in Live(last.settings, last.tools)
    ensures !Blocks(ToolDrift(last.settings.hash, last.settings.textual, b[n].approvedSchema, Live(last.settings, last.tools)[n]))
  {
    hide ToolDrift;
    UnblockedMeansMild(last.settings, b, Live(last.settings, last.tools), last.sources, after, n);
  }

  /** What was observed is what gets approved: listed again, it is not blocked, and nothing
      is reported about it. */
  lemma ApprovedIsWhatWasObserved(st: Settings, b: Baselines, approved: Baselines, n: string, now: Settings,
                                  live: map<string, Object>, sources: Sources, after: Baselines, rows: seq<Entry>)
    requires Sensible(st) && Sensible(now) && now.hash == st.hash && Coherent(st.hash, b) && Becomes(b, Approve(st, n), approved)
    requires Checked(now, approved, live, sources, after) && Reported(now, approved, live, sources, rows)
    requires n in live && b[n].observedSchema == Some(live[n])
    ensures approved[n].approvedSchema == live[n] && !approved[n].blocked
    ensures after[n] == approved[n] && OfTool(rows, n) == []
    ensures forall m :: m in b && m != n ==> m in approved && approved[m] == b[m]
  {
    hide ToolDrift;
    StepKeepsCoherent(st, b, Approve(st, n), approved);
    assert CoherentRow(st.hash, b[n]) && CoherentRow(st.hash, approved[n]);
    assert after[n] == Outcome(now, approved, live, sources, n);
    ChangeIsReportedExactlyWhen(now, approved, live, sources, rows, n);
  }

  // ----- the log beside the baselines -----

  /** The log grows along a run, a completed check ending with its own rows. What failed
      operations wrote before may stand between. */
  ghost predicate IsLogged(s: seq<Baselines>, actions: seq<Action>, logs: seq<seq<Entry>>) {
    && |s| == |logs| == |actions| + 1
    && forall i :: 0 <= i < |actions| ==> Logs(s[i], actions[i], logs[i], logs[i + 1])
  }

  ghost predicate Logs(b: Baselines, a: Action, before: seq<Entry>, after: seq<Entry>) {
    && before <= after
    && (a.Check? && Chosen(a.settings, b, Live(a.settings, a.tools), a.sources) ==>
          exists k :: |before| <= k <= |after| && Reported(a.settings, b, Live(a.settings, a.tools), a.sources, after[k..]))
  }

  /** A row of the log accounts for the definition: a drift to it, or a rename. */
  ghost predicate Tells(hash: Object -> string, log: seq<Entry>, n: string, tool: Object) {
    exists e :: e in log && e.tool == n && (e.Drifted? || e.RenamedFrom?) && e.observed == hash(tool)
  }

  /** A row of the log says that the tool was blocked. */
  ghost predicate TellsBlock(log: seq<Entry>, n: string) {
    exists e :: e in log && e.tool == n && ((e.Drifted? && e.blocked) || e.RenamedFrom?)
  }

  ghost predicate Told(hash: Object -> string, b: Baselines, log: seq<Entry>) {
    forall n :: n in b ==>
      && (b[n].observedSchema.Some? ==> Tells(hash, log, n, b[n].observedSchema.value))
      && (b[n].blocked ==> TellsBlock(log, n))
  }

  /** Nothing is held against a tool in silence: over every run from no baselines, for every
      observed definition that waits for approval, and for every block, the log has a row. */
  lemma {:induction false} NothingWaitsUntold(st: Settings, s: seq<Baselines>, actions: seq<Action>, logs: seq<seq<Entry>>)
    requires IsRun(st, s, actions) && IsLogged(s, actions, logs) && s[0] == map[]
    ensures Told(st.hash, s[|actions|], logs[|actions|])
    decreases |actions|
  {
    if |actions| > 0 {
      var k := |actions| - 1;
      assert forall i :: 0 <= i <= k ==> s[..k + 1][i] == s[i] && logs[..k + 1][i] == logs[i];
      NothingWaitsUntold(st, s[..k + 1], actions[..k], logs[..k + 1]);
      RunKeepsCoherent(st, s, actions);
      StepKeepsTold(s[k], actions[k], s[k + 1], logs[k], logs[k + 1]);
    }
  }

  lemma StepKeepsTold(b: Baselines, a: Action, after: Baselines, log: seq<Entry>, grown: seq<Entry>)
    requires Becomes(b, a, after) && Logs(b, a, log, grown) && Told(a.settings.hash, b, log)
    ensures Told(a.settings.hash, after, grown)
  {
    forall n | n in after
      ensures after[n].observedSchema.Some? ==> Tells(a.settings.hash, grown, n, after[n].observedSchema.value)
      ensures after[n].blocked ==> TellsBlock(grown, n)
    {
      if n in b && after[n] == b[n] {
        StaysTold(a.settings.hash, log, grown, n, b[n]);
      } else if a.Check? {
        var live := Live(a.settings, a.tools);
        var k :| |log| <= k <= |grown| && Reported(a.settings, b, live, a.sources, grown[k..]);
        assert after[n] == Outcome(a.settings, b, live, a.sources, n);
        if n in b { StaysTold(a.settings.hash, log, grown, n, b[n]); }
        ChangeIsTold(a.settings, b, live, a.sources, grown[k..], n);
        TellsMore(a.settings.hash, grown, k, n);
      }
    }
  }

  lemma StaysTold(hash: Object -> string, log: seq<Entry>, grown: seq<Entry>, n: string, row: Baseline)
    requires log <= grown
    ensures row.observedSchema.Some? && Tells(hash, log, n, row.observedSchema.value) ==> Tells(hash, grown, n, row.observedSchema.value)
    ensures TellsBlock(log, n) ==> TellsBlock(grown, n)
  {
    assert forall e :: e in log ==> e in grown;
  }

  lemma TellsMore(hash: Object -> string, log: seq<Entry>, k: nat, n: string)
    requires k <= |log|
    ensures forall tool :: Tells(hash, log[k..], n, tool) ==> Tells(hash, log, n, tool)
    ensures TellsBlock(log[k..], n) ==> TellsBlock(log, n)
  {
    assert forall e :: e in log[k..] ==> e in log;
  }

  /** What a check newly holds against a tool, its rows tell. */
  lemma ChangeIsTold(st: Settings, b: Baselines, live: map<string, Object>, sources: Sources, rows: seq<Entry>, n: string)
    requires Chosen(st, b, live, sources) && Reported(st, b, live, sources, rows) && (n in live || n in b)
    ensures
      var after := Outcome(st, b, live, sources, n);
      && (after.observedSchema.Some? && (n in b ==> after.observedSchema != b[n].observedSchema) ==>
            Tells(st.hash, rows, n, after.observedSchema.value))
      && (after.blocked && (n in b ==> !b[n].blocked) ==> TellsBlock(rows, n))
  {
    hide ToolDrift;
    var told := EntriesAt(st, b, live, sources, n);
    assert OfTool(rows, n) == told;
    OfToolKeeps(rows, n);
    if told != [] {
      var last := told[|told| - 1];
      assert last in rows && last.tool == n;
    }
  }

  lemma {:induction false} OfToolKeeps(rows: seq<Entry>, n: string)
    ensures forall e :: e in OfTool(rows, n) ==> e in rows && e.tool == n
  {
    if rows != [] {
      OfToolKeeps(rows[..|rows| - 1], n);
    }
  }

  // ----- checking the same list again -----

  /** A renamed tool's source that was not already reported missing. */
  ghost predicate Orphan(b: Baselines, sources: Sources, n: string) {
    n in Renamed(sources) && n in b && b[n].observedHash != Some(SENTINEL)
  }

  lemma ResightingIsQuiet(st: Settings, name: string, row: Baseline, tool: Object)
    ensures SightedEntries(st, name, Sighted(st, row, tool), tool) == []
    ensures forall source :: SightedEntries(st, name, First(st, tool, source), tool) == []
  {
    hide ToolDrift;
  }

  lemma RecheckOfOne(st: Settings, b: Baselines, live: map<string, Object>, sources: Sources, after: Baselines,
                     again: Sources, n: string)
    requires Sensible(st) && Coherent(st.hash, b) && Checked(st, b, live, sources, after)
    requires Chosen(st, after, live, again) && again.Keys == {}
    ensures EntriesAt(st, after, live, again, n) == if Orphan(b, sources, n) then [Gone(n)] else []
  {
    hide ToolDrift, Sighted, SightedEntries;
    assert Renamed(again) == {};
    if n in live {
      ResightingIsQuiet(st, n, if n in b then b[n] else First(st, live[n], None), live[n]);
    }
    if n in after {
      assert after[n] == Outcome(st, b, live, sources, n);
    }
    if n in Renamed(sources) {
      assert n in b && n !in live;
    }
    if n in b {
      assert CoherentRow(st.hash, b[n]);
    }
  }

  /** The second check of the same list reports exactly the sources of the renames that the
      first one found, each once, and nothing else. */
  lemma RecheckReportsOnlyOrphans(st: Settings, b: Baselines, live: map<string, Object>, sources: Sources, after: Baselines,
                                  again: Sources, rows: seq<Entry>)
    requires Sensible(st) && Coherent(st.hash, b) && Checked(st, b, live, sources, after)
    requires Chosen(st, after, live, again) && Reported(st, after, live, again, rows)
    ensures forall n :: OfTool(rows, n) == if Orphan(b, sources, n) then [Gone(n)] else []
    ensures rows == [] <==> forall n :: !Orphan(b, sources, n)
  {
    hide ToolDrift, EntriesAt;
    assert again.Keys == {};
    forall n ensures OfTool(rows, n) == if Orphan(b, sources, n) then [Gone(n)] else [] {
      RecheckOfOne(st, b, live, sources, after, again, n);
      assert OfTool(rows, n) == EntriesAt(st, after, live, again, n);
    }
    if rows != [] {
      assert OfTool(rows, rows[|rows| - 1].tool) != [];
    }
  }

  /** A tool blocked as a rename is unblocked by merely checking the same list again. */
  lemma RecheckUnblocksRename(st: Settings, b: Baselines, live: map<string, Object>, sources: Sources, after: Baselines,
                              again: Sources, later: Baselines, n: string)
    requires Checked(st, b, live, sources, after) && Checked(st, after, live, again, later)
    requires n in sources && sources[n].Some?
    ensures after[n].blocked && !later[n].blocked
  {
  }

  // ----- the detector -----

  class DriftDetector {
    var baselines: Baselines
    var log: seq<Entry>

    constructor ()
      ensures baselines == map[] && log == []
    {
      baselines, log := map[], [];
    }

    /** The audit writer: the row is in the log, or an error is raised; a calm call raises none. */
    method Write(e: Entry, calm: bool) returns (ok: bool)
      modifies this`log
      ensures calm ==> ok
      ensures log == if ok then old(log) + [e] else old(log)
    {
      ok := *;
      ok := ok || calm;
      if ok { log := log + [e]; }
    }

    /** The checks on one tool that already has a baseline. */
    method Sight(st: Settings, name: string, row: Baseline, tool: Object, calm: bool)
      returns (ok: bool, after: Baseline, ghost rows: seq<Entry>)
      modifies this`log
      ensures log == old(log) + rows
      ensures ok ==> after == Sighted(st, row, tool) && rows == SightedEntries(st, name, row, tool)
      ensures ok ==> Classified(st, row, tool)
      ensures calm && Classified(st, row, tool) ==> ok
    {
      ok, after, rows := true, row, [];
      var liveHash := st.hash(tool);
      if liveHash == row.approvedHash {
        if row.observedHash.Some? {
          after := row.(observedHash := None, observedSchema := None, blocked := false);
        }
        return;
      }
      var severity := Classify(st.hash, st.textual, row.approvedSchema, tool);
      if severity == Raised {
        return false, row, [];
      }
      if severity == Same { severity := High; }
      if row.observedHash == Some(liveHash) && (row.blocked || !Blocks(severity)) {
        return;
      }
      var entry := Drifted(name, severity, Blocks(severity), row.approvedHash, liveHash);
      ok := Write(entry, calm);
      if !ok { return; }
      rows := [entry];
      after := row.(observedSchema := Some(tool), observedHash := Some(liveHash), blocked := row.blocked || Blocks(severity));
    }

    /** _first_sighting */
    method FirstSighting(st: Settings, name: string, tool: Object, live: map<string, Object>, calm: bool)
      returns (ok: bool, row: Baseline, source: Option<string>, ghost rows: seq<Entry>)
      modifies this`log
      ensures log == old(log) + rows
      ensures SourceFits(st, baselines, live, tool, source)
      ensures ok ==> row == First(st, tool, source) && rows == FirstEntries(st, name, tool, source)
      ensures calm ==> ok
    {
      ok, rows, source := true, [], None;
      row := First(st, tool, None);
      if s :| s in baselines && LooksLike(st, baselines, live, tool, s) {
        source := Some(s);
      }
      if st.suspicious(tool) {
        ok := Write(Flagged(name), calm);
        if !ok { return; }
        rows := [Flagged(name)];
      }
      if source.Some? {
        var entry := RenamedFrom(name, source.value, st.hash(tool));
        ok := Write(entry, calm);
        if !ok { return; }
        rows := rows + [entry];
        row := First(st, tool, source);
      }
    }

    /** The first loop of check: every listed tool, into the copy of the baselines. */
    method SightAll(st: Settings, live: map<string, Object>, calm: bool)
      returns (ok: bool, after: Baselines, sources: Sources, ghost rows: seq<Entry>)
      modifies this`log
      ensures log == old(log) + rows
      ensures ok ==> Progress(st, baselines, live, sources, live.Keys, after, rows)
      ensures ok ==> AllClassified(st, baselines, live, live.Keys)
      ensures calm && !ok ==> !AllClassified(st, baselines, live, live.Keys)
    {
      hide *;
      ok, after, sources, rows := true, baselines, map[], [];
      var todo := live.Keys;
      ghost var done: set<string> := {};
      NothingDoneYet(st, baselines, live);
      NoneClassified(st, baselines, live);
      while todo != {}
        invariant ok && done <= live.Keys && todo == live.Keys - done && log == old(log) + rows
        invariant Progress(st, baselines, live, sources, done, after, rows)
        invariant AllClassified(st, baselines, live, done)
        decreases |todo|
      {
        var name :| name in todo;
        ghost var earlier, more, start := rows, [], old(log);
        var row, source;
        OneMoreClassified(st, baselines, live, done, name);
        if name in baselines {
          ok, row, more := Sight(st, name, baselines[name], live[name], calm);
          rows := rows + more;
          Appended(start, earlier, more);
          if !ok { return; }
          ProgressOnKnown(st, baselines, live, sources, done, after, earlier, name);
        } else {
          ok, row, source, more := FirstSighting(st, name, live[name], live, calm);
          rows := rows + more;
          Appended(start, earlier, more);
          if !ok { return; }
          ProgressOnNew(st, baselines, live, sources, done, after, earlier, name, source);
          sources := sources[name := source];
        }
        after := after[name := row];
        todo, done := todo - {name}, done + {name};
      }
      assert done == live.Keys;
    }

    /** The second loop of check: every baselined tool that is neither listed nor the
        source of a rename is reported missing, once. */
    method ReportMissing(st: Settings, live: map<string, Object>, sources: Sources, sighted: Baselines, calm: bool,
                         ghost reported: seq<Entry>)
      returns (ok: bool, after: Baselines, ghost rows: seq<Entry>)
      requires Swept(st, baselines, live, sources, {}, sighted, reported)
      modifies this`log
      ensures log == old(log) + rows
      ensures ok ==> Swept(st, baselines, live, sources, baselines.Keys, after, reported + rows)
      ensures calm ==> ok
    {
      hide Swept;
      ok, after, rows := true, sighted, [];
      assert reported + rows == reported;
      var todo := baselines.Keys;
      ghost var seen: set<string> := {};
      while todo != {}
        invariant ok && seen <= baselines.Keys && todo == baselines.Keys - seen && log == old(log) + rows
        invariant Swept(st, baselines, live, sources, seen, after, reported + rows)
        decreases |todo|
      {
        var name :| name in todo;
        var row := baselines[name];
        ghost var earlier, more, start := rows, [], old(log);
        SweptMore(st, baselines, live, sources, seen, after, reported + rows, name);
        if name !in live && name !in Renamed(sources) {
          if row.observedHash != Some(SENTINEL) {
            ok := Write(Gone(name), calm);
            if !ok { return; }
            more := [Gone(name)];
            row := row.(observedHash := Some(SENTINEL), observedSchema := None);
          }
          rows := rows + more;
          Appended(start, earlier, more);
          Appended(reported, earlier, more);
          after := after[name := row];
        }
        todo, seen := todo - {name}, seen + {name};
      }
      assert seen == baselines.Keys;
    }

    /** check: commits what both loops found, or leaves every baseline as it was. */
    method Check(st: Settings, tools: seq<Object>, calm: bool) returns (ok: bool, ghost sources: Sources, ghost rows: seq<Entry>)
      modifies this
      ensures log == old(log) + rows
      ensures ok ==> Checked(st, old(baselines), Live(st, tools), sources, baselines)
      ensures ok ==> Reported(st, old(baselines), Live(st, tools), sources, rows)
      ensures !ok ==> baselines == old(baselines)
      ensures ok ==> AllClassified(st, old(baselines), Live(st, tools), Live(st, tools).Keys)
      ensures calm && !ok ==> !AllClassified(st, old(baselines), Live(st, tools), Live(st, tools).Keys)
    {
      hide *;
      var live := Live(st, tools);
      var sighted, after, found;
      ghost var more;
      ok, sighted, found, rows := SightAll(st, live, calm);
      sources := found;
      if !ok { return; }
      ListedAreDone(st, baselines, live, sources, sighted, rows);
      ok, after, more := ReportMissing(st, live, found, sighted, calm, rows);
      Appended(old(log), rows, more);
      rows := rows + more;
      if !ok { return; }
      AllAreDone(st, baselines, live, sources, after, rows);
      var committed: bool := *;
      if committed || calm {
        baselines := after;
      } else {
        ok := false;
      }
    }

    /** approve: promotes what was observed; LookupError when nothing is. */
    method ApproveTool(st: Settings, name: string, calm: bool) returns (ok: bool)
      modifies this
      ensures ok ==> Becomes(old(baselines), Approve(st, name), baselines)
      ensures !ok ==> baselines == old(baselines)
      ensures ok ==>
        && name in baselines && name in old(baselines)
        && log == old(log)
                + (if baselines[name].suspicious && !old(baselines)[name].suspicious then [Flagged(name)] else [])
                + [Approved(name, old(baselines)[name].approvedHash, baselines[name].approvedHash)]
      ensures calm ==> (ok <==> name in old(baselines) && old(baselines)[name].observedSchema.Some?)
      ensures name !in old(baselines) || old(baselines)[name].observedSchema.None? ==> !ok && log == old(log)
    {
      if name !in baselines || baselines[name].observedSchema.None? {
        return false;
      }
      var row := baselines[name];
      var schema := row.observedSchema.value;
      var hash := if row.observedHash.Some? && row.observedHash.value != "" then row.observedHash.value else st.hash(schema);
      var flagged := st.suspicious(schema);
      if flagged && !row.suspicious {
        ok := Write(Flagged(name), calm);
        if !ok { return; }
      }
      ok := Write(Approved(name, row.approvedHash, hash), calm);
      if !ok { return; }
      var committed: bool := *;
      if !committed && !calm { return false; }
      baselines := baselines[name := Baseline(schema, hash, false, None, None, flagged)];
    }
  }
}
