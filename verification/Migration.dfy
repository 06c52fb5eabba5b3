/** Replacing a uniqueness constraint online: an index build and an atomic swap that may be interrupted
    anywhere and rerun, while other sessions keep inserting rows. */
module Migration {
  import opened Orders

  datatype Column = SymbolColumn | FeedSource | ProviderTradeId | Exchange | EventAt

  datatype Trade = Trade(symbol: string, feed: string, providerId: string, exchange: string, at: int)

  datatype Cell = Text(text: string) | Time(at: int)

  function Value(t: Trade, c: Column): Cell {
    match c
    case SymbolColumn => Text(t.symbol)
    case FeedSource => Text(t.feed)
    case ProviderTradeId => Text(t.providerId)
    case Exchange => Text(t.exchange)
    case EventAt => Time(t.at)
  }

  const OLD_NAME := "uq_market_trade_provider_id"
  const NEW_NAME := "uq_market_trade_event_identity"
  const OLD_COLUMNS := [SymbolColumn, FeedSource, ProviderTradeId]
  const NEW_COLUMNS := [SymbolColumn, FeedSource, ProviderTradeId, Exchange, EventAt]
  const BUILD_NEW := "ix_market_trades_event_identity_build"
  const BUILD_OLD := "ix_market_trades_provider_identity_build"

  // ---- The catalog ----

  datatype Constraint = Constraint(unique: bool, deferred: bool, columns: seq<Column>)

  /** `standard` stands for a btree over the whole table with default order, collations and operator
      classes and no included columns; `plain` for the absence of expressions. */
  datatype Index = Index(unique: bool, standard: bool, plain: bool, columns: seq<Column>, valid: bool, ready: bool, owned: bool)

  /** `others` are names of relations elsewhere in the schema. */
  datatype Db = Db(constraints: map<string, Constraint>, indexes: map<string, Index>, others: set<string>, rows: seq<Trade>)

  datatype Direction = Direction(source: string, target: string, columns: seq<Column>, build: string, sourceColumns: seq<Column>)

  function DirectionOf(downgrade: bool): Direction {
    if downgrade then Direction(NEW_NAME, OLD_NAME, OLD_COLUMNS, BUILD_OLD, NEW_COLUMNS)
    else Direction(OLD_NAME, NEW_NAME, NEW_COLUMNS, BUILD_NEW, OLD_COLUMNS)
  }

  predicate ConstraintMatches(c: Constraint, columns: seq<Column>) { c.unique && !c.deferred && c.columns == columns }

  predicate IndexMatches(i: Index, columns: seq<Column>) { i.unique && i.standard && i.plain && i.columns == columns }

  predicate Usable(i: Index, columns: seq<Column>) { IndexMatches(i, columns) && i.valid && i.ready && !i.owned }

  predicate Legacy(i: Index) {
    i.unique && i.ready && i.plain && (set c | c in i.columns) == (set c | c in OLD_COLUMNS)
  }

  predicate Same(a: Trade, b: Trade, columns: seq<Column>) {
    forall i :: 0 <= i < |columns| ==> Value(a, columns[i]) == Value(b, columns[i])
  }

  predicate NoDuplicates(rows: seq<Trade>, columns: seq<Column>) {
    forall i, j :: 0 <= i < j < |rows| ==> !Same(rows[i], rows[j], columns)
  }

  // ---- The steps of one run ----

  datatype Phase = Reading | Checking(build: bool) | Creating | Building | Cleaning | Verifying | Swapping | Done | Raised

  function Rank(p: Phase): nat {
    match p
    case Reading => 8
    case Checking(false) => 7
    case Checking(true) => 6
    case Creating => 5
    case Building => 4
    case Cleaning => 3
    case Verifying => 3
    case Swapping => 2
    case Done => 0
    case Raised => 0
  }

  /** The replacement index the swap would attach. */
  function Selected(d: Direction, db: Db): Option<string> {
    if d.target in db.indexes && Usable(db.indexes[d.target], d.columns) then Some(d.target)
    else if d.build in db.indexes && Usable(db.indexes[d.build], d.columns) then Some(d.build)
    else None
  }

  /** Attaching renames the index to the constraint; dropping a constraint drops its index. */
  function Altered(d: Direction, db: Db, selected: Option<string>): Db
    requires selected.Some? ==> selected.value in db.indexes
  {
    var attached :=
      if selected.None? then db
      else
        var i := db.indexes[selected.value];
        db.(constraints := db.constraints[d.target := Constraint(true, false, i.columns)],
            indexes := (db.indexes - {selected.value})[d.target := i.(owned := true)]);
    if d.source in db.constraints then
      attached.(constraints := attached.constraints - {d.source}, indexes := attached.indexes - {d.source})
    else attached
  }

  predicate Definitions(d: Direction, db: Db) {
    && (d.source in db.constraints ==> ConstraintMatches(db.constraints[d.source], d.sourceColumns))
    && (d.target in db.constraints ==> ConstraintMatches(db.constraints[d.target], d.columns))
  }

  /** The swap transaction: its result, or None where it raises and rolls back. */
  function Swap(downgrade: bool, db: Db): Option<Db> {
    var d := DirectionOf(downgrade);
    if !Definitions(d, db) then None
    else
      var selected := Selected(d, db);
      var needed := d.target !in db.constraints;
      if needed && (selected.None? || (selected.value != d.target && d.target in db.indexes)) then None
      else
        var after := Altered(d, db, if needed then selected else None);
        if !downgrade && exists name :: name in after.indexes && Legacy(after.indexes[name]) then None
        else Some(after)
  }

  /** One committed step; `ok` says whether the database completes it. A unique build also fails when
      there are duplicates. */
  ghost function Step(downgrade: bool, db: Db, p: Phase, ok: bool): (Db, Phase) {
    var d := DirectionOf(downgrade);
    match p
    case Reading =>
      if !ok then (db, Raised)
      else if d.target in db.constraints then
        (db, if ConstraintMatches(db.constraints[d.target], d.columns) then Swapping else Raised)
      else (db, Checking(false))
    case Checking(build) =>
      var name := if build then d.build else d.target;
      var next := if build then Creating else Checking(true);
      if !ok then (db, Raised)
      else if name !in db.indexes then (db, if name in db.others then Raised else next)
      else
        var i := db.indexes[name];
        if !IndexMatches(i, d.columns) || i.owned then (db, Raised)
        else if i.valid && i.ready then (db, Swapping)
        else (db.(indexes := db.indexes - {name}), next)
    case Creating =>
      if !ok || d.build in db.indexes || d.build in db.others then (db, Cleaning)
      else (db.(indexes := db.indexes[d.build := Index(true, true, true, d.columns, false, false, false)]), Building)
    case Building =>
      if d.build !in db.indexes || !IndexMatches(db.indexes[d.build], d.columns) then (db, Raised)
      else if !ok || !NoDuplicates(db.rows, d.columns) then (db, Cleaning)
      else (db.(indexes := db.indexes[d.build := db.indexes[d.build].(valid := true, ready := true)]), Verifying)
    case Cleaning =>
      if ok && d.build in db.indexes && IndexMatches(db.indexes[d.build], d.columns)
         && !db.indexes[d.build].valid && !db.indexes[d.build].owned
      then (db.(indexes := db.indexes - {d.build}), Raised) else (db, Raised)
    case Verifying =>
      if ok && d.build in db.indexes && IndexMatches(db.indexes[d.build], d.columns)
         && db.indexes[d.build].valid && db.indexes[d.build].ready
      then (db, Swapping) else (db, Raised)
    case Swapping =>
      var after := Swap(downgrade, db);
      if ok && after.Some? then (after.value, Done) else (db, Raised)
    case Done => (db, Done)
    case Raised => (db, Raised)
  }

  /** What can happen: a step of the run, its loss and restart at any point, or another session's insert. */
  datatype Event = Work(ok: bool) | Crash | Insert(row: Trade)

  /** An insert commits only if every unique constraint and every maintained unique index allows it. */
  ghost predicate Inserts(db: Db, row: Trade) {
    && (forall name :: name in db.constraints && db.constraints[name].unique ==>
          NoDuplicates(db.rows + [row], db.constraints[name].columns))
    && (forall name :: name in db.indexes && db.indexes[name].unique && (db.indexes[name].valid || db.indexes[name].ready) ==>
          NoDuplicates(db.rows + [row], db.indexes[name].columns))
  }

  ghost function Next(downgrade: bool, db: Db, p: Phase, e: Event): (Db, Phase) {
    match e
    case Work(ok) => Step(downgrade, db, p, ok)
    case Crash => (db, Reading)
    case Insert(row) => (if Inserts(db, row) then db.(rows := db.rows + [row]) else db, p)
  }

  ghost function After(downgrade: bool, db: Db, events: seq<Event>): (Db, Phase) {
    if events == [] then (db, Reading)
    else
      var (before, p) := After(downgrade, db, events[..|events| - 1]);
      Next(downgrade, before, p, events[|events| - 1])
  }

  // ---- Uniqueness is never lost ----

  /** One of the two constraints is in force with its own definition. */
  ghost predicate InForce(db: Db) {
    || (OLD_NAME in db.constraints && db.constraints[OLD_NAME] == Constraint(true, false, OLD_COLUMNS))
    || (NEW_NAME in db.constraints && db.constraints[NEW_NAME] == Constraint(true, false, NEW_COLUMNS))
  }

  /** The rows satisfy every unique constraint and every valid unique index. */
  ghost predicate RowsRespect(db: Db) {
    && (forall name :: name in db.constraints && db.constraints[name].unique ==> NoDuplicates(db.rows, db.constraints[name].columns))
    && (forall name :: name in db.indexes && db.indexes[name].unique && db.indexes[name].valid ==>
          NoDuplicates(db.rows, db.indexes[name].columns))
  }

  ghost predicate Sound(db: Db) { InForce(db) && RowsRespect(db) }

  /** The old key is part of the new one, so whatever the old one tells apart the new one does too. */
  lemma OldKeyIsStronger(rows: seq<Trade>)
    requires NoDuplicates(rows, OLD_COLUMNS)
    ensures NoDuplicates(rows, NEW_COLUMNS)
  {
    forall i, j | 0 <= i < j < |rows| ensures !Same(rows[i], rows[j], NEW_COLUMNS) {
      var k :| 0 <= k < |OLD_COLUMNS| && Value(rows[i], OLD_COLUMNS[k]) != Value(rows[j], OLD_COLUMNS[k]);
      assert NEW_COLUMNS[k] == OLD_COLUMNS[k];
    }
  }

  /** Whichever constraint is in force, no trade is ever stored twice. */
  lemma SoundHasNoDuplicates(db: Db)
    requires Sound(db)
    ensures NoDuplicates(db.rows, NEW_COLUMNS)
  {
    if OLD_NAME in db.constraints && ConstraintMatches(db.constraints[OLD_NAME], OLD_COLUMNS) {
      OldKeyIsStronger(db.rows);
    }
  }

  lemma SwapKeepsSound(downgrade: bool, db: Db)
    requires Sound(db) && Swap(downgrade, db).Some?
    ensures Sound(Swap(downgrade, db).value)
    ensures var d, after := DirectionOf(downgrade), Swap(downgrade, db).value;
      && d.target in after.constraints && ConstraintMatches(after.constraints[d.target], d.columns)
      && d.source !in after.constraints && after.rows == db.rows
      && forall name :: name != d.source && name != d.target ==>
           (name in after.constraints <==> name in db.constraints)
           && (name in db.constraints ==> after.constraints[name] == db.constraints[name])
  {
    assert OLD_NAME != NEW_NAME by { assert OLD_NAME[16] != NEW_NAME[16]; }
  }

  lemma StepKeepsSound(downgrade: bool, db: Db, p: Phase, ok: bool)
    requires Sound(db)
    ensures Sound(Step(downgrade, db, p, ok).0)
  {
    if p.Swapping? && Swap(downgrade, db).Some? { SwapKeepsSound(downgrade, db); }
  }

  /** At every point of every history, interrupted and concurrent, one of the two constraints is in
      force and the rows satisfy everything that is declared unique. */
  lemma {:induction false} UniquenessIsNeverLost(downgrade: bool, db: Db, events: seq<Event>)
    requires Sound(db)
    ensures Sound(After(downgrade, db, events).0)
    ensures NoDuplicates(After(downgrade, db, events).0.rows, NEW_COLUMNS)
  {
    if events != [] {
      var (before, p) := After(downgrade, db, events[..|events| - 1]);
      UniquenessIsNeverLost(downgrade, db, events[..|events| - 1]);
      var e := events[|events| - 1];
      if e.Work? { StepKeepsSound(downgrade, before, p, e.ok); }
    }
    SoundHasNoDuplicates(After(downgrade, db, events).0);
  }

  // ---- Rerunning ends at the target ----

  /** What earlier runs in the same direction can have left behind. */
  ghost predicate Tidy(downgrade: bool, db: Db) {
    var d := DirectionOf(downgrade);
    && Definitions(d, db)
    && (d.target in db.constraints <==> d.source !in db.constraints)
    && (d.target !in db.constraints ==> Leftover(d, db, d.target) && Leftover(d, db, d.build))
    && d.target !in db.others && d.build !in db.others
    && (!downgrade ==> forall name :: name in db.indexes && Legacy(db.indexes[name]) ==>
          name == d.source && d.source in db.constraints)
  }

  ghost predicate Leftover(d: Direction, db: Db, name: string) {
    name in db.indexes ==> IndexMatches(db.indexes[name], d.columns) && !db.indexes[name].owned
  }

  /** What each phase has established. */
  ghost predicate Established(downgrade: bool, db: Db, p: Phase) {
    var d := DirectionOf(downgrade);
    match p
    case Checking(build) => d.target !in db.constraints && (build ==> d.target !in db.indexes)
    case Creating => d.target !in db.constraints && d.target !in db.indexes && d.build !in db.indexes
    case Building => d.target !in db.constraints && d.target !in db.indexes && d.build in db.indexes
    case Cleaning => d.target !in db.constraints && d.target !in db.indexes
    case Verifying => d.target !in db.constraints && d.target !in db.indexes && d.build in db.indexes
      && db.indexes[d.build].valid && db.indexes[d.build].ready
    case Swapping => d.target in db.constraints || Selected(d, db) == Some(d.target)
      || (d.target !in db.indexes && Selected(d, db) == Some(d.build))
    case Done => d.target in db.constraints
    case Reading => true
    case Raised => true
  }

  lemma NamesDiffer()
    ensures |{OLD_NAME, NEW_NAME, BUILD_OLD, BUILD_NEW}| == 4
    ensures OLD_NAME != NEW_NAME && OLD_NAME != BUILD_OLD && OLD_NAME != BUILD_NEW
    ensures NEW_NAME != BUILD_OLD && NEW_NAME != BUILD_NEW && BUILD_OLD != BUILD_NEW
  {
    assert OLD_NAME[16] != NEW_NAME[16];
    assert OLD_NAME[0] != BUILD_OLD[0] && BUILD_OLD[17] != BUILD_NEW[17];
  }

  lemma NewIsNotLegacy(i: Index)
    requires i.columns == NEW_COLUMNS
    ensures !Legacy(i)
  {
    var mine, legacy := (set c | c in i.columns), (set c | c in OLD_COLUMNS);
    assert i.columns[3] == Exchange;
    assert Exchange in mine && Exchange !in legacy;
    assert mine != legacy;
  }

  lemma SwapKeepsTidy(downgrade: bool, db: Db)
    requires Tidy(downgrade, db) && Established(downgrade, db, Swapping)
    ensures Swap(downgrade, db).Some? && Tidy(downgrade, Swap(downgrade, db).value)
    ensures DirectionOf(downgrade).target in Swap(downgrade, db).value.constraints
  {
    NamesDiffer();
    var d := DirectionOf(downgrade);
    if d.target !in db.constraints && !downgrade { NewIsNotLegacy(db.indexes[Selected(d, db).value]); }
  }

  lemma StepKeepsTidy(downgrade: bool, db: Db, p: Phase, ok: bool)
    requires Tidy(downgrade, db) && Established(downgrade, db, p)
    ensures var (after, q) := Step(downgrade, db, p, ok); Tidy(downgrade, after) && Established(downgrade, after, q)
  {
    NamesDiffer();
    var d := DirectionOf(downgrade);
    if p.Swapping? { SwapKeepsTidy(downgrade, db); }
    if !downgrade {
      NewIsNotLegacy(Index(true, true, true, d.columns, false, false, false));
      NewIsNotLegacy(Index(true, true, true, d.columns, true, true, false));
      if d.build in db.indexes && db.indexes[d.build].columns == d.columns {
        NewIsNotLegacy(db.indexes[d.build].(valid := true, ready := true));
      }
    }
  }

  lemma {:induction false} ReachableIsTidy(downgrade: bool, db: Db, events: seq<Event>)
    requires Tidy(downgrade, db)
    ensures var (after, p) := After(downgrade, db, events); Tidy(downgrade, after) && Established(downgrade, after, p)
  {
    if events != [] {
      ReachableIsTidy(downgrade, db, events[..|events| - 1]);
      var (before, p) := After(downgrade, db, events[..|events| - 1]);
      if events[|events| - 1].Work? { StepKeepsTidy(downgrade, before, p, events[|events| - 1].ok); }
    }
  }

  /** A run from a phase to its end in which the database completes every step. */
  ghost function FaultFree(downgrade: bool, db: Db, p: Phase): (Db, Phase)
    decreases Rank(p)
  {
    if p.Done? || p.Raised? then (db, p)
    else
      var (after, q) := Step(downgrade, db, p, true);
      FaultFree(downgrade, after, q)
  }

  lemma {:induction false} FaultFreeFinishes(downgrade: bool, db: Db, p: Phase)
    requires Tidy(downgrade, db) && Established(downgrade, db, p) && !p.Cleaning? && !p.Raised?
    requires NoDuplicates(db.rows, DirectionOf(downgrade).columns)
    ensures var (after, q) := FaultFree(downgrade, db, p);
      q.Done? && Tidy(downgrade, after) && Established(downgrade, after, q) && after.rows == db.rows
    decreases Rank(p)
  {
    if !p.Done? {
      StepKeepsTidy(downgrade, db, p, true);
      var (after, q) := Step(downgrade, db, p, true);
      if p.Swapping? { SwapKeepsTidy(downgrade, db); }
      FaultFreeFinishes(downgrade, after, q);
    }
  }

  /** The catalog a direction starts from: its source constraint and nothing of its own yet. */
  ghost predicate Installed(downgrade: bool, db: Db) {
    var d := DirectionOf(downgrade);
    && Sound(db)
    && d.source in db.constraints && ConstraintMatches(db.constraints[d.source], d.sourceColumns)
    && d.target !in db.constraints && d.target !in db.indexes && d.build !in db.indexes
    && d.target !in db.others && d.build !in db.others
    && (!downgrade ==> forall name :: name in db.indexes && Legacy(db.indexes[name]) ==> name == d.source)
  }

  /** A swap that commits has put an exact index under the new constraint: unique, of the standard kind,
      plain, complete and free; or the new constraint was there already. The old one is gone, on upgrade no
      other unique index of the old key is left, and nothing else has changed. */
  lemma SwapAdoptsExactIndex(downgrade: bool, db: Db)
    requires Step(downgrade, db, Swapping, true).1.Done?
    ensures var d := DirectionOf(downgrade);
      var after := Step(downgrade, db, Swapping, true).0;
      && d.target in after.constraints && after.constraints[d.target] == Constraint(true, false, d.columns)
      && d.source !in after.constraints && after.rows == db.rows && after.others == db.others
      && (forall name :: name !in {d.source, d.target, d.build} ==>
            && (name in after.constraints <==> name in db.constraints)
            && (name in db.constraints ==> after.constraints[name] == db.constraints[name])
            && (name in after.indexes <==> name in db.indexes)
            && (name in db.indexes ==> after.indexes[name] == db.indexes[name]))
      && (d.target !in db.constraints ==>
            exists name :: name in {d.target, d.build} && name in db.indexes
              && db.indexes[name] == Index(true, true, true, d.columns, true, true, false)
              && after.indexes[d.target] == db.indexes[name].(owned := true))
  {
    var d := DirectionOf(downgrade);
    if d.target !in db.constraints {
      var name := Selected(d, db).value;
      assert name in {d.target, d.build} && name in db.indexes;
    }
  }

  /** Before the swap the migration only ever drops an index under its own two names that is unfinished and
      free, and touches no constraint, row or other index. */
  lemma PreparationDropsOnlyUnfinished(downgrade: bool, db: Db, p: Phase, ok: bool, name: string)
    requires !p.Swapping?
    ensures var d := DirectionOf(downgrade);
      var after := Step(downgrade, db, p, ok).0;
      && after.constraints == db.constraints && after.rows == db.rows && after.others == db.others
      && (name in db.indexes && name !in after.indexes ==>
            && name in {d.target, d.build} && !db.indexes[name].owned
            && !(db.indexes[name].valid && db.indexes[name].ready))
      && (name !in {d.target, d.build} && name in after.indexes ==> name in db.indexes && after.indexes[name] == db.indexes[name])
  {
  }

  ghost predicate Migrated(downgrade: bool, db: Db) {
    var d := DirectionOf(downgrade);
    d.target in db.constraints && ConstraintMatches(db.constraints[d.target], d.columns) && d.source !in db.constraints
  }

  /** However often an upgrade was interrupted and whatever was inserted meanwhile, one run that the
      database completes ends with the new constraint and without the old one; it cannot meet duplicates. */
  lemma UpgradeRerunFinishes(db: Db, events: seq<Event>)
    requires Installed(false, db)
    ensures var (before, p) := After(false, db, events + [Crash]);
      var (after, q) := FaultFree(false, before, p);
      p == Reading && q == Done && Migrated(false, after) && after.rows == before.rows
  {
    assert (events + [Crash])[..|events|] == events;
    UniquenessIsNeverLost(false, db, events + [Crash]);
    ReachableIsTidy(false, db, events + [Crash]);
    FaultFreeFinishes(false, After(false, db, events + [Crash]).0, Reading);
  }

  /** A build of the new index never finds duplicates. */
  lemma UpgradeMeetsNoDuplicates(db: Db, events: seq<Event>)
    requires Installed(false, db)
    ensures var (before, p) := After(false, db, events); p.Building? ==> Step(false, before, p, true).1 == Verifying
  {
    UniquenessIsNeverLost(false, db, events);
    ReachableIsTidy(false, db, events);
  }

  /** A downgrade rerun finishes exactly when the rows can carry the old key. */
  lemma DowngradeRerunFinishes(db: Db, events: seq<Event>)
    requires Installed(true, db)
    ensures var (before, p) := After(true, db, events + [Crash]);
      var (after, q) := FaultFree(true, before, p);
      && (q == Done <==> NoDuplicates(before.rows, OLD_COLUMNS))
      && (q == Done ==> Migrated(true, after) && after.rows == before.rows)
      && (q != Done ==> after.constraints == before.constraints && after.rows == before.rows)
  {
    assert (events + [Crash])[..|events|] == events;
    UniquenessIsNeverLost(true, db, events + [Crash]);
    ReachableIsTidy(true, db, events + [Crash]);
    var (before, p) := After(true, db, events + [Crash]);
    if NoDuplicates(before.rows, OLD_COLUMNS) {
      FaultFreeFinishes(true, before, p);
    } else {
      DuplicatesStop(before, p);
    }
  }

  /** With two rows sharing the old key a downgrade cannot get past its index build. */
  lemma {:induction false} DuplicatesStop(db: Db, p: Phase)
    requires Tidy(true, db) && Sound(db) && Established(true, db, p) && !NoDuplicates(db.rows, OLD_COLUMNS)
    ensures var (after, q) := FaultFree(true, db, p);
      q == Raised && after.constraints == db.constraints && after.rows == db.rows
    decreases Rank(p)
  {
    assert OLD_NAME !in db.constraints;
    assert p != Done && p != Swapping;
    if p != Raised {
      StepKeepsTidy(true, db, p, true);
      StepKeepsSound(true, db, p, true);
      var (after, q) := Step(true, db, p, true);
      assert after.constraints == db.constraints && after.rows == db.rows;
      DuplicatesStop(after, q);
    }
  }

  /** No swap has committed at any point of this history. */
  ghost predicate NeverDone(downgrade: bool, db: Db, events: seq<Event>) {
    forall n :: 0 <= n <= |events| ==> After(downgrade, db, events[..n]).1 != Done
  }

  /** Whatever fails, crashes or is inserted: the migration never touches a row, so the rows are the old
      ones followed by what other sessions inserted; and until a swap commits it touches no constraint. */
  lemma {:induction false} FailedRunChangesNothing(downgrade: bool, db: Db, events: seq<Event>)
    ensures After(downgrade, db, events).0.rows == db.rows + Inserted(downgrade, db, events)
    ensures NeverDone(downgrade, db, events) ==> After(downgrade, db, events).0.constraints == db.constraints
  {
    if events == [] {
      assert db.rows + Inserted(downgrade, db, events) == db.rows;
    } else {
      var front := events[..|events| - 1];
      FailedRunChangesNothing(downgrade, db, front);
      var (before, p) := After(downgrade, db, front);
      EventKeeps(downgrade, before, p, events[|events| - 1]);
      if NeverDone(downgrade, db, events) {
        forall n | 0 <= n <= |front| ensures After(downgrade, db, front[..n]).1 != Done { assert front[..n] == events[..n]; }
        assert events[..|events|] == events;
      }
    }
  }

  lemma EventKeeps(downgrade: bool, db: Db, p: Phase, e: Event)
    ensures var (after, q) := Next(downgrade, db, p, e);
      && after.rows == db.rows + (if e.Insert? && Inserts(db, e.row) then [e.row] else [])
      && (q != Done ==> after.constraints == db.constraints)
  {
  }

  /** The rows other sessions managed to insert. */
  ghost function Inserted(downgrade: bool, db: Db, events: seq<Event>): seq<Trade> {
    if events == [] then []
    else
      var front, e := events[..|events| - 1], events[|events| - 1];
      Inserted(downgrade, db, front)
      + if e.Insert? && Inserts(After(downgrade, db, front).0, e.row) then [e.row] else []
  }

  // ---- The migration object ----

  /** The steps of a run up to its swap; `ok` says which of them the database completes. */
  ghost function Prepared(downgrade: bool, db: Db, p: Phase, ok: Phase -> bool): (Db, Phase)
    decreases Rank(p)
  {
    if p.Swapping? || p.Done? || p.Raised? then (db, p)
    else
      var (after, q) := Step(downgrade, db, p, ok(p));
      Prepared(downgrade, after, q, ok)
  }

  /** A whole run in which nothing fails is its preparation followed by its swap. */
  lemma {:induction false} FaultFreeIsPreparedThenSwapped(downgrade: bool, db: Db, p: Phase, ok: Phase -> bool)
    requires forall q :: ok(q)
    ensures var (prepared, q) := Prepared(downgrade, db, p, ok);
      FaultFree(downgrade, db, p) == if q.Swapping? then Step(downgrade, prepared, q, true) else (prepared, q)
    decreases Rank(p)
  {
    if p.Swapping? {
      var (after, q) := Step(downgrade, db, p, true);
      assert FaultFree(downgrade, after, q) == (after, q);
    } else if !p.Done? && !p.Raised? {
      var (after, q) := Step(downgrade, db, p, true);
      FaultFreeIsPreparedThenSwapped(downgrade, after, q, ok);
    }
  }

  class TradeTable {
    var constraints: map<string, Constraint>
    var indexes: map<string, Index>
    var others: set<string>
    var rows: seq<Trade>

    ghost function View(): Db reads this { Db(constraints, indexes, others, rows) }

    constructor (db: Db)
      ensures View() == db
    {
      constraints, indexes, others, rows := db.constraints, db.indexes, db.others, db.rows;
    }

    /** Looks for an index of an earlier run under one name: reuses it, drops it, or refuses it. */
    method CheckName(downgrade: bool, build: bool, ok: Phase -> bool) returns (q: Phase)
      modifies this
      ensures (View(), q) == Step(downgrade, old(View()), Checking(build), ok(Checking(build)))
    {
      var d := DirectionOf(downgrade);
      var name := if build then d.build else d.target;
      if !ok(Checking(build)) { return Raised; }
      q := if build then Creating else Checking(true);
      if name !in indexes {
        if name in others { q := Raised; }
        return;
      }
      var existing := indexes[name];
      if !IndexMatches(existing, d.columns) || existing.owned { return Raised; }
      if existing.valid && existing.ready { return Swapping; }
      indexes := indexes - {name};
    }

    /** Creates the index, which enforces nothing until its build has completed. */
    method CreateIndex(downgrade: bool, ok: Phase -> bool) returns (q: Phase)
      modifies this
      ensures (View(), q) == Prepared(downgrade, old(View()), Creating, ok)
    {
      var d := DirectionOf(downgrade);
      if ok(Creating) && d.build !in indexes && d.build !in others {
        var entry := Index(true, true, true, d.columns, false, false, false);
        indexes := indexes[d.build := entry];
        if ok(Building) && NoDuplicates(rows, d.columns) {
          indexes := indexes[d.build := entry.(valid := true, ready := true)];
          return if ok(Verifying) then Swapping else Raised;
        }
      }
      if ok(Cleaning) && d.build in indexes {
        var failed := indexes[d.build];
        if IndexMatches(failed, d.columns) && !failed.valid && !failed.owned { indexes := indexes - {d.build}; }
      }
      q := Raised;
    }

    method PrepareIndex(downgrade: bool, ok: Phase -> bool) returns (q: Phase)
      modifies this
      ensures (View(), q) == Prepared(downgrade, old(View()), Reading, ok)
    {
      var d := DirectionOf(downgrade);
      if !ok(Reading) { return Raised; }
      if d.target in constraints {
        return if ConstraintMatches(constraints[d.target], d.columns) then Swapping else Raised;
      }
      q := CheckName(downgrade, false, ok);
      if q == Checking(true) { q := CheckName(downgrade, true, ok); }
      if q == Creating { q := CreateIndex(downgrade, ok); }
    }

    /** Attaches the replacement and drops the source constraint in one transaction. */
    method SwapConstraint(downgrade: bool, ok: bool) returns (q: Phase)
      modifies this
      ensures (View(), q) == Step(downgrade, old(View()), Swapping, ok)
    {
      var d := DirectionOf(downgrade);
      var db := Db(constraints, indexes, others, rows);
      if !ok || !Definitions(d, db) { return Raised; }
      var selected: Option<string> := None;
      if d.target !in constraints {
        selected := Selected(d, db);
        if selected.None? || (selected.value != d.target && d.target in indexes) { return Raised; }
      }
      var after := Altered(d, db, selected);
      if !downgrade && exists name :: name in after.indexes && Legacy(after.indexes[name]) { return Raised; }
      constraints, indexes := after.constraints, after.indexes;
      q := Done;
    }

    method Migrate(downgrade: bool, ok: Phase -> bool) returns (q: Phase)
      modifies this
      ensures var (db, p) := Prepared(downgrade, old(View()), Reading, ok);
        (View(), q) == if p.Swapping? then Step(downgrade, db, p, ok(p)) else (db, p)
    {
      q := PrepareIndex(downgrade, ok);
      if q == Swapping { q := SwapConstraint(downgrade, ok(Swapping)); }
    }

    /** An upgrade rerun after any history of interrupted upgrades and concurrent inserts: when the
        database completes its steps, the table ends migrated, with the rows it had. */
    method RerunUpgrade(ok: Phase -> bool, ghost db: Db, ghost events: seq<Event>) returns (q: Phase)
      requires Installed(false, db) && View() == After(false, db, events + [Crash]).0 && forall p :: ok(p)
      modifies this
      ensures q == Done && Migrated(false, View()) && rows == old(rows)
    {
      UpgradeRerunFinishes(db, events);
      FaultFreeIsPreparedThenSwapped(false, View(), Reading, ok);
      q := Migrate(false, ok);
    }
  }
}
