/** The abstract store that stands in for Entity Framework: one table per
    entity kind mapping primary key to record, the set of entities the context
    tracks, and a counter of committed SaveChanges calls. */
module Storage {
  import opened Wrappers

  /** An entity kind is identified by its type's name. */
  type Kind = string

  /** An entity's non-key property values, by property name. */
  type Fields = map<string, string>

  /** A data item: its runtime kind, its Id (the primary key) and the rest. */
  datatype Entity = Entity(kind: Kind, id: int, fields: Fields)

  /** The errors the engine reports; each stands for the exception the source
      throws at that point. */
  datatype StoreError =
    | ArgumentNull(param: string)
    | ArgumentOutOfRange(param: string)
    | NotSupported(kind: Kind)
    | DatabaseDoesNotExist
    | DuplicateKey(kind: Kind, id: int)

  /** A table's rows and its identity seed: the key the next generated insert
      receives. Generated keys are never reused. */
  datatype Table = Table(rows: map<int, Fields>, seed: int)

  const EmptyTable := Table(map[], 1)

  /** What a context holds: its tables, the (kind, key) pairs it tracks and the
      number of commits it has made. */
  datatype Db = Db(tables: map<Kind, Table>, tracked: set<(Kind, int)>, commits: nat)

  const EmptyDb := Db(map[], {}, 0)

  /** A kind's table; a kind with no rows yet has the empty table. */
  function TableOf(db: Db, kind: Kind): Table {
    if kind in db.tables then db.tables[kind] else EmptyTable
  }

  function Keys(db: Db, kind: Kind): set<int> {
    TableOf(db, kind).rows.Keys
  }

  /** The seed is positive and above every key, so a generated key is fresh;
      whatever is tracked is a row. */
  predicate Valid(db: Db) {
    && (forall kind | kind in db.tables :: db.tables[kind].seed >= 1)
    && (forall kind, k | kind in db.tables && k in db.tables[kind].rows :: k < db.tables[kind].seed)
    && (forall p | p in db.tracked :: p.1 in Keys(db, p.0))
  }

  /** DbSet.Find without its side effect: the row with that key, if any. */
  function FindRow(db: Db, kind: Kind, key: int): Option<Entity> {
    var t := TableOf(db, kind);
    if key in t.rows then Some(Entity(kind, key, t.rows[key])) else None
  }

  function WithTable(db: Db, kind: Kind, t: Table): Db {
    db.(tables := db.tables[kind := t])
  }

  /** Find's side effect: a row it returns is attached to the context. */
  function AttachRow(db: Db, kind: Kind, key: int): Db {
    if key in Keys(db, kind) then db.(tracked := db.tracked + {(kind, key)}) else db
  }

  /** DbSet.Add followed by the insert SaveChanges performs: a zero Id gets the
      identity seed, any other Id is inserted as given and fails when that row
      already exists. The entity returned carries its key. */
  function AddRow(db: Db, e: Entity): Result<(Db, Entity), StoreError> {
    var t := TableOf(db, e.kind);
    var key := if e.id == 0 then t.seed else e.id;
    if key in t.rows then
      Failure(DuplicateKey(e.kind, key))
    else
      var seed := if key >= t.seed then key + 1 else t.seed;
      var db' := WithTable(db, e.kind, Table(t.rows[key := e.fields], seed));
      Success((db'.(tracked := db.tracked + {(e.kind, key)}), Entity(e.kind, key, e.fields)))
  }

  /** Entry(item).State = Modified: the row under the item's key is replaced. */
  function ModifyRow(db: Db, e: Entity): Db {
    var t := TableOf(db, e.kind);
    WithTable(db, e.kind, t.(rows := t.rows[e.id := e.fields])).(tracked := db.tracked + {(e.kind, e.id)})
  }

  /** DbContext.Remove: the row goes and the entity is no longer tracked. */
  function RemoveRow(db: Db, kind: Kind, key: int): Db {
    var t := TableOf(db, kind);
    WithTable(db, kind, t.(rows := t.rows - {key})).(tracked := db.tracked - {(kind, key)})
  }

  function CommitDb(db: Db): Db {
    db.(commits := db.commits + 1)
  }

  lemma AddRowOutcome(db: Db, e: Entity)
    requires Valid(db)
    ensures AddRow(db, e).Failure? <==> e.id != 0 && e.id in Keys(db, e.kind)
    ensures AddRow(db, e).Success? ==>
              var (db', saved) := AddRow(db, e).value;
              && saved.kind == e.kind && saved.fields == e.fields
              && (e.id == 0 ==> saved.id == TableOf(db, e.kind).seed && saved.id >= 1)
              && (e.id != 0 ==> saved.id == e.id)
              && saved.id !in Keys(db, e.kind)
              && Keys(db', e.kind) == Keys(db, e.kind) + {saved.id}
              && FindRow(db', e.kind, saved.id) == Some(saved)
              && Valid(db')
  {
    var t := TableOf(db, e.kind);
    if e.id == 0 {
      assert t.seed !in t.rows;
    }
    if AddRow(db, e).Success? {
      var (db', saved) := AddRow(db, e).value;
      forall kind, k | kind in db'.tables && k in db'.tables[kind].rows
        ensures k < db'.tables[kind].seed
      {
        if kind != e.kind {
          assert db'.tables[kind] == db.tables[kind];
        }
      }
      forall p | p in db'.tracked ensures p.1 in Keys(db', p.0) {
        if p != (e.kind, saved.id) {
          assert p in db.tracked;
          assert Keys(db, p.0) <= Keys(db', p.0);
        }
      }
    }
  }

  /** Removing a row keeps the store valid: seeds are untouched and the row's
      pair leaves the tracked set with it. */
  lemma RemoveRowKeepsValid(db: Db, kind: Kind, key: int)
    requires Valid(db)
    ensures Valid(RemoveRow(db, kind, key))
    ensures Keys(RemoveRow(db, kind, key), kind) == Keys(db, kind) - {key}
  {
    var db' := RemoveRow(db, kind, key);
    forall kd, k | kd in db'.tables && k in db'.tables[kd].rows
      ensures k < db'.tables[kd].seed
    {
      if kd != kind {
        assert db'.tables[kd] == db.tables[kd];
      }
    }
    forall p | p in db'.tracked ensures p.1 in Keys(db', p.0) {
      assert p in db.tracked && p != (kind, key);
      if p.0 != kind {
        assert TableOf(db', p.0) == TableOf(db, p.0);
      }
    }
  }

  // ---- The context ----

  /** A DbContext over the store. The kinds it supports are fixed when it is
      built (ContextSupports of a derived DynamicDbContext). */
  class DbContext {
    const supports: set<Kind>
    var tables: map<Kind, Table>
    var tracked: set<(Kind, int)>
    var commits: nat

    function State(): Db
      reads this
    {
      Db(tables, tracked, commits)
    }

    constructor (supports: set<Kind>)
      ensures this.supports == supports && State() == EmptyDb
    {
      this.supports := supports;
      tables := map[];
      tracked := {};
      commits := 0;
    }

    /** DbSet.Find: the row with that key, which is then tracked. */
    method Find(kind: Kind, key: int) returns (r: Option<Entity>)
      modifies this
      ensures r == FindRow(old(State()), kind, key)
      ensures State() == AttachRow(old(State()), kind, key)
      ensures Valid(old(State())) ==> Valid(State())
    {
      r := FindRow(State(), kind, key);
      if r.Some? {
        tracked := tracked + {(kind, key)};
      }
    }

    /** DbSet.Add, with the insert it leads to. */
    method Add(e: Entity) returns (r: Result<Entity, StoreError>)
      modifies this
      ensures AddRow(old(State()), e).Failure? ==> r == Failure(AddRow(old(State()), e).error) && State() == old(State())
      ensures AddRow(old(State()), e).Success? ==>
                r == Success(AddRow(old(State()), e).value.1) && State() == AddRow(old(State()), e).value.0
      ensures Valid(old(State())) ==> Valid(State())
    {
      if Valid(State()) {
        AddRowOutcome(State(), e);
      }
      var t := TableOf(State(), e.kind);
      var key := if e.id == 0 then t.seed else e.id;
      if key in t.rows {
        return Failure(DuplicateKey(e.kind, key));
      }
      var seed := if key >= t.seed then key + 1 else t.seed;
      tables := tables[e.kind := Table(t.rows[key := e.fields], seed)];
      tracked := tracked + {(e.kind, key)};
      return Success(Entity(e.kind, key, e.fields));
    }

    /** Entry(item).State = Modified. */
    method MarkModified(e: Entity)
      modifies this
      ensures State() == ModifyRow(old(State()), e)
    {
      var t := TableOf(State(), e.kind);
      tables := tables[e.kind := t.(rows := t.rows[e.id := e.fields])];
      tracked := tracked + {(e.kind, e.id)};
    }

    /** DbContext.Remove. */
    method Remove(kind: Kind, key: int)
      modifies this
      ensures State() == RemoveRow(old(State()), kind, key)
      ensures Valid(old(State())) ==> Valid(State())
    {
      if Valid(State()) {
        RemoveRowKeepsValid(State(), kind, key);
      }
      var t := TableOf(State(), kind);
      tables := tables[kind := t.(rows := t.rows - {key})];
      tracked := tracked - {(kind, key)};
    }

    /** DbContext.SaveChanges: one commit. */
    method SaveChanges()
      modifies this
      ensures State() == CommitDb(old(State()))
      ensures Valid(old(State())) ==> Valid(State())
    {
      commits := commits + 1;
    }
  }
}
