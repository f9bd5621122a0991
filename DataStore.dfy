/** The CRUD engine: start-up against a context provider, the insert-or-update
    decision of a save, item-by-item batches, delete with re-fetch of a
    detached item, and the read and count pipelines over the routed context. */
module DataStore {
  import opened Wrappers
  import opened Storage
  import opened Query
  import DynamicDbContext
  import TypeExtensions

  // ---- Save ----

  datatype SaveOutcome = SaveOutcome(db: Db, result: Result<Entity, StoreError>)

  /** Reference definition of ProcessSaveItem on one context. An Id above zero
      whose row Find returns is an update (the row is replaced); every other
      item is added, with a generated key when its Id is zero. Each path ends
      in one SaveChanges; a duplicate explicit key makes it throw. */
  function SaveSpec(db: Db, e: Entity): SaveOutcome {
    if e.id > 0 && FindRow(db, e.kind, e.id).Some? then
      SaveOutcome(CommitDb(ModifyRow(AttachRow(db, e.kind, e.id), e)), Success(e))
    else
      match AddRow(db, e)
      case Failure(err) => SaveOutcome(db, Failure(err))
      case Success(added) => SaveOutcome(CommitDb(added.0), Success(added.1))
  }

  /** A save commits exactly once when it succeeds and leaves the context as it
      was when it fails; it fails only on a negative Id whose row exists. */
  lemma SaveCommitsOnce(db: Db, e: Entity)
    requires Valid(db)
    ensures SaveSpec(db, e).result.Success? ==> SaveSpec(db, e).db.commits == db.commits + 1
    ensures SaveSpec(db, e).result.Failure? ==> SaveSpec(db, e).db == db
    ensures SaveSpec(db, e).result.Failure? <==> e.id < 0 && e.id in Keys(db, e.kind)
    ensures SaveSpec(db, e).result.Failure? ==> SaveSpec(db, e).result.error == DuplicateKey(e.kind, e.id)
  {
    AddRowOutcome(db, e);
  }

  /** Saving stores the item under the key it comes back with: that key is
      non-zero, it is the item's own Id unless the Id was zero, and reading it
      back gives the item's fields. */
  lemma SaveRoundTrip(db: Db, e: Entity)
    requires Valid(db)
    requires SaveSpec(db, e).result.Success?
    ensures var saved := SaveSpec(db, e).result.value;
            && saved.kind == e.kind && saved.fields == e.fields
            && saved.id != 0
            && (e.id != 0 ==> saved.id == e.id)
            && FindRow(SaveSpec(db, e).db, e.kind, saved.id) == Some(saved)
            && Valid(SaveSpec(db, e).db)
  {
    AddRowOutcome(db, e);
    if e.id > 0 && FindRow(db, e.kind, e.id).Some? {
      var db' := SaveSpec(db, e).db;
      forall kind, k | kind in db'.tables && k in db'.tables[kind].rows
        ensures k < db'.tables[kind].seed
      {
        if kind != e.kind {
          assert db'.tables[kind] == db.tables[kind];
        }
      }
      forall p | p in db'.tracked ensures p.1 in Keys(db', p.0) {
        assert Keys(db, p.0) <= Keys(db', p.0);
      }
    }
  }

  /** Every save, failed or not, leaves a valid store valid. */
  lemma SaveKeepsValid(db: Db, e: Entity)
    requires Valid(db)
    ensures Valid(SaveSpec(db, e).db)
  {
    SaveCommitsOnce(db, e);
    if SaveSpec(db, e).result.Success? {
      SaveRoundTrip(db, e);
    }
  }

  /** A new item (Id zero) is inserted under a key that was not in use. */
  lemma SaveNewItemInserts(db: Db, e: Entity)
    requires Valid(db) && e.id == 0
    ensures SaveSpec(db, e).result.Success?
    ensures var saved := SaveSpec(db, e).result.value;
            && saved.id >= 1 && saved.id !in Keys(db, e.kind)
            && Keys(SaveSpec(db, e).db, e.kind) == Keys(db, e.kind) + {saved.id}
  {
    AddRowOutcome(db, e);
  }

  /** An Id above zero with no row is inserted under that Id. */
  lemma SaveMissingRowInserts(db: Db, e: Entity)
    requires Valid(db) && e.id > 0 && e.id !in Keys(db, e.kind)
    ensures SaveSpec(db, e).result == Success(e)
    ensures Keys(SaveSpec(db, e).db, e.kind) == Keys(db, e.kind) + {e.id}
  {
    AddRowOutcome(db, e);
  }

  /** An Id above zero whose row exists is an update: the item comes back
      unchanged, its row now holds the item's fields, and no key of any kind
      appears or disappears. */
  lemma SaveExistingRowUpdates(db: Db, e: Entity)
    requires e.id > 0 && e.id in Keys(db, e.kind)
    ensures SaveSpec(db, e).result == Success(e)
    ensures FindRow(SaveSpec(db, e).db, e.kind, e.id) == Some(e)
    ensures forall kind :: Keys(SaveSpec(db, e).db, kind) == Keys(db, kind)
  {
    var db' := SaveSpec(db, e).db;
    forall kind ensures Keys(db', kind) == Keys(db, kind) {
      if kind != e.kind {
        assert TableOf(db', kind) == TableOf(db, kind);
      }
    }
  }

  /** A save touches one row: other kinds' tables and the other rows of its
      own kind are as they were. */
  lemma SaveTouchesOneRow(db: Db, e: Entity)
    requires SaveSpec(db, e).result.Success?
    ensures forall kind :: kind != e.kind ==> TableOf(SaveSpec(db, e).db, kind) == TableOf(db, kind)
    ensures forall k :: k in Keys(db, e.kind) && k != SaveSpec(db, e).result.value.id ==>
              FindRow(SaveSpec(db, e).db, e.kind, k) == FindRow(db, e.kind, k)
  {
  }

  // ---- Batch save ----

  /** The state of a batch: the context, the items saved so far and the error
      that stopped it, if any. */
  datatype BatchOutcome = BatchOutcome(db: Db, saved: seq<Entity>, error: Option<StoreError>)

  /** Reference definition of ProcessSaveItems: save item by item in one
      context, each with its own commit; a null item or a failing save stops
      the batch and what was already saved stays committed. */
  function SaveAll(db: Db, items: seq<Option<Entity>>): BatchOutcome {
    if items == [] then
      BatchOutcome(db, [], None)
    else
      var before := SaveAll(db, items[..|items| - 1]);
      if before.error.Some? then
        before
      else
        match items[|items| - 1]
        case None => before.(error := Some(ArgumentNull("itemToSave")))
        case Some(e) =>
          var o := SaveSpec(before.db, e);
          match o.result
          case Success(saved) => BatchOutcome(o.db, before.saved + [saved], None)
          case Failure(err) => BatchOutcome(o.db, before.saved, Some(err))
  }

  /** A batch commits once per saved item, keeps the context valid, and when it
      completes returns one saved item per input, in order. */
  lemma {:induction false} SaveAllCommitsPerItem(db: Db, items: seq<Option<Entity>>)
    requires Valid(db)
    ensures SaveAll(db, items).db.commits == db.commits + |SaveAll(db, items).saved|
    ensures Valid(SaveAll(db, items).db)
    ensures SaveAll(db, items).error.None? ==> |SaveAll(db, items).saved| == |items|
    ensures |SaveAll(db, items).saved| <= |items|
  {
    if items != [] {
      var front := items[..|items| - 1];
      SaveAllCommitsPerItem(db, front);
      var before := SaveAll(db, front);
      if before.error.None? && items[|items| - 1].Some? {
        var e := items[|items| - 1].value;
        SaveCommitsOnce(before.db, e);
        if SaveSpec(before.db, e).result.Success? {
          SaveRoundTrip(before.db, e);
        }
      }
    }
  }

  /** Once a prefix of the batch has stopped, later items change nothing. */
  lemma {:induction false} SaveAllKeepsError(db: Db, items: seq<Option<Entity>>, k: nat)
    requires k <= |items|
    requires SaveAll(db, items[..k]).error.Some?
    ensures SaveAll(db, items) == SaveAll(db, items[..k])
  {
    if k < |items| {
      var front := items[..|items| - 1];
      assert front[..k] == items[..k];
      SaveAllKeepsError(db, front, k);
    } else {
      assert items[..k] == items;
    }
  }

  /** No atomicity: once the items before position k are through, a null item
      at k ends the batch with everything before it committed. */
  lemma {:induction false} SaveAllStopsAtNull(db: Db, items: seq<Option<Entity>>, k: nat)
    requires k < |items| && items[k].None?
    requires SaveAll(db, items[..k]).error.None?
    ensures SaveAll(db, items).db == SaveAll(db, items[..k]).db
    ensures SaveAll(db, items).saved == SaveAll(db, items[..k]).saved
    ensures SaveAll(db, items).error == Some(ArgumentNull("itemToSave"))
  {
    assert items[..k + 1][..k] == items[..k];
    SaveAllKeepsError(db, items, k + 1);
  }

  /** Item k is committed before item k+1 is tried: a batch extended by one
      item is the shorter batch followed by one more save. */
  lemma SaveAllIsSequential(db: Db, items: seq<Option<Entity>>, e: Entity)
    requires SaveAll(db, items).error.None?
    ensures var before := SaveAll(db, items);
            var o := SaveSpec(before.db, e);
            SaveAll(db, items + [Some(e)]).db == o.db &&
            (o.result.Success? ==> SaveAll(db, items + [Some(e)]).saved == before.saved + [o.result.value])
  {
    assert (items + [Some(e)])[..|items|] == items;
  }

  // ---- Delete ----

  /** Reference definition of ProcessDeleteItem on one context. A tracked item
      is removed directly; a detached one is looked up by its kind and Id, and
      if no row is found nothing happens and nothing is committed. */
  function DeleteSpec(db: Db, e: Entity): Db {
    if (e.kind, e.id) in db.tracked then
      CommitDb(RemoveRow(db, e.kind, e.id))
    else
      match FindRow(db, e.kind, e.id)
      case None => db
      case Some(row) => CommitDb(RemoveRow(AttachRow(db, e.kind, e.id), row.kind, row.id))
  }

  /** Deleting removes exactly the item's row when it exists, with one commit,
      whichever way the item was reached; when it does not exist the context is
      unchanged. Other kinds are untouched and the context stays valid. */
  lemma DeleteRemovesRow(db: Db, e: Entity)
    requires Valid(db)
    ensures e.id !in Keys(db, e.kind) ==> DeleteSpec(db, e) == db
    ensures e.id in Keys(db, e.kind) ==> DeleteSpec(db, e).commits == db.commits + 1
    ensures Keys(DeleteSpec(db, e), e.kind) == Keys(db, e.kind) - {e.id}
    ensures forall k :: k != e.id ==> FindRow(DeleteSpec(db, e), e.kind, k) == FindRow(db, e.kind, k)
    ensures forall kind :: kind != e.kind ==> TableOf(DeleteSpec(db, e), kind) == TableOf(db, kind)
    ensures Valid(DeleteSpec(db, e))
  {
    var db' := DeleteSpec(db, e);
    if e.id in Keys(db, e.kind) {
      assert db' == CommitDb(RemoveRow(db, e.kind, e.id)).(tracked := db.tracked - {(e.kind, e.id)});
      forall kind, k | kind in db'.tables && k in db'.tables[kind].rows
        ensures k < db'.tables[kind].seed
      {
        if kind != e.kind {
          assert db'.tables[kind] == db.tables[kind];
        }
      }
      forall p | p in db'.tracked ensures p.1 in Keys(db', p.0) {
        assert p in db.tracked && p != (e.kind, e.id);
      }
    }
  }

  /** Reference definition of ProcessDeleteItems: delete item by item in one
      context; a null item stops the batch. */
  function DeleteAll(db: Db, items: seq<Option<Entity>>): (Db, Outcome<StoreError>) {
    if items == [] then
      (db, Pass)
    else
      var before := DeleteAll(db, items[..|items| - 1]);
      if before.1.Fail? then
        before
      else
        match items[|items| - 1]
        case None => (before.0, Fail(ArgumentNull("itemToDelete")))
        case Some(e) => (DeleteSpec(before.0, e), Pass)
  }

  /** Once a prefix of the batch has stopped, later items change nothing. */
  lemma {:induction false} DeleteAllKeepsError(db: Db, items: seq<Option<Entity>>, k: nat)
    requires k <= |items|
    requires DeleteAll(db, items[..k]).1.Fail?
    ensures DeleteAll(db, items) == DeleteAll(db, items[..k])
  {
    if k < |items| {
      var front := items[..|items| - 1];
      assert front[..k] == items[..k];
      DeleteAllKeepsError(db, front, k);
    } else {
      assert items[..k] == items;
    }
  }

  /** A delete batch, stopped or not, leaves a valid store valid. */
  lemma {:induction false} DeleteAllKeepsValid(db: Db, items: seq<Option<Entity>>)
    requires Valid(db)
    ensures Valid(DeleteAll(db, items).0)
  {
    if items != [] {
      var front := items[..|items| - 1];
      DeleteAllKeepsValid(db, front);
      var before := DeleteAll(db, front);
      if before.1.Pass? && items[|items| - 1].Some? {
        DeleteRemovesRow(before.0, items[|items| - 1].value);
      }
    }
  }

  /** The ids of the batch's items of one kind. */
  function IdsOfKind(items: seq<Option<Entity>>, kind: Kind): set<int> {
    set i | 0 <= i < |items| && items[i].Some? && items[i].value.kind == kind :: items[i].value.id
  }

  /** A completed delete batch removes exactly the items' keys, kind by kind. */
  lemma {:induction false} DeleteAllRemovesKeys(db: Db, items: seq<Option<Entity>>, kind: Kind)
    requires Valid(db)
    requires DeleteAll(db, items).1.Pass?
    ensures Valid(DeleteAll(db, items).0)
    ensures Keys(DeleteAll(db, items).0, kind) == Keys(db, kind) - IdsOfKind(items, kind)
  {
    if items != [] {
      var front := items[..|items| - 1];
      var last := items[|items| - 1];
      DeleteAllRemovesKeys(db, front, kind);
      var mid := DeleteAll(db, front).0;
      DeleteRemovesRow(mid, last.value);
      assert IdsOfKind(items, kind) ==
             IdsOfKind(front, kind) + (if last.value.kind == kind then {last.value.id} else {}) by {
        forall k ensures k in IdsOfKind(items, kind) <==>
                         k in IdsOfKind(front, kind) + (if last.value.kind == kind then {last.value.id} else {}) {
          if k in IdsOfKind(front, kind) {
            var i :| 0 <= i < |front| && front[i].Some? && front[i].value.kind == kind && front[i].value.id == k;
            assert items[i] == front[i];
          }
          if k in IdsOfKind(items, kind) {
            var i :| 0 <= i < |items| && items[i].Some? && items[i].value.kind == kind && items[i].value.id == k;
            if i < |front| { assert front[i] == items[i]; }
          }
        }
      }
    }
  }

  // ---- Keys and ordering ----

  /** GetKeyAsExpression: the first property carrying [Key], else "Id". */
  function OrderKeyName(properties: seq<DynamicDbContext.PropertyDesc>): (r: string)
    ensures (forall i :: 0 <= i < |properties| ==> !DynamicDbContext.IsKey(properties[i])) ==> r == "Id"
    ensures (exists i :: 0 <= i < |properties| && DynamicDbContext.IsKey(properties[i])) ==>
              exists i :: 0 <= i < |properties| && DynamicDbContext.IsKey(properties[i]) && properties[i].name == r
                          && forall j :: 0 <= j < i ==> !DynamicDbContext.IsKey(properties[j])
  {
    DynamicDbContext.KeyProperty(properties).GetOr("Id")
  }

  /** Paging orders by the key the schema mapped: whenever MapTableToObject
      succeeds, its key is GetKeyAsExpression's property. Without a [Key]
      property the mapping fails, while the ordering still falls back to "Id". */
  lemma OrderKeyAgreesWithMapping(m: DynamicDbContext.Model, t: DynamicDbContext.EntityTypeDesc)
    ensures DynamicDbContext.MapSpec(m, t).outcome.Pass? ==>
              DynamicDbContext.MapSpec(m, t).model.entities[t.name].key == Some(OrderKeyName(t.properties))
    ensures DynamicDbContext.TableName(t.attributes).Some? && DynamicDbContext.KeyProperty(t.properties).None? ==>
              DynamicDbContext.MapSpec(m, t).outcome == Fail(DynamicDbContext.MissingKeyProperty(t.name))
              && OrderKeyName(t.properties) == "Id"
  {
  }

  /** FixDynamicExpression: the predicate itself, or ArgumentNull. */
  function FixDynamicExpression(filter: Option<Entity -> bool>): (r: Result<Entity -> bool, StoreError>)
    ensures filter.None? <==> r == Failure(ArgumentNull("predicate"))
    ensures filter.Some? ==> r.Success? && r.value == filter.value
  {
    match filter
    case None => Failure(ArgumentNull("predicate"))
    case Some(p) => Success(p)
  }

  // ---- The context provider ----

  datatype ProviderCall = InitializeCall | VerifyContextCall

  /** The position of the first context supporting the kind. */
  function FirstSupporting(contexts: seq<DbContext>, kind: Kind): (r: Option<nat>)
    ensures r.Some? ==> r.value < |contexts| && kind in contexts[r.value].supports
                        && forall j :: 0 <= j < r.value ==> kind !in contexts[j].supports
    ensures r.None? <==> forall j :: 0 <= j < |contexts| ==> kind !in contexts[j].supports
  {
    if contexts == [] then
      None
    else if kind in contexts[0].supports then
      Some(0)
    else
      match FirstSupporting(contexts[1..], kind)
      case None => None
      case Some(i) => Some(i + 1)
  }

  /** An IDataContextProvider: a fixed list of contexts, a database that is or
      is not there, and the record of the calls made to it. */
  class ContextProvider {
    const contexts: seq<DbContext>
    const databaseExists: bool
    var calls: seq<ProviderCall>

    constructor (contexts: seq<DbContext>, databaseExists: bool)
      ensures this.contexts == contexts && this.databaseExists == databaseExists && calls == []
    {
      this.contexts := contexts;
      this.databaseExists := databaseExists;
      calls := [];
    }

    method Initialize()
      modifies this
      ensures calls == old(calls) + [InitializeCall]
    {
      calls := calls + [InitializeCall];
    }

    method VerifyContext() returns (ok: bool)
      modifies this
      ensures ok == databaseExists
      ensures calls == old(calls) + [VerifyContextCall]
    {
      calls := calls + [VerifyContextCall];
      return databaseExists;
    }

    /** GetDbContext: the first context that supports the kind; a kind no
        context supports is NotSupported. */
    function GetDbContext(kind: Kind): (r: Result<DbContext, StoreError>)
      ensures r.Success? ==> exists i :: 0 <= i < |contexts| && contexts[i] == r.value && kind in r.value.supports
                                         && forall j :: 0 <= j < i ==> kind !in contexts[j].supports
      ensures r.Failure? <==> forall j :: 0 <= j < |contexts| ==> kind !in contexts[j].supports
      ensures r.Failure? ==> r.error == NotSupported(kind)
    {
      match FirstSupporting(contexts, kind)
      case None => Failure(NotSupported(kind))
      case Some(i) => Success(contexts[i])
    }
  }

  // ---- The store ----

  class DataStore {
    const provider: ContextProvider

    /** Only reached from Create, after Initialize and a successful
        VerifyContext. */
    constructor (provider: ContextProvider)
      requires provider.databaseExists
      requires |provider.calls| >= 2 && provider.calls[|provider.calls| - 2..] == [InitializeCall, VerifyContextCall]
      ensures this.provider == provider
    {
      this.provider := provider;
    }

    /** The constructor: Initialize, then VerifyContext; a store exists only
        when verification succeeds. */
    static method Create(provider: ContextProvider) returns (r: Result<DataStore, StoreError>)
      modifies provider
      ensures provider.calls == old(provider.calls) + [InitializeCall, VerifyContextCall]
      ensures r.Success? <==> provider.databaseExists
      ensures r.Failure? ==> r.error == DatabaseDoesNotExist
      ensures r.Success? ==> fresh(r.value) && r.value.provider == provider
    {
      provider.Initialize();
      var ok := provider.VerifyContext();
      if !ok {
        return Failure(DatabaseDoesNotExist);
      }
      var store := new DataStore(provider);
      return Success(store);
    }

    /** ProcessSaveItem in a given context. */
    method ProcessSaveItem(item: Entity, ctx: DbContext) returns (r: Result<Entity, StoreError>)
      modifies ctx
      ensures SaveOutcome(ctx.State(), r) == SaveSpec(old(ctx.State()), item)
      ensures Valid(old(ctx.State())) ==> Valid(ctx.State())
    {
      if Valid(ctx.State()) {
        SaveKeepsValid(ctx.State(), item);
      }
      if item.id > 0 {
        var data := ctx.Find(item.kind, item.id);
        if data.Some? {
          ctx.MarkModified(item);
          ctx.SaveChanges();
          return Success(item);
        }
      }
      r := ctx.Add(item);
      if r.Success? {
        ctx.SaveChanges();
      }
    }

    /** SaveItem: null check, route by the item's kind, save. */
    method SaveItem(item: Option<Entity>) returns (r: Result<Entity, StoreError>)
      modifies provider.contexts
      ensures item.None? ==> r == Failure(ArgumentNull("itemToSave")) && unchanged(provider.contexts)
      ensures item.Some? && provider.GetDbContext(item.value.kind).Failure? ==>
                r == Failure(NotSupported(item.value.kind)) && unchanged(provider.contexts)
      ensures item.Some? && provider.GetDbContext(item.value.kind).Success? ==>
                var ctx := provider.GetDbContext(item.value.kind).value;
                && SaveOutcome(ctx.State(), r) == SaveSpec(old(ctx.State()), item.value)
                && (Valid(old(ctx.State())) ==> Valid(ctx.State()))
                && forall c | c in provider.contexts && c != ctx :: unchanged(c)
    {
      if item.None? {
        return Failure(ArgumentNull("itemToSave"));
      }
      var route := provider.GetDbContext(item.value.kind);
      if route.Failure? {
        return Failure(route.error);
      }
      r := ProcessSaveItem(item.value, route.value);
    }

    /** SaveItems: null check, one context for the whole batch, then the items
        in order, each committed before the next is tried. */
    method SaveItems(kind: Kind, items: Option<seq<Option<Entity>>>) returns (r: Result<seq<Entity>, StoreError>)
      requires items.Some? ==> forall i :: 0 <= i < |items.value| && items.value[i].Some? ==> items.value[i].value.kind == kind
      modifies provider.contexts
      ensures items.None? ==> r == Failure(ArgumentNull("itemsToSave")) && unchanged(provider.contexts)
      ensures items.Some? && provider.GetDbContext(kind).Failure? ==>
                r == Failure(NotSupported(kind)) && unchanged(provider.contexts)
      ensures items.Some? && provider.GetDbContext(kind).Success? ==>
                var ctx := provider.GetDbContext(kind).value;
                var batch := SaveAll(old(ctx.State()), items.value);
                && ctx.State() == batch.db
                && r == (if batch.error.None? then Success(batch.saved) else Failure(batch.error.value))
                && (Valid(old(ctx.State())) ==> Valid(ctx.State()))
                && forall c | c in provider.contexts && c != ctx :: unchanged(c)
    {
      if items.None? {
        return Failure(ArgumentNull("itemsToSave"));
      }
      var route := provider.GetDbContext(kind);
      if route.Failure? {
        return Failure(route.error);
      }
      r := SaveEach(items.value, route.value);
    }

    /** ProcessSaveItems' loop: the items in order in one context, each saved
        and committed before the next is tried. */
    method SaveEach(xs: seq<Option<Entity>>, ctx: DbContext) returns (r: Result<seq<Entity>, StoreError>)
      modifies ctx
      ensures var batch := SaveAll(old(ctx.State()), xs);
              && ctx.State() == batch.db
              && r == (if batch.error.None? then Success(batch.saved) else Failure(batch.error.value))
      ensures Valid(old(ctx.State())) ==> Valid(ctx.State())
    {
      if Valid(ctx.State()) {
        SaveAllCommitsPerItem(ctx.State(), xs);
      }
      var saved: seq<Entity> := [];
      for i := 0 to |xs|
        invariant SaveAll(old(ctx.State()), xs[..i]) == BatchOutcome(ctx.State(), saved, None)
      {
        assert xs[..i + 1][..i] == xs[..i];
        if xs[i].None? {
          SaveAllKeepsError(old(ctx.State()), xs, i + 1);
          return Failure(ArgumentNull("itemToSave"));
        }
        var s := ProcessSaveItem(xs[i].value, ctx);
        if s.Failure? {
          SaveAllKeepsError(old(ctx.State()), xs, i + 1);
          return Failure(s.error);
        }
        saved := saved + [s.value];
      }
      assert xs[..|xs|] == xs;
      return Success(saved);
    }

    /** ProcessDeleteItem in a given context. A detached item is re-fetched
        through the ProcessGetItem(long, DbContext) overload found by
        reflection; if that finds nothing the delete is a no-op. */
    method ProcessDeleteItem(item: Entity, ctx: DbContext)
      modifies ctx
      ensures ctx.State() == DeleteSpec(old(ctx.State()), item)
      ensures Valid(old(ctx.State())) ==> Valid(ctx.State())
    {
      if Valid(ctx.State()) {
        DeleteRemovesRow(ctx.State(), item);
      }
      var target := item;
      if (item.kind, item.id) !in ctx.tracked {
        var getItem := TypeExtensions.GetGenericMethod(TypeExtensions.DataStoreMethods, "ProcessGetItem",
                                                       [TypeExtensions.Int64Type, TypeExtensions.DbContextType]);
        TypeExtensions.ReconcilerLookupResolves();
        assert getItem == Some(TypeExtensions.MethodDesc("ProcessGetItem", [TypeExtensions.Int64Type, TypeExtensions.DbContextType]));
        var data := ctx.Find(item.kind, item.id);
        if data.None? {
          return;
        }
        target := data.value;
      }
      ctx.Remove(target.kind, target.id);
      ctx.SaveChanges();
    }

    /** DeleteItem: null check, route by the item's kind, delete. */
    method DeleteItem(item: Option<Entity>) returns (r: Outcome<StoreError>)
      modifies provider.contexts
      ensures item.None? ==> r == Fail(ArgumentNull("itemToDelete")) && unchanged(provider.contexts)
      ensures item.Some? && provider.GetDbContext(item.value.kind).Failure? ==>
                r == Fail(NotSupported(item.value.kind)) && unchanged(provider.contexts)
      ensures item.Some? && provider.GetDbContext(item.value.kind).Success? ==>
                var ctx := provider.GetDbContext(item.value.kind).value;
                && r == Pass
                && ctx.State() == DeleteSpec(old(ctx.State()), item.value)
                && (Valid(old(ctx.State())) ==> Valid(ctx.State()))
                && forall c | c in provider.contexts && c != ctx :: unchanged(c)
    {
      if item.None? {
        return Fail(ArgumentNull("itemToDelete"));
      }
      var route := provider.GetDbContext(item.value.kind);
      if route.Failure? {
        return Fail(route.error);
      }
      ProcessDeleteItem(item.value, route.value);
      return Pass;
    }

    /** DeleteItems: null check, one context chosen by the first item, then
        the items in order. */
    method DeleteItems(items: Option<seq<Option<Entity>>>) returns (r: Outcome<StoreError>)
      requires items.Some? ==> |items.value| > 0 && items.value[0].Some?
      requires items.Some? && provider.GetDbContext(items.value[0].value.kind).Success? ==>
                 forall i :: 0 <= i < |items.value| && items.value[i].Some? ==>
                   provider.GetDbContext(items.value[i].value.kind) == provider.GetDbContext(items.value[0].value.kind)
      modifies provider.contexts
      ensures items.None? ==> r == Fail(ArgumentNull("itemsToDelete")) && unchanged(provider.contexts)
      ensures items.Some? && provider.GetDbContext(items.value[0].value.kind).Failure? ==>
                r == Fail(NotSupported(items.value[0].value.kind)) && unchanged(provider.contexts)
      ensures items.Some? && provider.GetDbContext(items.value[0].value.kind).Success? ==>
                var ctx := provider.GetDbContext(items.value[0].value.kind).value;
                var batch := DeleteAll(old(ctx.State()), items.value);
                && ctx.State() == batch.0 && r == batch.1
                && (Valid(old(ctx.State())) ==> Valid(ctx.State()))
                && forall c | c in provider.contexts && c != ctx :: unchanged(c)
    {
      if items.None? {
        return Fail(ArgumentNull("itemsToDelete"));
      }
      var route := provider.GetDbContext(items.value[0].value.kind);
      if route.Failure? {
        return Fail(route.error);
      }
      r := DeleteEach(items.value, route.value);
    }

    /** ProcessDeleteItems' loop: the items in order in one context. */
    method DeleteEach(xs: seq<Option<Entity>>, ctx: DbContext) returns (r: Outcome<StoreError>)
      modifies ctx
      ensures (ctx.State(), r) == DeleteAll(old(ctx.State()), xs)
      ensures Valid(old(ctx.State())) ==> Valid(ctx.State())
    {
      if Valid(ctx.State()) {
        DeleteAllKeepsValid(ctx.State(), xs);
      }
      for i := 0 to |xs|
        invariant DeleteAll(old(ctx.State()), xs[..i]) == (ctx.State(), Pass)
      {
        assert xs[..i + 1][..i] == xs[..i];
        if xs[i].None? {
          DeleteAllKeepsError(old(ctx.State()), xs, i + 1);
          return Fail(ArgumentNull("itemToDelete"));
        }
        ProcessDeleteItem(xs[i].value, ctx);
      }
      assert xs[..|xs|] == xs;
      return Pass;
    }

    // ---- Reads ----

    /** GetItem: the row with that key in the kind's context, or null. */
    function GetItem(kind: Kind, key: int): (r: Result<Option<Entity>, StoreError>)
      reads provider.contexts
      ensures provider.GetDbContext(kind).Failure? ==> r == Failure(NotSupported(kind))
      ensures r.Success? ==> (r.value.Some? <==> key in Keys(provider.GetDbContext(kind).value.State(), kind))
      ensures r.Success? && r.value.Some? ==> r.value.value.id == key && r.value.value.kind == kind
      ensures r.Success? && r.value.Some? ==>
                r.value.value.fields == TableOf(provider.GetDbContext(kind).value.State(), kind).rows[key]
    {
      match provider.GetDbContext(kind)
      case Failure(err) => Failure(err)
      case Success(ctx) => Success(FindRow(ctx.State(), kind, key))
    }

    /** GetItems(predicate, skip, take): predicate check, take check, route,
        then Where, OrderBy key, Skip, Take; empty becomes null. */
    ghost function GetItemsWherePaged(kind: Kind, filter: Option<Entity -> bool>, skip: int, take: int)
      : (r: Result<Option<seq<Entity>>, StoreError>)
      requires skip >= 0
      reads provider.contexts
      ensures filter.None? ==> r == Failure(ArgumentNull("predicate"))
      ensures filter.Some? && take < 0 ==> r == Failure(ArgumentOutOfRange("take"))
      ensures filter.Some? && take >= 0 && provider.GetDbContext(kind).Failure? ==> r == Failure(NotSupported(kind))
      ensures r.Success? && r.value.Some? ==> 0 < |r.value.value| <= take
    {
      if filter.None? then
        Failure(ArgumentNull("predicate"))
      else if take < 0 then
        Failure(ArgumentOutOfRange("take"))
      else
        match provider.GetDbContext(kind)
        case Failure(err) => Failure(err)
        case Success(ctx) => Success(Nullable(Page(Filter(Rows(ctx.State(), kind), filter.value), skip, take)))
    }

    /** GetItems(predicate): predicate check, route, Where; empty becomes null. */
    ghost function GetItemsWhere(kind: Kind, filter: Option<Entity -> bool>): (r: Result<Option<seq<Entity>>, StoreError>)
      reads provider.contexts
      ensures filter.None? ==> r == Failure(ArgumentNull("predicate"))
      ensures filter.Some? && provider.GetDbContext(kind).Failure? ==> r == Failure(NotSupported(kind))
      ensures r.Success? && r.value.Some? ==> |r.value.value| > 0
    {
      if filter.None? then
        Failure(ArgumentNull("predicate"))
      else
        match provider.GetDbContext(kind)
        case Failure(err) => Failure(err)
        case Success(ctx) => Success(Nullable(Filter(Rows(ctx.State(), kind), filter.value)))
    }

    /** GetItems(): every row of the kind; empty becomes null. */
    ghost function GetItems(kind: Kind): (r: Result<Option<seq<Entity>>, StoreError>)
      reads provider.contexts
      ensures provider.GetDbContext(kind).Failure? ==> r == Failure(NotSupported(kind))
      ensures r.Success? ==> (r.value.None? <==> Keys(provider.GetDbContext(kind).value.State(), kind) == {})
    {
      match provider.GetDbContext(kind)
      case Failure(err) => Failure(err)
      case Success(ctx) => Success(Nullable(Rows(ctx.State(), kind)))
    }

    /** GetItems(skip, take): take check, route; an empty table gives null
        without paging, otherwise OrderBy key, Skip, Take. */
    ghost function GetItemsPaged(kind: Kind, skip: int, take: int): (r: Result<Option<seq<Entity>>, StoreError>)
      requires skip >= 0
      reads provider.contexts
      ensures take < 0 ==> r == Failure(ArgumentOutOfRange("take"))
      ensures take >= 0 && provider.GetDbContext(kind).Failure? ==> r == Failure(NotSupported(kind))
      ensures r.Success? && r.value.Some? ==> 0 < |r.value.value| <= take
    {
      if take < 0 then
        Failure(ArgumentOutOfRange("take"))
      else
        match provider.GetDbContext(kind)
        case Failure(err) => Failure(err)
        case Success(ctx) =>
          var rows := Rows(ctx.State(), kind);
          var data := if rows != [] then Page(rows, skip, take) else [];
          Success(Nullable(data))
    }

    /** GetItemsCount(predicate): predicate check, route, Where then Count. */
    ghost function GetItemsCountWhere(kind: Kind, filter: Option<Entity -> bool>): (r: Result<int, StoreError>)
      reads provider.contexts
      ensures filter.None? ==> r == Failure(ArgumentNull("predicate"))
      ensures filter.Some? && provider.GetDbContext(kind).Failure? ==> r == Failure(NotSupported(kind))
      ensures r.Success? ==> r.value >= 0
    {
      if filter.None? then
        Failure(ArgumentNull("predicate"))
      else
        match provider.GetDbContext(kind)
        case Failure(err) => Failure(err)
        case Success(ctx) => Success(|Filter(Rows(ctx.State(), kind), filter.value)|)
    }

    /** GetItemsCount(): the number of rows of the kind. */
    function GetItemsCount(kind: Kind): (r: Result<int, StoreError>)
      reads provider.contexts
      ensures provider.GetDbContext(kind).Failure? ==> r == Failure(NotSupported(kind))
      ensures r.Success? ==> r.value == |Keys(provider.GetDbContext(kind).value.State(), kind)|
    {
      match provider.GetDbContext(kind)
      case Failure(err) => Failure(err)
      case Success(ctx) => Success(|Keys(ctx.State(), kind)|)
    }
  }

  // ---- Properties of the reads ----

  /** Reading back a save: once the routed context holds the state a
      successful save produced, GetItem on the saved key returns the saved
      item, fields included. */
  lemma GetItemAfterSave(store: DataStore, db: Db, e: Entity)
    requires Valid(db)
    requires SaveSpec(db, e).result.Success?
    requires store.provider.GetDbContext(e.kind).Success?
    requires store.provider.GetDbContext(e.kind).value.State() == SaveSpec(db, e).db
    ensures store.GetItem(e.kind, SaveSpec(db, e).result.value.id) == Success(Some(SaveSpec(db, e).result.value))
  {
    SaveRoundTrip(db, e);
  }

  /** The paged read returns the matching rows in ascending key order, from
      position skip on, at most take of them; each is a row that satisfies the
      filter. */
  lemma PagedIsOrderedWindow(store: DataStore, kind: Kind, p: Entity -> bool, skip: nat, take: nat)
    requires store.provider.GetDbContext(kind).Success?
    ensures var db := store.provider.GetDbContext(kind).value.State();
            var all := Filter(Rows(db, kind), p);
            var r := store.GetItemsWherePaged(kind, Some(p), skip, take);
            && r.Success?
            && r.value.GetOr([]) == Page(all, skip, take)
            && IdsIncreasing(r.value.GetOr([]))
            && forall e :: e in r.value.GetOr([]) ==> p(e) && FindRow(db, kind, e.id) == Some(e)
  {
    var db := store.provider.GetDbContext(kind).value.State();
    var all := Filter(Rows(db, kind), p);
    FilterKeepsOrder(Rows(db, kind), p);
    PageKeepsOrder(all, skip, take);
    var page := Page(all, skip, take);
    forall e | e in page ensures p(e) && FindRow(db, kind, e.id) == Some(e) {
      var i :| 0 <= i < |page| && page[i] == e;
      assert all[skip + i] == e;
    }
  }

  /** The filtered read returns exactly the rows of the kind that satisfy the
      filter, each once, in ascending key order. */
  lemma WhereIsMatchingRows(store: DataStore, kind: Kind, p: Entity -> bool)
    requires store.provider.GetDbContext(kind).Success?
    ensures var db := store.provider.GetDbContext(kind).value.State();
            var r := store.GetItemsWhere(kind, Some(p));
            && r.Success?
            && IdsIncreasing(r.value.GetOr([]))
            && forall e :: e in r.value.GetOr([]) <==> e.kind == kind && FindRow(db, kind, e.id) == Some(e) && p(e)
  {
    var db := store.provider.GetDbContext(kind).value.State();
    FilterKeepsOrder(Rows(db, kind), p);
  }

  /** The unfiltered overloads are the filtered ones with a predicate that
      holds for every row; the Any() guard of the paged one changes nothing. */
  lemma OverloadsAgree(store: DataStore, kind: Kind, skip: nat, take: int)
    ensures store.GetItems(kind) == store.GetItemsWhere(kind, Some((e: Entity) => true))
    ensures store.GetItemsPaged(kind, skip, take) == store.GetItemsWherePaged(kind, Some((e: Entity) => true), skip, take)
    ensures store.GetItemsCount(kind) == store.GetItemsCountWhere(kind, Some((e: Entity) => true))
  {
    if store.provider.GetDbContext(kind).Success? {
      var db := store.provider.GetDbContext(kind).value.State();
      FilterAll(Rows(db, kind));
    }
  }

  /** A count is the number of matching rows; it is zero exactly when the
      matching read returns null, and otherwise the length of what it returns. */
  lemma CountAgreesWithItems(store: DataStore, kind: Kind, p: Entity -> bool)
    requires store.provider.GetDbContext(kind).Success?
    ensures var db := store.provider.GetDbContext(kind).value.State();
            store.GetItemsCountWhere(kind, Some(p)) == Success(|MatchingKeys(db, kind, p)|)
    ensures store.GetItemsWhere(kind, Some(p)).value.None? <==> store.GetItemsCountWhere(kind, Some(p)).value == 0
    ensures store.GetItemsWhere(kind, Some(p)).value.Some? ==>
              |store.GetItemsWhere(kind, Some(p)).value.value| == store.GetItemsCountWhere(kind, Some(p)).value
  {
    var db := store.provider.GetDbContext(kind).value.State();
    CountIsMatchingKeys(db, kind, p);
  }

  // ---- The sample scenario ----

  /** The tester's sequence on an empty Beverage table: a new item gets key 1;
      saving it again with edited fields updates that row in place; deleting it
      leaves the table empty; three commits in all. */
  lemma BeverageLifecycle()
    ensures var f1 := map["Name" := "Test"];
            var f2 := map["Name" := "Edited"];
            var s1 := SaveSpec(EmptyDb, Entity("Beverage", 0, f1));
            var s2 := SaveSpec(s1.db, Entity("Beverage", 1, f2));
            var d := DeleteSpec(s2.db, Entity("Beverage", 1, f2));
            && s1.result == Success(Entity("Beverage", 1, f1))
            && s2.result == Success(Entity("Beverage", 1, f2))
            && Keys(s2.db, "Beverage") == {1}
            && FindRow(s2.db, "Beverage", 1) == Some(Entity("Beverage", 1, f2))
            && Keys(d, "Beverage") == {}
            && d.commits == 3
  {
    var f1 := map["Name" := "Test"];
    var f2 := map["Name" := "Edited"];
    var s1 := SaveSpec(EmptyDb, Entity("Beverage", 0, f1));
    assert s1.db == Db(map["Beverage" := Table(map[1 := f1], 2)], {("Beverage", 1)}, 1);
    assert FindRow(s1.db, "Beverage", 1).Some?;
    assert map[1 := f1][1 := f2] == map[1 := f2];
    var s2 := SaveSpec(s1.db, Entity("Beverage", 1, f2));
    assert s2.db == Db(map["Beverage" := Table(map[1 := f2], 2)], {("Beverage", 1)}, 2);
    var d := DeleteSpec(s2.db, Entity("Beverage", 1, f2));
    assert d == Db(map["Beverage" := Table(map[], 2)], {}, 3);
  }
}
