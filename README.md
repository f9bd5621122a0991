# spyderSoft DataLayer over Entity Framework: a Dafny model

This project models the core of a generic data-access layer over Entity
Framework (EF). It has three parts.

- **The `DataStore` CRUD engine.** Start-up checks the database through a
  context provider. A save decides between insert and update. Batch saves and
  deletes run item by item against one context. A delete re-fetches a detached
  item by kind and key. Every list-returning read pipeline (Where, OrderBy
  key, Skip, Take) turns an empty result into null; the counts return 0.
- **Schema extraction in `DynamicDbContext`.** `MapTableToObject` turns a type's
  `[Table]`, `[Key]`, `[ColumnName]` and `[IgnoreProperty]` attributes into an
  entity configuration. `OnModelCreating` maps the types and then runs the base
  configuration. The base `ContextSupports` supports nothing.
- **The reflection lookup `TypeExtensions.GetGenericMethod`.** It is a
  first-match search by method name and parameter-type list. Types are compared
  by `SimpleTypeComparer`, field by field.

EF itself is replaced by an abstract store (`Storage`). Each entity kind has a
table mapping primary key to the entity's other fields, plus an identity seed
that generated keys come from. The store also keeps the set of tracked
(kind, key) pairs and a counter of committed `SaveChanges` calls. The
exceptions the model covers become `Failure`/`Fail` values: `ArgumentNull`,
`ArgumentOutOfRange`, `NotSupported`, `DatabaseDoesNotExist` and `DuplicateKey`
(a `StoreError`), and the two null dereferences of the schema mapping (a
`MappingError`). A null argument to a public operation becomes `None`. The
exceptions the model does not cover are listed under "## Left out".

Files, one module each:

- `Wrappers.dfy`: `Option`, `Result` and `Outcome`.
- `Storage.dfy`: the abstract store and the `DbContext` class.
- `Query.dfy`: the LINQ pieces: rows in key order, Where, Skip/Take, null-for-empty, counts.
- `TypeExtensions.dfy`: the comparer, the search, and the `DataStore` method table the reconciler searches.
- `DynamicDbContext.dfy`: attribute resolution, the `ModelBuilder` class and the ordering of model creation.
- `DataStore.dfy`: save and delete reference functions, the `ContextProvider` and `DataStore` classes, and the read pipelines with their lemmas.

Methods that change state (`DbContext`, `ModelBuilder`, `ContextProvider`,
`DataStore`) are proved against reference functions (`AddRow`, `MapSpec`,
`MapAll`, `SaveSpec`, `SaveAll`, `DeleteSpec`, `DeleteAll`). The lemmas then
state what the source promises about those functions.

Two behaviours of the code are easy to miss. First, the `else` branch of a
save (DataStore.cs:349-353) inserts every Id that is not positive, including a
negative one, under that explicit key. Second, a type without a `[Key]`
property dereferences null at DynamicDbContext.cs:102-103, after
`Entity<T>().ToTable(...)` has already registered the type with its table at
line 99. The model reports `MissingKeyProperty` with the table registration
kept.

## Model

| member | source | states |
|---|---|---|
| TypeExtensions.SequenceEqual | source/src/spyderSoft.DataLayer.Core.EntityFramework/TypeExtensions.cs:43 | two parameter-type lists are equal exactly when they have the same length and agree position by position under the comparer |
| TypeExtensions.FirstMatch | source/src/spyderSoft.DataLayer.Core.EntityFramework/TypeExtensions.cs:39-49 | reference search: a found position holds a method with the name and parameter list and no earlier method matches; none exactly when no method matches |
| TypeExtensions.GetGenericMethod | source/src/spyderSoft.DataLayer.Core.EntityFramework/TypeExtensions.cs:30-50 | the loop returns a method with the requested name whose parameter types equal the requested ones element by element; null exactly when no method matches; the result is the first match in enumeration order |
| TypeExtensions.FirstMatchIsFirstHit | source/src/spyderSoft.DataLayer.Core.EntityFramework/TypeExtensions.cs:39-47 | a match at position k with no match before it is the method the search returns |
| TypeExtensions.LengthMismatchNeverMatches | source/src/spyderSoft.DataLayer.Core.EntityFramework/TypeExtensions.cs:43 | parameter lists of different lengths never match |
| TypeExtensions.SimpleTypeEqualsIsEquivalence | source/src/spyderSoft.DataLayer.Core.EntityFramework/TypeExtensions.cs:67-72 | the comparer is reflexive, symmetric and transitive, and holds exactly when assembly-qualified name, namespace and name all agree |
| TypeExtensions.GetHashCode | source/src/spyderSoft.DataLayer.Core.EntityFramework/TypeExtensions.cs:81-84 | always fails with NotImplemented |
| TypeExtensions.ReconcilerLookupResolves | source/src/spyderSoft.DataLayer.Core.EntityFramework/DataStore.cs:402-403 | over the DataStore's own methods, the lookup for ProcessGetItem(long, DbContext) finds the two-parameter overload and matches no other method |
| DynamicDbContext.BaseContextSupports | source/src/mgSoft.DataLayer.Core.EntityFramework/DynamicDbContext.cs:52-55 | the base context supports no item |
| DynamicDbContext.TableName | source/src/mgSoft.DataLayer.Core.EntityFramework/DynamicDbContext.cs:97-98 | the Name of the first [Table] attribute; none exactly when the type has no [Table] attribute |
| DynamicDbContext.ColumnNameOf | source/src/mgSoft.DataLayer.Core.EntityFramework/DynamicDbContext.cs:112 | a property's [ColumnName] Name, present exactly when the property carries that attribute |
| DynamicDbContext.KeyProperty | source/src/mgSoft.DataLayer.Core.EntityFramework/DynamicDbContext.cs:102 | the name of the first property in declaration order carrying [Key]; none exactly when no property carries it |
| DynamicDbContext.ColumnProperties | source/src/mgSoft.DataLayer.Core.EntityFramework/DynamicDbContext.cs:105-108 | keeps exactly the properties carrying [ColumnName] |
| DynamicDbContext.IgnoreProperties | source/src/mgSoft.DataLayer.Core.EntityFramework/DynamicDbContext.cs:117-119 | keeps exactly the properties carrying [IgnoreProperty] |
| DynamicDbContext.MappedSteps | source/src/mgSoft.DataLayer.Core.EntityFramework/DynamicDbContext.cs:76 | one mapping step per type, in the order of the types |
| DynamicDbContext.ModelBuilder.constructor | source/src/mgSoft.DataLayer.Core.EntityFramework/DynamicDbContext.cs:74 | a builder starts with no configured entities and no steps |
| DynamicDbContext.ModelBuilder.MapTableToObject | source/src/mgSoft.DataLayer.Core.EntityFramework/DynamicDbContext.cs:89-126 | the builder's new state and the outcome are those of MapSpec: a missing [Table] fails before registration, a missing [Key] fails after the table is set, otherwise the table, key, aliases and ignored names are configured and the type is logged |
| DynamicDbContext.ModelBuilder.MapColumnNames | source/src/mgSoft.DataLayer.Core.EntityFramework/DynamicDbContext.cs:110-114 | after the column loop the type's aliases are the old ones updated with each property's attribute Name in visiting order; nothing else changes |
| DynamicDbContext.ModelBuilder.MapIgnoredProperties | source/src/mgSoft.DataLayer.Core.EntityFramework/DynamicDbContext.cs:121-124 | after the ignore loop the type's ignored set grows by exactly the visited property names; nothing else changes |
| DynamicDbContext.ModelBuilder.MapTableObjects | source/test/mgSoft.DataLayer.Core.EntityFramework.Tester/DataContextProvider.cs:17-20 | maps the types in order; the first failure stops the batch, and the state equals MapAll |
| DynamicDbContext.ModelBuilder.BaseOnModelCreating | source/src/mgSoft.DataLayer.Core.EntityFramework/DynamicDbContext.cs:77 | the base configuration adds its step and leaves the entity configurations alone |
| DynamicDbContext.ModelBuilder.OnModelCreating | source/src/mgSoft.DataLayer.Core.EntityFramework/DynamicDbContext.cs:74-78 | state and outcome equal OnModelCreatingSpec: MapTableObjects first, the base configuration only after all mapping succeeded |
| DynamicDbContext.MapAllKeepsFailure | source/src/mgSoft.DataLayer.Core.EntityFramework/DynamicDbContext.cs:76 | once mapping a prefix of the types fails, the remaining types change nothing |
| DynamicDbContext.MapTableToObjectOutcome | source/src/mgSoft.DataLayer.Core.EntityFramework/DynamicDbContext.cs:97-103 | mapping succeeds exactly when the type has a [Table] attribute and some property carries [Key]; without [Table] the model is untouched |
| DynamicDbContext.MappedTableAndKey | source/src/mgSoft.DataLayer.Core.EntityFramework/DynamicDbContext.cs:97-103 | a successful mapping records the first [Table] Name and the first [Key] property, and logs the type |
| DynamicDbContext.AliasesValues | source/src/mgSoft.DataLayer.Core.EntityFramework/DynamicDbContext.cs:110-114 | with distinct names, every visited property is aliased to its own attribute's Name |
| DynamicDbContext.FilterKeepsUnique | source/src/mgSoft.DataLayer.Core.EntityFramework/DynamicDbContext.cs:105-108 | selecting the [ColumnName] properties keeps their names distinct |
| DynamicDbContext.ColumnAliasKeysOfType | source/src/mgSoft.DataLayer.Core.EntityFramework/DynamicDbContext.cs:105-114 | a property name gets an alias exactly when some property of that name carries [ColumnName] |
| DynamicDbContext.AliasedIsColumn | source/src/mgSoft.DataLayer.Core.EntityFramework/DynamicDbContext.cs:105-114 | every aliased name belongs to a [ColumnName] property |
| DynamicDbContext.ColumnIsAliased | source/src/mgSoft.DataLayer.Core.EntityFramework/DynamicDbContext.cs:105-114 | every [ColumnName] property gets an alias |
| DynamicDbContext.AliasOrigin | source/src/mgSoft.DataLayer.Core.EntityFramework/DynamicDbContext.cs:110-114 | every alias was recorded by a visit to a property of that name |
| DynamicDbContext.AliasCovers | source/src/mgSoft.DataLayer.Core.EntityFramework/DynamicDbContext.cs:110-114 | every visited property leaves an alias |
| DynamicDbContext.ColumnAliasValuesOfType | source/src/mgSoft.DataLayer.Core.EntityFramework/DynamicDbContext.cs:105-114 | for a type with distinct property names, each [ColumnName] property is aliased to that attribute's Name |
| DynamicDbContext.IgnoredOfType | source/src/mgSoft.DataLayer.Core.EntityFramework/DynamicDbContext.cs:117-124 | the ignored names are exactly those of the properties carrying [IgnoreProperty] |
| DynamicDbContext.FirstMappingConfig | source/src/mgSoft.DataLayer.Core.EntityFramework/DynamicDbContext.cs:99-124 | on a type's first mapping its configuration holds exactly the aliases and ignored names its properties declare |
| DynamicDbContext.MapAllLogsInOrder | source/src/mgSoft.DataLayer.Core.EntityFramework/DynamicDbContext.cs:76 | a successful MapTableObjects logs one step per type, in order |
| DynamicDbContext.OnModelCreatingOrder | source/src/mgSoft.DataLayer.Core.EntityFramework/DynamicDbContext.cs:74-78 | a successful model creation logs every type in order and then the base configuration, last |
| DynamicDbContext.FailedCreationSkipsBase | source/src/mgSoft.DataLayer.Core.EntityFramework/DynamicDbContext.cs:74-78 | a failed model creation never reaches the base configuration |
| DynamicDbContext.MapAllNeverConfiguresBase | source/src/mgSoft.DataLayer.Core.EntityFramework/DynamicDbContext.cs:76 | mapping types never logs the base configuration step |
| DynamicDbContext.BeverageMapping | source/test/spyderSoft.DataLayer.Core.EntityFramework.Tester/Beverage.cs:15-70 | mapping Beverage into an empty model registers table "beverages", key Id and its seven lower-case column aliases, and ignores nothing |
| DynamicDbContext.FreshMapping | source/src/mgSoft.DataLayer.Core.EntityFramework/DynamicDbContext.cs:97-124 | the configuration a first successful mapping into an empty model produces |
| DynamicDbContext.BeverageTableAndKey | source/test/spyderSoft.DataLayer.Core.EntityFramework.Tester/Beverage.cs:15-25 | Beverage's table is "beverages" and its key property is Id |
| DynamicDbContext.BeverageFilters | source/test/spyderSoft.DataLayer.Core.EntityFramework.Tester/Beverage.cs:23-70 | every Beverage property carries [ColumnName] and none is ignored |
| DynamicDbContext.BeverageAliases | source/test/spyderSoft.DataLayer.Core.EntityFramework.Tester/Beverage.cs:23-70 | the column loop over Beverage yields the seven aliases |
| DynamicDbContext.AllColumnsKept | source/src/mgSoft.DataLayer.Core.EntityFramework/DynamicDbContext.cs:105-108 | when every property carries [ColumnName] the selection keeps them all, in order |
| DynamicDbContext.NoneIgnored | source/src/mgSoft.DataLayer.Core.EntityFramework/DynamicDbContext.cs:117-119 | when no property carries [IgnoreProperty] nothing is selected |
| Storage.AddRowOutcome | source/src/spyderSoft.DataLayer.Core.EntityFramework/DataStore.cs:341-355 | an add fails exactly on an explicit key already in use; otherwise the stored entity keeps kind and fields, gets the seed key when its Id is zero (a positive key not in use) or its own Id otherwise, the key set grows by that key, reading it back gives the entity and the store stays valid |
| Storage.RemoveRowKeepsValid | source/src/spyderSoft.DataLayer.Core.EntityFramework/DataStore.cs:421 | removing a row keeps the store valid and removes exactly that key |
| Storage.DbContext.constructor | source/src/mgSoft.DataLayer.Core.EntityFramework/DynamicDbContext.cs:52-55 | a context starts empty with a fixed set of supported kinds |
| Storage.DbContext.Find | source/src/spyderSoft.DataLayer.Core.EntityFramework/DataStore.cs:472 | returns the row under the key, if any, and tracks a row it returns; a valid store stays valid |
| Storage.DbContext.Add | source/src/spyderSoft.DataLayer.Core.EntityFramework/DataStore.cs:341 | the result and new state are AddRow's; a failed add changes nothing; a valid store stays valid |
| Storage.DbContext.MarkModified | source/src/spyderSoft.DataLayer.Core.EntityFramework/DataStore.cs:346 | the row under the item's key is replaced by the item's fields and the item is tracked |
| Storage.DbContext.Remove | source/src/spyderSoft.DataLayer.Core.EntityFramework/DataStore.cs:421 | the row goes and is no longer tracked; a valid store stays valid |
| Storage.DbContext.SaveChanges | source/src/spyderSoft.DataLayer.Core.EntityFramework/DataStore.cs:355 | one more commit, nothing else changes; a valid store stays valid |
| Query.SortedKeys | source/src/spyderSoft.DataLayer.Core.EntityFramework/DataStore.cs:540 | a table's keys in strictly ascending order, each exactly once |
| Query.Rows | source/src/spyderSoft.DataLayer.Core.EntityFramework/DataStore.cs:538-540 | the rows of a kind, one per key, in strictly ascending key order, and nothing else |
| Query.Filter | source/src/spyderSoft.DataLayer.Core.EntityFramework/DataStore.cs:539 | Where keeps exactly the elements satisfying the predicate |
| Query.FilterKeepsOrder | source/src/spyderSoft.DataLayer.Core.EntityFramework/DataStore.cs:539-540 | filtering an ascending list leaves it ascending |
| Query.Page | source/src/spyderSoft.DataLayer.Core.EntityFramework/DataStore.cs:541-542 | Skip then Take: the elements from position skip on, at most take of them, in order |
| Query.PageKeepsOrder | source/src/spyderSoft.DataLayer.Core.EntityFramework/DataStore.cs:540-542 | a window of an ascending list is ascending |
| Query.Nullable | source/src/spyderSoft.DataLayer.Core.EntityFramework/DataStore.cs:544 | an empty list becomes null and anything else is returned as is |
| Query.Ids | source/src/spyderSoft.DataLayer.Core.EntityFramework/DataStore.cs:731 | the set of ids occurring in a list |
| Query.IdsCount | source/src/spyderSoft.DataLayer.Core.EntityFramework/DataStore.cs:731 | an ascending list has as many distinct ids as elements |
| Query.CountIsMatchingKeys | source/src/spyderSoft.DataLayer.Core.EntityFramework/DataStore.cs:731 | Where(p).Count() is the number of keys whose row satisfies p |
| Query.MatchingKeyIsListed | source/src/spyderSoft.DataLayer.Core.EntityFramework/DataStore.cs:731 | a key appears in the filtered rows exactly when its row satisfies the predicate |
| Query.FilterAll | source/src/spyderSoft.DataLayer.Core.EntityFramework/DataStore.cs:624 | filtering with a predicate that always holds keeps the whole list |
| DataStore.SaveCommitsOnce | source/src/spyderSoft.DataLayer.Core.EntityFramework/DataStore.cs:335-357 | a successful save commits exactly once; a failed one leaves the context unchanged and fails only on a negative Id whose row exists (duplicate key) |
| DataStore.SaveRoundTrip | source/test/mgSoft.DataLayer.Core.EntityFramework.Tester/Program.cs:98-103 | the saved item keeps kind and fields, has a non-zero key, keeps its own Id when it had one, reads back under that key, and the store stays valid |
| DataStore.SaveKeepsValid | source/src/spyderSoft.DataLayer.Core.EntityFramework/DataStore.cs:335-357 | every save, failed or not, leaves a valid store valid |
| DataStore.SaveNewItemInserts | source/src/spyderSoft.DataLayer.Core.EntityFramework/DataStore.cs:349-353 | an item with Id zero is inserted under a positive key not in use, and the key set grows by exactly that key |
| DataStore.SaveMissingRowInserts | source/src/spyderSoft.DataLayer.Core.EntityFramework/DataStore.cs:335-342 | an Id above zero with no row is inserted under that Id |
| DataStore.SaveExistingRowUpdates | source/src/spyderSoft.DataLayer.Core.EntityFramework/DataStore.cs:335-347 | an Id above zero whose row exists is an update: the row holds the item's fields, the item is returned as is, and no kind's key set changes |
| DataStore.SaveTouchesOneRow | source/src/spyderSoft.DataLayer.Core.EntityFramework/DataStore.cs:335-355 | a save leaves other kinds' tables and the other rows of its own kind as they were |
| DataStore.SaveAllCommitsPerItem | source/src/spyderSoft.DataLayer.Core.EntityFramework/DataStore.cs:283-286 | a batch commits once per saved item and keeps the store valid; a completed batch returns one item per input |
| DataStore.SaveAllKeepsError | source/src/spyderSoft.DataLayer.Core.EntityFramework/DataStore.cs:283-286 | once a batch has stopped, later items change nothing |
| DataStore.SaveAllStopsAtNull | source/src/spyderSoft.DataLayer.Core.EntityFramework/DataStore.cs:325-328 | no atomicity: a null item ends the batch with ArgumentNull and keeps everything before it committed |
| DataStore.SaveAllIsSequential | source/src/spyderSoft.DataLayer.Core.EntityFramework/DataStore.cs:283-286 | a batch extended by one item is the shorter batch followed by one more save on its resulting state |
| DataStore.DeleteRemovesRow | source/src/spyderSoft.DataLayer.Core.EntityFramework/DataStore.cs:398-423 | deleting removes exactly the item's row with one commit, whether it was tracked or re-fetched; an absent row leaves the context unchanged; other rows and kinds are untouched and the store stays valid |
| DataStore.DeleteAllKeepsError | source/src/spyderSoft.DataLayer.Core.EntityFramework/DataStore.cs:439-442 | once a delete batch has stopped, later items change nothing |
| DataStore.DeleteAllKeepsValid | source/src/spyderSoft.DataLayer.Core.EntityFramework/DataStore.cs:439-442 | a delete batch, stopped or not, leaves a valid store valid |
| DataStore.DeleteAllRemovesKeys | source/src/spyderSoft.DataLayer.Core.EntityFramework/DataStore.cs:439-442 | a completed delete batch removes exactly the items' keys, kind by kind, and keeps the store valid |
| DataStore.OrderKeyName | source/src/spyderSoft.DataLayer.Core.EntityFramework/DataStore.cs:767-781 | the paging key is the first property carrying [Key], or "Id" when none does |
| DataStore.OrderKeyAgreesWithMapping | source/src/spyderSoft.DataLayer.Core.EntityFramework/DataStore.cs:771-777 | whenever the schema mapping succeeds its key is the paging key; without [Key] the mapping fails while the paging key falls back to "Id" |
| DataStore.FixDynamicExpression | source/src/spyderSoft.DataLayer.Core.EntityFramework/DataStore.cs:60-74 | returns the predicate itself; a null predicate is ArgumentNull("predicate") |
| DataStore.FirstSupporting | source/test/mgSoft.DataLayer.Core.EntityFramework.Tester/DataContextProvider.cs:68-77 | the position of the first context supporting the kind; none exactly when none supports it |
| DataStore.ContextProvider.constructor | source/test/mgSoft.DataLayer.Core.EntityFramework.Tester/DataContextProvider.cs:54-57 | a provider over fixed contexts, with no calls recorded yet |
| DataStore.ContextProvider.Initialize | source/src/mgSoft.DataLayer.Core.EntityFramework/IDataContextProvider.cs:23 | records the call and changes nothing else |
| DataStore.ContextProvider.VerifyContext | source/src/mgSoft.DataLayer.Core.EntityFramework/IDataContextProvider.cs:29 | answers whether the database exists and records the call |
| DataStore.ContextProvider.GetDbContext | source/test/mgSoft.DataLayer.Core.EntityFramework.Tester/DataContextProvider.cs:68-89 | routes a kind to the first context supporting it; fails with NotSupported exactly when none does |
| DataStore.DataStore.constructor | source/src/spyderSoft.DataLayer.Core.EntityFramework/DataStore.cs:30-40 | a store is built only over a provider whose last two calls were Initialize and a VerifyContext that found the database, and keeps that provider |
| DataStore.DataStore.Create | source/src/spyderSoft.DataLayer.Core.EntityFramework/DataStore.cs:30-40 | calls Initialize then VerifyContext; a store exists exactly when verification succeeds, otherwise DatabaseDoesNotExist |
| DataStore.DataStore.ProcessSaveItem | source/src/spyderSoft.DataLayer.Core.EntityFramework/DataStore.cs:322-358 | the context's new state and the result are SaveSpec's; a valid context stays valid |
| DataStore.DataStore.SaveItem | source/src/spyderSoft.DataLayer.Core.EntityFramework/DataStore.cs:233-241 | null item: ArgumentNull; unsupported kind: NotSupported; both change nothing; otherwise the routed context is saved as SaveSpec says and no other context changes; the routed context stays valid if it was |
| DataStore.DataStore.SaveItems | source/src/spyderSoft.DataLayer.Core.EntityFramework/DataStore.cs:250-289 | null list: ArgumentNull; unsupported kind: NotSupported; otherwise one routed context goes through SaveAll and the result is the saved items or the stopping error; no other context changes; the routed context stays valid if it was |
| DataStore.DataStore.SaveEach | source/src/spyderSoft.DataLayer.Core.EntityFramework/DataStore.cs:282-288 | the loop's final state and result are SaveAll's; a valid context stays valid |
| DataStore.DataStore.ProcessDeleteItem | source/src/spyderSoft.DataLayer.Core.EntityFramework/DataStore.cs:386-424 | the context's new state is DeleteSpec's: a tracked item is removed; a detached one is re-fetched through the reflected ProcessGetItem overload, and an absent row is a no-op; a valid context stays valid |
| DataStore.DataStore.DeleteItem | source/src/spyderSoft.DataLayer.Core.EntityFramework/DataStore.cs:81-89 | null item: ArgumentNull; unsupported kind: NotSupported; both change nothing; otherwise the routed context is changed as DeleteSpec says and no other context changes; the routed context stays valid if it was |
| DataStore.DataStore.DeleteItems | source/src/spyderSoft.DataLayer.Core.EntityFramework/DataStore.cs:96-104 | null list: ArgumentNull; the first item's kind unsupported: NotSupported; otherwise the first item's context goes through DeleteAll; no other context changes; the routed context stays valid if it was |
| DataStore.DataStore.DeleteEach | source/src/spyderSoft.DataLayer.Core.EntityFramework/DataStore.cs:439-442 | the loop's final state and result are DeleteAll's; a valid context stays valid |
| DataStore.DataStore.GetItem | source/src/spyderSoft.DataLayer.Core.EntityFramework/DataStore.cs:451-474 | unsupported kind: NotSupported; otherwise the stored row under the key (that kind, that key, the row's fields) exactly when the key has a row, else null |
| DataStore.GetItemAfterSave | source/test/mgSoft.DataLayer.Core.EntityFramework.Tester/Program.cs:119-131 | after a successful save, GetItem on the saved key returns the saved item, fields included |
| DataStore.DataStore.GetItemsWherePaged | source/src/spyderSoft.DataLayer.Core.EntityFramework/DataStore.cs:486-545 | null predicate: ArgumentNull, checked first; negative take: ArgumentOutOfRange, checked before routing; unsupported kind: NotSupported; a non-null result has between one and take items |
| DataStore.DataStore.GetItemsWhere | source/src/spyderSoft.DataLayer.Core.EntityFramework/DataStore.cs:149-157 | null predicate: ArgumentNull; unsupported kind: NotSupported; a non-null result is non-empty |
| DataStore.DataStore.GetItems | source/src/spyderSoft.DataLayer.Core.EntityFramework/DataStore.cs:603-626 | unsupported kind: NotSupported; otherwise null exactly when the table has no rows |
| DataStore.DataStore.GetItemsPaged | source/src/spyderSoft.DataLayer.Core.EntityFramework/DataStore.cs:636-684 | negative take: ArgumentOutOfRange before routing; unsupported kind: NotSupported; a non-null result has between one and take items |
| DataStore.DataStore.GetItemsCountWhere | source/src/spyderSoft.DataLayer.Core.EntityFramework/DataStore.cs:693-732 | null predicate: ArgumentNull; unsupported kind: NotSupported; a count is never negative |
| DataStore.DataStore.GetItemsCount | source/src/spyderSoft.DataLayer.Core.EntityFramework/DataStore.cs:739-760 | unsupported kind: NotSupported; otherwise the number of rows of the kind |
| DataStore.PagedIsOrderedWindow | source/src/spyderSoft.DataLayer.Core.EntityFramework/DataStore.cs:537-543 | the paged read is the window at skip, of at most take items, of the matching rows in ascending key order; every item is a stored row satisfying the predicate |
| DataStore.WhereIsMatchingRows | source/src/spyderSoft.DataLayer.Core.EntityFramework/DataStore.cs:594-595 | the filtered read returns exactly the stored rows satisfying the predicate, in ascending key order |
| DataStore.OverloadsAgree | source/src/spyderSoft.DataLayer.Core.EntityFramework/DataStore.cs:603-684 | the unfiltered reads and count equal the filtered ones with an always-true predicate; the Any() guard of the paged read changes nothing |
| DataStore.CountAgreesWithItems | source/src/spyderSoft.DataLayer.Core.EntityFramework/DataStore.cs:717-732 | the count is the number of matching rows; it is zero exactly when the matching read is null, and otherwise the length of that read |
| DataStore.BeverageLifecycle | source/test/mgSoft.DataLayer.Core.EntityFramework.Tester/Program.cs:88-157 | on an empty table, a new Beverage gets key 1, saving it edited updates that row, deleting removes it, and three commits are made |

## Left out

- Entities are values (kind, Id, fields). Object identity is not modelled: the
  key write-back into the caller's object is the returned entity's key, and
  `SaveItems` returns the saved entities rather than the same list object.
- EF change tracking is reduced to a set of tracked (kind, key) pairs. The
  reads (`GetItem`, `GetItems`, counts) are functions and do not attach what
  they return, though EF's `Find` and queries do.
- EF's identity-resolution conflict is not modelled. Updating a detached copy
  whose row `Find` has just attached (DataStore.cs:338-346, with the `Detach`
  call commented out) throws in EF; the model performs the update.
- The private overloads' `dbContext == null` checks (for example
  DataStore.cs:330-333 and 393-396) are not modelled as errors. In the model a
  routed context always exists, because `GetDbContext` fails with
  `NotSupported` instead of returning null.
- `SaveChanges` failures are modelled only as a duplicate explicit key. A
  failed commit that leaves Added entries in the context is not modelled.
- Storage.AddRow: an Id other than zero is inserted under that explicit key.
  How EF treats explicit or negative keys on an identity column depends on the
  database, which is not part of this model.
- Keys and counts are unbounded integers. The source's `long` key, the 32-bit
  `int` result of `Count()` and their overflow are not modelled.
- DataStore.DataStore.GetItems: the unpaged reads come back in ascending key
  order in the model. The source leaves their order to the database, so only
  the set of rows is a promise of the source.
- Query.Rows: paging orders by the row key, which stands for the entity's
  primary key. `OrderKeyName` models `GetKeyAsExpression` separately, and
  `OrderKeyAgreesWithMapping` ties it to the mapped key.
- DataStore.DataStore.GetItemsWherePaged: requires `skip >= 0`. The source
  never checks `skip`, and the behaviour for a negative value is LINQ's, which
  is not part of this model. The same holds for `GetItemsPaged`.
- DataStore.DataStore.DeleteItems: requires a non-empty batch whose first item
  is present, and every item routing to the first item's context. The source
  routes the whole batch by `FirstOrDefault()` and passes null to the provider
  for an empty batch.
- DataStore.DataStore.SaveItems: requires every item to be of the batch's kind,
  as the source's generic parameter `T` ensures.
- Predicates are plain functions `Entity -> bool`. Expression trees, the
  commented-out serializer in `FixDynamicExpression` and
  `CreatePropSelectorExpression` are left out.
- `GetItemsQueryable` only exposes EF's `IQueryable` and has no logic of its own.
- `BuildEntityPropertyMethod` is a private, unused reflection call into EF.
- Reflection's `MakeGenericMethod(...).Invoke` (DataStore.cs:407-409) is
  modelled as a `Find` by the item's runtime kind and key. Only the lookup by
  `GetGenericMethod` is modelled, over the `DataStore`'s declared methods.
- Providers: `Initialize` is recorded as a call and does nothing, as in the
  test provider. Whether the database exists is a fixed value of the provider.
- The unused `DataStorePath`, `Dispose`, thread safety and `DateTimeOffset`
  fields are left out.
- Program.cs is a console harness against a live database. Only its
  save/update/delete sequence is stated, as `BeverageLifecycle`.
