/** Schema extraction: how a context turns the attributes declared on an entity
    type into its storage mapping (table name, primary key, column aliases,
    ignored properties), and the order in which model creation runs. */
module DynamicDbContext {
  import opened Wrappers

  /** Attributes a type may carry; only [Table] matters to the mapping. */
  datatype TypeAttribute = TableAttribute(name: string) | OtherTypeAttribute

  /** Attributes a property may carry. Where the model looks for one of them it
      takes the first occurrence. */
  datatype PropertyAttribute =
    | KeyAttribute
    | ColumnNameAttribute(name: string)
    | IgnorePropertyAttribute
    | OtherPropertyAttribute

  /** A public property of an entity type, in the order reflection lists them. */
  datatype PropertyDesc = PropertyDesc(name: string, attributes: seq<PropertyAttribute>)

  /** An entity type's declared metadata. */
  datatype EntityTypeDesc = EntityTypeDesc(name: string, attributes: seq<TypeAttribute>, properties: seq<PropertyDesc>)

  /** What the model builder holds for one entity type. */
  datatype EntityConfig = EntityConfig(table: string, key: Option<string>, columnNames: map<string, string>, ignored: set<string>)

  /** Both failures surface as a NullReferenceException in the source: the
      missing attribute (or property) is dereferenced. */
  datatype MappingError = MissingTableAttribute(typeName: string) | MissingKeyProperty(typeName: string)

  /** The observable steps of model creation, in the order they ran. */
  datatype BuildStep = EntityMapped(typeName: string) | BaseModelConfigured

  /** The model builder's state: per-type configuration and the steps so far. */
  datatype Model = Model(entities: map<string, EntityConfig>, steps: seq<BuildStep>)

  datatype MapResult = MapResult(model: Model, outcome: Outcome<MappingError>)

  /** The default DynamicDbContext.ContextSupports: no item is supported until a
      derived context says otherwise. */
  function BaseContextSupports<T>(item: T): (r: bool)
    ensures !r
  {
    false
  }

  // ---- Reading the metadata ----

  /** The Name of the type's first [Table] attribute, or None. */
  function TableName(attributes: seq<TypeAttribute>): (r: Option<string>)
    ensures r.None? <==> forall i :: 0 <= i < |attributes| ==> !attributes[i].TableAttribute?
    ensures r.Some? ==> exists i :: 0 <= i < |attributes| && attributes[i] == TableAttribute(r.value)
                                   && forall j :: 0 <= j < i ==> !attributes[j].TableAttribute?
  {
    if attributes == [] then
      None
    else if attributes[0].TableAttribute? then
      Some(attributes[0].name)
    else
      var r := TableName(attributes[1..]);
      assert r.Some? ==> exists i :: 0 <= i < |attributes[1..]| && attributes[1..][i] == TableAttribute(r.value)
                                   && forall j :: 0 <= j < i ==> !attributes[1..][j].TableAttribute?;
      assert r.Some? ==> exists i :: 1 <= i < |attributes| && attributes[i] == TableAttribute(r.value)
                                   && forall j :: 0 <= j < i ==> !attributes[j].TableAttribute?;
      r
  }

  /** The Name of a property's [ColumnName] attribute, or None. */
  function ColumnNameOf(attributes: seq<PropertyAttribute>): (r: Option<string>)
    ensures r.None? <==> forall i :: 0 <= i < |attributes| ==> !attributes[i].ColumnNameAttribute?
    ensures r.Some? ==> ColumnNameAttribute(r.value) in attributes
  {
    if attributes == [] then
      None
    else if attributes[0].ColumnNameAttribute? then
      Some(attributes[0].name)
    else
      var r := ColumnNameOf(attributes[1..]);
      assert r.Some? ==> ColumnNameAttribute(r.value) in attributes[1..];
      r
  }

  predicate IsKey(p: PropertyDesc) {
    KeyAttribute in p.attributes
  }

  predicate HasColumnName(p: PropertyDesc) {
    ColumnNameOf(p.attributes).Some?
  }

  predicate IsIgnored(p: PropertyDesc) {
    IgnorePropertyAttribute in p.attributes
  }

  /** The name of the first property, in declaration order, carrying [Key]. */
  function KeyProperty(properties: seq<PropertyDesc>): (r: Option<string>)
    ensures r.None? <==> forall i :: 0 <= i < |properties| ==> !IsKey(properties[i])
    ensures r.Some? ==> exists i :: 0 <= i < |properties| && IsKey(properties[i]) && properties[i].name == r.value
                                   && forall j :: 0 <= j < i ==> !IsKey(properties[j])
  {
    if properties == [] then
      None
    else if IsKey(properties[0]) then
      Some(properties[0].name)
    else
      var r := KeyProperty(properties[1..]);
      assert r.Some? ==> exists i :: 1 <= i < |properties| && IsKey(properties[i]) && properties[i].name == r.value
                                   && forall j :: 0 <= j < i ==> !IsKey(properties[j]) by {
        if r.Some? {
          var i :| 0 <= i < |properties[1..]| && IsKey(properties[1..][i]) && properties[1..][i].name == r.value
                   && forall j :: 0 <= j < i ==> !IsKey(properties[1..][j]);
          assert forall j :: 0 <= j < i + 1 ==> !IsKey(properties[j]) by {
            forall j | 0 <= j < i + 1 ensures !IsKey(properties[j]) {
              if j > 0 { assert properties[j] == properties[1..][j - 1]; }
            }
          }
        }
      }
      r
  }

  /** The properties carrying [ColumnName], in declaration order. */
  function ColumnProperties(properties: seq<PropertyDesc>): (r: seq<PropertyDesc>)
    ensures forall p :: p in r <==> p in properties && HasColumnName(p)
    ensures forall i :: 0 <= i < |r| ==> HasColumnName(r[i])
  {
    if properties == [] then
      []
    else if HasColumnName(properties[0]) then
      [properties[0]] + ColumnProperties(properties[1..])
    else
      ColumnProperties(properties[1..])
  }

  /** The properties carrying [IgnoreProperty], in declaration order. */
  function IgnoreProperties(properties: seq<PropertyDesc>): (r: seq<PropertyDesc>)
    ensures forall p :: p in r <==> p in properties && IsIgnored(p)
  {
    if properties == [] then
      []
    else if IsIgnored(properties[0]) then
      [properties[0]] + IgnoreProperties(properties[1..])
    else
      IgnoreProperties(properties[1..])
  }

  /** The aliases the column loop has recorded after visiting `columns` in
      order: each visit maps the property's name to its attribute's Name. */
  function Aliases(columns: seq<PropertyDesc>): map<string, string>
    requires forall i :: 0 <= i < |columns| ==> HasColumnName(columns[i])
  {
    if columns == [] then
      map[]
    else
      var last := columns[|columns| - 1];
      assert HasColumnName(last);
      Aliases(columns[..|columns| - 1])[last.name := ColumnNameOf(last.attributes).value]
  }

  /** The names the ignore loop has recorded after visiting `properties`. */
  function Names(properties: seq<PropertyDesc>): set<string> {
    set i | 0 <= i < |properties| :: properties[i].name
  }

  /** A configuration Entity<T>() hands out: the existing one, or a fresh one
      named after the type. */
  function Prior(entities: map<string, EntityConfig>, typeName: string): EntityConfig {
    if typeName in entities then entities[typeName] else EntityConfig(typeName, None, map[], {})
  }

  /** Reference definition of MapTableToObject on the builder's state. A missing
      [Table] fails before the type is registered; a missing [Key] fails after
      Entity<T>().ToTable(...) has already registered it with its table. */
  function MapSpec(m: Model, t: EntityTypeDesc): MapResult {
    match TableName(t.attributes)
    case None => MapResult(m, Fail(MissingTableAttribute(t.name)))
    case Some(table) =>
      var prior := Prior(m.entities, t.name);
      match KeyProperty(t.properties)
      case None =>
        MapResult(m.(entities := m.entities[t.name := prior.(table := table)]), Fail(MissingKeyProperty(t.name)))
      case Some(key) =>
        var config := EntityConfig(table, Some(key),
                                   prior.columnNames + Aliases(ColumnProperties(t.properties)),
                                   prior.ignored + Names(IgnoreProperties(t.properties)));
        MapResult(Model(m.entities[t.name := config], m.steps + [EntityMapped(t.name)]), Pass)
  }

  /** Reference definition of a context's MapTableObjects: map the types in
      order; the first failure propagates and later types are not mapped. */
  function MapAll(m: Model, types: seq<EntityTypeDesc>): MapResult {
    if types == [] then
      MapResult(m, Pass)
    else
      var before := MapAll(m, types[..|types| - 1]);
      if before.outcome.Fail? then before else MapSpec(before.model, types[|types| - 1])
  }

  /** The steps logged by mapping `types`, one per type, in order. */
  function MappedSteps(types: seq<EntityTypeDesc>): (r: seq<BuildStep>)
    ensures |r| == |types|
    ensures forall i :: 0 <= i < |types| ==> r[i] == EntityMapped(types[i].name)
  {
    if types == [] then [] else MappedSteps(types[..|types| - 1]) + [EntityMapped(types[|types| - 1].name)]
  }

  /** Reference definition of OnModelCreating: MapTableObjects, then the base
      configuration, which runs only if all mapping succeeded. */
  function OnModelCreatingSpec(m: Model, types: seq<EntityTypeDesc>): MapResult {
    var mapped := MapAll(m, types);
    if mapped.outcome.Fail? then mapped
    else MapResult(mapped.model.(steps := mapped.model.steps + [BaseModelConfigured]), Pass)
  }

  // ---- The builder ----

  class ModelBuilder {
    var entities: map<string, EntityConfig>
    var steps: seq<BuildStep>

    function State(): Model
      reads this
    {
      Model(entities, steps)
    }

    constructor ()
      ensures entities == map[] && steps == []
    {
      entities := map[];
      steps := [];
    }

    /** MapTableToObject: table name, then primary key, then one HasColumnName
        per [ColumnName] property, then one Ignore per [IgnoreProperty]
        property, each applied to the type's configuration as it goes. */
    method MapTableToObject(t: EntityTypeDesc) returns (r: Outcome<MappingError>)
      modifies this
      ensures MapResult(State(), r) == MapSpec(old(State()), t)
    {
      var table := TableName(t.attributes);
      if table.None? {
        return Fail(MissingTableAttribute(t.name));
      }
      var prior := Prior(entities, t.name);
      entities := entities[t.name := prior.(table := table.value)];

      var key := KeyProperty(t.properties);
      if key.None? {
        return Fail(MissingKeyProperty(t.name));
      }
      entities := entities[t.name := entities[t.name].(key := key)];

      var columnProperties := ColumnProperties(t.properties);
      MapColumnNames(t.name, columnProperties);
      var ignoreProperties := IgnoreProperties(t.properties);
      MapIgnoredProperties(t.name, ignoreProperties);
      assert entities == old(entities)[t.name := EntityConfig(table.value, key, prior.columnNames + Aliases(columnProperties),
                                                              prior.ignored + Names(ignoreProperties))];
      steps := steps + [EntityMapped(t.name)];
      return Pass;
    }

    /** The column loop: HasColumnName(attribute Name) for each property, in order. */
    method MapColumnNames(typeName: string, columnProperties: seq<PropertyDesc>)
      requires typeName in entities
      requires forall i :: 0 <= i < |columnProperties| ==> HasColumnName(columnProperties[i])
      modifies this
      ensures steps == old(steps)
      ensures entities == old(entities)[typeName := old(entities)[typeName].(
                            columnNames := old(entities)[typeName].columnNames + Aliases(columnProperties))]
    {
      ghost var start := entities[typeName];
      assert columnProperties[..0] == [];
      assert start.columnNames + Aliases(columnProperties[..0]) == start.columnNames;
      for i := 0 to |columnProperties|
        invariant steps == old(steps)
        invariant entities == old(entities)[typeName := start.(columnNames := start.columnNames + Aliases(columnProperties[..i]))]
      {
        var columnProp := columnProperties[i];
        var config := entities[typeName];
        var alias := ColumnNameOf(columnProp.attributes).value;
        entities := entities[typeName := config.(columnNames := config.columnNames[columnProp.name := alias])];
        assert columnProperties[..i + 1][..i] == columnProperties[..i];
        assert columnProperties[..i + 1][i] == columnProp;
        assert Aliases(columnProperties[..i + 1]) == Aliases(columnProperties[..i])[columnProp.name := alias];
        UpdateAfterUnion(start.columnNames, Aliases(columnProperties[..i]), columnProp.name, alias);
      }
      assert columnProperties[..|columnProperties|] == columnProperties;
    }

    /** The ignore loop: Ignore(property) for each property, in order. */
    method MapIgnoredProperties(typeName: string, ignoreProperties: seq<PropertyDesc>)
      requires typeName in entities
      modifies this
      ensures steps == old(steps)
      ensures entities == old(entities)[typeName := old(entities)[typeName].(
                            ignored := old(entities)[typeName].ignored + Names(ignoreProperties))]
    {
      ghost var start := entities[typeName];
      assert Names(ignoreProperties[..0]) == {};
      assert start.ignored + Names(ignoreProperties[..0]) == start.ignored;
      for i := 0 to |ignoreProperties|
        invariant steps == old(steps)
        invariant entities == old(entities)[typeName := start.(ignored := start.ignored + Names(ignoreProperties[..i]))]
      {
        var config := entities[typeName];
        entities := entities[typeName := config.(ignored := config.ignored + {ignoreProperties[i].name})];
        NamesAppend(ignoreProperties, i);
        assert config.ignored + {ignoreProperties[i].name} == start.ignored + Names(ignoreProperties[..i + 1]);
      }
      assert ignoreProperties[..|ignoreProperties|] == ignoreProperties;
    }

    /** A derived context's MapTableObjects: one MapTableToObject per type. */
    method MapTableObjects(types: seq<EntityTypeDesc>) returns (r: Outcome<MappingError>)
      modifies this
      ensures MapResult(State(), r) == MapAll(old(State()), types)
    {
      for i := 0 to |types|
        invariant MapAll(old(State()), types[..i]) == MapResult(State(), Pass)
      {
        assert types[..i + 1][..i] == types[..i];
        r := MapTableToObject(types[i]);
        if r.Fail? {
          assert MapAll(old(State()), types[..i + 1]) == MapResult(State(), r);
          assert MapAll(old(State()), types) == MapResult(State(), r) by {
            MapAllKeepsFailure(old(State()), types, i + 1);
          }
          return;
        }
      }
      assert types[..|types|] == types;
      r := Pass;
    }

    /** The base class's OnModelCreating (no configuration of its own here). */
    method BaseOnModelCreating()
      modifies this
      ensures entities == old(entities) && steps == old(steps) + [BaseModelConfigured]
    {
      steps := steps + [BaseModelConfigured];
    }

    /** OnModelCreating: MapTableObjects first, then the base configuration. */
    method OnModelCreating(types: seq<EntityTypeDesc>) returns (r: Outcome<MappingError>)
      modifies this
      ensures MapResult(State(), r) == OnModelCreatingSpec(old(State()), types)
    {
      r := MapTableObjects(types);
      if r.Fail? {
        return;
      }
      BaseOnModelCreating();
    }
  }

  // ---- Properties of the mapping ----

  lemma NamesAppend(s: seq<PropertyDesc>, i: nat)
    requires i < |s|
    ensures Names(s[..i + 1]) == Names(s[..i]) + {s[i].name}
  {
    forall n ensures n in Names(s[..i + 1]) <==> n in Names(s[..i]) + {s[i].name} {
      if n in Names(s[..i + 1]) {
        var j :| 0 <= j < i + 1 && s[..i + 1][j].name == n;
        if j < i { assert s[..i][j].name == n; }
      }
      if n in Names(s[..i]) {
        var j :| 0 <= j < i && s[..i][j].name == n;
        assert s[..i + 1][j].name == n;
      }
    }
  }

  lemma UpdateAfterUnion(a: map<string, string>, b: map<string, string>, k: string, v: string)
    ensures (a + b)[k := v] == a + b[k := v]
  {
  }

  /** Once a prefix of the batch has failed, mapping more types changes nothing. */
  lemma {:induction false} MapAllKeepsFailure(m: Model, types: seq<EntityTypeDesc>, k: nat)
    requires k <= |types|
    requires MapAll(m, types[..k]).outcome.Fail?
    ensures MapAll(m, types) == MapAll(m, types[..k])
  {
    if k < |types| {
      var front := types[..|types| - 1];
      assert front[..k] == types[..k];
      MapAllKeepsFailure(m, front, k);
      assert MapAll(m, front).outcome.Fail?;
      assert MapAll(m, types) == MapAll(m, front);
    } else {
      assert types[..k] == types;
    }
  }

  /** Mapping succeeds exactly when the type has a [Table] attribute and some
      property carries [Key]; the failure names what was missing, table first. */
  lemma MapTableToObjectOutcome(m: Model, t: EntityTypeDesc)
    ensures MapSpec(m, t).outcome.Pass? <==>
              (exists i :: 0 <= i < |t.attributes| && t.attributes[i].TableAttribute?) &&
              (exists i :: 0 <= i < |t.properties| && IsKey(t.properties[i]))
    ensures (forall i :: 0 <= i < |t.attributes| ==> !t.attributes[i].TableAttribute?) ==>
              MapSpec(m, t) == MapResult(m, Fail(MissingTableAttribute(t.name)))
  {
  }

  /** A successful mapping records the first [Table] Name and the first [Key]
      property, and logs the type. */
  lemma MappedTableAndKey(m: Model, t: EntityTypeDesc)
    requires MapSpec(m, t).outcome.Pass?
    ensures t.name in MapSpec(m, t).model.entities
    ensures var config := MapSpec(m, t).model.entities[t.name];
            && (exists i :: 0 <= i < |t.attributes| && t.attributes[i] == TableAttribute(config.table)
                            && forall j :: 0 <= j < i ==> !t.attributes[j].TableAttribute?)
            && config.key.Some?
            && (exists i :: 0 <= i < |t.properties| && IsKey(t.properties[i]) && t.properties[i].name == config.key.value
                            && forall j :: 0 <= j < i ==> !IsKey(t.properties[j]))
    ensures MapSpec(m, t).model.steps == m.steps + [EntityMapped(t.name)]
  {
  }

  /** With distinct property names, each visited property is mapped to its own
      attribute's Name. */
  lemma {:induction false} AliasesValues(columns: seq<PropertyDesc>, i: nat)
    requires forall k :: 0 <= k < |columns| ==> HasColumnName(columns[k])
    requires forall j, k :: 0 <= j < k < |columns| ==> columns[j].name != columns[k].name
    requires i < |columns|
    ensures columns[i].name in Aliases(columns)
    ensures Aliases(columns)[columns[i].name] == ColumnNameOf(columns[i].attributes).value
  {
    if i < |columns| - 1 {
      var front := columns[..|columns| - 1];
      AliasesValues(front, i);
      assert front[i] == columns[i];
    }
  }

  /** Property names are unique within a type. */
  predicate UniqueNames(properties: seq<PropertyDesc>) {
    forall j, k :: 0 <= j < k < |properties| ==> properties[j].name != properties[k].name
  }

  lemma {:induction false} FilterKeepsUnique(properties: seq<PropertyDesc>)
    requires UniqueNames(properties)
    ensures UniqueNames(ColumnProperties(properties))
    ensures properties != [] ==> forall p :: p in ColumnProperties(properties[1..]) ==> p.name != properties[0].name
  {
    if properties != [] {
      FilterKeepsUnique(properties[1..]);
      var rest := ColumnProperties(properties[1..]);
      if HasColumnName(properties[0]) {
        forall k | 0 <= k < |rest| ensures rest[k].name != properties[0].name {
          assert rest[k] in properties[1..];
        }
      }
    }
  }

  /** The column loop, run over a type's properties, aliases exactly the
      [ColumnName] properties; properties without the attribute get no alias. */
  lemma ColumnAliasKeysOfType(properties: seq<PropertyDesc>)
    ensures forall n :: n in Aliases(ColumnProperties(properties)) <==>
              exists i :: 0 <= i < |properties| && properties[i].name == n && HasColumnName(properties[i])
  {
    forall n | n in Aliases(ColumnProperties(properties))
      ensures exists i :: 0 <= i < |properties| && properties[i].name == n && HasColumnName(properties[i])
    {
      AliasedIsColumn(properties, n);
    }
    forall i | 0 <= i < |properties| && HasColumnName(properties[i])
      ensures properties[i].name in Aliases(ColumnProperties(properties))
    {
      ColumnIsAliased(properties, i);
    }
  }

  lemma AliasedIsColumn(properties: seq<PropertyDesc>, n: string)
    requires n in Aliases(ColumnProperties(properties))
    ensures exists i :: 0 <= i < |properties| && properties[i].name == n && HasColumnName(properties[i])
  {
    var columns := ColumnProperties(properties);
    var k := AliasOrigin(columns, n);
    assert columns[k] in properties;
  }

  lemma ColumnIsAliased(properties: seq<PropertyDesc>, i: nat)
    requires i < |properties| && HasColumnName(properties[i])
    ensures properties[i].name in Aliases(ColumnProperties(properties))
  {
    var columns := ColumnProperties(properties);
    assert properties[i] in columns;
    var k :| 0 <= k < |columns| && columns[k] == properties[i];
    AliasCovers(columns, k);
  }

  /** The visit that recorded an alias. */
  lemma {:induction false} AliasOrigin(columns: seq<PropertyDesc>, n: string) returns (k: nat)
    requires forall i :: 0 <= i < |columns| ==> HasColumnName(columns[i])
    requires n in Aliases(columns)
    ensures k < |columns| && columns[k].name == n
  {
    var front := columns[..|columns| - 1];
    if columns[|columns| - 1].name == n {
      k := |columns| - 1;
    } else {
      k := AliasOrigin(front, n);
      assert columns[k] == front[k];
    }
  }

  /** Every visited property has an alias. */
  lemma {:induction false} AliasCovers(columns: seq<PropertyDesc>, k: nat)
    requires forall i :: 0 <= i < |columns| ==> HasColumnName(columns[i])
    requires k < |columns|
    ensures columns[k].name in Aliases(columns)
  {
    if k < |columns| - 1 {
      var front := columns[..|columns| - 1];
      AliasCovers(front, k);
      assert front[k] == columns[k];
    }
  }

  /** ... and each [ColumnName] property is aliased to its attribute's Name. */
  lemma ColumnAliasValuesOfType(properties: seq<PropertyDesc>, i: nat)
    requires UniqueNames(properties)
    requires i < |properties| && HasColumnName(properties[i])
    ensures properties[i].name in Aliases(ColumnProperties(properties))
    ensures Aliases(ColumnProperties(properties))[properties[i].name] == ColumnNameOf(properties[i].attributes).value
  {
    var columns := ColumnProperties(properties);
    FilterKeepsUnique(properties);
    assert properties[i] in columns;
    var k :| 0 <= k < |columns| && columns[k] == properties[i];
    AliasesValues(columns, k);
  }

  /** The ignore loop, run over a type's properties, records exactly the
      [IgnoreProperty] properties. */
  lemma IgnoredOfType(properties: seq<PropertyDesc>)
    ensures forall n :: n in Names(IgnoreProperties(properties)) <==>
              exists i :: 0 <= i < |properties| && properties[i].name == n && IsIgnored(properties[i])
  {
    var ignoreProperties := IgnoreProperties(properties);
    forall n ensures n in Names(ignoreProperties) <==>
              exists i :: 0 <= i < |properties| && properties[i].name == n && IsIgnored(properties[i])
    {
      if n in Names(ignoreProperties) {
        var k :| 0 <= k < |ignoreProperties| && ignoreProperties[k].name == n;
        assert ignoreProperties[k] in properties;
      }
      if exists i :: 0 <= i < |properties| && properties[i].name == n && IsIgnored(properties[i]) {
        var i :| 0 <= i < |properties| && properties[i].name == n && IsIgnored(properties[i]);
        assert properties[i] in ignoreProperties;
        var k :| 0 <= k < |ignoreProperties| && ignoreProperties[k] == properties[i];
      }
    }
  }

  /** On a type mapped for the first time, its configuration holds exactly the
      aliases and ignored names the two loops produce from its properties. */
  lemma FirstMappingConfig(m: Model, t: EntityTypeDesc)
    requires MapSpec(m, t).outcome.Pass? && t.name !in m.entities
    ensures t.name in MapSpec(m, t).model.entities
    ensures MapSpec(m, t).model.entities[t.name].columnNames == Aliases(ColumnProperties(t.properties))
    ensures MapSpec(m, t).model.entities[t.name].ignored == Names(IgnoreProperties(t.properties))
  {
  }

  /** Model creation maps every type, in order, before the base configuration
      runs, and the base configuration is the last step. */
  lemma {:induction false} MapAllLogsInOrder(m: Model, types: seq<EntityTypeDesc>)
    requires MapAll(m, types).outcome.Pass?
    ensures MapAll(m, types).model.steps == m.steps + MappedSteps(types)
  {
    if types != [] {
      MapAllLogsInOrder(m, types[..|types| - 1]);
    }
  }

  lemma OnModelCreatingOrder(m: Model, types: seq<EntityTypeDesc>)
    requires OnModelCreatingSpec(m, types).outcome.Pass?
    ensures OnModelCreatingSpec(m, types).model.steps == m.steps + MappedSteps(types) + [BaseModelConfigured]
  {
    MapAllLogsInOrder(m, types);
  }

  /** A failed model creation never reaches the base configuration. */
  lemma {:induction false} FailedCreationSkipsBase(m: Model, types: seq<EntityTypeDesc>)
    requires OnModelCreatingSpec(m, types).outcome.Fail?
    requires BaseModelConfigured !in m.steps
    ensures BaseModelConfigured !in OnModelCreatingSpec(m, types).model.steps
  {
    MapAllNeverConfiguresBase(m, types);
  }

  lemma {:induction false} MapAllNeverConfiguresBase(m: Model, types: seq<EntityTypeDesc>)
    requires BaseModelConfigured !in m.steps
    ensures BaseModelConfigured !in MapAll(m, types).model.steps
  {
    if types != [] {
      MapAllNeverConfiguresBase(m, types[..|types| - 1]);
    }
  }

  // ---- The sample entity ----

  /** The Beverage entity of the test project: table "beverages", key Id,
      every property aliased to a lower-case column. */
  const Beverage := EntityTypeDesc("Beverage", [TableAttribute("beverages")], [
    PropertyDesc("Id", [KeyAttribute, ColumnNameAttribute("id")]),
    PropertyDesc("BeverageKey", [ColumnNameAttribute("beverage_key")]),
    PropertyDesc("Name", [ColumnNameAttribute("name")]),
    PropertyDesc("Description", [ColumnNameAttribute("description")]),
    PropertyDesc("ExternalInfo", [ColumnNameAttribute("external_info_url")]),
    PropertyDesc("DateCreated", [ColumnNameAttribute("date_created")]),
    PropertyDesc("DateUpdated", [ColumnNameAttribute("date_updated")])
  ])

  const BeverageColumns := map["Id" := "id", "BeverageKey" := "beverage_key", "Name" := "name",
                               "Description" := "description", "ExternalInfo" := "external_info_url",
                               "DateCreated" := "date_created", "DateUpdated" := "date_updated"]

  /** Mapping Beverage into an empty model registers table "beverages" with key
      Id and every property aliased to its lower-case column. */
  lemma BeverageMapping()
    ensures MapSpec(Model(map[], []), Beverage) ==
              MapResult(Model(map["Beverage" := EntityConfig("beverages", Some("Id"), BeverageColumns, {})],
                              [EntityMapped("Beverage")]), Pass)
  {
    BeverageTableAndKey();
    BeverageFilters();
    BeverageAliases();
    assert Names([]) == {};
    FreshMapping(Beverage, "beverages", "Id");
  }

  /** A first successful mapping of a type into an empty model. */
  lemma FreshMapping(t: EntityTypeDesc, table: string, key: string)
    requires TableName(t.attributes) == Some(table) && KeyProperty(t.properties) == Some(key)
    ensures MapSpec(Model(map[], []), t) ==
              MapResult(Model(map[t.name := EntityConfig(table, Some(key), Aliases(ColumnProperties(t.properties)),
                                                         Names(IgnoreProperties(t.properties)))],
                              [EntityMapped(t.name)]), Pass)
  {
    EmptyUnion(Aliases(ColumnProperties(t.properties)));
    assert {} + Names(IgnoreProperties(t.properties)) == Names(IgnoreProperties(t.properties));
  }

  lemma EmptyUnion(m: map<string, string>)
    ensures map[] + m == m
  {
  }

  lemma BeverageTableAndKey()
    ensures TableName(Beverage.attributes) == Some("beverages")
    ensures KeyProperty(Beverage.properties) == Some("Id")
  {
    assert IsKey(Beverage.properties[0]);
  }

  lemma BeverageFilters()
    ensures ColumnProperties(Beverage.properties) == Beverage.properties
    ensures IgnoreProperties(Beverage.properties) == []
  {
    var props := Beverage.properties;
    assert forall i :: 0 <= i < |props| ==> HasColumnName(props[i]);
    assert forall i :: 0 <= i < |props| ==> !IsIgnored(props[i]);
    AllColumnsKept(props);
    NoneIgnored(props);
  }

  lemma BeverageAliases()
    ensures forall i :: 0 <= i < |Beverage.properties| ==> HasColumnName(Beverage.properties[i])
    ensures Aliases(Beverage.properties) == BeverageColumns
  {
    var props := Beverage.properties;
    assert props[..0] == [];
    assert props[..1][..0] == props[..0];
    assert Aliases(props[..1]) == map["Id" := "id"];
    assert props[..2][..1] == props[..1];
    assert Aliases(props[..2]) == map["Id" := "id", "BeverageKey" := "beverage_key"];
    assert props[..3][..2] == props[..2];
    assert Aliases(props[..3]) == map["Id" := "id", "BeverageKey" := "beverage_key", "Name" := "name"];
    assert props[..4][..3] == props[..3];
    assert Aliases(props[..4]) == map["Id" := "id", "BeverageKey" := "beverage_key", "Name" := "name",
                                      "Description" := "description"];
    assert props[..5][..4] == props[..4];
    assert Aliases(props[..5]) == map["Id" := "id", "BeverageKey" := "beverage_key", "Name" := "name",
                                      "Description" := "description", "ExternalInfo" := "external_info_url"];
    assert props[..6][..5] == props[..5];
    assert Aliases(props[..6]) == map["Id" := "id", "BeverageKey" := "beverage_key", "Name" := "name",
                                      "Description" := "description", "ExternalInfo" := "external_info_url",
                                      "DateCreated" := "date_created"];
    assert props[..7][..6] == props[..6];
    assert props[..7] == props;
  }

  /** A property list whose every member is aliased passes the filter whole. */
  lemma {:induction false} AllColumnsKept(properties: seq<PropertyDesc>)
    requires forall i :: 0 <= i < |properties| ==> HasColumnName(properties[i])
    ensures ColumnProperties(properties) == properties
  {
    if properties != [] {
      AllColumnsKept(properties[1..]);
    }
  }

  /** A property list with no ignored member yields nothing to ignore. */
  lemma {:induction false} NoneIgnored(properties: seq<PropertyDesc>)
    requires forall i :: 0 <= i < |properties| ==> !IsIgnored(properties[i])
    ensures IgnoreProperties(properties) == []
  {
    if properties != [] {
      NoneIgnored(properties[1..]);
    }
  }
}
