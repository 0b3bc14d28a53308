/** The options of a table query and the constraints their declared type
    puts on them, stated as a validity predicate over values, with a check
    over values that enforces it. */
module QueryOptions {
  import opened Wrappers
  import opened Errors
  import opened Items
  import opened Capacity
  import opened EntityFormat
  import ScanResolve

  datatype IndexType = Global | Local

  /** What a query reads: the table's primary key, or a secondary index. */
  datatype QueryTarget = PrimaryKey | SecondaryIndex(name: string, indexType: IndexType)

  datatype Select = AllAttributes | AllProjectedAttributes | SpecificAttributes | Count

  /** `keepGoing`: absent or falsy (`false`, `0`), `true`, or a positive
      per-request page size. */
  datatype KeepGoing = NoKeepGoing | KeepGoingOn | KeepGoingPageSize(pageSize: PosNat)

  /** A filter condition, built elsewhere and forwarded as is. */
  datatype Condition = Condition(id: nat)

  type PosNat = n: nat | 1 <= n witness 1

  /** An explicit `maxPages`: `Infinity`, or a positive number of pages. */
  datatype PageBudget = Unbounded | Pages(count: PosNat)

  datatype QueryOptions = QueryOptions(
    capacity: Option<CapacityOption>,
    exclusiveStartKey: Option<Record>,
    limit: Option<nat>,
    keepGoing: KeepGoing,
    maxPages: Option<PageBudget>,
    reverse: Option<bool>,
    filter: Option<Condition>,
    filters: Option<map<string, Condition>>,
    entityAttrFilter: Option<bool>,
    noEntityMatchBehavior: Option<ScanResolve.NoEntityMatchBehavior>,
    showEntityAttr: Option<bool>,
    tagEntities: Option<bool>,
    tableName: Option<string>,
    consistent: Option<bool>,
    select: Option<Select>,
    attributes: Option<seq<string>>)

  /** A global secondary index only serves eventually consistent reads:
      `consistent` is absent or `false` there. */
  predicate ConsistentAllowed(target: QueryTarget, o: QueryOptions) {
    target.SecondaryIndex? && target.indexType.Global? ==> o.consistent != Some(true)
  }

  /** `ALL_PROJECTED_ATTRIBUTES` needs a secondary index. */
  predicate SelectAllowedForTarget(target: QueryTarget, o: QueryOptions) {
    o.select == Some(AllProjectedAttributes) ==> target.SecondaryIndex?
  }

  /** A projection forces `SPECIFIC_ATTRIBUTES`. */
  predicate SelectAllowedWithProjection(o: QueryOptions) {
    o.attributes.Some? ==> o.select.None? || o.select == Some(SpecificAttributes)
  }

  /** A single `filter` only when no entity list was given; with one,
      per-entity `filters` are keyed by entity name. `entities` is `None` when
      the query was not given an entity list. */
  predicate FilterShapeAllowed(entities: Option<seq<Entity>>, o: QueryOptions) {
    && (o.filter.Some? ==> entities.None?)
    && (entities.Some? && o.filters.Some? ==>
          forall k :: k in o.filters.value ==> exists e :: e in entities.value && e.name == k)
  }

  /** With an entity list, a projection names attributes of those entities. */
  predicate AttributesAllowed(entities: Option<seq<Entity>>, o: QueryOptions) {
    entities.Some? && o.attributes.Some? ==>
      forall a :: a in o.attributes.value ==>
        exists e, d :: e in entities.value && d in e.attrs && d.name == a
  }

  /** The options the declared type admits for this target and entity list. */
  predicate ValidQueryOptions(target: QueryTarget, entities: Option<seq<Entity>>, o: QueryOptions) {
    && ConsistentAllowed(target, o)
    && SelectAllowedForTarget(target, o)
    && SelectAllowedWithProjection(o)
    && FilterShapeAllowed(entities, o)
    && AttributesAllowed(entities, o)
  }

  function EntityNames(entities: seq<Entity>): (names: set<string>)
    ensures forall e :: e in entities ==> e.name in names
    ensures forall n :: n in names ==> exists e :: e in entities && e.name == n
  {
    set e | e in entities :: e.name
  }

  function AttributeNames(entities: seq<Entity>): (names: set<string>)
    ensures forall e, d :: e in entities && d in e.attrs ==> d.name in names
    ensures forall n :: n in names ==> exists e, d :: e in entities && d in e.attrs && d.name == n
  {
    set e, d | e in entities && d in e.attrs :: d.name
  }

  /** The declared type's constraints enforced on values: each constraint in
      turn, failing with the error of the first one broken. The library has
      this check only at compile time; the order and the error values are
      this model's own. */
  function CheckQueryOptions(target: QueryTarget, entities: Option<seq<Entity>>, o: QueryOptions): (r: Outcome<ToolboxError>)
    ensures r.Pass? <==> ValidQueryOptions(target, entities, o)
    ensures r == Fail(InvalidConsistentOption) <==> !ConsistentAllowed(target, o)
    ensures r == Fail(InvalidSelectOption) <==>
      ConsistentAllowed(target, o) && !(SelectAllowedForTarget(target, o) && SelectAllowedWithProjection(o))
    ensures r == Fail(InvalidFilterOption) <==>
      && ConsistentAllowed(target, o) && SelectAllowedForTarget(target, o) && SelectAllowedWithProjection(o)
      && !FilterShapeAllowed(entities, o)
    ensures r == Fail(InvalidAttributesOption) <==>
      && ConsistentAllowed(target, o) && SelectAllowedForTarget(target, o) && SelectAllowedWithProjection(o)
      && FilterShapeAllowed(entities, o) && !AttributesAllowed(entities, o)
  {
    var global := target.SecondaryIndex? && target.indexType.Global?;
    if global && o.consistent == Some(true) then Fail(InvalidConsistentOption)
    else if o.select == Some(AllProjectedAttributes) && target.PrimaryKey? then Fail(InvalidSelectOption)
    else if o.attributes.Some? && o.select.Some? && o.select != Some(SpecificAttributes) then Fail(InvalidSelectOption)
    else if o.filter.Some? && entities.Some? then Fail(InvalidFilterOption)
    else if entities.Some? && o.filters.Some? && !(o.filters.value.Keys <= EntityNames(entities.value)) then Fail(InvalidFilterOption)
    else if entities.Some? && o.attributes.Some? && exists a :: a in o.attributes.value && a !in AttributeNames(entities.value) then
      Fail(InvalidAttributesOption)
    else
      assert FilterShapeAllowed(entities, o);
      assert AttributesAllowed(entities, o);
      Pass
  }

  /** Strongly consistent reads against any global secondary index are
      rejected, whatever else the options say. */
  lemma GlobalIndexRejectsConsistent(name: string, entities: Option<seq<Entity>>, o: QueryOptions)
    requires o.consistent == Some(true)
    ensures !ValidQueryOptions(SecondaryIndex(name, Global), entities, o)
    ensures CheckQueryOptions(SecondaryIndex(name, Global), entities, o) == Fail(InvalidConsistentOption)
  {
  }
}
