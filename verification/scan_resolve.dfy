/** Multi-entity resolution on scan: each stored record is formatted by the
    entity its entity attribute names, or else by the first candidate entity,
    in declaration order, whose formatter accepts it. A record no candidate
    accepts fails the whole call (`THROW`, the default) or is dropped
    (`DISCARD`). */
module ScanResolve {
  import opened Wrappers
  import opened Errors
  import opened Items
  import opened EntityFormat
  import opened Collecting

  datatype NoEntityMatchBehavior = ThrowOnNoMatch | DiscardOnNoMatch

  /** The scan options that bear on formatting. `entityAttrFilter` only adds
      a server-side filter to the request, so formatting ignores it. */
  datatype ResolveOptions = ResolveOptions(
    entityAttrFilter: bool,
    noEntityMatchBehavior: NoEntityMatchBehavior,
    showEntityAttr: bool,
    attributes: Option<set<string>>)

  const DefaultResolveOptions := ResolveOptions(true, ThrowOnNoMatch, false, None)

  /** The logical name of the entity attribute added by `showEntityAttr`. */
  const EntityAttrName: string := "entity"

  /** The first candidate with the given name. */
  function FindByName(entities: seq<Entity>, n: string): (r: Option<nat>)
    ensures r.Some? ==>
      && r.value < |entities| && entities[r.value].name == n
      && forall j :: 0 <= j < r.value ==> entities[j].name != n
    ensures r.None? ==> forall j :: 0 <= j < |entities| ==> entities[j].name != n
  {
    if entities == [] then None
    else if entities[0].name == n then Some(0)
    else match FindByName(entities[1..], n)
      case None => None
      case Some(i) => Some(i + 1)
  }

  /** The candidate the record's entity attribute names, if it names one. */
  function Discriminated(entities: seq<Entity>, record: Record): Option<nat> {
    if EntityAttrSavedAs in record && record[EntityAttrSavedAs].VStr? then
      FindByName(entities, record[EntityAttrSavedAs].s)
    else None
  }

  datatype Match = Match(entity: nat, item: Record)

  /** Trial formatting from candidate `from` on: the first success wins. */
  function TryFrom(entities: seq<Entity>, record: Record, projection: Option<set<string>>, from: nat): (r: Option<Match>)
    decreases |entities| - from
    ensures r.Some? ==>
      && from <= r.value.entity < |entities|
      && FormatItem(entities[r.value.entity], record, projection) == Success(r.value.item)
      && forall j :: from <= j < r.value.entity ==> FormatItem(entities[j], record, projection).Failure?
    ensures r.None? ==> forall j :: from <= j < |entities| ==> FormatItem(entities[j], record, projection).Failure?
  {
    if from >= |entities| then None
    else match FormatItem(entities[from], record, projection)
      case Success(item) => Some(Match(from, item))
      case Failure(_) => TryFrom(entities, record, projection, from + 1)
  }

  /** How one record resolves. */
  datatype Resolution = Matched(entity: nat, item: Record) | FormatFailed(error: ToolboxError) | Unmatched

  /** The entity attribute first, when it names a candidate; otherwise
      trial formatting in declaration order. */
  function Resolve(entities: seq<Entity>, record: Record, projection: Option<set<string>>): Resolution
  {
    match Discriminated(entities, record)
    case Some(i) =>
      (match FormatItem(entities[i], record, projection)
       case Success(item) => Matched(i, item)
       case Failure(e) => FormatFailed(e))
    case None =>
      (match TryFrom(entities, record, projection, 0)
       case Some(m) => Matched(m.entity, m.item)
       case None => Unmatched)
  }

  /** A record whose entity attribute names a candidate is formatted by that
      candidate alone, whatever the other candidates would do. */
  lemma ResolveDiscriminated(entities: seq<Entity>, record: Record, projection: Option<set<string>>)
    requires Discriminated(entities, record).Some?
    ensures var i := Discriminated(entities, record).value;
      var r := Resolve(entities, record, projection);
      && i < |entities|
      && record[EntityAttrSavedAs] == VStr(entities[i].name)
      && (FormatItem(entities[i], record, projection).Success? ==> r == Matched(i, FormatItem(entities[i], record, projection).value))
      && (FormatItem(entities[i], record, projection).Failure? ==> r == FormatFailed(FormatItem(entities[i], record, projection).error))
  {
  }

  /** Without a usable entity attribute the record goes to the first candidate,
      in declaration order, whose formatter accepts it, and is unmatched when
      none does. */
  lemma ResolveByTrial(entities: seq<Entity>, record: Record, projection: Option<set<string>>)
    requires Discriminated(entities, record).None?
    ensures var r := Resolve(entities, record, projection);
      && !r.FormatFailed?
      && (r.Unmatched? <==> forall j :: 0 <= j < |entities| ==> FormatItem(entities[j], record, projection).Failure?)
      && (r.Matched? ==>
            && r.entity < |entities|
            && FormatItem(entities[r.entity], record, projection) == Success(r.item)
            && forall j :: 0 <= j < r.entity ==> FormatItem(entities[j], record, projection).Failure?)
  {
  }

  /** The returned item: with `showEntityAttr`, `{ entity: name, ...item }`. */
  function Present(name: string, item: Record, showEntityAttr: bool): (out: Record)
    ensures !showEntityAttr ==> out == item
    ensures showEntityAttr ==>
      && out.Keys == item.Keys + {EntityAttrName}
      && (forall k :: k in item ==> out[k] == item[k])
      && (EntityAttrName !in item ==> out[EntityAttrName] == VStr(name))
  {
    if showEntityAttr then map[EntityAttrName := VStr(name)] + item else item
  }

  /** One record under the options' no-match policy: an item, a drop, or
      the error that fails the whole call. */
  function ResolveOne(entities: seq<Entity>, record: Record, opts: ResolveOptions): (r: Result<Option<Record>, ToolboxError>)
    ensures var res := Resolve(entities, record, opts.attributes);
      && (res.Matched? ==> r == Success(Some(Present(entities[res.entity].name, res.item, opts.showEntityAttr))))
      && (!res.Matched? && opts.noEntityMatchBehavior.DiscardOnNoMatch? ==> r == Success(None))
      && (res.Unmatched? && opts.noEntityMatchBehavior.ThrowOnNoMatch? ==> r == Failure(NoEntityMatched))
      && (res.FormatFailed? && opts.noEntityMatchBehavior.ThrowOnNoMatch? ==> r == Failure(res.error))
  {
    match Resolve(entities, record, opts.attributes)
    case Matched(i, item) => Success(Some(Present(entities[i].name, item, opts.showEntityAttr)))
    case FormatFailed(e) => if opts.noEntityMatchBehavior.ThrowOnNoMatch? then Failure(e) else Success(None)
    case Unmatched => if opts.noEntityMatchBehavior.ThrowOnNoMatch? then Failure(NoEntityMatched) else Success(None)
  }

  /** The step applied to each record of a scan response. */
  function ResolveStep(entities: seq<Entity>, opts: ResolveOptions): Record -> Result<Option<Record>, ToolboxError> {
    record => ResolveOne(entities, record, opts)
  }

  /** The items of a scan response, formatted record by record in order;
      the first record that fails under `THROW` decides the error. */
  function FormatRecords(entities: seq<Entity>, records: seq<Record>, opts: ResolveOptions): (r: Result<seq<Record>, ToolboxError>)
    ensures r.Success? <==> forall i :: 0 <= i < |records| ==> ResolveOne(entities, records[i], opts).Success?
  {
    Collect(records, ResolveStep(entities, opts))
  }

  predicate IsMatched(entities: seq<Entity>, record: Record, opts: ResolveOptions) {
    Resolve(entities, record, opts.attributes).Matched?
  }

  /** The item a matched record turns into. */
  function PresentedItem(entities: seq<Entity>, record: Record, opts: ResolveOptions): Record
    requires IsMatched(entities, record, opts)
  {
    var res := Resolve(entities, record, opts.attributes);
    Present(entities[res.entity].name, res.item, opts.showEntityAttr)
  }

  /** The error a record that does not match raises under `THROW`. */
  function NoMatchError(res: Resolution): ToolboxError
    requires !res.Matched?
  {
    if res.FormatFailed? then res.error else NoEntityMatched
  }

  /** Under either policy the step keeps a record exactly when it resolves,
      and keeps the presented item. */
  lemma StepKeepsMatched(entities: seq<Entity>, record: Record, opts: ResolveOptions)
    ensures Kept(ResolveStep(entities, opts), record) <==> IsMatched(entities, record, opts)
    ensures IsMatched(entities, record, opts) ==> KeptValue(ResolveStep(entities, opts), record) == PresentedItem(entities, record, opts)
  {
  }

  /** Under `THROW` the call succeeds exactly when every record resolves, and
      then returns one item per record, in order; otherwise the first record
      that does not resolve decides the error (`scanCommand.noEntityMatched`
      when no candidate accepts it). */
  lemma ThrowPolicy(entities: seq<Entity>, records: seq<Record>, opts: ResolveOptions)
    requires opts.noEntityMatchBehavior.ThrowOnNoMatch?
    ensures var r := FormatRecords(entities, records, opts);
      && (r.Success? <==> forall i :: 0 <= i < |records| ==> IsMatched(entities, records[i], opts))
      && (r.Success? ==>
            && |r.value| == |records|
            && forall i :: 0 <= i < |records| ==> r.value[i] == PresentedItem(entities, records[i], opts))
      && (r.Failure? ==>
            exists i :: 0 <= i < |records| && !IsMatched(entities, records[i], opts)
              && (forall j :: 0 <= j < i ==> IsMatched(entities, records[j], opts))
              && r.error == NoMatchError(Resolve(entities, records[i], opts.attributes)))
  {
    var f := ResolveStep(entities, opts);
    forall i | 0 <= i < |records| {
      StepKeepsMatched(entities, records[i], opts);
    }
    var r := FormatRecords(entities, records, opts);
    if r.Success? {
      CollectKeepsAll(records, f);
    } else {
      CollectFirstError(records, f);
    }
  }

  /** Under `DISCARD` the call always succeeds and returns, in their original
      relative order, exactly the items of the records that resolve. */
  lemma DiscardPolicy(entities: seq<Entity>, records: seq<Record>, opts: ResolveOptions)
    requires opts.noEntityMatchBehavior.DiscardOnNoMatch?
    ensures var r := FormatRecords(entities, records, opts);
      var idx := KeptIndices(records, ResolveStep(entities, opts));
      && r.Success?
      && (forall k, l :: 0 <= k < l < |idx| ==> idx[k] < idx[l])
      && (forall i :: 0 <= i < |records| ==> (i in idx <==> IsMatched(entities, records[i], opts)))
      && |r.value| == |idx|
      && forall k :: 0 <= k < |idx| ==> r.value[k] == PresentedItem(entities, records[idx[k]], opts)
  {
    var f := ResolveStep(entities, opts);
    forall i | 0 <= i < |records| {
      StepKeepsMatched(entities, records[i], opts);
    }
    CollectKeptInOrder(records, f);
  }

  /** With no options given the policy is `THROW` and no entity attribute is
      shown: the call succeeds exactly when every record resolves, each item
      is the resolved entity's formatted item as is, and a record no
      candidate accepts fails the call. */
  lemma DefaultOptionsThrow(entities: seq<Entity>, records: seq<Record>)
    ensures var r := FormatRecords(entities, records, DefaultResolveOptions);
      && (r.Success? <==> forall i :: 0 <= i < |records| ==> IsMatched(entities, records[i], DefaultResolveOptions))
      && (r.Success? ==>
            && |r.value| == |records|
            && forall i :: 0 <= i < |records| ==> r.value[i] == Resolve(entities, records[i], None).item)
      && (r.Failure? ==> exists i :: 0 <= i < |records| && !IsMatched(entities, records[i], DefaultResolveOptions))
  {
    ThrowPolicy(entities, records, DefaultResolveOptions);
  }

  /** Formatting does not depend on `entityAttrFilter`: a record carrying the
      entity attribute is formatted by the entity it names either way. */
  lemma EntityAttrFilterIgnored(entities: seq<Entity>, records: seq<Record>, opts: ResolveOptions, filter: bool)
    ensures FormatRecords(entities, records, opts) == FormatRecords(entities, records, opts.(entityAttrFilter := filter))
  {
    CollectSameSteps(records, ResolveStep(entities, opts), ResolveStep(entities, opts.(entityAttrFilter := filter)));
  }
}
