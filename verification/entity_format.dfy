/** Entities and the entity formatter: one entity's schema applied to a raw
    record, renaming each attribute from the name it is saved as back to its
    logical name, mapping the timestamp attributes `_ct`/`_md` to
    `created`/`modified`, and keeping only the projected attributes. */
module EntityFormat {
  import opened Wrappers
  import opened Errors
  import opened Items
  import opened SchemaFormat

  /** An opaque handle on a document client. */
  datatype ClientId = ClientId(id: nat)

  /** A table and the document client it was built with, if any. */
  datatype Table = Table(name: string, documentClient: Option<ClientId>)

  /** One attribute of an entity schema: logical name, stored name, schema. */
  datatype AttrDecl = AttrDecl(name: string, savedAs: string, attr: Attribute)

  datatype Entity = Entity(name: string, attrs: seq<AttrDecl>, table: Table)

  /** The stored name of the entity attribute that names a record's entity. */
  const EntityAttrSavedAs: string := "_et"

  /** The logical timestamp attributes and the names they are saved as. */
  const CreatedName: string := "created"
  const CreatedSavedAs: string := "_ct"
  const ModifiedName: string := "modified"
  const ModifiedSavedAs: string := "_md"

  function TimestampAttrs(): seq<AttrDecl> {
    [ AttrDecl(CreatedName, CreatedSavedAs, Attribute(StringKind, false)),
      AttrDecl(ModifiedName, ModifiedSavedAs, Attribute(StringKind, false)) ]
  }

  /** An entity with the internal timestamp attributes added when enabled. */
  function MakeEntity(name: string, attrs: seq<AttrDecl>, table: Table, timestamps: bool): (e: Entity)
    ensures e.name == name && e.table == table
    ensures |e.attrs| >= |attrs| && e.attrs[..|attrs|] == attrs
    ensures timestamps ==> e.attrs[|attrs|..] == TimestampAttrs()
    ensures !timestamps ==> e.attrs == attrs
  {
    Entity(name, attrs + (if timestamps then TimestampAttrs() else []), table)
  }

  /** Logical names are distinct: a schema is an object keyed by them. */
  ghost predicate DistinctNames(attrs: seq<AttrDecl>) {
    forall i, j :: 0 <= i < j < |attrs| ==> attrs[i].name != attrs[j].name
  }

  /** Under distinct names, a declaration is determined by its name. */
  lemma NamedOnce(attrs: seq<AttrDecl>, i: nat, d: AttrDecl)
    requires DistinctNames(attrs) && i < |attrs|
    requires d in attrs && d.name == attrs[i].name
    ensures d == attrs[i]
  {
    var j :| 0 <= j < |attrs| && attrs[j] == d;
    assert j == i;
  }

  /** Whether an `attributes` projection keeps a declared attribute. */
  predicate Included(d: AttrDecl, projection: Option<set<string>>) {
    projection.None? || d.name in projection.value
  }

  function Lookup(record: Record, key: string): Option<Value> {
    if key in record then Some(record[key]) else None
  }

  /** The options the entity formatter passes for one attribute. */
  function AttrOptions(d: AttrDecl): FormatOptions {
    FormatOptions(true, [d.name])
  }

  /** An attribute the record satisfies: present with the declared kind, or
      absent and optional. */
  predicate AttrOk(d: AttrDecl, record: Record) {
    if d.savedAs in record then HasKind(record[d.savedAs], d.attr.kind) else !d.attr.required
  }

  /** The error the schema formatter raises for an attribute the record does
      not satisfy. */
  function AttrError(d: AttrDecl, record: Record): ToolboxError {
    if d.savedAs in record then InvalidAttribute([d.name]) else MissingAttribute([d.name])
  }

  /** One attribute through the schema formatter, driven to completion with
      the plain primitive formatter. */
  function FormatAttr(d: AttrDecl, record: Record): (r: Result<Option<Value>, ToolboxError>)
    ensures r.Success? <==> AttrOk(d, record)
    ensures r.Success? ==> r.value == Lookup(record, d.savedAs)
    ensures r.Failure? ==> r.error == AttrError(d, record)
  {
    if d.savedAs in record then PlainFormatValue(d.attr, record[d.savedAs], AttrOptions(d)); (
      FormatValue(d.attr, Lookup(record, d.savedAs), AttrOptions(d), PlainPrimitive))
    else
      FormatValue(d.attr, Lookup(record, d.savedAs), AttrOptions(d), PlainPrimitive)
  }

  /** Formats the declared attributes in declaration order; the first one
      that fails decides the error. */
  function FormatAttrs(attrs: seq<AttrDecl>, record: Record, projection: Option<set<string>>): (r: Result<Record, ToolboxError>)
    ensures r.Success? <==> forall d :: d in attrs && Included(d, projection) ==> AttrOk(d, record)
  {
    if attrs == [] then Success(map[])
    else
      var d := attrs[0];
      assert attrs == [d] + attrs[1..];
      var rest := FormatAttrs(attrs[1..], record, projection);
      if !Included(d, projection) then rest
      else
        match FormatAttr(d, record)
        case Failure(e) => Failure(e)
        case Success(v) =>
          match rest
          case Failure(e) => Failure(e)
          case Success(m) => Success(if v.Some? then m[d.name := v.value] else m)
  }

  /** The error is the one of the first included attribute, in declaration
      order, that the record does not satisfy. */
  lemma {:induction false} FormatAttrsError(attrs: seq<AttrDecl>, record: Record, projection: Option<set<string>>)
    ensures var r := FormatAttrs(attrs, record, projection);
      r.Failure? ==>
        exists i :: 0 <= i < |attrs| && Included(attrs[i], projection) && !AttrOk(attrs[i], record)
          && r.error == AttrError(attrs[i], record)
          && (forall j :: 0 <= j < i && Included(attrs[j], projection) ==> AttrOk(attrs[j], record))
  {
    var r := FormatAttrs(attrs, record, projection);
    if attrs != [] && r.Failure? {
      var d := attrs[0];
      if Included(d, projection) && !AttrOk(d, record) {
        assert r.error == AttrError(attrs[0], record);
      } else {
        FormatAttrsError(attrs[1..], record, projection);
        var i :| 0 <= i < |attrs[1..]| && Included(attrs[1..][i], projection) && !AttrOk(attrs[1..][i], record)
          && r.error == AttrError(attrs[1..][i], record)
          && (forall j :: 0 <= j < i && Included(attrs[1..][j], projection) ==> AttrOk(attrs[1..][j], record));
        assert attrs[i + 1] == attrs[1..][i];
        forall j | 0 <= j < i + 1 && Included(attrs[j], projection)
          ensures AttrOk(attrs[j], record)
        {
          if j > 0 {
            assert attrs[j] == attrs[1..][j - 1];
          }
        }
      }
    }
  }

  /** Some included attribute with logical name `k` has its stored name in
      the record. */
  ghost predicate StoredUnder(attrs: seq<AttrDecl>, record: Record, projection: Option<set<string>>, k: string) {
    exists d :: d in attrs && Included(d, projection) && d.savedAs in record && d.name == k
  }

  /** The formatted item holds exactly the logical names of the included
      attributes whose stored name the record has. */
  lemma {:induction false} FormatAttrsKeys(attrs: seq<AttrDecl>, record: Record, projection: Option<set<string>>)
    ensures var r := FormatAttrs(attrs, record, projection);
      r.Success? ==> forall k :: k in r.value <==> StoredUnder(attrs, record, projection, k)
  {
    var r := FormatAttrs(attrs, record, projection);
    if attrs != [] && r.Success? {
      var d0, tail := attrs[0], attrs[1..];
      assert attrs == [d0] + tail;
      FormatAttrsKeys(tail, record, projection);
      var rt := FormatAttrs(tail, record, projection);
      assert rt.Success?;
      var added := Included(d0, projection) && d0.savedAs in record;
      assert r.value.Keys == if added then rt.value.Keys + {d0.name} else rt.value.Keys;
      forall k ensures k in r.value <==> StoredUnder(attrs, record, projection, k) {
        assert k in rt.value <==> StoredUnder(tail, record, projection, k);
        if k in rt.value {
          var d :| d in tail && Included(d, projection) && d.savedAs in record && d.name == k;
          assert d in attrs;
        } else if added && k == d0.name {
          assert d0 in attrs;
        } else {
          forall d | d in attrs && Included(d, projection) && d.savedAs in record
            ensures d.name != k
          {
            if d != d0 {
              assert d in tail;
              assert d.name == k ==> StoredUnder(tail, record, projection, k);
            }
          }
        }
      }
    }
  }

  /** Each kept attribute carries the value stored under its saved-as name. */
  lemma {:induction false} FormatAttrsValues(attrs: seq<AttrDecl>, record: Record, projection: Option<set<string>>)
    requires DistinctNames(attrs)
    ensures var r := FormatAttrs(attrs, record, projection);
      r.Success? ==> forall d :: d in attrs && Included(d, projection) && d.savedAs in record ==>
        d.name in r.value && r.value[d.name] == record[d.savedAs]
  {
    if attrs != [] {
      var tail := attrs[1..];
      assert attrs == [attrs[0]] + tail;
      assert DistinctNames(tail) by {
        forall i, j | 0 <= i < j < |tail| ensures tail[i].name != tail[j].name {
          assert tail[i] == attrs[i + 1] && tail[j] == attrs[j + 1];
        }
      }
      FormatAttrsValues(tail, record, projection);
      forall d | d in tail ensures d.name != attrs[0].name {
        var k :| 0 <= k < |tail| && tail[k] == d;
        assert attrs[k + 1] == d;
      }
    }
  }

  /** `new EntityFormatter(entity).format(record, { attributes })`. */
  function FormatItem(e: Entity, record: Record, projection: Option<set<string>>): Result<Record, ToolboxError>
  {
    FormatAttrs(e.attrs, record, projection)
  }

  /** With timestamps enabled, the stored `_ct` and `_md` come back as
      `created` and `modified`, and are absent when the record lacks them. */
  lemma TimestampsRenamed(name: string, attrs: seq<AttrDecl>, table: Table, record: Record)
    requires DistinctNames(attrs + TimestampAttrs())
    ensures var r := FormatItem(MakeEntity(name, attrs, table, true), record, None);
      r.Success? ==>
        && (CreatedSavedAs in record ==> CreatedName in r.value && r.value[CreatedName] == record[CreatedSavedAs])
        && (ModifiedSavedAs in record ==> ModifiedName in r.value && r.value[ModifiedName] == record[ModifiedSavedAs])
        && (CreatedSavedAs !in record ==> CreatedName !in r.value)
        && (ModifiedSavedAs !in record ==> ModifiedName !in r.value)
  {
    var e := MakeEntity(name, attrs, table, true);
    var n := |attrs|;
    assert e.attrs == attrs + TimestampAttrs();
    var created, modified := e.attrs[n], e.attrs[n + 1];
    assert created == TimestampAttrs()[0] && modified == TimestampAttrs()[1];
    assert created in e.attrs && modified in e.attrs;
    FormatAttrsKeys(e.attrs, record, None);
    FormatAttrsValues(e.attrs, record, None);
    var r := FormatItem(e, record, None);
    if r.Success? && CreatedName in r.value {
      assert StoredUnder(e.attrs, record, None, CreatedName);
      var d :| d in e.attrs && Included(d, None) && d.savedAs in record && d.name == CreatedName;
      NamedOnce(e.attrs, n, d);
    }
    if r.Success? && ModifiedName in r.value {
      assert StoredUnder(e.attrs, record, None, ModifiedName);
      var d :| d in e.attrs && Included(d, None) && d.savedAs in record && d.name == ModifiedName;
      NamedOnce(e.attrs, n + 1, d);
    }
  }
}
