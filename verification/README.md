# dynamodb-toolbox: item formatting and command assembly, modelled in Dafny

This project models four pieces of dynamodb-toolbox's read pipeline as pure
Dafny functions over immutable values, and proves what the library promises
about them.

- **Schema formatter step protocol** (`SchemaFormat`). The top-level
  `schemaFormatter` is a generator. It is modelled as an explicit state
  machine with three states: `Ready`, `Transformed` and `Done`. Each `next()`
  call is one `Next` step, and `Drive` runs the machine to completion. The
  machine records every call to the kind-specific formatter it delegates to.
- **Entity formatter** (`EntityFormat`). It applies one entity's attribute
  declarations to a stored record. Each attribute's `savedAs` name is mapped
  back to its logical name. The internal timestamp attributes `_ct` and `_md`
  become `created` and `modified`. An `attributes` projection limits which
  attributes are kept. The first attribute that fails, in declaration order,
  decides the error.
- **Multi-entity resolution on scan** (`ScanResolve`). A record whose `_et`
  attribute names a candidate entity is formatted by that entity. Otherwise
  the candidates are tried in declaration order. `THROW` and `DISCARD` decide
  what happens to a record that no candidate accepts. `showEntityAttr` adds
  an `entity` field to each returned item. The response is processed by a
  generic in-order fold (`Collecting`).
- **Query options and pagination** (`QueryOptions`, `QueryPages`). The
  constraints that the `QueryOptions` type places on `consistent`, `select`,
  `attributes`, `filter` and `filters` become a validity predicate, and a
  check enforces it. The `keepGoing`/`limit`/`maxPages` paging rule is a loop
  over the pages the store returns.
- **Transact-get execution** (`TransactGet`). This covers how the arguments
  are split, the `actions.incompleteAction` check, the choice of document
  client, `getCommandInput`, and `formatResponses`. The store's
  `docClient.send` is a function parameter of type `Send`.

Errors are values of `Errors.ToolboxError`, and `Code()` returns each one's
string code. Thrown errors become `Failure` results, and `undefined` is
`None`.

Two behaviours of the code are worth stating on their own:

- `execute` never rejects an unknown key. Every key other than
  `documentClient` and `capacity` goes to `send` as a client option
  (src/entity/actions/transactGet/execute.ts:130-135), and `getCommandInput`
  only ever receives `{ capacity }`. `NoUnknownOptionFromExecute` states this.
- The scan test shows `_et` is used for formatting even with
  `entityAttrFilter: false`
  (src/table/actions/scan/scanCommand.unit.test.ts:109-127).
  `EntityAttrFilterIgnored` states this.

## Model

| member | source | states |
|---|---|---|
| SchemaFormat.Next | src/schema/actions/format/schema.unit.test.ts:20-63 | One `next()` call. A missing value throws at the first step exactly when it is required. After a yield, the second step throws exactly when the formatter raised on its second `next()`, which `return yield*` forwards. It calls the delegate exactly when the value is present, once, with the same schema, value and options. It yields exactly when a second step remains. |
| SchemaFormat.Drive | src/schema/actions/format/schema.unit.test.ts:20-63 | A run produces one or two events, and every event before the last is a yield. A missing required value throws `formatter.missingAttribute` at the first step with no delegate call. A missing optional value yields `undefined` and then returns `undefined`. A present value calls the delegate exactly once and forwards its events, including a throw after a yield. |
| SchemaFormat.FormatValue | src/schema/actions/format/schema.unit.test.ts:20-51 | The formatted value is the missing-attribute error when the attribute is required, `undefined` when it is optional, and otherwise the delegate's result. |
| SchemaFormat.PlainPrimitive | src/schema/actions/format/schema.unit.test.ts:38-63 | A primitive without a transformer fails exactly on a value of the wrong kind. It yields and returns the input itself when `transform` is on, and returns it at once when `transform` is off. |
| SchemaFormat.PlainFormatValue | src/schema/actions/format/schema.unit.test.ts:38-51 | Formatting a present primitive succeeds exactly when its kind matches, and then gives back the input. |
| SchemaFormat.PlainStringTwoSteps | src/schema/actions/format/schema.unit.test.ts:38-51 | For a string under the default options, the transformed and the formatted value both equal the input. The run is done after two steps and made one delegate call with the same arguments. |
| SchemaFormat.DefaultOptionsRuns | src/schema/actions/format/schema.unit.test.ts:20-51 | Under the default options (`transform` on), a missing required value throws `formatter.missingAttribute` at once, a missing optional value yields and returns `undefined`, and a present string is yielded and then returned after one delegate call. |
| SchemaFormat.PlainStringNoTransform | src/schema/actions/format/schema.unit.test.ts:53-63 | With `transform: false`, the first step already completes with the value, and the delegate is still called once. |
| EntityFormat.MakeEntity | src/table/actions/scan/scanCommand.unit.test.ts:26-56 | An entity keeps its declared attributes in order. When timestamps are on, `created`/`_ct` and `modified`/`_md` follow them. |
| EntityFormat.FormatAttr | src/schema/actions/format/schema.unit.test.ts:20-51 | One attribute succeeds exactly when it is present with its declared kind, or absent and optional. The value is the stored one. Otherwise the error is missing-attribute or invalid-attribute. |
| EntityFormat.FormatAttrs | src/table/actions/scan/scanCommand.unit.test.ts:89-92 | Formatting a record succeeds exactly when every included attribute is satisfied. |
| EntityFormat.FormatAttrsError | src/schema/actions/format/schema.unit.test.ts:20-25 | A failure carries the error of the first unsatisfied attribute in declaration order. |
| EntityFormat.FormatAttrsKeys | src/table/actions/scan/scanCommand.unit.test.ts:29-56 | The formatted item holds exactly the logical names of the included attributes present in the record. Stored names such as `pk`, `sk` and `_et` do not appear. |
| EntityFormat.FormatAttrsValues | src/table/actions/scan/scanCommand.unit.test.ts:29-56 | Each kept logical attribute (`pkA`, `skA`, ...) carries the value stored under its `savedAs` name (`pk`, `sk`, ...). |
| EntityFormat.TimestampsRenamed | src/table/actions/scan/scanCommand.unit.test.ts:37-56 | `_ct` and `_md` come back as `created` and `modified` with the same values. They are absent when the record lacks them. |
| ScanResolve.TryFrom | src/table/actions/scan/scanCommand.unit.test.ts:145-173 | The result is the first candidate from a given position whose formatter accepts the record; every earlier candidate rejects it. There is no result exactly when all candidates reject it. |
| ScanResolve.ResolveDiscriminated | src/table/actions/scan/scanCommand.unit.test.ts:109-127 | A record whose `_et` names a candidate is formatted by that candidate, whatever the others would do. |
| ScanResolve.ResolveByTrial | src/table/actions/scan/scanCommand.unit.test.ts:145-173 | Without a usable `_et`, the record goes to the first candidate in declaration order that accepts it, and is unmatched exactly when none does. |
| ScanResolve.Present | src/table/actions/scan/scanCommand.unit.test.ts:129-143 | With `showEntityAttr`, the item gains `entity` equal to the resolved entity's name and is otherwise unchanged. Without it, the item is returned as is. |
| ScanResolve.ResolveOne | src/table/actions/scan/scanCommand.unit.test.ts:145-173 | A matched record gives its presented item. An unmatched record fails with `scanCommand.noEntityMatched` under `THROW` and is dropped under `DISCARD`. |
| ScanResolve.FormatRecords | src/table/actions/scan/scanCommand.unit.test.ts:145-173 | The scan's items succeed exactly when every record is accepted under the policy. |
| ScanResolve.ThrowPolicy | src/table/actions/scan/scanCommand.unit.test.ts:145-160 | Under `THROW`, the call succeeds exactly when every record resolves, and then returns one item per record in order. Otherwise the first unresolved record decides the error: `scanCommand.noEntityMatched` when no candidate accepts it. |
| ScanResolve.DiscardPolicy | src/table/actions/scan/scanCommand.unit.test.ts:162-173 | Under `DISCARD`, the call always succeeds. It returns exactly the items of the records that resolve, in their original relative order. |
| ScanResolve.DefaultOptionsThrow | src/table/actions/scan/scanCommand.unit.test.ts:145-160 | With no options given, the policy is `THROW` and no `entity` field is added. The call succeeds exactly when every record resolves, and each item is the resolved entity's formatted item. A record that no candidate accepts fails the call. |
| ScanResolve.EntityAttrFilterIgnored | src/table/actions/scan/scanCommand.unit.test.ts:109-127 | The formatted items are the same whatever `entityAttrFilter` is. |
| QueryOptions.CheckQueryOptions | src/table/actions/query/options.ts:30-58 | The options pass exactly when they satisfy the declared type's constraints. The error names the first constraint broken, in this order: `consistent: true` on a global index, `ALL_PROJECTED_ATTRIBUTES` without a secondary index, a `select` other than `SPECIFIC_ATTRIBUTES` with `attributes`, `filter` with an entity list, `filters` keyed by a name that is not an entity, or an `attributes` entry that is not an attribute of any of the entities. |
| QueryOptions.GlobalIndexRejectsConsistent | src/table/actions/query/options.ts:39-45 | `consistent: true` is invalid on every global secondary index and fails with the consistent-option error. |
| QueryPages.MaxPages | src/table/actions/query/options.ts:23-28 | An explicit `maxPages` is the page budget, and `Infinity` makes it unbounded. Without one, the budget is unbounded when `keepGoing`, `limit` and a filter are all set, and one page otherwise. |
| QueryPages.PageLimit | src/table/actions/query/options.ts:25-27 | A numeric `keepGoing` is the per-request `Limit`. Otherwise `limit` is. |
| QueryPages.Query | src/table/actions/query/options.ts:23-28 | Pages are read in sequence, and each request starts at the previous page's last key. The items are the fetched pages' items in order. Paging stops at the first page where no further page is due. The page count never exceeds `maxPages`. With an unbounded budget, paging stops only at the last page, or at `limit` in keep-going mode. In keep-going mode without `maxPages`, paging stops only at the last page or once the items reach `limit`. |
| TransactGet.SplitArgs | src/entity/actions/transactGet/execute.ts:112-121 | The first argument is the options object exactly when it is not a `GetTransaction` instance, including a transaction-shaped value that is not one. A head that is an instance stays at the front of the transactions. Every later argument is taken as a transaction, in order. With no arguments, the options are empty. |
| TransactGet.TransactionsFromTail | src/entity/actions/transactGet/execute.ts:117-121 | For well-typed arguments, the transaction-shaped arguments are the tail's, preceded by the head when the head is one. Past the head, every argument is one. |
| TransactGet.GetCommandInput | src/entity/actions/transactGet/execute.ts:148-159 | Any key other than `capacity` is rejected with an unknown-option error naming the first such key. Otherwise `TransactItems` has one element per transaction and element i is `params()` of transaction i. `ReturnConsumedCapacity` is present exactly when `capacity` is, and then equals `parseCapacityOption(capacity)`. |
| TransactGet.Slot | src/entity/actions/transactGet/execute.ts:94-104 | Slot i is `{ Item: undefined }` for an absent item. Otherwise it is the item formatted by transaction i's entity with that transaction's own projection. Past the last transaction it is a runtime type error. |
| TransactGet.FormatResponses | src/entity/actions/transactGet/execute.ts:88-105 | The output keeps the length and order of the responses, and slot i is `Slot(i)`. A failure is the error of the first failing slot. |
| TransactGet.PlanRequest | src/entity/actions/transactGet/execute.ts:112-136 | No transaction left means `actions.incompleteAction`. The client is the caller's `documentClient`, or else the first transaction's table client, and a missing client is an error. The command input is `getCommandInput(transactions, { capacity })`. The remaining option keys are the client options. |
| TransactGet.Execute | src/entity/actions/transactGet/execute.ts:107-146 | Planning errors come first. With no `Responses`, the rest of the store's answer is returned unchanged and without `Responses`. Otherwise `Responses` is replaced by the formatted slots, or the call fails with the first formatting error. |
| TransactGet.IncompleteWithoutTransactions | src/entity/actions/transactGet/execute.ts:112-128 | No arguments, or a single argument that is not a `GetTransaction` instance, fail with `actions.incompleteAction`. |
| TransactGet.ShapedHeadIsOptions | src/entity/actions/transactGet/execute.ts:117-121 | A transaction-shaped head that is not a `GetTransaction` instance is read as the options object. Its keys other than `documentClient` and `capacity` go to the store as client options, and it is not sent as a transaction. Alone, it fails with `actions.incompleteAction`. |
| TransactGet.NoUnknownOptionFromExecute | src/entity/actions/transactGet/execute.ts:130-134 | `execute` never fails with an unknown-option error, because it hands only `{ capacity }` to `getCommandInput`. |
| TransactGet.OneSlotPerTransaction | src/entity/actions/transactGet/execute.ts:133-145 | When the store answers once per transaction, a successful result has exactly one slot per transaction. Each slot holds an item exactly when the store returned one. |

## Left out

- Network I/O, `async`/`await`, and the SDK's `TransactGetCommand`, `ScanCommand` and `DynamoDBDocumentClient` are not modelled. `send` is a parameter, and each call is one synchronous step.
- Query pagination sees the store only as the sequence of pages it answers, one per request. The query's formatting of items through the resolver is not connected to the paging loop.
- Schema kinds other than primitives (map, list, set, any/polymorphic) are not modelled, because their formatters are outside this model. Value transformers are also left out. The modelled primitives are strings, integers standing in for DynamoDB numbers, and booleans. Binary values are not modelled.
- Schema `required` levels are reduced to a boolean.
- The `created`/`modified` timestamp attributes are modelled as optional on read.
- A missing optional value with `transform: false` finishes in one step. The schema test does not cover this case.
- `params()` of a get transaction, key parsing, and the expression and condition builders are not modelled. Each transaction carries its request element.
- `parseCapacityOption` is modelled as the mapping from the capacity enum to its wire value. Rejecting a non-enum value is not modelled.
- `rejectExtraOptions` is modelled as rejecting the first extra key in insertion order.
- Projection paths are top-level attribute names. Nested paths are not modelled.
- The scan command's request building is not modelled. This covers the `entityAttrFilter` filter expression, scan paging, `tagEntities`, `tableName`, `reverse` and `exclusiveStartKey` forwarding.
- The `showEntityAttr` field name is fixed to `entity`. A custom entity attribute name is not modelled.
- An `_et` naming no candidate falls back to trial formatting. The scan command's source is not part of this model.
- A formatting error for a record whose `_et` names a candidate propagates under `THROW` and is dropped under `DISCARD`.
- Error messages and payloads are not modelled, for example the unmatched record carried by `scanCommand.noEntityMatched`.
- Errors.ToolboxError: only `formatter.missingAttribute`, `actions.incompleteAction` and `scanCommand.noEntityMatched` appear in src/entity/actions/transactGet/execute.ts, src/table/actions/scan/scanCommand.unit.test.ts and src/schema/actions/format/schema.unit.test.ts. `formatter.invalidAttribute`, `options.unknownOption`, `table.missingDocumentClient` and the four `options.invalid...Option` codes are this model's own labels, because the code that raises them is not part of this model. `RuntimeTypeError` stands for a JavaScript `TypeError`, which has no code; `TypeError` is only a label.
- QueryOptions.CheckQueryOptions: the library enforces these constraints only at compile time, through the `QueryOptions` type, and has no such check when it runs. The check's order and its error values are this model's own. `ValidQueryOptions` is the part that mirrors the type.
- The TypeScript type-level result machinery is not modelled. Only equal lengths and per-index entities are stated.
- Keep-going paging does not truncate the accumulated items to `limit`. The option's documentation only says when paging stops.
- QueryPages.MaxPages: `limit`, `maxPages` and a numeric `keepGoing` are modelled as integers. `maxPages` is a positive integer or `Infinity`, `limit` is a non-negative integer, and a numeric `keepGoing` is a positive integer, with `keepGoing: 0` read as absent because it is falsy. Negative, fractional and `NaN` values, and `maxPages: 0`, are not modelled, because the code that reads them is not part of this model.
