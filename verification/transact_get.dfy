/** Executing a transactional get: the variadic arguments are split into an
    optional leading options object and the get transactions, an empty batch
    is rejected, the request lists every transaction's `params()` in order,
    and each response slot is formatted by the transaction at its index. */
module TransactGet {
  import opened Wrappers
  import opened Errors
  import opened Items
  import opened Capacity
  import opened EntityFormat

  /** Option keys and values in the order they were written (object key
      order), as `Object.keys` sees them. */
  type OptionEntries = seq<(string, Value)>

  /** The `Get` element a transaction contributes to `TransactItems`. */
  datatype GetParams = GetParams(tableName: string, key: Record, projection: Option<set<string>>)

  /** A get transaction: its entity, the `attributes` of its own options,
      and the request element its `params()` builds, which this model takes
      as given. */
  datatype GetTransaction = GetTransaction(entity: Entity, attributes: Option<set<string>>, params: GetParams)

  /** Call-level options: an explicit document client, `capacity`, and the
      remaining keys, which are document client options. */
  datatype ExecuteOptions = ExecuteOptions(
    documentClient: Option<ClientId>,
    capacity: Option<CapacityOption>,
    clientOptions: OptionEntries)

  const NoOptions := ExecuteOptions(None, None, [])

  /** One argument of `execute`. The declared element type only asks for the
      shape of a transaction (`entity`, its options and `params`), while the
      head is told apart by `instanceof GetTransaction`, so a transaction-shaped
      value that is not an instance is its own case. `asOptions` is how that
      object reads when destructured as an options object. */
  datatype Arg =
    | TxArg(tx: GetTransaction)
    | ShapedArg(tx: GetTransaction, asOptions: ExecuteOptions)
    | OptionsArg(options: ExecuteOptions)

  /** What the declared argument type admits: only the first argument may be
      an options object. */
  predicate WellTypedArgs(args: seq<Arg>) {
    forall i :: 1 <= i < |args| ==> !args[i].OptionsArg?
  }

  /** The transaction-shaped arguments, in order. */
  function TransactionsIn(args: seq<Arg>): seq<GetTransaction> {
    if args == [] then []
    else
      var n := |args| - 1;
      TransactionsIn(args[..n]) + (if args[n].OptionsArg? then [] else [args[n].tx])
  }

  /** Splits off the options: the first argument is the options object
      exactly when it is not a `GetTransaction` instance, even when it has a
      transaction's shape; otherwise it stays at the front of the
      transactions. Every later argument is taken as a transaction. With no
      argument at all the options are empty. */
  function SplitArgs(args: seq<Arg>): (r: (ExecuteOptions, seq<GetTransaction>))
    requires WellTypedArgs(args)
    ensures args != [] && args[0].TxArg? ==> r == (NoOptions, TransactionsIn(args))
    ensures args != [] && !args[0].TxArg? ==> r.1 == TransactionsIn(args[1..])
    ensures args != [] && args[0].OptionsArg? ==> r.0 == args[0].options
    ensures args != [] && args[0].ShapedArg? ==> r.0 == args[0].asOptions
    ensures args == [] ==> r == (NoOptions, [])
    ensures args != [] && args[0].TxArg? ==> |r.1| == |args| && r.1[0] == args[0].tx
    ensures args != [] && !args[0].TxArg? ==> |r.1| == |args| - 1
  {
    if args == [] then (NoOptions, [])
    else
      var tail := seq(|args| - 1, i requires 0 <= i < |args| - 1 => args[i + 1].tx);
      TransactionsFromTail(args);
      match args[0]
      case TxArg(t) => (NoOptions, [t] + tail)
      case ShapedArg(_, o) => (o, tail)
      case OptionsArg(o) => (o, tail)
  }

  /** The transaction-shaped arguments of well-typed arguments are the
      tail's, preceded by the head when it is one; past the head, every
      argument is one. */
  lemma {:induction false} TransactionsFromTail(args: seq<Arg>)
    requires args != [] && WellTypedArgs(args)
    ensures TransactionsIn(args) ==
      (if args[0].OptionsArg? then [] else [args[0].tx]) + seq(|args| - 1, i requires 0 <= i < |args| - 1 => args[i + 1].tx)
    ensures TransactionsIn(args[1..]) == seq(|args| - 1, i requires 0 <= i < |args| - 1 => args[i + 1].tx)
  {
    var n := |args| - 1;
    if n > 0 {
      var rest := args[1..];
      assert forall i :: 0 <= i < |rest| ==> rest[i] == args[i + 1];
      TransactionsFromTail(rest);
      assert seq(n, i requires 0 <= i < n => args[i + 1].tx)
        == [rest[0].tx] + seq(|rest| - 1, i requires 0 <= i < |rest| - 1 => rest[i + 1].tx);
      var prefix := args[..n];
      assert forall i :: 1 <= i < |prefix| ==> prefix[i] == args[i];
      TransactionsFromTail(prefix);
      assert prefix[0] == args[0];
      var t := seq(n - 1, i requires 0 <= i < n - 1 => prefix[i + 1].tx);
      assert seq(n, i requires 0 <= i < n => args[i + 1].tx) == t + [args[n].tx];
    }
  }

  /** The second argument of `getCommandInput`: `capacity` and any other
      keys, which are rejected. */
  datatype CommandOptions = CommandOptions(capacity: Option<CapacityOption>, extra: OptionEntries)

  datatype TransactGetInput = TransactGetInput(transactItems: seq<GetParams>, returnConsumedCapacity: Option<string>)

  /** `getCommandInput`. */
  function GetCommandInput(txs: seq<GetTransaction>, co: CommandOptions): (r: Result<TransactGetInput, ToolboxError>)
    ensures r.Failure? <==> |co.extra| > 0
    ensures r.Failure? ==> r.error == UnknownOption(co.extra[0].0)
    ensures r.Success? ==>
      && |r.value.transactItems| == |txs|
      && forall i :: 0 <= i < |txs| ==> r.value.transactItems[i] == txs[i].params
    ensures r.Success? ==> (r.value.returnConsumedCapacity.Some? <==> co.capacity.Some?)
    ensures r.Success? && co.capacity.Some? ==>
      r.value.returnConsumedCapacity == Some(ParseCapacityOption(co.capacity.value))
  {
    if |co.extra| > 0 then Failure(UnknownOption(co.extra[0].0))
    else
      var items := seq(|txs|, i requires 0 <= i < |txs| => txs[i].params);
      Success(TransactGetInput(items, if co.capacity.Some? then Some(ParseCapacityOption(co.capacity.value)) else None))
  }

  /** One element of the store's `Responses`. */
  datatype RawResponse = RawResponse(item: Option<Record>)

  /** The store's answer: `Responses`, which may be missing, and the rest. */
  datatype TransactGetOutput = TransactGetOutput(responses: Option<seq<RawResponse>>, rest: map<string, Value>)

  /** A formatted response slot: `{ Item }`, the item possibly `undefined`. */
  datatype FormattedResponse = FormattedResponse(item: Option<Record>)

  /** `docClient.send`: the store, given as a parameter. */
  type Send = (ClientId, TransactGetInput, OptionEntries) -> TransactGetOutput

  /** The slot at index `i`: the transaction at the same index formats the
      item, with its own projection; an absent item stays absent. Past the
      last transaction the source reads `.entity` of `undefined`. */
  function Slot(responses: seq<RawResponse>, txs: seq<GetTransaction>, i: nat): (r: Result<FormattedResponse, ToolboxError>)
    requires i < |responses|
    ensures i >= |txs| ==> r == Failure(RuntimeTypeError)
    ensures i < |txs| && responses[i].item.None? ==> r == Success(FormattedResponse(None))
    ensures i < |txs| && responses[i].item.Some? ==>
      match FormatItem(txs[i].entity, responses[i].item.value, txs[i].attributes)
      case Success(x) => r == Success(FormattedResponse(Some(x)))
      case Failure(e) => r == Failure(e)
  {
    if i >= |txs| then Failure(RuntimeTypeError)
    else
      var tx := txs[i];
      match responses[i].item
      case None => Success(FormattedResponse(None))
      case Some(item) =>
        match FormatItem(tx.entity, item, tx.attributes)
        case Success(x) => Success(FormattedResponse(Some(x)))
        case Failure(e) => Failure(e)
  }

  /** `formatResponses`: the slots in order; the first one that fails
      decides the error. */
  function FormatResponses(responses: seq<RawResponse>, txs: seq<GetTransaction>): (r: Result<seq<FormattedResponse>, ToolboxError>)
    ensures r.Success? <==> forall i :: 0 <= i < |responses| ==> Slot(responses, txs, i).Success?
    ensures r.Success? ==>
      && |r.value| == |responses|
      && forall i :: 0 <= i < |responses| ==> r.value[i] == Slot(responses, txs, i).value
    ensures r.Failure? ==>
      exists i :: 0 <= i < |responses| && Slot(responses, txs, i) == Failure(r.error)
        && forall j :: 0 <= j < i ==> Slot(responses, txs, j).Success?
  {
    if responses == [] then Success([])
    else
      var n := |responses| - 1;
      var prefix := responses[..n];
      assert forall i :: 0 <= i < n ==> Slot(prefix, txs, i) == Slot(responses, txs, i);
      match FormatResponses(prefix, txs)
      case Failure(e) => Failure(e)
      case Success(slots) =>
        match Slot(responses, txs, n)
        case Failure(e) => Failure(e)
        case Success(s) => Success(slots + [s])
  }

  /** What `execute` sends: the client, the command input and the document
      client options. */
  datatype Plan = Plan(client: ClientId, input: TransactGetInput, clientOptions: OptionEntries, txs: seq<GetTransaction>)

  /** Everything `execute` does before calling the store. */
  function PlanRequest(args: seq<Arg>): (r: Result<Plan, ToolboxError>)
    requires WellTypedArgs(args)
    ensures var (options, txs) := SplitArgs(args);
      && (r == Failure(IncompleteAction) <==> txs == [])
      && (r == Failure(MissingDocumentClient) <==>
            txs != [] && options.documentClient.None? && txs[0].entity.table.documentClient.None?)
      && (r.Failure? ==> r.error == IncompleteAction || r.error == MissingDocumentClient)
      && (r.Success? ==>
            && r.value.txs == txs
            && r.value.client == (if options.documentClient.Some? then options.documentClient.value
                                  else txs[0].entity.table.documentClient.value)
            && r.value.clientOptions == options.clientOptions
            && Success(r.value.input) == GetCommandInput(txs, CommandOptions(options.capacity, [])))
  {
    var (options, txs) := SplitArgs(args);
    if txs == [] then Failure(IncompleteAction)
    else
      var client :-
        if options.documentClient.Some? then Success(options.documentClient.value)
        else if txs[0].entity.table.documentClient.Some? then Success(txs[0].entity.table.documentClient.value)
        else Failure(MissingDocumentClient);
      var input := GetCommandInput(txs, CommandOptions(options.capacity, [])).value;
      Success(Plan(client, input, options.clientOptions, txs))
  }

  /** The result of `execute`: the store's answer with `Responses` formatted. */
  datatype ExecuteOutput = ExecuteOutput(responses: Option<seq<FormattedResponse>>, rest: map<string, Value>)

  /** `execute`. */
  function Execute(args: seq<Arg>, send: Send): (r: Result<ExecuteOutput, ToolboxError>)
    requires WellTypedArgs(args)
    ensures PlanRequest(args).Failure? ==> r == Failure(PlanRequest(args).error)
    ensures PlanRequest(args).Success? ==>
      var p := PlanRequest(args).value;
      var out := send(p.client, p.input, p.clientOptions);
      && (out.responses.None? ==> r == Success(ExecuteOutput(None, out.rest)))
      && (out.responses.Some? ==>
            match FormatResponses(out.responses.value, p.txs)
            case Success(slots) => r == Success(ExecuteOutput(Some(slots), out.rest))
            case Failure(e) => r == Failure(e))
  {
    var p :- PlanRequest(args);
    var out := send(p.client, p.input, p.clientOptions);
    match out.responses
    case None => Success(ExecuteOutput(None, out.rest))
    case Some(responses) =>
      var slots :- FormatResponses(responses, p.txs);
      Success(ExecuteOutput(Some(slots), out.rest))
  }

  /** No transaction left after splitting off the options, including no
      argument at all: `actions.incompleteAction`, before the store is
      called. */
  lemma IncompleteWithoutTransactions(args: seq<Arg>, send: Send)
    requires |args| <= 1
    requires forall i :: 0 <= i < |args| ==> !args[i].TxArg?
    ensures Execute(args, send) == Failure(IncompleteAction)
  {
  }

  /** A transaction-shaped head that is not a `GetTransaction` instance is
      read as the options object: its keys other than `documentClient` and
      `capacity` go to the store as client options, and the transaction
      itself is not sent. */
  lemma ShapedHeadIsOptions(tx: GetTransaction, asOptions: ExecuteOptions, rest: seq<Arg>, send: Send)
    requires WellTypedArgs([ShapedArg(tx, asOptions)] + rest)
    ensures var args := [ShapedArg(tx, asOptions)] + rest;
      && SplitArgs(args) == (asOptions, TransactionsIn(rest))
      && (rest == [] ==> Execute(args, send) == Failure(IncompleteAction))
      && (PlanRequest(args).Success? ==>
            && PlanRequest(args).value.clientOptions == asOptions.clientOptions
            && |PlanRequest(args).value.input.transactItems| == |rest|)
  {
    var args := [ShapedArg(tx, asOptions)] + rest;
    assert args[1..] == rest;
  }

  /** `execute` passes only `capacity` to `getCommandInput`, so unknown keys
      in the options object never make it fail with an unknown option. */
  lemma NoUnknownOptionFromExecute(args: seq<Arg>, send: Send)
    requires WellTypedArgs(args)
    ensures Execute(args, send).Failure? ==> !Execute(args, send).error.UnknownOption?
  {
    var r := Execute(args, send);
    if r.Failure? && PlanRequest(args).Success? {
      var p := PlanRequest(args).value;
      var responses := send(p.client, p.input, p.clientOptions).responses.value;
      var i :| 0 <= i < |responses| && Slot(responses, p.txs, i) == Failure(r.error);
      if i < |p.txs| {
        FormatAttrsError(p.txs[i].entity.attrs, responses[i].item.value, p.txs[i].attributes);
      }
    }
  }

  /** When the store answers one response per transaction, the result has one
      slot per transaction, in order, each present exactly when the stored
      item is. */
  lemma OneSlotPerTransaction(args: seq<Arg>, send: Send)
    requires WellTypedArgs(args)
    requires PlanRequest(args).Success?
    requires var p := PlanRequest(args).value;
      var out := send(p.client, p.input, p.clientOptions);
      out.responses.Some? && |out.responses.value| == |p.input.transactItems|
    ensures var r := Execute(args, send);
      var p := PlanRequest(args).value;
      var raw := send(p.client, p.input, p.clientOptions).responses.value;
      r.Success? ==>
        && r.value.responses.Some?
        && |r.value.responses.value| == |SplitArgs(args).1|
        && forall i :: 0 <= i < |raw| ==> (r.value.responses.value[i].item.Some? <==> raw[i].item.Some?)
  {
  }
}
