/** The structured error the library throws (`DynamoDBToolboxError`): callers
    branch on its machine-readable code. */
module Errors {

  datatype ToolboxError =
    /** a required attribute has no value; carries the logical path */
    | MissingAttribute(path: seq<string>)
    /** a present value does not have the kind its schema declares */
    | InvalidAttribute(path: seq<string>)
    /** a multi-entity read met a record that no candidate entity formats */
    | NoEntityMatched
    /** a transaction batch was assembled with no transaction in it */
    | IncompleteAction
    /** an option key the operation does not know */
    | UnknownOption(option: string)
    /** the table has no document client and the caller gave none */
    | MissingDocumentClient
    /** strongly consistent read requested where the index forbids it */
    | InvalidConsistentOption
    /** a select mode the queried index or projection does not allow */
    | InvalidSelectOption
    /** a filter shape the entity list does not allow */
    | InvalidFilterOption
    /** a projection entry that is not an attribute of any queried entity */
    | InvalidAttributesOption
    /** the store answered with more responses than there are transactions,
        so the source reads a property of `undefined` */
    | RuntimeTypeError
  {
    /** The error's `code` string. */
    function Code(): string {
      match this
      case MissingAttribute(_) => "formatter.missingAttribute"
      case InvalidAttribute(_) => "formatter.invalidAttribute"
      case NoEntityMatched => "scanCommand.noEntityMatched"
      case IncompleteAction => "actions.incompleteAction"
      case UnknownOption(_) => "options.unknownOption"
      case MissingDocumentClient => "table.missingDocumentClient"
      case InvalidConsistentOption => "options.invalidConsistentOption"
      case InvalidSelectOption => "options.invalidSelectOption"
      case InvalidFilterOption => "options.invalidFilterOption"
      case InvalidAttributesOption => "options.invalidAttributesOption"
      case RuntimeTypeError => "TypeError"
    }
  }
}
