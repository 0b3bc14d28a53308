/** The `capacity` option and the `ReturnConsumedCapacity` value it becomes. */
module Capacity {

  datatype CapacityOption = NoCapacity | Total | Indexes

  /** `parseCapacityOption`: the store's wire value for the option. */
  function ParseCapacityOption(c: CapacityOption): (wire: string)
    ensures wire in {"NONE", "TOTAL", "INDEXES"}
  {
    match c
    case NoCapacity => "NONE"
    case Total => "TOTAL"
    case Indexes => "INDEXES"
  }
}
