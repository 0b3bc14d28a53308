/** Stored values and records. A raw record maps physical attribute names to
    values; a formatted item maps logical attribute names to values. */
module Items {

  /** The scalar values this model formats. Numbers are integers. */
  datatype Value = VStr(s: string) | VNum(n: int) | VBool(b: bool)

  /** An untyped key-to-value mapping as stored or as formatted. */
  type Record = map<string, Value>
}
