/**
 * The values a complaint document holds, as far as the data-access layer
 * tells them apart, and the caller-owned dictionary it updates in place.
 */
module Values {

  /**
   * A dynamically typed field value. Python's `bool` is a subclass of `int`,
   * so `Bool` is kept apart from `Int` only to be able to say that it passes
   * an integer check. `Time` is a `datetime` in whole milliseconds, the
   * precision a BSON date stores; every other Python value (floats, None,
   * lists, nested dictionaries, ...) is `Other`,
   * whose `tag` stands for its identity, so that two different such values
   * stay different when the store compares documents.
   */
  datatype Value = Str(s: string) | Int(i: int) | Bool(b: bool) | Time(t: int) | Other(tag: int)

  /** A complaint document: field name to value. */
  type Record = map<string, Value>

  /** A dictionary owned by the caller, which create and update write into. */
  class Dict {
    var entries: Record

    constructor (entries: Record)
      ensures this.entries == entries
    {
      this.entries := entries;
    }
  }
}
