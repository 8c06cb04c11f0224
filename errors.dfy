/** The failures of the construction pipeline. The source reports all of them as one
    `GenerationError` carrying a formatted message; here each message is a constructor
    carrying the numbers the message shows. */
module Errors {
  import opened Types

  /** The id detail of an id-sequence error: the id the loop expected, the id it found
      and the id of the core inspected before. */
  datatype IdDetail = IdDetail(expected: int, got: int, previous: int)

  datatype ManycoreError =
    /** The core count is not rows * columns. */
    | CoreCountMismatch(expected: int, found: int, rows: int, columns: int)
    /** The sorted core ids are not 0, 1, 2, ...; no detail when the very first core is wrong. */
    | CoreIdSequence(detail: Option<IdDetail>)
    /** A core could not be fetched by index ("Something went wrong inspecting Core data."). */
    | CoreInspection
}
