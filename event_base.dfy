/** The raw event-script record and the command codes the core dispatches on.
    The file that defines them upstream is not part of this model: the shape is
    the one the core reads and writes, and the codes are RPG Maker MV/MZ's. */
module EventBase {
  import opened Common

  /** One command of an event page: `{code, indent, parameters}`. */
  datatype Record = Record(code: int, indent: int, parameters: seq<Json>)

  const SHOW_TEXT: int := 101
  const ADD_TEXT: int := 401
  const SHOW_CHOICES: int := 102
  const EVENT_COMMENT: int := 108
  const EVENT_COMMENT_2: int := 408
}
