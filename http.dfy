/** What a FastAPI handler hands back (a JSON reply, or a failure that the
    framework turns into an HTTP error response) and what it reads from disk. */
module Http {

  /** `HTTPException(status_code, detail)` raised by a handler; an exception
      it does not catch (FastAPI answers those with status 500); or an
      exception caught by an outer `except Exception` and raised again as
      `HTTPException(status)` whose detail quotes it. */
  datatype Failure =
    | HttpError(status: int, detail: string)
    | Unhandled(exception: string)
    | Rewrapped(status: int, cause: Failure)

  /** The `{"RESULT_CODE": code, "RESULT_MSG": msg}` envelope. */
  datatype Reply = Reply(code: int, msg: string)

  /** What a handler finds on disk: no file, a file it cannot parse (not JSON,
      or not an integer), or a parsed value. */
  datatype FileState<T> = Missing | Corrupt | Present(contents: T)

  /** The contents of a list-valued file, or the empty list when it is
      missing or cannot be parsed, as save_draft_json reads draft.json and
      api_add_key reads llm_key.json. */
  function OrEmpty<T>(file: FileState<seq<T>>): seq<T> {
    match file
    case Present(contents) => contents
    case _ => []
  }
}
