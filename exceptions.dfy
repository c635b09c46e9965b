/**
 * What a `throw` can carry into the error handler or out of a schema parse:
 * an ApiError (or one of its subclasses), a schema-library validation error
 * with its issues, or any other Error, known only by its `name`, `message`
 * and, for database errors, its `code`. Every thrown error may carry a stack.
 */
module Exceptions {
  import opened Wrappers
  import opened Json
  import opened ApiErrors
  import opened Zod

  datatype Thrown =
    | ThrownApiError(apiError: ApiError, stack: Option<string>)
    | ThrownZodError(issues: seq<ZodIssue>, stack: Option<string>)
    | ThrownOther(name: string, message: string, code: Option<Value>, stack: Option<string>)
}
