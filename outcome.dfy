/** The per-record result dicts the handler appends to `results`. */
module Outcomes {

  import opened Options
  import opened Json

  /**
   * A result's `body`: text (an assembled or cached response), or the
   * `json.dumps({'error': ...})` of an error, with an `error_id` for the
   * failures that carry one.
   */
  datatype Body = Text(text: string) | Error(message: string, errorId: Option<string>)

  /**
   * `{'statusCode': ..., 'body': ..., 'cached': ..., 'app_name': ...}`;
   * `appName` is None for the results that carry no `app_name`.
   */
  datatype Outcome = Outcome(statusCode: int, body: Body, cached: bool, appName: Option<Json>)

  /** A 400 result with an error message and no error id. */
  function BadRequest(message: string, appName: Option<Json>): Outcome {
    Outcome(400, Error(message, None), false, appName)
  }
}
