/**
 * The remote backend as the screens see it. A `fetch` followed by
 * `response.json()` either yields a decoded body (a 2xx response whose JSON
 * parsed) or fails; a non-2xx status, a network error and a body that does
 * not parse are all the same `Failed` to both screens.
 */
module Http {

  datatype Outcome<+T> = Ok(body: T) | Failed

  /** A key of a decoded JSON object: absent (or null) versus present. */
  datatype Option<+T> = None | Some(value: T)
}
