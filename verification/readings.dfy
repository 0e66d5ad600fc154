/**
 * Where the code as written and its evidently intended behaviour part ways,
 * a specification takes a `Reading` and the methods follow `AsWritten`.
 */
module Readings {

  datatype Reading = AsWritten | Intended
}
