/** The parts of Go's `net/url` the gateway relies on. URL syntax and
    reference resolution (section 5.2 of RFC 3986) are not modelled: they are
    supplied as a record of functions, so every property below holds for any
    parser and resolver. */
module Url {
  import opened Wrappers

  /** A parsed URL, as far as this model needs to see it. */
  datatype URL = URL(scheme: string, host: string, path: string, rawQuery: string)

  /** `url.Parse`, `(*URL).Parse` and `(*URL).String`. */
  datatype Library = Library(
    parse: string -> Result<URL>,
    resolve: (URL, string) -> Result<URL>,
    format: URL -> string)
}
