/** The template service the data source consumes. Substitution of `$name`
    variables, and the 'regex' and 'csv' formats, belong to the template
    service, not to the data source: `templateSrv.replace` is therefore a
    parameter of every operation that calls it, and nothing is assumed about
    what it returns. */
module Template {

  /** The `format` argument of `templateSrv.replace`: left out, 'regex' or 'csv'. */
  datatype Format = Plain | Regex | Csv

  /** The scoped variables of a request, by name. */
  type ScopedVars = map<string, string>

  /** `templateSrv.replace(target, scopedVars, format)`. A call without
      scoped variables passes the empty map. */
  type Replacer = (string, ScopedVars, Format) -> string
}
