/** Conversion of a document between YAML and JSON text, and the formatting of a
    transformation result for display. The YAML library, `JSON.parse`,
    `JSON.stringify` and js-beautify are not interpreted: they are supplied as
    functions, and a call that would throw returns None. */
module FormatConverter {
  import opened Wrappers
  import opened Types

  /** The third-party parsers and printers. */
  datatype Codecs = Codecs(
    parseYaml: string -> Option<JsonValue>,
    stringifyYaml: JsonValue -> Option<string>,
    parseJson: string -> Option<JsonValue>,
    /** `JSON.stringify(value, null, indent)`; indent 0 is the compact form. */
    stringifyJson: (JsonValue, nat) -> Option<string>,
    /** js-beautify's `json(text)`. */
    beautifyJson: string -> Option<string>)

  /** The text `data` converts to when both the parse and the print succeed. */
  ghost predicate Converted(c: Codecs, data: string, from: Format, to: Format, r: string) {
    || (from == Yaml && to == Json && c.parseYaml(data).Some?
        && c.stringifyJson(c.parseYaml(data).value, 2) == Some(r))
    || (from == Json && to == Yaml && c.parseJson(data).Some?
        && c.stringifyYaml(c.parseJson(data).value) == Some(r))
  }

  /** `convertFormat`: the converted text, or `data` itself when the formats agree
      or when parsing or printing fails. It never fails. */
  function ConvertFormat(c: Codecs, data: string, from: Format, to: Format): (r: string)
    ensures from == to ==> r == data
    ensures r == data || Converted(c, data, from, to, r)
    ensures (from == Yaml && to == Json && c.parseYaml(data).Some?
             && c.stringifyJson(c.parseYaml(data).value, 2).Some?)
            ==> Converted(c, data, from, to, r)
    ensures (from == Json && to == Yaml && c.parseJson(data).Some?
             && c.stringifyYaml(c.parseJson(data).value).Some?)
            ==> Converted(c, data, from, to, r)
    ensures from == Yaml && to == Json && c.parseYaml(data).None? ==> r == data
    ensures from == Json && to == Yaml && c.parseJson(data).None? ==> r == data
  {
    if from == to then data
    else if from == Yaml && to == Json then
      match c.parseYaml(data)
      case None => data
      case Some(v) => c.stringifyJson(v, 2).GetOr(data)
    else
      match c.parseJson(data)
      case None => data
      case Some(v) => c.stringifyYaml(v).GetOr(data)
  }

  /** The formatting shared by `transformData` and the editor's transform handler:
      beautify the raw text for JSON, parse it as JSON and print it as YAML for YAML.
      None when a call throws. */
  function FormatOutput(c: Codecs, data: string, format: Format): (r: Option<string>)
    ensures format == Json ==> r == c.beautifyJson(data)
    ensures format == Yaml ==>
      (r.Some? <==> c.parseJson(data).Some? && c.stringifyYaml(c.parseJson(data).value).Some?)
    ensures format == Yaml && r.Some? ==> r == c.stringifyYaml(c.parseJson(data).value)
  {
    match format
    case Json => c.beautifyJson(data)
    case Yaml =>
      match c.parseJson(data)
      case None => None
      case Some(v) => c.stringifyYaml(v)
  }

  /** `transformData`: the formatted text, or the empty string on any failure. */
  function TransformData(c: Codecs, data: string, format: Format): (r: string)
    ensures FormatOutput(c, data, format).Some? ==> r == FormatOutput(c, data, format).value
    ensures FormatOutput(c, data, format).None? ==> r == ""
  {
    FormatOutput(c, data, format).GetOr("")
  }

  /** The two failure policies differ: on a JSON text that does not parse,
      conversion hands back the input while transformation yields "". */
  lemma FailurePolicies(c: Codecs, data: string)
    requires c.parseJson(data).None?
    ensures ConvertFormat(c, data, Json, Yaml) == data
    ensures TransformData(c, data, Yaml) == ""
  {
  }
}
