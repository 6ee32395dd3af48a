/** The records exchanged with the mapping service and the display format. */
module Types {
  import opened Wrappers

  /** The display encoding selected by the user. */
  datatype Format = Json | Yaml

  /** A parsed JSON/YAML document. The parsers and printers that produce and
      consume it are not interpreted by the model, so its shape is never inspected. */
  datatype JsonValue =
    | JNull
    | JBool(b: bool)
    | JNumber(n: int)
    | JString(s: string)
    | JArray(items: seq<JsonValue>)
    | JObject(fields: seq<(string, JsonValue)>)

  /** A sample payload attached to a mapping; `isYaml` and `dataTitle` are optional. */
  datatype SampleDataItem = SampleDataItem(
    id: string,
    name: string,
    data: string,
    isYaml: Option<bool>,
    dataTitle: Option<string>)

  datatype MappingContent = MappingContent(
    tags: seq<string>,
    yaml: string,
    testData: seq<SampleDataItem>)

  /** A persisted mapping; the server assigns `id`. */
  datatype Mapping = Mapping(
    id: nat,
    title: string,
    content: MappingContent,
    createdAt: string,
    updatedAt: string,
    href: string)

  datatype CreateContent = CreateContent(
    tags: seq<string>,
    yaml: string,
    testData: Option<seq<SampleDataItem>>)

  /** Body of the request that creates a mapping. */
  datatype CreateMappingRequest = CreateMappingRequest(title: string, content: CreateContent)

  /** `tags` is None when the service sent something other than an array (or nothing). */
  datatype HistoryContent = HistoryContent(tags: Option<seq<string>>, yaml: string)

  /** A read-only snapshot of a mapping, identified by its transaction id. */
  datatype HistoryVersion = HistoryVersion(
    title: string,
    content: HistoryContent,
    createdAt: string,
    updatedAt: string,
    txnid: string,
    href: string)

  /** `selected?.txnid === version.txnid`: the rule both history views use to highlight a version. */
  predicate IsSelected(selected: Option<HistoryVersion>, version: HistoryVersion) {
    selected.Some? && selected.value.txnid == version.txnid
  }
}
