/** The list page: fetched records are normalised, searched by title or tag and
    shown with a truncated YAML preview. */
module MappingsList {
  import opened Wrappers
  import opened Types
  import Text
  import Seqs
  import Constants

  /** A record's content as received: `tags` is None when it is not an array,
      `yaml` is None when it is not a string. */
  datatype RawContent = RawContent(tags: Option<seq<string>>, yaml: Option<string>, testData: seq<SampleDataItem>)

  /** A record as received; `content` is None when it is absent, which makes the
      normalising callback throw. */
  datatype RawMapping = RawMapping(
    id: nat,
    title: string,
    content: Option<RawContent>,
    createdAt: string,
    updatedAt: string,
    href: string)

  /** One record after normalisation: non-array tags become [], non-string yaml
      becomes "", every other field is kept. */
  function Normalize(raw: RawMapping): (r: Option<Mapping>)
    ensures r.Some? <==> raw.content.Some?
    ensures r.Some? ==>
      && r.value.id == raw.id && r.value.title == raw.title
      && r.value.createdAt == raw.createdAt && r.value.updatedAt == raw.updatedAt
      && r.value.href == raw.href && r.value.content.testData == raw.content.value.testData
    ensures r.Some? && raw.content.value.tags.Some? ==> r.value.content.tags == raw.content.value.tags.value
    ensures r.Some? && raw.content.value.tags.None? ==> r.value.content.tags == []
    ensures r.Some? && raw.content.value.yaml.Some? ==> r.value.content.yaml == raw.content.value.yaml.value
    ensures r.Some? && raw.content.value.yaml.None? ==> r.value.content.yaml == ""
  {
    match raw.content
    case None => None
    case Some(c) =>
      Some(Mapping(raw.id, raw.title, MappingContent(c.tags.GetOr([]), c.yaml.GetOr(""), c.testData),
                   raw.createdAt, raw.updatedAt, raw.href))
  }

  /** The whole response normalised element by element, or None when any element
      throws (the fetch then fails as a whole). */
  function NormalizeAll(raws: seq<RawMapping>): (r: Option<seq<Mapping>>)
    ensures r.Some? <==> forall i :: 0 <= i < |raws| ==> raws[i].content.Some?
    ensures r.Some? ==> |r.value| == |raws|
    ensures r.Some? ==>
      forall i :: 0 <= i < |raws| ==> Normalize(raws[i]) == Some(r.value[i])
  {
    if raws == [] then Some([])
    else
      match (Normalize(raws[0]), NormalizeAll(raws[1..]))
      case (Some(m), Some(ms)) => Some([m] + ms)
      case _ => None
  }

  /** The search rule: the lower-cased term occurs in the lower-cased title or in
      some lower-cased tag. */
  predicate Matches(term: string, m: Mapping)
    ensures term == "" ==> Matches(term, m)
  {
    || Text.Contains(Text.Lower(m.title), Text.Lower(term))
    || exists tag :: tag in m.content.tags && Text.Contains(Text.Lower(tag), Text.Lower(term))
  }

  /** The search ignores the case of the term: a term and its lower-cased form
      select the same mappings. */
  lemma SearchIgnoresTermCase(term: string, m: Mapping)
    ensures Matches(Text.Lower(term), m) == Matches(term, m)
  {
    Text.LowerIdempotent(term);
  }

  /** `filteredMappings`: exactly the matching mappings, in their original order. */
  function FilteredMappings(mappings: seq<Mapping>, term: string): (r: seq<Mapping>)
    ensures forall i :: 0 <= i < |r| ==> r[i] in mappings && Matches(term, r[i])
    ensures forall i :: 0 <= i < |mappings| && Matches(term, mappings[i]) ==> mappings[i] in r
    ensures Seqs.IsSublist(r, mappings)
    ensures forall x :: multiset(r)[x] == if Matches(term, x) then multiset(mappings)[x] else 0
  {
    Seqs.FilterIsSublist((m: Mapping) => Matches(term, m), mappings);
    forall x {
      Seqs.FilterCount((m: Mapping) => Matches(term, m), mappings, x);
    }
    Seqs.Filter((m: Mapping) => Matches(term, m), mappings)
  }

  /** An empty search term keeps every mapping. */
  lemma EmptySearchKeepsAll(mappings: seq<Mapping>)
    ensures FilteredMappings(mappings, "") == mappings
  {
    Seqs.FilterAll((m: Mapping) => Matches("", m), mappings);
  }

  const PreviewLimit: nat := 150
  const NoYamlMessage: string := "No YAML content available"

  /** `renderYamlPreview`: a fixed message for empty yaml; otherwise the first 150
      characters, followed by "..." exactly when something was cut off. */
  function YamlPreview(yaml: string): (r: string)
    ensures yaml == "" ==> r == NoYamlMessage
    ensures yaml != "" && |yaml| <= PreviewLimit ==> r == yaml
    ensures |yaml| > PreviewLimit ==>
      |r| == PreviewLimit + 3 && r[..PreviewLimit] == yaml[..PreviewLimit] && r[PreviewLimit..] == "..."
    ensures |r| <= PreviewLimit + 3
  {
    if yaml == "" then NoYamlMessage
    else if |yaml| > PreviewLimit then yaml[..PreviewLimit] + "..."
    else yaml
  }

  /** What follows a successful creation. */
  datatype FollowUp = NavigateTo(path: string) | Refresh

  /** `handleCreationSuccess`'s choice: a truthy id (not 0) opens the new mapping,
      anything else refreshes the list. */
  function AfterCreation(newMappingId: Option<nat>): (r: FollowUp)
    ensures r.NavigateTo? <==> newMappingId.Some? && newMappingId.value != 0
    ensures r.NavigateTo? ==>
      r.path == Constants.MappingDetailRoute(Text.NatToString(newMappingId.value))
  {
    if newMappingId.Some? && newMappingId.value != 0
    then NavigateTo(Constants.MappingDetailRoute(Text.NatToString(newMappingId.value)))
    else Refresh
  }

  /** The path `handleDeleteMapping` deletes is the detail route of the same id. */
  function DeletePath(mappingId: nat): (r: string)
    ensures r == Constants.MappingDetailRoute(Text.NatToString(mappingId))
  {
    "/mappings/" + Text.NatToString(mappingId)
  }

  class MappingsListPage {
    var mappings: seq<Mapping>
    var loading: bool
    var searchTerm: string
    var isCreatingMapping: bool

    constructor ()
      ensures mappings == [] && loading && searchTerm == "" && !isCreatingMapping
    {
      mappings := [];
      loading := true;
      searchTerm := "";
      isCreatingMapping := false;
    }

    function Visible(): (r: seq<Mapping>)
      reads this
      ensures r == FilteredMappings(mappings, searchTerm)
      ensures forall i :: 0 <= i < |r| ==> Matches(searchTerm, r[i])
      ensures Seqs.IsSublist(r, mappings)
      ensures searchTerm == "" ==> r == mappings
    {
      EmptySearchKeepsAll(mappings);
      FilteredMappings(mappings, searchTerm)
    }

    /** The start of `fetchMappings`. */
    method StartFetch()
      modifies this`loading
      ensures loading
    {
      loading := true;
    }

    /** The end of `fetchMappings`; `response` is None when the request failed. A
        failure, including a record that cannot be normalised, leaves the list empty. */
    method FinishFetch(response: Option<seq<RawMapping>>)
      modifies this`mappings, this`loading
      ensures !loading
      ensures response.Some? && NormalizeAll(response.value).Some? ==>
        mappings == NormalizeAll(response.value).value
      ensures response.None? || NormalizeAll(response.value).None? ==> mappings == []
    {
      var normalized := if response.Some? then NormalizeAll(response.value) else None;
      mappings := normalized.GetOr([]);
      loading := false;
    }

    method HandleCreateMapping()
      modifies this`isCreatingMapping
      ensures isCreatingMapping
    {
      isCreatingMapping := true;
    }

    /** The end of `handleDeleteMapping`: a successful DELETE refreshes the list;
        a failed one leaves the page as it was. */
    method FinishDelete(succeeded: bool) returns (refreshed: bool)
      modifies this`loading
      ensures refreshed == succeeded
      ensures succeeded ==> loading
      ensures !succeeded ==> loading == old(loading)
    {
      refreshed := succeeded;
      if succeeded {
        StartFetch();
      }
    }

    /** `handleCreationSuccess`: closes the dialog, then navigates or starts a refresh. */
    method HandleCreationSuccess(newMappingId: Option<nat>) returns (next: FollowUp)
      modifies this`isCreatingMapping, this`loading
      ensures !isCreatingMapping
      ensures next == AfterCreation(newMappingId)
      ensures next.Refresh? ==> loading
      ensures next.NavigateTo? ==> loading == old(loading)
    {
      isCreatingMapping := false;
      next := AfterCreation(newMappingId);
      if next.Refresh? {
        StartFetch();
      }
    }
  }
}
