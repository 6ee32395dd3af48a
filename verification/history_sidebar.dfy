/** The version-history sidebar: a pure rendering of its properties. */
module MappingHistorySidebar {
  import opened Wrappers
  import opened Types
  import Text

  const ShownTagLimit: nat := 2

  /** The tags shown for a version and the count in its "+k" badge, if any. */
  datatype TagSummary = TagSummary(shown: seq<string>, overflow: Option<nat>)

  /** The first two tags in order, and a badge with the number of the rest when
      there are more than two; a non-array `tags` shows nothing. */
  function SummarizeTags(tags: Option<seq<string>>): (r: TagSummary)
    ensures tags.None? ==> r.shown == [] && r.overflow.None?
    ensures |r.shown| <= ShownTagLimit
    ensures tags.Some? ==> |r.shown| <= |tags.value| && r.shown == tags.value[..|r.shown|]
    ensures tags.Some? && |tags.value| <= ShownTagLimit ==> r.shown == tags.value
    ensures r.overflow.Some? <==> tags.Some? && |tags.value| > ShownTagLimit
    ensures r.overflow.Some? ==> r.overflow.value >= 1 && |r.shown| + r.overflow.value == |tags.value|
    ensures tags.Some? && |tags.value| > ShownTagLimit ==>
      r.shown == tags.value[..ShownTagLimit] && r.overflow == Some(|tags.value| - ShownTagLimit)
  {
    match tags
    case None => TagSummary([], None)
    case Some(t) =>
      if |t| > ShownTagLimit then TagSummary(t[..ShownTagLimit], Some(|t| - ShownTagLimit))
      else TagSummary(t, None)
  }

  /** The badge text "+k". */
  function OverflowBadge(k: nat): (s: string)
    ensures |s| >= 2 && s[0] == '+'
    ensures Text.IsNumeralOf(s[1..], k)
  {
    Text.ParseNatToString(k);
    var s := "+" + Text.NatToString(k);
    assert s[1..] == Text.NatToString(k);
    s
  }

  /** What the sidebar's body shows. */
  datatype Body = Spinner | NoHistoryMessage | VersionList(showCurrent: bool)

  /** The loading spinner takes precedence; the empty message needs a finished
      load with no versions; the current-version block needs a current mapping. */
  function RenderBody(loading: bool, versions: seq<HistoryVersion>, currentMapping: Option<Mapping>): (b: Body)
    ensures b.Spinner? <==> loading
    ensures b.NoHistoryMessage? <==> !loading && versions == []
    ensures b.VersionList? <==> !loading && versions != []
    ensures b.VersionList? ==> (b.showCurrent <==> currentMapping.Some?)
  {
    if loading then Spinner
    else if |versions| == 0 then NoHistoryMessage
    else VersionList(currentMapping.Some?)
  }

  /** A version's entry is highlighted exactly when it has the selected txnid. */
  function IsHighlighted(selected: Option<HistoryVersion>, version: HistoryVersion): (b: bool)
    ensures b <==> selected.Some? && selected.value.txnid == version.txnid
  {
    IsSelected(selected, version)
  }
}
