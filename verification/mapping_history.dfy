/** The history page of one mapping: the versions fetched from the service, the
    version being previewed, and the restore of that version. */
module MappingHistory {
  import opened Wrappers
  import opened Types
  import Constants

  /** The label "Version n - index" of the entry at `index` in a list of `n`. */
  function VersionLabel(n: nat, index: nat): (number: nat)
    requires index < n
    ensures 1 <= number <= n
    ensures index == 0 ==> number == n
    ensures index == n - 1 ==> number == 1
  {
    n - index
  }

  /** Labels count down along the list, so no two entries share one. */
  lemma LabelsDecrease(n: nat, i: nat, j: nat)
    requires i < j < n
    ensures VersionLabel(n, i) > VersionLabel(n, j)
  {
  }

  datatype RestoreContent = RestoreContent(yaml: string, tags: seq<string>)

  /** The PUT body of a restore: only `content.yaml` and `content.tags`, no test data. */
  datatype RestorePayload = RestorePayload(content: RestoreContent)

  /** The payload restoring `version`; absent tags become []. */
  function RestorePayloadOf(version: HistoryVersion): (p: RestorePayload)
    ensures p.content.yaml == version.content.yaml
    ensures version.content.tags.Some? ==> p.content.tags == version.content.tags.value
    ensures version.content.tags.None? ==> p.content.tags == []
  {
    RestorePayload(RestoreContent(version.content.yaml, version.content.tags.GetOr([])))
  }

  /** The version selected after a successful load: the first one, when there is
      one; otherwise the selection is left as it was. */
  function SelectionAfterLoad(previous: Option<HistoryVersion>, data: seq<HistoryVersion>): (r: Option<HistoryVersion>)
    ensures data != [] ==> r == Some(data[0])
    ensures data == [] ==> r == previous
  {
    if |data| > 0 then Some(data[0]) else previous
  }

  /** The restore button is disabled with no selection or while a restore runs
      (a restore of an empty txnid does not count as running: "" is falsy). */
  function RestoreDisabled(current: Option<HistoryVersion>, restoring: Option<string>): (disabled: bool)
    ensures current.None? ==> disabled
    ensures restoring.Some? && restoring.value != "" ==> disabled
    ensures !disabled <==> current.Some? && (restoring.None? || restoring.value == "")
  {
    current.None? || (restoring.Some? && restoring.value != "")
  }

  /** date-fns `format(new Date(date), pattern)`, supplied from outside: the
      text of a date under a format pattern, None when it throws (an invalid
      date, or a pattern with an unknown letter). */
  type DateFormatter = (string, string) -> Option<string>

  /** The success toast's formatting call. A pattern that is not a string (a
      configuration entry that does not exist) makes date-fns throw, whatever
      the formatter does with real patterns. */
  function FormatDate(f: DateFormatter, date: string, pattern: Option<string>): (r: Option<string>)
    ensures pattern.None? ==> r.None?
    ensures pattern.Some? ==> r == f(date, pattern.value)
  {
    match pattern
    case None => None
    case Some(p) => f(date, p)
  }

  /** `UI_CONFIG.DATETIME_FORMAT` as the page reads it: the configuration defines
      `DATE_TIME_FORMAT` only, so this lookup is undefined. */
  const ToastDateFormat: Option<string> := None

  /** `UI_CONFIG.DATE_TIME_FORMAT`, the entry the toast evidently means. */
  const DateTimeFormat: string := "MMM d, yyyy HH:mm"

  /** How a restore ends: navigation back to the mapping, or the failure notice. */
  datatype RestoreOutcome = Restored(navigateTo: string) | RestoreFailed

  /** The part of `handleRestoreVersion` after the PUT: the success toast formats
      the version's date before `navigate` runs, so a throw there lands in the
      catch even though the PUT succeeded. */
  function RestoreFollowUp(id: string, putOk: bool, f: DateFormatter, updatedAt: string,
                           pattern: Option<string>): (o: RestoreOutcome)
    ensures o.Restored? <==> putOk && FormatDate(f, updatedAt, pattern).Some?
    ensures o.Restored? ==> o.navigateTo == Constants.MappingDetailRoute(id)
  {
    if putOk && FormatDate(f, updatedAt, pattern).Some?
    then Restored(Constants.MappingDetailRoute(id))
    else RestoreFailed
  }

  /** As written, no restore ever navigates: even an accepted PUT ends with the
      failure notice, whatever formatter date-fns provides. */
  lemma RestoreNeverNavigates(id: string, putOk: bool, f: DateFormatter, updatedAt: string)
    ensures RestoreFollowUp(id, putOk, f, updatedAt, ToastDateFormat) == RestoreFailed
  {
  }

  /** With the defined entry, an accepted PUT navigates back to the mapping
      exactly when the date formats, and a rejected PUT never does. */
  lemma RestoreNavigatesWithDefinedFormat(id: string, putOk: bool, f: DateFormatter, updatedAt: string)
    ensures f(updatedAt, DateTimeFormat).Some? ==>
      RestoreFollowUp(id, putOk, f, updatedAt, Some(DateTimeFormat))
        == (if putOk then Restored(Constants.MappingDetailRoute(id)) else RestoreFailed)
    ensures f(updatedAt, DateTimeFormat).None? ==>
      RestoreFollowUp(id, putOk, f, updatedAt, Some(DateTimeFormat)) == RestoreFailed
  {
  }

  class MappingHistoryPage {
    const id: string
    var historyVersions: seq<HistoryVersion>
    var loading: bool
    var currentVersion: Option<HistoryVersion>
    var restoringVersion: Option<string>

    constructor (id: string)
      ensures this.id == id && historyVersions == [] && loading
      ensures currentVersion == None && restoringVersion == None
    {
      this.id := id;
      historyVersions := [];
      loading := true;
      currentVersion := None;
      restoringVersion := None;
    }

    /** The URL the page reads the history from; it is the history endpoint. */
    function HistoryUrl(): (url: string)
      ensures url == Constants.BaseUrl + Constants.MappingHistoryEndpoint(id)
    {
      Constants.BaseUrl + Constants.MappingsEndpoint + "/" + id + "/_history"
    }

    /** The URL a restore is PUT to: the mapping itself. */
    function RestoreUrl(): (url: string)
      ensures url == Constants.BaseUrl + Constants.MappingDetailRoute(id)
    {
      Constants.BaseUrl + Constants.MappingsEndpoint + "/" + id
    }

    method StartFetch()
      modifies this`loading
      ensures loading
    {
      loading := true;
    }

    /** The end of `fetchMappingHistory`; `response` is None when the request failed,
        which leaves the versions and the selection as they were. */
    method FinishFetch(response: Option<seq<HistoryVersion>>)
      modifies this`historyVersions, this`currentVersion, this`loading
      ensures !loading
      ensures response.Some? ==> historyVersions == response.value
      ensures response.Some? ==>
        currentVersion == SelectionAfterLoad(old(currentVersion), response.value)
      ensures response.None? ==>
        historyVersions == old(historyVersions) && currentVersion == old(currentVersion)
    {
      if response.Some? {
        historyVersions := response.value;
        currentVersion := SelectionAfterLoad(currentVersion, response.value);
      }
      loading := false;
    }

    method HandleVersionSelect(version: HistoryVersion)
      modifies this`currentVersion
      ensures currentVersion == Some(version)
    {
      currentVersion := Some(version);
    }

    /** `version` is highlighted in the list exactly when it has the selected txnid. */
    function IsHighlighted(version: HistoryVersion): (b: bool)
      reads this
      ensures b <==> currentVersion.Some? && currentVersion.value.txnid == version.txnid
    {
      IsSelected(currentVersion, version)
    }

    /** The start of `handleRestoreVersion`: nothing happens without a selection;
        otherwise the selected txnid is marked as restoring and the payload built. */
    method BeginRestore() returns (payload: Option<RestorePayload>)
      modifies this`restoringVersion
      ensures old(currentVersion).None? ==> payload.None? && restoringVersion == old(restoringVersion)
      ensures old(currentVersion).Some? ==>
        && payload == Some(RestorePayloadOf(old(currentVersion).value))
        && restoringVersion == Some(old(currentVersion).value.txnid)
    {
      if currentVersion.None? {
        return None;
      }
      restoringVersion := Some(currentVersion.value.txnid);
      payload := Some(RestorePayloadOf(currentVersion.value));
    }

    /** The end of `handleRestoreVersion`, given whether the PUT was accepted,
        the date formatter and the `updated_at` of the version the handler
        captured. The restoring mark is cleared on every path; as written, the
        toast's undefined format makes every restore end in the failure notice. */
    method FinishRestore(succeeded: bool, f: DateFormatter, updatedAt: string) returns (outcome: RestoreOutcome)
      modifies this`restoringVersion
      ensures restoringVersion == None
      ensures outcome == RestoreFollowUp(id, succeeded, f, updatedAt, ToastDateFormat)
      ensures outcome == RestoreFailed
    {
      restoringVersion := None;
      outcome := RestoreFollowUp(id, succeeded, f, updatedAt, ToastDateFormat);
      RestoreNeverNavigates(id, succeeded, f, updatedAt);
    }
  }
}
