/** The stand-alone mapper screen: mapping rules in the selected display format,
    a list of sample payloads with one of them possibly being edited, and the
    output of the last successful transformation. */
module DataMapper {
  import opened Wrappers
  import opened Types
  import Text
  import Seqs
  import opened FormatConverter

  /** The rules text after switching the display format from `current` to `target`,
      or None when a parse or print throws. Switching to the same format keeps the text. */
  function SwitchedRules(c: Codecs, current: Format, target: Format, rules: string): (r: Option<string>)
    ensures current == target ==> r == Some(rules)
    ensures current == Yaml && target == Json && c.parseYaml(rules).None? ==> r.None?
    ensures current == Json && target == Yaml && c.parseJson(rules).None? ==> r.None?
    ensures current == Json && target == Yaml && r.Some? ==>
      c.parseJson(rules).Some? && c.stringifyYaml(c.parseJson(rules).value) == r
    ensures current == Json && target == Yaml && c.parseJson(rules).Some? ==>
      r == c.stringifyYaml(c.parseJson(rules).value)
    ensures current == Yaml && target == Json && c.parseYaml(rules).Some?
            && c.stringifyJson(c.parseYaml(rules).value, 0).Some? ==>
      r == c.beautifyJson(c.stringifyJson(c.parseYaml(rules).value, 0).value)
    ensures current == Yaml && target == Json && r.Some? ==>
      && c.parseYaml(rules).Some? && c.stringifyJson(c.parseYaml(rules).value, 0).Some?
      && r == c.beautifyJson(c.stringifyJson(c.parseYaml(rules).value, 0).value)
  {
    if current == Yaml && target == Json then
      match c.parseYaml(rules)
      case None => None
      case Some(v) =>
        match c.stringifyJson(v, 0)
        case None => None
        case Some(compact) => c.beautifyJson(compact)
    else if current == Json && target == Yaml then
      match c.parseJson(rules)
      case None => None
      case Some(v) => c.stringifyYaml(v)
    else Some(rules)
  }

  /** The item `addSampleData` appends to a list: named after its position, with no data. */
  function NewSample(list: seq<SampleDataItem>, id: string): (item: SampleDataItem)
    ensures item.id == id && item.data == ""
    ensures item.name == "Sample Data " + Text.NatToString(|list| + 1)
  {
    SampleDataItem(id, "Sample Data " + Text.NatToString(|list| + 1), "", None, None)
  }

  /** The list with every item carrying `id` removed, the others kept in order. */
  function WithoutId(list: seq<SampleDataItem>, id: string): (r: seq<SampleDataItem>)
    ensures forall i :: 0 <= i < |r| ==> r[i].id != id && r[i] in list
    ensures forall i :: 0 <= i < |list| && list[i].id != id ==> list[i] in r
    ensures Seqs.IsSublist(r, list)
  {
    Seqs.FilterIsSublist((item: SampleDataItem) => item.id != id, list);
    Seqs.Filter((item: SampleDataItem) => item.id != id, list)
  }

  /** The list with `data` stored in every item carrying `id`; nothing else changes. */
  function WithData(list: seq<SampleDataItem>, id: string, data: string): (r: seq<SampleDataItem>)
    ensures |r| == |list|
    ensures forall i :: 0 <= i < |list| ==>
      r[i] == if list[i].id == id then list[i].(data := data) else list[i]
  {
    if list == [] then []
    else
      var head := if list[0].id == id then list[0].(data := data) else list[0];
      [head] + WithData(list[1..], id, data)
  }

  function Ids(list: seq<SampleDataItem>): (r: seq<string>)
    ensures |r| == |list| && forall i :: 0 <= i < |list| ==> r[i] == list[i].id
  {
    seq(|list|, i requires 0 <= i < |list| => list[i].id)
  }

  /** Saving an edit keeps the ids, names and their order. */
  lemma SaveKeepsIdentity(list: seq<SampleDataItem>, id: string, data: string)
    ensures Ids(WithData(list, id, data)) == Ids(list)
    ensures forall i :: 0 <= i < |list| ==> WithData(list, id, data)[i].name == list[i].name
  {
  }

  /** Deleting by id removes every item with that id and only those: the list
      shrinks by the number of occurrences of the id. */
  lemma {:induction false} DeleteRemovesExactly(list: seq<SampleDataItem>, id: string)
    ensures id !in Ids(WithoutId(list, id))
    ensures |WithoutId(list, id)| == |list| - multiset(Ids(list))[id]
  {
    if list != [] {
      DeleteRemovesExactly(list[1..], id);
      assert Ids(list) == [list[0].id] + Ids(list[1..]);
      assert Seqs.Filter((item: SampleDataItem) => item.id != id, list) ==
        (if list[0].id != id then [list[0]] else []) + Seqs.Filter((item: SampleDataItem) => item.id != id, list[1..]);
    }
  }

  /** The component's state; the handlers change it in place. */
  class DataMapperState {
    var mappingRules: string
    var sampleDataList: seq<SampleDataItem>
    var output: string
    var format: Format
    var editingId: Option<string>
    var editingData: string

    constructor ()
      ensures mappingRules == "" && sampleDataList == [] && output == ""
      ensures format == Yaml && editingId == None && editingData == ""
    {
      mappingRules := "";
      sampleDataList := [];
      output := "";
      format := Yaml;
      editingId := None;
      editingData := "";
    }

    /** `handleFormatChange`: `converted` is false when the conversion threw (a
        failure notice is shown), and then neither the format nor the rules change. */
    method HandleFormatChange(c: Codecs, newFormat: Format) returns (converted: bool)
      modifies this
      ensures converted == SwitchedRules(c, old(format), newFormat, old(mappingRules)).Some?
      ensures converted ==> format == newFormat
      ensures converted ==>
        mappingRules == SwitchedRules(c, old(format), newFormat, old(mappingRules)).value
      ensures !converted ==> format == old(format) && mappingRules == old(mappingRules)
      ensures sampleDataList == old(sampleDataList) && output == old(output)
      ensures editingId == old(editingId) && editingData == old(editingData)
    {
      var switched := SwitchedRules(c, format, newFormat, mappingRules);
      converted := switched.Some?;
      if converted {
        mappingRules := switched.value;
        format := newFormat;
      }
    }

    /** `handleTransform`: `ok` is false when formatting threw, and then the
        previous output stays in place. */
    method HandleTransform(c: Codecs, data: string) returns (ok: bool)
      modifies this`output
      ensures ok == FormatOutput(c, data, format).Some?
      ensures output == if ok then FormatOutput(c, data, format).value else old(output)
    {
      var formatted := FormatOutput(c, data, format);
      ok := formatted.Some?;
      if ok {
        output := formatted.value;
      }
    }

    /** `addSampleData`, with the clock reading that names the item passed as `newId`. */
    method AddSampleData(newId: string)
      modifies this
      ensures sampleDataList == old(sampleDataList) + [NewSample(old(sampleDataList), newId)]
      ensures editingId == Some(newId) && editingData == ""
      ensures mappingRules == old(mappingRules) && output == old(output) && format == old(format)
    {
      sampleDataList := sampleDataList + [NewSample(sampleDataList, newId)];
      editingId := Some(newId);
      editingData := "";
    }

    /** `deleteSampleData`: the edit is abandoned exactly when the deleted id is being edited. */
    method DeleteSampleData(id: string)
      modifies this
      ensures sampleDataList == WithoutId(old(sampleDataList), id)
      ensures old(editingId) == Some(id) ==> editingId == None && editingData == ""
      ensures old(editingId) != Some(id) ==>
        editingId == old(editingId) && editingData == old(editingData)
      ensures mappingRules == old(mappingRules) && output == old(output) && format == old(format)
    {
      sampleDataList := WithoutId(sampleDataList, id);
      if editingId == Some(id) {
        editingId := None;
        editingData := "";
      }
    }

    /** `startEditing`: the item need not be in the list. */
    method StartEditing(item: SampleDataItem)
      modifies this`editingId, this`editingData
      ensures editingId == Some(item.id) && editingData == item.data
    {
      editingId := Some(item.id);
      editingData := item.data;
    }

    /** `saveEditing`: only a truthy (non-empty) editing id stores the edited text. */
    method SaveEditing()
      modifies this`sampleDataList, this`editingId, this`editingData
      ensures old(editingId).Some? && old(editingId).value != "" ==>
        && sampleDataList == WithData(old(sampleDataList), old(editingId).value, old(editingData))
        && editingId == None && editingData == ""
      ensures !(old(editingId).Some? && old(editingId).value != "") ==>
        sampleDataList == old(sampleDataList) && editingId == old(editingId)
        && editingData == old(editingData)
    {
      if editingId.Some? && editingId.value != "" {
        sampleDataList := WithData(sampleDataList, editingId.value, editingData);
        editingId := None;
        editingData := "";
      }
    }
  }
}
