/** The "create mapping" dialog: a title, a tag being typed, the tags entered so
    far and a submitting flag; submitting builds the creation request. */
module CreateMapping {
  import opened Wrappers
  import opened Types
  import Text
  import Seqs
  import Api

  predicate NoDuplicates(s: seq<string>) {
    forall i, j :: 0 <= i < j < |s| ==> s[i] != s[j]
  }

  /** The tags after Enter was accepted on `input`: its trimmed form is appended
      unless it is already present. */
  function AddTag(tags: seq<string>, input: string): (r: seq<string>)
    ensures Text.Trim(input) in r
    ensures Text.Trim(input) in tags ==> r == tags
    ensures Text.Trim(input) !in tags ==> r == tags + [Text.Trim(input)]
    ensures NoDuplicates(tags) ==> NoDuplicates(r)
  {
    var t := Text.Trim(input);
    if t in tags then tags
    else
      AppendNoDuplicates(tags, t);
      tags + [t]
  }

  /** Appending a value that is not yet present keeps a list duplicate-free. */
  lemma AppendNoDuplicates(tags: seq<string>, t: string)
    requires t !in tags
    ensures NoDuplicates(tags) ==> NoDuplicates(tags + [t])
  {
    assert forall i :: 0 <= i < |tags| ==> tags[i] != t;
  }

  /** The tags with every occurrence of `tag` removed, the rest in order. */
  function RemoveTag(tags: seq<string>, tag: string): (r: seq<string>)
    ensures tag !in r
    ensures forall i :: 0 <= i < |tags| && tags[i] != tag ==> tags[i] in r
    ensures forall i :: 0 <= i < |r| ==> r[i] in tags
    ensures Seqs.IsSublist(r, tags)
    ensures forall x :: multiset(r)[x] == if x == tag then 0 else multiset(tags)[x]
    ensures NoDuplicates(tags) ==> NoDuplicates(r)
  {
    Seqs.FilterIsSublist((t: string) => t != tag, tags);
    forall x {
      Seqs.FilterCount((t: string) => t != tag, tags, x);
    }
    var r := Seqs.Filter((t: string) => t != tag, tags);
    SublistNoDuplicates(r, tags);
    r
  }

  lemma {:induction false} SublistNoDuplicates(a: seq<string>, b: seq<string>)
    requires Seqs.IsSublist(a, b)
    ensures NoDuplicates(b) ==> NoDuplicates(a)
    decreases |b|
  {
    if a != [] && b != [] && NoDuplicates(b) {
      if a[0] == b[0] {
        SublistNoDuplicates(a[1..], b[1..]);
        SublistMembers(a[1..], b[1..]);
        forall j | 1 <= j < |a| ensures a[0] != a[j] {
          assert a[1..][j - 1] in b[1..];
        }
      } else {
        SublistNoDuplicates(a, b[1..]);
      }
    }
  }

  lemma {:induction false} SublistMembers(a: seq<string>, b: seq<string>)
    requires Seqs.IsSublist(a, b)
    ensures forall x :: x in a ==> x in b
    decreases |b|
  {
    if a != [] && b != [] {
      if a[0] == b[0] {
        SublistMembers(a[1..], b[1..]);
        assert a == [a[0]] + a[1..] && b == [b[0]] + b[1..];
      } else {
        SublistMembers(a, b[1..]);
      }
    }
  }

  /** The body `handleSubmit` posts, or None when the title is blank. */
  function SubmitRequest(title: string, tags: seq<string>): (r: Option<CreateMappingRequest>)
    ensures r.None? <==> Text.IsBlank(title)
    ensures r.Some? ==> r.value.title == Text.Trim(title) && r.value.title != ""
    ensures r.Some? ==> r.value.content == CreateContent(tags, "", Some([]))
  {
    if Text.Trim(title) == "" then None
    else Some(CreateMappingRequest(Text.Trim(title), CreateContent(tags, "", Some([]))))
  }

  /** What the POST came back with; a fetch that rejects is `NoResponse`. */
  datatype CreateResponse = NoResponse | Response(status: nat, bodyIsJson: bool)

  /** The creation counts as successful when the status is 2xx and the body parses
      as JSON; an empty 201 body makes `response.json()` throw and is a failure.
      `response.ok` is the same 2xx range the API client accepts. */
  predicate Succeeded(response: CreateResponse)
    ensures Succeeded(response) <==>
      response.Response? && Api.CheckStatus(response.status).Success? && response.bodyIsJson
  {
    response.Response? && 200 <= response.status <= 299 && response.bodyIsJson
  }

  /** Whatever the status, a body that is not JSON fails the creation; with a
      JSON body the status alone decides. */
  lemma EmptyCreatedBodyFails(status: nat)
    ensures !Succeeded(Response(status, false))
    ensures Succeeded(Response(status, true)) <==> 200 <= status <= 299
    ensures !Succeeded(NoResponse)
  {
  }

  class CreateMappingForm {
    var title: string
    var tagInput: string
    var tags: seq<string>
    var isSubmitting: bool

    constructor ()
      ensures title == "" && tagInput == "" && tags == [] && !isSubmitting
    {
      title := "";
      tagInput := "";
      tags := [];
      isSubmitting := false;
    }

    /** `handleAddTag` for a key press; `accepted` says whether the key was consumed
        (default prevented). The input is cleared even when the tag was a duplicate. */
    method HandleAddTag(key: string) returns (accepted: bool)
      modifies this`tags, this`tagInput
      ensures accepted == (key == "Enter" && !Text.IsBlank(old(tagInput)))
      ensures accepted ==> tags == AddTag(old(tags), old(tagInput)) && tagInput == ""
      ensures !accepted ==> tags == old(tags) && tagInput == old(tagInput)
    {
      accepted := key == "Enter" && Text.Trim(tagInput) != "";
      if accepted {
        tags := AddTag(tags, tagInput);
        tagInput := "";
      }
    }

    method HandleRemoveTag(tag: string)
      modifies this`tags
      ensures tags == RemoveTag(old(tags), tag)
    {
      tags := RemoveTag(tags, tag);
    }

    /** The synchronous part of `handleSubmit`: a blank title changes nothing and
        sends nothing; otherwise the form is marked submitting and the request built. */
    method BeginSubmit() returns (request: Option<CreateMappingRequest>)
      modifies this`isSubmitting
      ensures request == SubmitRequest(old(title), old(tags))
      ensures request.Some? ==> isSubmitting
      ensures request.None? ==> isSubmitting == old(isSubmitting)
    {
      request := SubmitRequest(title, tags);
      if request.Some? {
        isSubmitting := true;
      }
    }

    /** The part of `handleSubmit` after the response: on success the caller is
        notified and the form reset; in every case the form stops submitting. */
    method FinishSubmit(response: CreateResponse) returns (notified: bool)
      modifies this
      ensures notified == Succeeded(response)
      ensures notified ==> title == "" && tagInput == "" && tags == []
      ensures !notified ==>
        title == old(title) && tagInput == old(tagInput) && tags == old(tags)
      ensures !isSubmitting
    {
      notified := Succeeded(response);
      if notified {
        ResetForm();
      }
      isSubmitting := false;
    }

    method ResetForm()
      modifies this`title, this`tagInput, this`tags
      ensures title == "" && tagInput == "" && tags == []
    {
      title := "";
      tagInput := "";
      tags := [];
    }

    /** The dialog's open-change handler: closing resets the form; the new state is
        passed on to the owner. */
    method HandleOpenChange(newOpen: bool) returns (forwarded: bool)
      modifies this`title, this`tagInput, this`tags
      ensures forwarded == newOpen
      ensures !newOpen ==> title == "" && tagInput == "" && tags == []
      ensures newOpen ==> title == old(title) && tagInput == old(tagInput) && tags == old(tags)
    {
      if !newOpen {
        ResetForm();
      }
      forwarded := newOpen;
    }
  }
}
