/**
 * The tag-management page (`src/components/page/tags.tsx`): the local list
 * kept in step with the `tags` table after each create or delete, the
 * `loading` and `error` flags, the footer text and the create button's guard.
 *
 * The backend is an oracle: each action receives the outcome of its insert
 * or delete. Every request is logged in `requests` with the value `loading`
 * has while the request is awaited.
 */
module Tags {
  import opened Wrappers
  import JsText

  datatype TagRow = TagRow(title: string)

  /** The filter as a plain recursion over the list, front to back. */
  function Kept(tags: seq<TagRow>, title: string): seq<TagRow>
  {
    if tags == [] then []
    else (if tags[0].title != title then [tags[0]] else []) + Kept(tags[1..], title)
  }

  lemma {:induction false} KeptCounts(tags: seq<TagRow>, title: string)
    ensures var r := Kept(tags, title);
      && |r| <= |tags|
      && (forall t: TagRow :: t.title != title ==> multiset(r)[t] == multiset(tags)[t])
      && (forall t: TagRow :: t.title == title ==> multiset(r)[t] == 0)
  {
    if tags != [] {
      var x, rest := tags[0], tags[1..];
      var head := if x.title != title then [x] else [];
      KeptCounts(rest, title);
      var r, r' := Kept(tags, title), Kept(rest, title);
      assert tags == [x] + rest && r == head + r';
      forall t: TagRow
        ensures t.title != title ==> multiset(r)[t] == multiset(tags)[t]
        ensures t.title == title ==> multiset(r)[t] == 0
      {
        assert multiset(r)[t] == multiset(head)[t] + multiset(r')[t];
        assert multiset(tags)[t] == multiset([x])[t] + multiset(rest)[t];
      }
    }
  }

  lemma KeptContents(tags: seq<TagRow>, title: string)
    ensures var r := Kept(tags, title);
      && |r| <= |tags|
      && (forall t :: t in r <==> t in tags && t.title != title)
      && (forall t: TagRow :: t.title != title ==> multiset(r)[t] == multiset(tags)[t])
      && (forall t: TagRow :: t.title == title ==> multiset(r)[t] == 0)
  {
    var r := Kept(tags, title);
    KeptCounts(tags, title);
    forall t | true ensures t in r <==> t in tags && t.title != title {
      assert t in r <==> multiset(r)[t] > 0;
      assert t in tags <==> multiset(tags)[t] > 0;
    }
  }

  /** `tags.filter((t) => t.title !== title)`. */
  function WithoutTitle(tags: seq<TagRow>, title: string): (r: seq<TagRow>)
    ensures |r| <= |tags|
    ensures forall t :: t in r <==> t in tags && t.title != title
    ensures forall t: TagRow :: t.title != title ==> multiset(r)[t] == multiset(tags)[t]
    ensures forall t: TagRow :: t.title == title ==> multiset(r)[t] == 0
  {
    KeptContents(tags, title);
    Kept(tags, title)
  }

  lemma {:induction false} KeptAppend(a: seq<TagRow>, b: seq<TagRow>, title: string)
    ensures Kept(a + b, title) == Kept(a, title) + Kept(b, title)
  {
    if a != [] {
      assert (a + b)[0] == a[0];
      assert (a + b)[1..] == a[1..] + b;
      KeptAppend(a[1..], b, title);
    } else {
      assert a + b == b;
    }
  }

  /** Filtering keeps the relative order: it distributes over concatenation. */
  lemma WithoutTitleAppend(a: seq<TagRow>, b: seq<TagRow>, title: string)
    ensures WithoutTitle(a + b, title) == WithoutTitle(a, title) + WithoutTitle(b, title)
  {
    KeptAppend(a, b, title);
  }

  lemma {:induction false} KeptAbsent(tags: seq<TagRow>, title: string)
    requires forall k :: 0 <= k < |tags| ==> tags[k].title != title
    ensures Kept(tags, title) == tags
  {
    if tags != [] {
      KeptAbsent(tags[1..], title);
      assert tags == [tags[0]] + tags[1..];
    }
  }

  /** A list with no tag of that title is left exactly as it was. */
  lemma WithoutAbsentTitle(tags: seq<TagRow>, title: string)
    requires forall k :: 0 <= k < |tags| ==> tags[k].title != title
    ensures WithoutTitle(tags, title) == tags
  {
    KeptAbsent(tags, title);
  }

  /** Deleting the same title twice is deleting it once. */
  lemma WithoutTitleIdempotent(tags: seq<TagRow>, title: string)
    ensures WithoutTitle(WithoutTitle(tags, title), title) == WithoutTitle(tags, title)
  {
    var r := WithoutTitle(tags, title);
    forall k | 0 <= k < |r| ensures r[k].title != title {
      assert r[k] in r;
    }
    WithoutAbsentTitle(r, title);
  }

  /** `loading ? "Saving..." : error ? error : "Tags saved"`. */
  function FooterText(loading: bool, error: Option<string>): string
  {
    if loading then "Saving..." else if JsText.Truthy(error) then error.value else "Tags saved"
  }

  /** The footer gives priority to a pending request, then to the error, then says all is saved. */
  lemma FooterPriority(loading: bool, error: Option<string>)
    ensures loading ==> FooterText(loading, error) == "Saving..."
    ensures !loading && error.Some? && error.value != "" ==> FooterText(loading, error) == error.value
    ensures !loading && (error.None? || error.value == "") ==> FooterText(loading, error) == "Tags saved"
  {
  }

  /** The create button: disabled while loading or while the title is blank after trimming. */
  predicate CreateDisabled(newTagTitle: string, loading: bool)
  {
    JsText.Trim(newTagTitle) == "" || loading
  }

  /** The button is enabled exactly when not loading and the title has a non-whitespace character. */
  lemma CreateEnabledWhenTitleHasText(newTagTitle: string, loading: bool)
    ensures !CreateDisabled(newTagTitle, loading) <==>
      !loading && exists i :: 0 <= i < |newTagTitle| && !JsText.IsJsWhitespace(newTagTitle[i])
  {
  }

  datatype Request = SelectTags | InsertTag(title: string) | DeleteTags(title: string)

  /** A backend request and the value of `loading` while it is awaited. */
  datatype Call = Call(request: Request, busy: bool)

  /** What `insert([{ title }]).select().single()` returns: the stored row, or an error. */
  datatype CreateOutcome = Created(row: TagRow) | CreateFailed

  datatype FetchOutcome = Fetched(rows: seq<TagRow>) | FetchFailed

  const CreateFailedMessage := "Failed to create tag"
  const DeleteFailedMessage := "Failed to delete tag"
  const FetchFailedMessage := "Failed to fetch tags"

  class TagPage {
    var tags: seq<TagRow>
    var error: Option<string>
    var loading: bool
    var isDialogOpen: bool
    var newTagTitle: string
    var requests: seq<Call>

    constructor ()
      ensures tags == [] && error == None && !loading && !isDialogOpen && newTagTitle == "" && requests == []
    {
      tags, error, loading, isDialogOpen, newTagTitle, requests := [], None, false, false, "", [];
    }

    function Footer(): string
      reads this
    {
      FooterText(loading, error)
    }

    /** `fetchTags()`: the list replaced by the rows, or the fetch error set. */
    method FetchTags(outcome: FetchOutcome)
      modifies this
      ensures requests == old(requests) + [Call(SelectTags, old(loading))]
      ensures outcome.Fetched? ==> tags == outcome.rows && error == old(error)
      ensures outcome.FetchFailed? ==> tags == old(tags) && error == Some(FetchFailedMessage)
      ensures loading == old(loading) && isDialogOpen == old(isDialogOpen) && newTagTitle == old(newTagTitle)
    {
      requests := requests + [Call(SelectTags, loading)];
      if outcome.Fetched? {
        tags := outcome.rows;
      } else {
        error := Some(FetchFailedMessage);
      }
    }

    /**
     * What `createTag(title)` leaves behind: the title was inserted as given,
     * with `loading` set while it was awaited. On success the returned row is
     * appended, the input cleared and the dialog closed. On failure the list
     * is kept and the error set. `loading` is cleared on both branches.
     */
    twostate predicate CreateTagEffect(title: string, outcome: CreateOutcome)
      reads this
    {
      && requests == old(requests) + [Call(InsertTag(title), true)]
      && !loading
      && (outcome.Created? ==>
        tags == old(tags) + [outcome.row] && newTagTitle == "" && !isDialogOpen && error == old(error))
      && (outcome.CreateFailed? ==>
        && tags == old(tags) && error == Some(CreateFailedMessage)
        && newTagTitle == old(newTagTitle) && isDialogOpen == old(isDialogOpen))
    }

    /** `createTag(title)`; after a failed create the footer shows its message. */
    method CreateTag(title: string, outcome: CreateOutcome)
      modifies this
      ensures CreateTagEffect(title, outcome)
      ensures outcome.CreateFailed? ==> Footer() == CreateFailedMessage
    {
      loading := true;
      requests := requests + [Call(InsertTag(title), loading)];
      if outcome.Created? {
        tags := tags + [outcome.row];
        newTagTitle := "";
        isDialogOpen := false;
      } else {
        error := Some(CreateFailedMessage);
      }
      loading := false;
    }

    /**
     * `deleteTag(title)`: on success every tag with that title is dropped and
     * the others kept in order; on failure the list is kept and the error set.
     * `loading` is set while the delete is awaited and cleared afterwards.
     */
    method DeleteTag(title: string, deleteSucceeds: bool)
      modifies this
      ensures requests == old(requests) + [Call(DeleteTags(title), true)]
      ensures !loading
      ensures deleteSucceeds ==> tags == WithoutTitle(old(tags), title) && error == old(error)
      ensures !deleteSucceeds ==> tags == old(tags) && error == Some(DeleteFailedMessage)
      ensures isDialogOpen == old(isDialogOpen) && newTagTitle == old(newTagTitle)
      ensures !deleteSucceeds ==> Footer() == DeleteFailedMessage
    {
      loading := true;
      requests := requests + [Call(DeleteTags(title), loading)];
      if deleteSucceeds {
        tags := WithoutTitle(tags, title);
      } else {
        error := Some(DeleteFailedMessage);
      }
      loading := false;
    }

    /** The dialog's create button: only while enabled; sends the typed title untrimmed. */
    method ClickCreate(outcome: CreateOutcome)
      requires !CreateDisabled(newTagTitle, loading)
      modifies this
      ensures CreateTagEffect(old(newTagTitle), outcome)
      ensures JsText.Trim(old(newTagTitle)) != ""
    {
      CreateTag(newTagTitle, outcome);
    }
  }
}
