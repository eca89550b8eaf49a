/** The form state of `src/components/AddLinkModal.tsx`: tag entry with its
    three-tag limit, URL validation, the two halves of the asynchronous
    submit, and closing. Toasts, the dispatch of `addLink` and the calls of
    `onOpenChange` are recorded, in order, in an event log. */
module AddLinkModal {
  import opened Wrappers
  import opened Seqs
  import Text
  import LinksSlice

  /** Something the form does outside its own state. */
  datatype Event =
    | ToastError(message: string)
    | ToastSuccess(message: string)
    | Dispatched(url: string, tags: Option<seq<string>>)
    | OpenChanged(open: bool)

  const MaxTags := 3
  const TooManyTagsMessage := "Maximum 3 tags allowed"
  const InvalidUrlMessage := "Please enter a valid URL"
  /** The success toast exactly as the file spells it: the party-popper
      emoji stored as its UTF-8 bytes read back as Windows-1252. */
  const SavedMessage := "Link saved successfully! \U{00F0}\U{0178}\U{017D}\U{2030}"
  const SaveFailedFallback := "Failed to save link. Please try again."

  /** What the form promises about its tag list: at most three tags, no
      two alike, each one non-empty and already trimmed. */
  predicate TagsValid(tags: seq<string>) {
    && |tags| <= MaxTags
    && NoDup(tags)
    && forall i :: 0 <= i < |tags| ==> tags[i] != "" && Text.Trim(tags[i]) == tags[i]
  }

  /** The three ways `handleAddTag` can go. */
  datatype AddTagDecision = Added(tag: string) | Full | Ignored

  /** `handleAddTag`'s branch for the current tags and input. */
  function DecideAddTag(tags: seq<string>, tagInput: string): (d: AddTagDecision)
    ensures d.Added? <==> Text.Trim(tagInput) != "" && |tags| < MaxTags && Text.Trim(tagInput) !in tags
    ensures d.Added? ==> d.tag == Text.Trim(tagInput)
    ensures d.Full? <==> !d.Added? && |tags| >= MaxTags
    ensures d.Ignored? <==> |tags| < MaxTags && (Text.Trim(tagInput) == "" || Text.Trim(tagInput) in tags)
  {
    var trimmed := Text.Trim(tagInput);
    if trimmed != "" && |tags| < MaxTags && trimmed !in tags then Added(trimmed)
    else if |tags| >= MaxTags then Full
    else Ignored
  }

  /** The tag list after `handleAddTag`. */
  function TagsAfterAdd(tags: seq<string>, tagInput: string): seq<string> {
    match DecideAddTag(tags, tagInput)
    case Added(tag) => tags + [tag]
    case _ => tags
  }

  /** Adding a tag keeps the tag list valid. */
  lemma AddTagKeepsValid(tags: seq<string>, tagInput: string)
    requires TagsValid(tags)
    ensures TagsValid(TagsAfterAdd(tags, tagInput))
  {
    var d := DecideAddTag(tags, tagInput);
    if d.Added? {
      Text.TrimIdempotent(tagInput);
      AppendKeepsValid(tags, d.tag);
      assert TagsAfterAdd(tags, tagInput) == tags + [d.tag];
    }
  }

  /** Appending a new, non-empty, trimmed tag to fewer than three keeps the
      list valid. */
  lemma AppendKeepsValid(tags: seq<string>, t: string)
    requires TagsValid(tags) && |tags| < MaxTags
    requires t != "" && Text.Trim(t) == t && t !in tags
    ensures TagsValid(tags + [t])
  {
    var r := tags + [t];
    forall i, j | 0 <= i < j < |r|
      ensures r[i] != r[j]
    {
      if j == |tags| {
        assert r[i] in tags;
      }
    }
    forall i | 0 <= i < |r|
      ensures r[i] != "" && Text.Trim(r[i]) == r[i]
    {
      if i < |tags| {
        assert r[i] == tags[i];
      }
    }
  }

  /** Removing a tag keeps the tag list valid. */
  lemma RemoveTagKeepsValid(tags: seq<string>, tag: string)
    requires TagsValid(tags)
    ensures TagsValid(Remove(tags, tag))
  {
    RemoveNoDup(tags, tag);
    var r := Remove(tags, tag);
    forall i | 0 <= i < |r|
      ensures r[i] != "" && Text.Trim(r[i]) == r[i]
    {
      assert r[i] in tags;
    }
  }

  /** Removing a tag that was just added gives back the tags before. */
  lemma RemoveUndoesAdd(tags: seq<string>, tagInput: string)
    requires DecideAddTag(tags, tagInput).Added?
    ensures Remove(TagsAfterAdd(tags, tagInput), Text.Trim(tagInput)) == tags
  {
    RemoveAppended(tags, Text.Trim(tagInput));
  }

  /** The Add button is enabled only with room for a tag and a non-blank
      input, so a click on it never reaches the three-tag error. */
  predicate AddButtonEnabled(tags: seq<string>, tagInput: string) {
    |tags| < MaxTags && Text.Trim(tagInput) != ""
  }

  lemma EnabledAddNeverFull(tags: seq<string>, tagInput: string)
    requires AddButtonEnabled(tags, tagInput)
    ensures !DecideAddTag(tags, tagInput).Full?
    ensures DecideAddTag(tags, tagInput).Added? <==> Text.Trim(tagInput) !in tags
  {
  }

  /** The message of the error toast after a failed save: the rejection
      value, or the form's own fallback when it is empty. */
  function SaveFailedMessage(rejection: string): (m: string)
    ensures rejection != "" ==> m == rejection
    ensures rejection == "" ==> m == SaveFailedFallback
    ensures m != ""
  {
    if rejection != "" then rejection else SaveFailedFallback
  }

  /** The modal's component state and what it has emitted so far. */
  class AddLinkForm {
    var url: string
    var tags: seq<string>
    var tagInput: string
    var isProcessing: bool
    var events: seq<Event>

    constructor()
      ensures url == "" && tags == [] && tagInput == "" && !isProcessing && events == []
      ensures TagsValid(tags)
    {
      url := "";
      tags := [];
      tagInput := "";
      isProcessing := false;
      events := [];
    }

    /** The URL field's `onChange`. */
    method SetUrl(value: string)
      modifies this
      ensures url == value
      ensures tags == old(tags) && tagInput == old(tagInput) && isProcessing == old(isProcessing) && events == old(events)
    {
      url := value;
    }

    /** The tag field's `onChange`. */
    method SetTagInput(value: string)
      modifies this
      ensures tagInput == value
      ensures url == old(url) && tags == old(tags) && isProcessing == old(isProcessing) && events == old(events)
    {
      tagInput := value;
    }

    /** `handleAddTag`: a new tag is appended and the input cleared; with
        three tags the error toast shows; otherwise nothing happens. */
    method AddTag()
      modifies this
      ensures tags == TagsAfterAdd(old(tags), old(tagInput))
      ensures DecideAddTag(old(tags), old(tagInput)).Added? ==> tagInput == "" && events == old(events)
      ensures DecideAddTag(old(tags), old(tagInput)).Full? ==>
        tagInput == old(tagInput) && events == old(events) + [ToastError(TooManyTagsMessage)]
      ensures DecideAddTag(old(tags), old(tagInput)).Ignored? ==> tagInput == old(tagInput) && events == old(events)
      ensures url == old(url) && isProcessing == old(isProcessing)
      ensures TagsValid(old(tags)) ==> TagsValid(tags)
    {
      ghost var decision := DecideAddTag(tags, tagInput);
      ghost var after := TagsAfterAdd(tags, tagInput);
      var trimmedTag := Text.Trim(tagInput);
      if trimmedTag != "" && |tags| < MaxTags && trimmedTag !in tags {
        assert decision == Added(trimmedTag) && after == tags + [trimmedTag];
        tags := tags + [trimmedTag];
        tagInput := "";
      } else if |tags| >= MaxTags {
        assert decision == Full && after == tags;
        events := events + [ToastError(TooManyTagsMessage)];
      } else {
        assert decision == Ignored && after == tags;
      }
      if TagsValid(old(tags)) {
        AddTagKeepsValid(old(tags), old(tagInput));
      }
    }

    /** `handleTagInputKeyDown`: Enter adds the tag, any other key does
        nothing here. */
    method TagInputKeyDown(key: string)
      modifies this
      ensures key == "Enter" ==> tags == TagsAfterAdd(old(tags), old(tagInput))
      ensures key == "Enter" && DecideAddTag(old(tags), old(tagInput)).Added? ==> tagInput == "" && events == old(events)
      ensures key == "Enter" && DecideAddTag(old(tags), old(tagInput)).Full? ==>
        tagInput == old(tagInput) && events == old(events) + [ToastError(TooManyTagsMessage)]
      ensures key == "Enter" && DecideAddTag(old(tags), old(tagInput)).Ignored? ==> tagInput == old(tagInput) && events == old(events)
      ensures key != "Enter" ==> tags == old(tags) && tagInput == old(tagInput) && events == old(events)
      ensures url == old(url) && isProcessing == old(isProcessing)
      ensures TagsValid(old(tags)) ==> TagsValid(tags)
    {
      if key == "Enter" {
        AddTag();
      }
    }

    /** `handleRemoveTag`: drops the tag, the others keep their order. */
    method RemoveTag(tag: string)
      modifies this
      ensures tags == Remove(old(tags), tag)
      ensures url == old(url) && tagInput == old(tagInput) && isProcessing == old(isProcessing) && events == old(events)
      ensures TagsValid(old(tags)) ==> TagsValid(tags)
    {
      tags := Remove(tags, tag);
      if TagsValid(old(tags)) {
        RemoveTagKeepsValid(old(tags), tag);
      }
    }

    /** `handleSubmit` up to the `await`: a blank URL is refused with a
        toast and nothing is dispatched; otherwise processing starts and
        `addLink` is dispatched with the URL and the tags. */
    method SubmitStart()
      modifies this
      ensures Text.Trim(old(url)) == "" ==> isProcessing == old(isProcessing) && events == old(events) + [ToastError(InvalidUrlMessage)]
      ensures Text.Trim(old(url)) != "" ==> isProcessing && events == old(events) + [Dispatched(old(url), LinksSlice.NonEmpty(old(tags)))]
      ensures url == old(url) && tags == old(tags) && tagInput == old(tagInput)
    {
      if Text.Trim(url) == "" {
        events := events + [ToastError(InvalidUrlMessage)];
        return;
      }
      isProcessing := true;
      events := events + [Dispatched(url, LinksSlice.NonEmpty(tags))];
    }

    /** `handleSubmit` after the `await`: on success the success toast shows,
        the fields are cleared and the modal closes; on failure the error
        toast shows and the fields are kept. Processing ends either way. */
    method SubmitSettle(outcome: Result<LinksSlice.LinkItem, string>)
      modifies this
      ensures !isProcessing
      ensures outcome.Ok? ==> url == "" && tags == [] && tagInput == ""
      ensures outcome.Ok? ==> events == old(events) + [ToastSuccess(SavedMessage), OpenChanged(false)]
      ensures outcome.Err? ==> url == old(url) && tags == old(tags) && tagInput == old(tagInput)
      ensures outcome.Err? ==> events == old(events) + [ToastError(SaveFailedMessage(outcome.error))]
      ensures TagsValid(old(tags)) ==> TagsValid(tags)
    {
      if outcome.Ok? {
        events := events + [ToastSuccess(SavedMessage)];
        url := "";
        tags := [];
        tagInput := "";
        events := events + [OpenChanged(false)];
      } else {
        events := events + [ToastError(SaveFailedMessage(outcome.error))];
      }
      isProcessing := false;
    }

    /** `handleClose`: ignored while processing; otherwise the fields are
        cleared and the modal closes. */
    method Close()
      modifies this
      ensures old(isProcessing) ==> url == old(url) && tags == old(tags) && tagInput == old(tagInput) && events == old(events)
      ensures !old(isProcessing) ==> url == "" && tags == [] && tagInput == "" && events == old(events) + [OpenChanged(false)]
      ensures isProcessing == old(isProcessing)
      ensures TagsValid(old(tags)) ==> TagsValid(tags)
    {
      if !isProcessing {
        url := "";
        tags := [];
        tagInput := "";
        events := events + [OpenChanged(false)];
      }
    }
  }
}
