/** The click-to-edit title (app/components/EditableTitle.js): a title shown as text that
    turns into an input on click; Enter or leaving the input submits, Escape reverts.

    The `onUpdate` callback belongs to the parent; the model records the calls made to
    it, in order, in `updates`. */
module TitleEdit {
  import opened Text

  /** The `key` of a keydown event, as far as the handler distinguishes it. */
  datatype Key = Enter | Escape | OtherKey

  /** The calls one submit makes to `onUpdate`: one call with the trimmed text when that is
      not empty, none when the text is whitespace only. */
  function SubmitCalls(text: string): (calls: seq<string>)
    ensures |calls| <= 1
    ensures calls == [] <==> AllWhitespace(text)
    ensures |calls| == 1 ==> calls[0] == Trim(text) && calls[0] != "" && Trim(calls[0]) == calls[0]
  {
    var t := Trim(text);
    TrimIdempotent(text);
    if t != "" then [t] else []
  }

  /** Trimmed, non-empty titles: what the parent may be handed. */
  predicate AllTrimmedTitles(titles: seq<string>) {
    forall i :: 0 <= i < |titles| ==> titles[i] != "" && Trim(titles[i]) == titles[i]
  }

  /** Handing the parent the trimmed text of a submit keeps every title it got trimmed and non-empty. */
  lemma SubmitKeepsTitlesTrimmed(updates: seq<string>, text: string)
    requires AllTrimmedTitles(updates) && Trim(text) != ""
    ensures AllTrimmedTitles(updates + [Trim(text)])
  {
    TrimIdempotent(text);
    var all := updates + [Trim(text)];
    assert forall i :: 0 <= i < |updates| ==> all[i] == updates[i];
  }

  class EditableTitle {
    /** The `title` prop. */
    var title: string
    var isEditing: bool
    var editableTitle: string
    /** The arguments of the calls made to the `onUpdate` prop, in order. */
    var updates: seq<string>

    /** The parent is only ever handed trimmed, non-empty titles. */
    predicate Valid()
      reads this
    {
      AllTrimmedTitles(updates)
    }

    /** Mounting: not editing, the edit buffer starts as the title. */
    constructor (title: string)
      ensures Valid()
      ensures this.title == title && !isEditing && editableTitle == title && updates == []
    {
      this.title := title;
      isEditing := false;
      editableTitle := title;
      updates := [];
    }

    /** The parent passes a new title. The edit buffer is state initialised once on mount,
      so it keeps its text. */
    method SetTitle(newTitle: string)
      modifies this`title
      ensures title == newTitle
    {
      title := newTitle;
    }

    /** Clicking the displayed title, which is only shown while not editing. */
    method Click()
      requires !isEditing
      modifies this`isEditing
      ensures isEditing
    {
      isEditing := true;
    }

    /** Typing into the input, which is only shown while editing. */
    method Change(text: string)
      requires isEditing
      modifies this`editableTitle
      ensures editableTitle == text
    {
      editableTitle := text;
    }

    /** `handleSubmit`: hand the trimmed text to `onUpdate` unless it is empty, and leave
      editing mode either way; the edit buffer keeps its untrimmed text. */
    method Submit()
      requires Valid()
      modifies this`isEditing, this`updates
      ensures Valid() && !isEditing
      ensures updates == old(updates) + SubmitCalls(editableTitle)
    {
      var trimmed := Trim(editableTitle);
      if trimmed != "" {
        SubmitKeepsTitlesTrimmed(updates, editableTitle);
        updates := updates + [trimmed];
        assert SubmitCalls(editableTitle) == [trimmed];
      } else {
        assert SubmitCalls(editableTitle) == [];
      }
      isEditing := false;
    }

    /** `handleKeyDown`: Enter submits; Escape puts the title back into the edit buffer
      and leaves editing mode without calling `onUpdate`; any other key does nothing. */
    method KeyDown(key: Key)
      requires Valid() && isEditing
      modifies this`isEditing, this`updates, this`editableTitle
      ensures Valid()
      ensures key == Enter ==> && !isEditing && editableTitle == old(editableTitle)
                               && updates == old(updates) + SubmitCalls(old(editableTitle))
      ensures key == Escape ==> !isEditing && editableTitle == title && updates == old(updates)
      ensures key == OtherKey ==> isEditing && editableTitle == old(editableTitle) && updates == old(updates)
    {
      if key == Enter {
        Submit();
      }
      if key == Escape {
        editableTitle := title;
        isEditing := false;
      }
    }

    /** The input losing focus submits, exactly as Enter does. */
    method Blur()
      requires Valid() && isEditing
      modifies this`isEditing, this`updates
      ensures Valid() && !isEditing
      ensures updates == old(updates) + SubmitCalls(editableTitle)
    {
      Submit();
    }
  }
}
