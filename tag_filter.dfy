/** The tag bar of src/components/TagFilter.tsx: one pill per tag, a create
    form, an edit mode with per-tag edit and delete buttons, and an inline
    edit form. The handlers change only form state; the tags themselves are
    changed by the parent through the `onCreateTag` and `onUpdateTag` callbacks,
    which the handlers return as calls. */
module TagFilter {
  import opened Wrappers
  import opened Text
  import opened TagColors

  /** A tag as the component receives it; its colour is a plain string, which
      the component casts to a palette key without checking. */
  datatype Tag = Tag(id: string, name: string, color: string)

  /** `onCreateTag(name, color)` */
  datatype CreateCall = CreateCall(name: string, color: TagColorKey)

  /** `onUpdateTag(id, name, color)` */
  datatype UpdateCall = UpdateCall(id: string, name: string, color: string)

  /** How one tag is drawn. */
  datatype TagView = EditForm | EditButtons | Pill(pressed: bool)

  /** The branch that draws `tag`: its inline edit form while it is being edited,
      edit and delete buttons in edit mode, and otherwise a pill that is pressed
      exactly when its id is selected. */
  function ViewOf(tag: Tag, editingTagId: Option<string>, isEditMode: bool, selected: set<string>)
    : (v: TagView)
    ensures v.EditForm? <==> editingTagId == Some(tag.id)
    ensures v.EditButtons? <==> editingTagId != Some(tag.id) && isEditMode
    ensures v.Pill? ==> (v.pressed <==> tag.id in selected)
  {
    if editingTagId == Some(tag.id) then EditForm
    else if isEditMode then EditButtons
    else Pill(tag.id in selected)
  }

  /** The walk-through of src/components/TagFilter.test.tsx: with "tag-1"
      selected, its pill is pressed and the other one is not. */
  lemma PressedFollowsSelection(groceries: Tag, urgent: Tag)
    requires groceries.id == "tag-1" && urgent.id == "tag-2"
    ensures ViewOf(groceries, None, false, {"tag-1"}) == Pill(true)
    ensures ViewOf(urgent, None, false, {"tag-1"}) == Pill(false)
  {
  }

  class TagFilter {
    const tags: seq<Tag>
    const selectedTagIds: set<string>
    var showCreateForm: bool
    var newTagName: string
    var newTagColor: TagColorKey
    var isEditMode: bool
    var editingTagId: Option<string>
    var editName: string
    var editColor: string

    constructor (tags: seq<Tag>, selectedTagIds: set<string>)
      ensures this.tags == tags && this.selectedTagIds == selectedTagIds
      ensures !showCreateForm && newTagName == "" && newTagColor == DefaultTagColor
      ensures !isEditMode && editingTagId == None && editName == "" && editColor == DefaultTagColor
    {
      this.tags, this.selectedTagIds := tags, selectedTagIds;
      showCreateForm, newTagName, newTagColor := false, "", DefaultTagColor;
      isEditMode, editingTagId, editName, editColor := false, None, "", DefaultTagColor;
    }

    /** How `tag` is drawn in the current state. */
    function View(tag: Tag): (v: TagView)
      reads this
      ensures v.Pill? ==> (v.pressed <==> tag.id in selectedTagIds)
    {
      ViewOf(tag, editingTagId, isEditMode, selectedTagIds)
    }

    /** The edit-mode toggle is drawn only beside the "+ Tag" button, and only
        when there are tags. */
    predicate EditToggleShown()
      reads this
    {
      !showCreateForm && |tags| > 0
    }

    /** The "+ Tag" button. */
    method OpenCreateForm()
      modifies this`showCreateForm
      ensures showCreateForm
    {
      showCreateForm := true;
    }

    /** Typing into the create form. */
    method SetNewTagName(name: string)
      modifies this`newTagName
      ensures newTagName == name
    {
      newTagName := name;
    }

    /** A click on a palette swatch of the create form. */
    method SetNewTagColor(color: TagColorKey)
      modifies this`newTagColor
      ensures newTagColor == color
    {
      newTagColor := color;
    }

    /** `handleCreate`: a blank name does nothing; otherwise the parent is asked
        to create the trimmed name in the chosen colour, and the form is reset
        to its defaults and hidden. */
    method HandleCreate() returns (call: Option<CreateCall>)
      modifies this`newTagName, this`newTagColor, this`showCreateForm
      ensures IsBlank(old(newTagName)) ==>
        && call == None && newTagName == old(newTagName)
        && newTagColor == old(newTagColor) && showCreateForm == old(showCreateForm)
      ensures !IsBlank(old(newTagName)) ==>
        && call == Some(CreateCall(Trim(old(newTagName)), old(newTagColor)))
        && newTagName == "" && newTagColor == DefaultTagColor && !showCreateForm
    {
      if IsBlank(newTagName) {
        return None;
      }
      call := Some(CreateCall(Trim(newTagName), newTagColor));
      newTagName := "";
      newTagColor := DefaultTagColor;
      showCreateForm := false;
    }

    /** The create form's cancel button: hides the form and clears the name but
        keeps the chosen colour. */
    method CancelCreate()
      modifies this`showCreateForm, this`newTagName
      ensures !showCreateForm && newTagName == ""
    {
      showCreateForm := false;
      newTagName := "";
    }

    /** The Edit / Done button flips edit mode. */
    method ToggleEditMode()
      requires EditToggleShown()
      modifies this`isEditMode
      ensures isEditMode == !old(isEditMode)
    {
      isEditMode := !isEditMode;
    }

    /** `handleStartEdit`: the edit form is loaded with the tag's name and colour. */
    method HandleStartEdit(tag: Tag)
      modifies this`editingTagId, this`editName, this`editColor
      ensures editingTagId == Some(tag.id) && editName == tag.name && editColor == tag.color
      ensures View(tag) == EditForm
    {
      editingTagId := Some(tag.id);
      editName := tag.name;
      editColor := tag.color;
    }

    /** Typing into the edit form. */
    method SetEditName(name: string)
      modifies this`editName
      ensures editName == name
    {
      editName := name;
    }

    /** A click on a palette swatch of the edit form. */
    method SetEditColor(color: TagColorKey)
      modifies this`editColor
      ensures editColor == color
    {
      editColor := color;
    }

    /** `handleUpdate`: without a tag under edit, or with a blank name, nothing
        happens; otherwise the parent is asked to update the tag with the
        trimmed name and the chosen colour, and editing ends. */
    method HandleUpdate() returns (call: Option<UpdateCall>)
      modifies this`editingTagId
      ensures !Present(old(editingTagId)) || IsBlank(editName) ==>
        call == None && editingTagId == old(editingTagId)
      ensures Present(old(editingTagId)) && !IsBlank(editName) ==>
        && call == Some(UpdateCall(old(editingTagId).value, Trim(editName), editColor))
        && editingTagId == None
    {
      if !Present(editingTagId) || IsBlank(editName) {
        return None;
      }
      call := Some(UpdateCall(editingTagId.value, Trim(editName), editColor));
      editingTagId := None;
    }

    /** The edit form's cancel button. */
    method CancelEdit()
      modifies this`editingTagId
      ensures editingTagId == None
    {
      editingTagId := None;
    }
  }
}
