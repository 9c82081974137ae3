/**
 * The create/edit task dialog: a draft of three fields, seeded when the dialog opens,
 * cleared when it closes, and turned into a normalised payload on submit.
 */
module ItemDialog {
  import opened Optional
  import opened JsStrings
  import opened Items

  /** The draft the dialog opens with: seeded from the item in edit mode, blank in create mode. */
  function OpeningDraft(item: Option<Item>): (d: Draft)
    ensures item.None? ==> d.name == "" && d.description == "" && d.selectedTagIds == []
    ensures item.Some? ==> d.name == OrEmpty(item.value.name) && d.description == OrEmpty(item.value.description)
    ensures item.Some? ==> d.selectedTagIds == TagIds(item.value.tags)
  {
    match item
    case None => BlankDraft
    case Some(it) => SeedFrom(it)
  }

  /**
   * What submitting sends to `onSubmit`, or None when the guard stops it: the name must be
   * non-blank; name and description are trimmed, and a blank description is left out.
   */
  function SubmitPayload(d: Draft): (p: Option<ItemCreatePayload>)
    ensures p.None? <==> Blank(d.name)
    ensures p.Some? ==> p.value.name == Trim(d.name) && p.value.name != ""
    ensures p.Some? ==> (p.value.description.None? <==> Blank(d.description))
    ensures p.Some? && p.value.description.Some? ==> p.value.description.value == Trim(d.description)
    ensures p.Some? ==> p.value.tagIds == d.selectedTagIds
  {
    var name := Trim(d.name);
    if name == "" then None
    else
      var description := Trim(d.description);
      Some(ItemCreatePayload(name, if description == "" then None else Some(description), d.selectedTagIds))
  }

  /** A submitted payload is already normal: typed back into the dialog, it submits unchanged. */
  lemma {:induction false} SubmitPayloadIsNormal(d: Draft)
    requires SubmitPayload(d).Some?
    ensures var p := SubmitPayload(d).value;
            SubmitPayload(Draft(p.name, OrEmpty(p.description), p.tagIds)) == Some(p)
  {
    var p := SubmitPayload(d).value;
    var d' := Draft(p.name, OrEmpty(p.description), p.tagIds);
    assert p.name == Trim(d.name);
    TrimIdempotent(d.name);
    var desc := Trim(d'.description);
    if p.description.Some? {
      assert p.description.value == Trim(d.description);
      TrimIdempotent(d.description);
      assert desc == p.description.value;
    } else {
      assert d'.description == "";
    }
  }

  /** One mounted dialog: its props, its draft fields, and the calls it has made to its callbacks. */
  class Session {
    var isOpen: bool
    var item: Option<Item>
    var name: string
    var description: string
    var selectedTagIds: seq<int>
    /** The payloads passed to `onSubmit`, in call order. */
    var submitted: seq<ItemCreatePayload>
    /** How many times `onClose` was called. */
    var closeCalls: nat

    function CurrentDraft(): Draft
      reads this
    {
      Draft(name, description, selectedTagIds)
    }

    /** Edit mode is having an item (`item !== null`). */
    predicate IsEditMode()
      reads this
    {
      item.Some?
    }

    /** The dialog heading: editing an existing item or creating a new one. */
    function Title(): (t: string)
      reads this
      ensures t == "Edit Task" <==> item.Some?
      ensures t == "Create New Task" <==> item.None?
    {
      if IsEditMode() then "Edit Task" else "Create New Task"
    }

    /** The submit button's label, following the same mode. */
    function SubmitLabel(): (t: string)
      reads this
      ensures t == "Save Changes" <==> item.Some?
      ensures t == "Create Task" <==> item.None?
    {
      if IsEditMode() then "Save Changes" else "Create Task"
    }

    /** Mounting: the fields start empty and the reset effect runs once. */
    constructor(isOpen: bool, item: Option<Item>)
      ensures this.isOpen == isOpen && this.item == item
      ensures CurrentDraft() == if isOpen then OpeningDraft(item) else BlankDraft
      ensures submitted == [] && closeCalls == 0
    {
      this.isOpen := isOpen;
      this.item := item;
      var d := if isOpen then OpeningDraft(item) else BlankDraft;
      name, description, selectedTagIds := d.name, d.description, d.selectedTagIds;
      submitted, closeCalls := [], 0;
    }

    /**
     * New props from the parent. The reset effect runs only when `isOpen` or `item` changed,
     * and then reseeds the draft if the dialog is open; otherwise the draft is kept.
     */
    method SetProps(isOpen: bool, item: Option<Item>)
      modifies this
      ensures this.isOpen == isOpen && this.item == item
      ensures CurrentDraft() ==
                if isOpen && (isOpen != old(this.isOpen) || item != old(this.item)) then OpeningDraft(item)
                else old(CurrentDraft())
      ensures submitted == old(submitted) && closeCalls == old(closeCalls)
    {
      var changed := isOpen != this.isOpen || item != this.item;
      this.isOpen, this.item := isOpen, item;
      if changed && isOpen {
        var d := OpeningDraft(item);
        name, description, selectedTagIds := d.name, d.description, d.selectedTagIds;
      }
    }

    /** Typing in the name input. */
    method EditName(s: string)
      modifies this`name
      ensures name == s
    {
      name := s;
    }

    /** Typing in the description textarea. */
    method EditDescription(s: string)
      modifies this`description
      ensures description == s
    {
      description := s;
    }

    /** The tag selector reporting a new selection. */
    method SelectTags(ids: seq<int>)
      modifies this`selectedTagIds
      ensures selectedTagIds == ids
    {
      selectedTagIds := ids;
    }

    /** handleSubmit: calls `onSubmit` with the payload unless the name is blank; it neither changes the draft nor closes. */
    method Submit()
      modifies this`submitted
      ensures submitted == old(submitted) + match SubmitPayload(CurrentDraft()) { case None => [] case Some(p) => [p] }
      ensures Blank(name) ==> submitted == old(submitted)
    {
      var p := SubmitPayload(CurrentDraft());
      if p.Some? {
        submitted := submitted + [p.value];
      }
    }

    /** handleClose: empties all three fields, then calls `onClose` once. */
    method Close()
      modifies this`name, this`description, this`selectedTagIds, this`closeCalls
      ensures CurrentDraft() == BlankDraft
      ensures closeCalls == old(closeCalls) + 1
    {
      name, description, selectedTagIds := "", "", [];
      closeCalls := closeCalls + 1;
    }
  }

  /** Opening in create mode after an edited, closed and hidden dialog starts blank again. */
  method ReopenStartsBlank(item: Item)
  {
    var s := new Session(true, Some(item));
    s.EditName("draft that must not leak");
    s.Close();
    s.SetProps(false, Some(item));
    s.SetProps(true, None);
    assert s.CurrentDraft() == BlankDraft;
    s.Submit();
    assert s.submitted == [];
  }
}
