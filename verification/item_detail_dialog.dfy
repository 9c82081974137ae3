/**
 * The task detail dialog: an edit session over one item with validation, a saving flag,
 * an error banner, and save/cancel. The awaited `onSave` is split at the await: `Save` runs
 * up to it and `SaveSettled` runs the rest once the call has succeeded or failed.
 */
module ItemDetailDialog {
  import opened Optional
  import opened JsStrings
  import opened Items
  import ItemDialog

  const NameRequired: string := "Name is required"
  const SaveFailedFallback: string := "Failed to save changes"
  const NotAvailable: string := "N/A"

  /** How an awaited `onSave` call ended: it resolved, or it threw an error with an optional message. */
  datatype SaveOutcome = Saved | Failed(message: Option<string>)

  /** What a timestamp cell shows: "N/A" for a missing or empty timestamp, otherwise a locale-formatted date. */
  datatype TimestampText = Literal(text: string) | LocaleFormatted(source: string)

  /**
   * The save request for a draft, or None when validation stops it: the name must be
   * non-blank; name and description are trimmed, and a blank description is sent as "".
   */
  function SaveRequest(id: int, d: Draft): (p: Option<ItemUpdatePayload>)
    ensures p.None? <==> Blank(d.name)
    ensures p.Some? ==> p.value.id == id && p.value.tagIds == d.selectedTagIds
    ensures p.Some? ==> p.value.name == Trim(d.name) && p.value.name != ""
    ensures p.Some? ==> p.value.description == Trim(d.description)
  {
    var name := Trim(d.name);
    if name == "" then None else Some(ItemUpdatePayload(id, name, Trim(d.description), d.selectedTagIds))
  }

  /** The detail dialog accepts exactly the drafts the create/edit dialog accepts, and sends the same name and tags. */
  lemma SaveAgreesWithSubmit(id: int, d: Draft)
    ensures SaveRequest(id, d).Some? <==> ItemDialog.SubmitPayload(d).Some?
    ensures SaveRequest(id, d).Some? ==>
              SaveRequest(id, d).value.name == ItemDialog.SubmitPayload(d).value.name
              && SaveRequest(id, d).value.tagIds == ItemDialog.SubmitPayload(d).value.tagIds
              && OrEmpty(ItemDialog.SubmitPayload(d).value.description) == SaveRequest(id, d).value.description
  {
  }

  /**
   * Seeding and sending fit together: an item with a non-blank name, opened in either dialog
   * and submitted untouched, sends its trimmed name and its tag ids in order; the blank create
   * dialog sends nothing.
   */
  lemma SeededItemIsSendable(it: Item)
    requires it.name.Some? && !Blank(it.name.value)
    ensures ItemDialog.SubmitPayload(ItemDialog.OpeningDraft(Some(it))).Some?
    ensures var p := ItemDialog.SubmitPayload(ItemDialog.OpeningDraft(Some(it))).value;
            p.name == Trim(it.name.value) && p.tagIds == TagIds(it.tags)
    ensures SaveRequest(it.id, SeedFrom(it)).Some?
    ensures var q := SaveRequest(it.id, SeedFrom(it)).value;
            q.id == it.id && q.name == Trim(it.name.value) && q.tagIds == TagIds(it.tags)
            && q.description == Trim(OrEmpty(it.description))
    ensures ItemDialog.SubmitPayload(ItemDialog.OpeningDraft(None)) == None
  {
  }

  /** What pressing Save does: nothing while a save is in flight, a rejection, or a started save. */
  datatype SaveStep = Disabled | Rejected | Started(request: ItemUpdatePayload)

  /**
   * handleSave up to the await, behind the disabled button: no effect while saving, a
   * rejection exactly for a blank name, and otherwise the save request is sent.
   */
  function AttemptSave(isSaving: bool, id: int, d: Draft): (step: SaveStep)
    ensures step.Disabled? <==> isSaving
    ensures step.Rejected? <==> !isSaving && Blank(d.name)
    ensures step.Started? ==> SaveRequest(id, d) == Some(step.request)
  {
    if isSaving then Disabled
    else match SaveRequest(id, d)
      case None => Rejected
      case Some(request) => Started(request)
  }

  /** The error banner text after a failed save: the error's message, unless it has none. */
  function FailureMessage(message: Option<string>): (r: string)
    ensures r != ""
    ensures message.Some? && message.value != "" ==> r == message.value
    ensures message.None? || message.value == "" ==> r == SaveFailedFallback
  {
    if message.Some? && message.value != "" then message.value else SaveFailedFallback
  }

  /** formatDateTime: a missing or empty timestamp shows "N/A"; any other is handed to the locale formatter. */
  function FormatDateTime(ts: Option<string>): (r: TimestampText)
    ensures r == Literal(NotAvailable) <==> ts.None? || ts.value == ""
    ensures r.LocaleFormatted? ==> ts == Some(r.source)
  {
    if ts.None? || ts.value == "" then Literal(NotAvailable) else LocaleFormatted(ts.value)
  }

  /** One mounted detail dialog: props, the five state fields, and the calls made to its callbacks. */
  class Session {
    var item: Option<Item>
    var isOpen: bool
    var name: string
    var description: string
    var selectedTagIds: seq<int>
    var isSaving: bool
    var error: string
    /** The payloads passed to `onSave`, in call order. */
    var saves: seq<ItemUpdatePayload>
    /** How many times `onClose` was called. */
    var closeCalls: nat

    /** No error banner is ever shown while a save is in flight. */
    ghost predicate Valid()
      reads this
    {
      isSaving ==> error == ""
    }

    function CurrentDraft(): Draft
      reads this
    {
      Draft(name, description, selectedTagIds)
    }

    /** Mounting: empty fields, no error, not saving; the seeding effect runs once. */
    constructor(item: Option<Item>, isOpen: bool)
      ensures Valid()
      ensures this.item == item && this.isOpen == isOpen
      ensures CurrentDraft() == if item.Some? && isOpen then SeedFrom(item.value) else BlankDraft
      ensures !isSaving && error == "" && saves == [] && closeCalls == 0
    {
      this.item, this.isOpen := item, isOpen;
      var d := if item.Some? && isOpen then SeedFrom(item.value) else BlankDraft;
      name, description, selectedTagIds := d.name, d.description, d.selectedTagIds;
      isSaving, error := false, "";
      saves, closeCalls := [], 0;
    }

    /**
     * New props from the parent. When `item` or `isOpen` changed and the dialog is open on an
     * item, the effect reseeds the draft and clears the error; otherwise nothing but the props changes.
     */
    method SetProps(item: Option<Item>, isOpen: bool)
      requires Valid()
      modifies this
      ensures Valid()
      ensures this.item == item && this.isOpen == isOpen
      ensures if item.Some? && isOpen && (item != old(this.item) || isOpen != old(this.isOpen))
              then CurrentDraft() == SeedFrom(item.value) && error == ""
              else CurrentDraft() == old(CurrentDraft()) && error == old(error)
      ensures isSaving == old(isSaving) && saves == old(saves) && closeCalls == old(closeCalls)
    {
      var changed := item != this.item || isOpen != this.isOpen;
      this.item, this.isOpen := item, isOpen;
      if changed && item.Some? && isOpen {
        var d := SeedFrom(item.value);
        name, description, selectedTagIds := d.name, d.description, d.selectedTagIds;
        error := "";
      }
    }

    /** Typing in the name input. */
    method EditName(s: string)
      modifies this`name
      ensures name == s
    {
      name := s;
    }

    /** Typing in the description textarea. */
    method EditDescription(s: string)
      modifies this`description
      ensures description == s
    {
      description := s;
    }

    /** The tag selector reporting a new selection. */
    method SelectTags(ids: seq<int>)
      modifies this`selectedTagIds
      ensures selectedTagIds == ids
    {
      selectedTagIds := ids;
    }

    /**
     * Pressing Save, up to the await: the step `AttemptSave` decides. Disabled while saving;
     * a rejected draft sets "Name is required" and calls nothing; a started save clears the
     * error, sets `isSaving` and calls `onSave` with the request.
     */
    method Save()
      requires Valid() && item.Some?
      modifies this`isSaving, this`error, this`saves
      ensures Valid()
      ensures var step := old(AttemptSave(isSaving, item.value.id, CurrentDraft()));
              && (step.Disabled? ==> isSaving && error == old(error) && saves == old(saves))
              && (step.Rejected? ==> error == NameRequired && !isSaving && saves == old(saves))
              && (step.Started? ==> isSaving && error == "" && saves == old(saves) + [step.request])
    {
      var step := AttemptSave(isSaving, item.value.id, CurrentDraft());
      match step {
        case Disabled =>
        case Rejected =>
          error := NameRequired;
        case Started(request) =>
          isSaving, error, saves := true, "", saves + [request];
      }
    }

    /**
     * The rest of handleSave once `onSave` has settled: on success `onClose` is called,
     * on failure the error banner shows the failure; `isSaving` ends false either way.
     */
    method SaveSettled(outcome: SaveOutcome)
      requires Valid() && isSaving
      modifies this`isSaving, this`error, this`closeCalls
      ensures Valid() && !isSaving
      ensures outcome.Saved? ==> closeCalls == old(closeCalls) + 1 && error == ""
      ensures outcome.Failed? ==> closeCalls == old(closeCalls) && error == FailureMessage(outcome.message)
    {
      match outcome {
        case Saved =>
          closeCalls := closeCalls + 1;
        case Failed(message) =>
          error := FailureMessage(message);
      }
      isSaving := false;
    }

    /** handleCancel: clears the error and calls `onClose`; the draft is left for the next opening to reseed. */
    method Cancel()
      requires Valid()
      modifies this`error, this`closeCalls
      ensures Valid()
      ensures error == "" && closeCalls == old(closeCalls) + 1
    {
      error := "";
      closeCalls := closeCalls + 1;
    }
  }

  /** Editing, cancelling and reopening on the unchanged item shows the item's own values and saves nothing. */
  method CancelThenReopen(item: Item)
  {
    var s := new Session(Some(item), true);
    s.EditName("edited but cancelled");
    s.Cancel();
    s.SetProps(Some(item), false);
    s.SetProps(Some(item), true);
    assert s.CurrentDraft() == SeedFrom(item);
    assert s.saves == [] && s.error == "";
  }

  /** A whitespace-only name is rejected with "Name is required" and `onSave` is not called. */
  method BlankNameRejected(item: Item)
  {
    var s := new Session(Some(item), true);
    s.EditName("   ");
    s.Save();
    assert s.error == NameRequired && s.saves == [] && !s.isSaving;
  }
}
