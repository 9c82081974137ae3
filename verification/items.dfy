/**
 * The task ("item") records the dialogs receive, the editable draft they keep, and the
 * payloads they hand to their callbacks.
 */
module Items {
  import opened Optional

  /** A tag as attached to an item; the dialogs only use its id. */
  datatype TagRef = TagRef(id: int, name: string, color: string)

  /** An item as the dialogs receive it; any field but the id may be missing. */
  datatype Item = Item(
    id: int,
    name: Option<string>,
    description: Option<string>,
    tags: Option<seq<TagRef>>,
    createdAt: Option<string>,
    updatedAt: Option<string>)

  /** The three editable fields both dialogs keep. */
  datatype Draft = Draft(name: string, description: string, selectedTagIds: seq<int>)

  /** Payload of a create/edit submission (the item create request shape). */
  datatype ItemCreatePayload = ItemCreatePayload(name: string, description: Option<string>, tagIds: seq<int>)

  /** Payload of a detail-dialog save: the item id and every edited field. */
  datatype ItemUpdatePayload = ItemUpdatePayload(id: int, name: string, description: string, tagIds: seq<int>)

  const BlankDraft := Draft("", "", [])

  /** `value || ''`: a missing string reads as the empty string. */
  function OrEmpty(s: Option<string>): (r: string)
    ensures s.None? ==> r == ""
    ensures s.Some? ==> r == s.value
  {
    match s
    case Some(v) => v
    case None => ""
  }

  /** `tags?.map(t => t.id) || []`: the ids of the tags, in order, or none. */
  function TagIds(tags: Option<seq<TagRef>>): (ids: seq<int>)
    ensures tags.None? ==> ids == []
    ensures tags.Some? ==> |ids| == |tags.value| && forall k :: 0 <= k < |ids| ==> ids[k] == tags.value[k].id
  {
    match tags
    case None => []
    case Some(ts) => seq(|ts|, k requires 0 <= k < |ts| => ts[k].id)
  }

  /** The draft an open dialog starts from when it is given an item. */
  function SeedFrom(item: Item): (d: Draft)
    ensures item.name.None? ==> d.name == ""
    ensures item.name.Some? ==> d.name == item.name.value
    ensures item.description.None? ==> d.description == ""
    ensures item.description.Some? ==> d.description == item.description.value
    ensures d.selectedTagIds == TagIds(item.tags)
  {
    Draft(OrEmpty(item.name), OrEmpty(item.description), TagIds(item.tags))
  }
}
