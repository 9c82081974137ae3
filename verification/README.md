# Task board dialogs, theme preference, tag schemas and footer — a Dafny model

This project models the small state machines and validators of a task board web application:

- the **create/edit task dialog** (`ItemDialog`): a draft of name, description and selected tag
  ids, seeded when the dialog opens, emptied when it closes, and turned into a normalised
  create payload on submit, which a blank name blocks;
- the **task detail dialog** (`ItemDetailDialog`): the same draft plus a saving flag and an error
  banner. Saving validates the name, calls `onSave`, then closes or shows the failure. Cancel
  clears the error and closes. Missing timestamps show "N/A";
- the **theme preference hook** (`UseTheme`): the initial theme read from a fallible key-value
  storage, toggling, persisting under the key "theme", and the "dark" class on the document root;
- the **dialog shell** (`Dialog`): Escape closes, the Tab/Shift+Tab focus trap, initial focus and
  the body scroll lock;
- the **tag request/response schemas** (`TagDto`): name length 1..50 and the `#RRGGBB` colour pattern;
- the **footer link** (`Footer`): the backend URL with its first "http://" removed as link text.

Shared pieces live in `Optional` (an option type), `JsStrings` (JavaScript's `trim()` with the
exact ECMAScript whitespace set, `indexOf()`, and `replace()` of a string pattern by the empty string) and `Items` (the
item record, the draft and the payload shapes).

Components are classes whose fields are their React state. Callbacks passed in as props (`onSubmit`,
`onSave`, `onClose`) are recorded on the object as call logs: the sequence of payloads passed, or
the number of calls. The awaited `onSave` is cut at the `await`. `Save` runs the handler up to it
and `SaveSettled(outcome)` runs the rest, given how the call ended (resolved, or threw with an
optional message). So "saving" is an observable state and the model stays deterministic.

Facts about the code that the model keeps:
- `handleSubmit` in the create/edit dialog does not call `onClose`; closing after a submit is left to the parent.
- `handleCancel` in the detail dialog does not reset the draft; the draft is reseeded when `isOpen` or `item` next changes.
- The detail dialog's save request carries no due date, and its validation message is "Name is required".

## Model

| member | source | states |
|---|---|---|
| JsStrings.Trim | frontend/src/components/ItemDialog.jsx:38-42 | `trim()` gives "" exactly for strings made only of ECMAScript whitespace/line terminators; a non-empty result neither starts nor ends with one |
| JsStrings.TrimIsInfix | frontend/src/components/ItemDialog.jsx:41-42 | the trimmed string is a contiguous infix `s[i..j]` with only whitespace cut off at both ends |
| JsStrings.TrimIdempotent | frontend/src/components/ItemDialog.jsx:41-42 | trimming an already trimmed string changes nothing |
| JsStrings.TrimOfTrimmed | frontend/src/components/ItemDialog.jsx:41-42 | a string without whitespace at either end is its own trim |
| JsStrings.IndexOf | frontend/src/components/Footer.tsx:16 | the search finds the first occurrence of the pattern, and reports none exactly when it occurs nowhere |
| JsStrings.RemoveFirst | frontend/src/components/Footer.tsx:16 | `replace(pat, "")`: without an occurrence the string is unchanged; otherwise exactly the first occurrence is cut out, and putting it back at that index gives the original |
| Items.TagIds | frontend/src/components/ItemDialog.jsx:27 | the selected ids are the item's tag ids in the same order; no tags gives `[]` |
| Items.OrEmpty | frontend/src/components/ItemDialog.jsx:25-26 | `value || ''`: a missing string reads as "", a present one as itself |
| Items.SeedFrom | frontend/src/components/ItemDetailDialog.jsx:19-21 | the draft takes the item's name and description ("" when missing) and its tag ids in order ([] when missing) |
| ItemDialog.OpeningDraft | frontend/src/components/ItemDialog.jsx:23-32 | opening with an item seeds name and description from it ("" when missing) and its tag ids in order; opening with null gives "", "" and [] |
| ItemDialog.SubmitPayload | frontend/src/components/ItemDialog.jsx:38-44 | no payload exactly when the name is blank; otherwise name = trimmed name (non-empty), description = trimmed description or absent exactly when blank, tag ids unchanged and in order |
| ItemDialog.SubmitPayloadIsNormal | frontend/src/components/ItemDialog.jsx:40-44 | a submitted payload typed back into the dialog submits the identical payload (the normalisation is a fixed point) |
| ItemDialog.Session.constructor | frontend/src/components/ItemDialog.jsx:14-34 | mounting starts with empty fields, runs the reset effect once (seeding when open) and has made no callback calls |
| ItemDialog.Session.Title | frontend/src/components/ItemDialog.jsx:19-71 | the heading is "Edit Task" exactly when an item is given (`isEditMode`), "Create New Task" exactly when it is null |
| ItemDialog.Session.SubmitLabel | frontend/src/components/ItemDialog.jsx:142 | the submit button reads "Save Changes" exactly in edit mode and "Create Task" exactly in create mode |
| ItemDialog.Session.SetProps | frontend/src/components/ItemDialog.jsx:22-34 | the draft is reseeded from the new item (or blanked) only when the dialog is open and `isOpen` or `item` changed; otherwise the draft is kept; no callback is called |
| ItemDialog.Session.EditName | frontend/src/components/ItemDialog.jsx:94 | typing replaces the name field |
| ItemDialog.Session.EditDescription | frontend/src/components/ItemDialog.jsx:109 | typing replaces the description field |
| ItemDialog.Session.SelectTags | frontend/src/components/ItemDialog.jsx:123 | the tag selector's new selection replaces the selected ids |
| ItemDialog.Session.Submit | frontend/src/components/ItemDialog.jsx:36-45 | `onSubmit` receives the payload exactly once unless the name is blank, in which case nothing is called; the draft, the open state and `onClose` are untouched |
| ItemDialog.Session.Close | frontend/src/components/ItemDialog.jsx:47-52 | all three fields become empty and `onClose` is called exactly once |
| ItemDetailDialog.SaveRequest | frontend/src/components/ItemDetailDialog.jsx:27-41 | no request exactly when the name is blank; otherwise `{id: item.id, name: trimmed non-empty, description: trimmed (empty kept), tag_ids: selection}` |
| ItemDetailDialog.SaveAgreesWithSubmit | frontend/src/components/ItemDetailDialog.jsx:27-41 | both dialogs accept the same drafts and send the same name and tags; they differ only in sending "" or omitting a blank description |
| ItemDetailDialog.SeededItemIsSendable | frontend/src/components/ItemDetailDialog.jsx:17-41 | an item with a non-blank name, opened in either dialog and submitted untouched, sends its trimmed name and its tag ids in order (the detail dialog also its id and trimmed description); the blank create dialog sends nothing |
| ItemDetailDialog.FailureMessage | frontend/src/components/ItemDetailDialog.jsx:44 | the banner text after a failure is never empty: the error's message when it has one, else "Failed to save changes" |
| ItemDetailDialog.FormatDateTime | frontend/src/components/ItemDetailDialog.jsx:55-56 | "N/A" exactly for a missing or empty timestamp; any other timestamp goes to the locale formatter unchanged |
| ItemDetailDialog.Session.constructor | frontend/src/components/ItemDetailDialog.jsx:10-24 | mounting: not saving, no error, no calls; the draft is seeded when open on an item, blank otherwise |
| ItemDetailDialog.Session.SetProps | frontend/src/components/ItemDetailDialog.jsx:17-24 | when `item` or `isOpen` changed and the dialog is open on an item, the draft is reseeded from it and the error cleared; otherwise draft and error are kept |
| ItemDetailDialog.Session.EditName | frontend/src/components/ItemDetailDialog.jsx:93 | typing replaces the name field |
| ItemDetailDialog.Session.EditDescription | frontend/src/components/ItemDetailDialog.jsx:108 | typing replaces the description field |
| ItemDetailDialog.Session.SelectTags | frontend/src/components/ItemDetailDialog.jsx:120 | the tag selector's new selection replaces the selected ids |
| ItemDetailDialog.AttemptSave | frontend/src/components/ItemDetailDialog.jsx:26-41 | pressing Save does nothing exactly while a save is in flight (the button is disabled then); otherwise it is rejected exactly when the name is blank, and a started save sends precisely the save request of the draft |
| ItemDetailDialog.Session.Save | frontend/src/components/ItemDetailDialog.jsx:26-41 | follows the step `AttemptSave` decides from the state before the press: disabled changes nothing; rejected sets "Name is required", calls nothing and stays not saving; started clears the error, starts saving and appends the request to the `onSave` calls; no error banner ever shows while saving |
| ItemDetailDialog.Session.SaveSettled | frontend/src/components/ItemDetailDialog.jsx:42-47 | success calls `onClose` once with no error; failure sets the failure message and does not close; saving ends either way |
| ItemDetailDialog.Session.Cancel | frontend/src/components/ItemDetailDialog.jsx:50-53 | the error is cleared and `onClose` is called once, without calling `onSave` |
| UseTheme.InitialTheme | frontend/src/hooks/useTheme.ts:12-22 | a stored "dark" or "light" is taken as is; any other value, no value or a failed read gives light |
| UseTheme.Toggled | frontend/src/hooks/useTheme.ts:41 | toggling always changes the theme (light to dark, dark to light) |
| UseTheme.ToggleInvolution | frontend/src/hooks/useTheme.ts:39-50 | toggling twice restores the original theme |
| UseTheme.StoredThemeReadsBack | frontend/src/hooks/useTheme.ts:12-17 | a theme written under "theme" is read back as the same theme |
| UseTheme.Storage.GetItem | frontend/src/hooks/useTheme.ts:14 | a read fails exactly when storage throws; otherwise it gives the stored value, or null for a missing key |
| UseTheme.Storage.SetItem | frontend/src/hooks/useTheme.ts:43-46 | a write stores the entry, or fails and changes nothing |
| UseTheme.DocumentRoot.ApplyTheme | frontend/src/hooks/useTheme.ts:24-30 | adds the "dark" class for the dark theme and removes it otherwise, leaving every other class |
| UseTheme.ThemeHook.constructor | frontend/src/hooks/useTheme.ts:32-37 | the initial theme comes from the "theme" entry and the document's "dark" class matches it |
| UseTheme.ThemeHook.Toggle | frontend/src/hooks/useTheme.ts:39-50 | the theme flips even when the write fails; the new theme is stored under "theme" when writing works; the "dark" class matches the new theme |
| Dialog.TabWrap | frontend/src/components/Dialog.tsx:86-103 | the trap intervenes exactly on Tab at the last element (to the first) and Shift+Tab at the first (to the last), never with no focusable elements |
| Dialog.FocusAfterTab | frontend/src/components/Dialog.tsx:88-103 | with focus on one of the dialog's elements, a Tab press never takes it out of the dialog |
| Dialog.TabPresses | frontend/src/components/Dialog.tsx:72-108 | however many Tab presses, focus stays on one of the dialog's elements |
| Dialog.TabWalksForward | frontend/src/components/Dialog.tsx:97-102 | Tab before the last element moves one element forward per press |
| Dialog.ShiftTabWalksBackward | frontend/src/components/Dialog.tsx:91-96 | Shift+Tab after the first element moves one element back per press |
| Dialog.TabCyclesToFirst | frontend/src/components/Dialog.tsx:97-102 | as many Tab presses as there are elements bring focus from the first element back to it |
| Dialog.ShiftTabCyclesToLast | frontend/src/components/Dialog.tsx:91-96 | as many Shift+Tab presses as there are elements bring focus from the last element back to it |
| Dialog.DialogState.constructor | frontend/src/components/Dialog.tsx:20-70 | mounting locks the body exactly when open and focuses the first element when open with at least one |
| Dialog.DialogState.SetOpen | frontend/src/components/Dialog.tsx:34-70 | the body overflow is "hidden" while open and "" otherwise; opening focuses the first element if any; closing returns focus outside |
| Dialog.DialogState.Unmount | frontend/src/components/Dialog.tsx:41-43 | the cleanup unlocks the body |
| Dialog.DialogState.KeyDown | frontend/src/components/Dialog.tsx:20-108 | when not shown, no key does anything; Escape calls `onClose` exactly once (lines 20-32); Tab prevents the default exactly when the trap wraps, and focus follows the trap (lines 72-108); other keys do nothing |
| TagDto.NameErrors | backend/app/tags/application/dtos/tag_dto.py:21 | a name is valid exactly when 1 <= length <= 50; otherwise it gets one too-short or too-long error |
| TagDto.ColorErrors | backend/app/tags/application/dtos/tag_dto.py:22 | a colour is valid exactly when it is '#' followed by six characters from 0-9, a-f, A-F; otherwise it gets a pattern error |
| TagDto.ValidateCreate | backend/app/tags/application/dtos/tag_dto.py:18-22 | accepted exactly when name and colour are both given and valid, with the given values; an absent field is reported as missing (no defaults), a null one as a string type error |
| TagDto.ValidateUpdate | backend/app/tags/application/dtos/tag_dto.py:25-29 | accepted exactly when each given field is valid (absent or null is accepted as None), with those values; never reports a missing field |
| TagDto.ValidateResponse | backend/app/tags/application/dtos/tag_dto.py:7-15 | accepted exactly when id, name, colour and created_at are given and the colour matches the pattern; a null id or created_at is a type error; updated_at may be absent or null |
| TagDto.UpdateAgreesWithCreate | backend/app/tags/application/dtos/tag_dto.py:21-29 | an update giving both fields is accepted exactly when a create request with them would be |
| Footer.BackendUrl | frontend/src/components/Footer.tsx:5 | the URL is the given one, or "http://localhost:8000/docs" when none is given |
| Footer.DisplayText | frontend/src/components/Footer.tsx:16 | the text is the URL itself when it contains no "http://", and exactly 7 characters shorter when it does |
| Footer.RenderLink | frontend/src/components/Footer.tsx:10-17 | the link target is always the unmodified URL and its text is never longer |
| Footer.DisplayRemovesFirstScheme | frontend/src/components/Footer.tsx:16 | the text is the URL with its first "http://" cut out and nothing else changed; putting it back gives the URL |
| Footer.DefaultLink | frontend/src/components/Footer.tsx:5-16 | by default the link points to "http://localhost:8000/docs" and reads "localhost:8000/docs" |
| Footer.DisplayDropsLeadingScheme | frontend/src/components/Footer.tsx:16 | a URL starting with "http://" is shown without that prefix |

## Left out

- The board itself: grouping by column, drag-and-drop, due-date urgency, the tag selector, the task
  form and the application shell. Their source files are not part of this model.
- Promises and concurrency: one `onSave` call is in flight at a time (the Save button is disabled
  while saving), and its outcome is an input to `SaveSettled`.
- React effect scheduling: each effect runs synchronously with the prop change. Object identity of
  the `item` prop is approximated by value equality. A new object with equal fields does not reseed.
- `formatDateTime`'s locale formatting (`toLocaleString`) and its `catch` branch: only the "N/A"
  decision is modelled.
- DOM plumbing: portals, `querySelectorAll`, listener registration, backdrop clicks, and which
  outside element regains focus on close (only "outside the dialog" is kept). The set of focusable
  elements is fixed for the life of a dialog.
- Dialog.FocusAfterTab: the browser's default move when the trap does not intervene is an assumption,
  not code. It is modelled as "next/previous focusable element, and out of the dialog past the ends".
  Focus that is outside the focusable elements while the dialog is open stays outside in the model.
- The generic modal used by the detail dialog (Modal.jsx), TaskCard, Header and ThemeToggle: presentation
  and wiring. Through the modal, Escape and the backdrop reach the detail dialog's cancel handler even while saving.
- The item DTOs and the tag entity: declarations only; the payload shapes in `Items` follow the item create request.
- TagDto: pydantic's regex engine, type coercion of ids and timestamps, and the exact text of error messages
  are not modelled. Lengths are counted in characters.
- Dialog.DialogState: `document.body.style.overflow` is modelled as a field this one dialog owns. In the
  program it is a single page-wide style that every dialog and the generic modal write. A closed dialog
  writes "" on mount, close and unmount, and can so unlock a page that another open dialog has locked.
  "Hidden exactly while open" holds only for a page with one dialog.
- ItemDetailDialog.Session.Save requires an item, because the component renders nothing (so offers no Save button) without one.
