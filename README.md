# Report editor state machine

This project models the report editor component of the imaging viewer
(`platform/ui/src/NewComponents/TextEditor.tsx`). The component has a report
drop-down, a text area for the draft, a View button that opens a preview
dialog, a Close button inside that dialog and a Save button. Behind these
controls is a small state machine with four fields:

- `text` is the draft.
- `selectedItem` is the chosen report name, or null.
- `previewText` is what the dialog shows.
- `isModalOpen` records whether the dialog is open.

The project has two modules.

- `Catalogue` (`catalogue.dfy`) holds the fixed data. `Reports` is the
  six-entry list of report names. `ChestXRayTemplate` is the text loaded for
  `CHEST X RAY (PA VIEW)`, copied character for character, including its
  leading newline, its indentation and its six trailing spaces. The constant
  is written as the concatenation of its four parts (title, observation
  section, impression section, advice line), which is the same string. The
  lemmas in this module prove that the catalogue is well formed and that the
  template's sections come in order.
- `TextEditor` (`editor.dfy`) holds the state machine. It is written twice.
  - As values: `Handle` gives what each event handler writes. `AfterEffect`
    is the effect that copies `text` into `previewText`. `Enabled` says which
    controls the `disabled` attributes leave usable. `Step` is one user
    action. `Run` is a whole session. Lemmas about these functions state the
    component's properties.
  - As the class `Editor`: the four fields and one method per handler. Each
    state-changing method is proved against `Handle` or `AfterEffect` and
    keeps the invariant `Valid()`; `HandleDropdownChange` keeps it for
    catalogue values only. `HandleSave` modifies nothing and returns the
    logged draft. `Dispatch` is one user action: the handler of an enabled
    control, then the effect. It is proved equal to `Step`.

Where the disabled attributes give a guard, the class methods take it as a
precondition:

- `ChangeText` needs a truthy selection.
- `HandleView` needs a non-empty draft.

The drop-down handler itself accepts any value. The select element can only
produce a catalogue entry, because its placeholder option is disabled, and
it fires a change event only when the picked option differs from the
selected one. So `Enabled` admits a catalogue entry that is not already
selected. Re-picking the selected report therefore keeps the draft. The
Close button is rendered only inside the open dialog, so `Enabled` admits
Close only while the dialog is open.

JavaScript truthiness of `selectedItem` is `IsTruthy`: null and the empty
string are false.

In the source, Save only writes the draft to the console and changes no
state. The model returns the logged draft and changes nothing. In the source,
only `CHEST X RAY (PA VIEW)` has a template. The other five entries load an
empty draft. In the source, the draft is exactly empty while nothing is
selected, not merely blank.

## Model

| member | source | states |
|---|---|---|
| `Catalogue.CatalogueWellFormed` | platform/ui/src/NewComponents/TextEditor.tsx:10-17 | the catalogue has six distinct, non-empty names; the first is `CHEST X RAY (PA VIEW)` and no other entry equals it |
| `Catalogue.TemplateSectionsInOrder` | platform/ui/src/NewComponents/TextEditor.tsx:26-42 | the template contains the title `CHEST X RAY (PA VIEW)`, then `OBSERVATION:`, then `IMPRESSION:`, then `ADVICE:`, at strictly increasing positions |
| `TextEditor.LoadedTextCases` | platform/ui/src/NewComponents/TextEditor.tsx:25-46 | the drop-down handler loads the template exactly for `CHEST X RAY (PA VIEW)` and an empty draft for every other value |
| `TextEditor.SelectChestXRayLoadsTemplate` | platform/ui/src/NewComponents/TextEditor.tsx:22-43 | picking the chest X-ray report while it is not selected gives that selection and exactly the template as draft and preview, discarding the previous draft and leaving the dialog untouched; while it is selected, the pick fires nothing and the state is kept |
| `TextEditor.SelectOtherReportClears` | platform/ui/src/NewComponents/TextEditor.tsx:44-46 | picking any of the five other catalogue entries, when not already selected, selects it and empties the draft and the preview; when already selected, nothing changes |
| `TextEditor.SelectIdempotent` | platform/ui/src/NewComponents/TextEditor.tsx:19-47 | picking the same value twice in a row gives the same state as picking it once |
| `TextEditor.ReselectChangesNothing` | platform/ui/src/NewComponents/TextEditor.tsx:19-47 | anywhere in a session, a repeated pick of the same value can be dropped without changing the outcome |
| `TextEditor.SelectDiscardsHistory` | platform/ui/src/NewComponents/TextEditor.tsx:19-51 | after any session, picking catalogue entry i leaves it selected; if it was not selected before, draft and preview become the template (i = 0) or the empty string whatever was edited, and if it was, the state, edits included, is kept |
| `TextEditor.AfterEffect` | platform/ui/src/NewComponents/TextEditor.tsx:49-51 | after the effect the preview equals the draft, and nothing else has changed |
| `TextEditor.ViewOpensWithDraft` | platform/ui/src/NewComponents/TextEditor.tsx:57-61 | in a coherent state, View with a non-empty draft opens the dialog and changes nothing else; with an empty draft the button is disabled and the state is unchanged |
| `TextEditor.CloseKeepsDraft` | platform/ui/src/NewComponents/TextEditor.tsx:63-65 | Close shuts the dialog and keeps the draft, the selection and the preview |
| `TextEditor.SaveChangesNothing` | platform/ui/src/NewComponents/TextEditor.tsx:53-55 | Save leaves the state unchanged |
| `TextEditor.StepKeepsInv` | platform/ui/src/NewComponents/TextEditor.tsx:137-139 | every user action keeps the invariant: the draft is empty without a truthy selection, the dialog is open only with one, the preview mirrors the draft, and the selection is a catalogue entry |
| `TextEditor.RunKeepsInv` | platform/ui/src/NewComponents/TextEditor.tsx:19-65 | every session started in a state satisfying the invariant ends in one |
| `TextEditor.ReachableStates` | platform/ui/src/NewComponents/TextEditor.tsx:6-9 | every state reachable from the initial render satisfies the invariant, and an open dialog implies that a non-empty catalogue entry is selected |
| `TextEditor.DisplayedPreview` | platform/ui/src/NewComponents/TextEditor.tsx:212-214 | the dialog body is never empty: it is the preview when that is non-empty, otherwise `No preview available` |
| `TextEditor.DialogShowsDraft` | platform/ui/src/NewComponents/TextEditor.tsx:210-214 | in every reachable state with the dialog open, the dialog shows the current draft, or the placeholder when the draft is empty |
| `TextEditor.Editor.constructor` | platform/ui/src/NewComponents/TextEditor.tsx:6-9 | the initial state is an empty draft, a null selection, an empty preview and a closed dialog, and it satisfies the invariant |
| `TextEditor.Editor.HandleDropdownChange` | platform/ui/src/NewComponents/TextEditor.tsx:19-47 | selects the value; the draft becomes the template for `CHEST X RAY (PA VIEW)` and empty otherwise; preview and dialog untouched; a catalogue value keeps `Valid()` |
| `TextEditor.Editor.ChangeText` | platform/ui/src/NewComponents/TextEditor.tsx:137-139 | only while a report is selected, the draft becomes the typed value and nothing else changes |
| `TextEditor.Editor.SyncPreview` | platform/ui/src/NewComponents/TextEditor.tsx:49-51 | the preview takes the draft; nothing else changes |
| `TextEditor.Editor.HandleView` | platform/ui/src/NewComponents/TextEditor.tsx:57-61 | sets the dialog open exactly when the selection is truthy, and nothing else; with the View button's guard (non-empty draft) it always opens |
| `TextEditor.Editor.HandleCloseModal` | platform/ui/src/NewComponents/TextEditor.tsx:63-65 | closes the dialog and leaves draft, selection and preview unchanged |
| `TextEditor.Editor.HandleSave` | platform/ui/src/NewComponents/TextEditor.tsx:53-55 | returns the draft that is logged and changes no state |
| `TextEditor.Editor.Dispatch` | platform/ui/src/NewComponents/TextEditor.tsx:111-225 | one user action on the class equals `Step`: a disabled control does nothing, an enabled one runs its handler and then the effect; the invariant and the preview mirroring are kept |

## Left out

- The markup, class names and styles of the component are not modelled.
  This covers the two patient tables (lines 69-110 and 164-209), which hold
  static text only.
- The injection of the preview as HTML (lines 212-214) is browser rendering.
  The model states only which string is displayed (`DisplayedPreview`).
- The console output of Save is I/O. The model returns the logged string
  instead.
- React batches state updates and schedules effects asynchronously. The
  model runs the effect as a synchronous step after each enabled action. The
  effect is skipped when the draft did not change, which makes no difference
  once the preview already mirrors the draft.
- The full-screen dialog also covers the other controls while it is open.
  The model does not use this; every control stays usable in the model.
- Fetching templates and study metadata, merging them, paginating the
  draft, exporting a PDF and uploading it do not happen in this component,
  whose Save only logs. They are not part of this model.
