/**
 The report editor: a report drop-down, a text area, a View button that opens
 a preview dialog, a Close button inside it and a Save button.

 Its state is four fields. `text` holds the draft. `selectedItem` holds the
 chosen report name or null. `previewText` holds what the dialog shows.
 `isModalOpen` records whether the dialog is open.

 The first half of the module states the behaviour as values. `Handle` gives
 what each event handler writes. `AfterEffect` is the effect that copies
 `text` into `previewText`. `Step` is one event followed by the effect, and
 `Run` is a whole session. The second half is the class `Editor`, with one
 method per handler; each method that changes state is proved against
 `Handle` or `AfterEffect`.
 */
module TextEditor {
  import opened Catalogue

  /** The value of `selectedItem`: null, or a string. */
  datatype Selection = Null | Item(value: string)

  /** The truthiness of `selectedItem` as the handlers and the `disabled`
      attributes test it: null and the empty string are false. */
  predicate IsTruthy(sel: Selection) {
    sel.Item? && sel.value != ""
  }

  /** The text that the drop-down handler loads for a chosen report name. */
  function LoadedText(value: string): string {
    if value == ChestXRay then ChestXRayTemplate else ""
  }

  /** A snapshot of the four state fields. */
  datatype State = State(text: string, selectedItem: Selection, previewText: string, isModalOpen: bool)

  /** The state on first render. */
  const Initial: State := State("", Null, "", false)

  /** The user actions the component handles. */
  datatype Event =
    | DropdownChange(value: string)   // an option of the report drop-down is picked
    | TextChange(value: string)       // the text area's content becomes `value`
    | ViewClick
    | CloseClick
    | SaveClick

  /** Whether the control that fires `e` is enabled in `s`. A disabled
      control fires no event. The drop-down offers only the catalogue,
      because its placeholder option is disabled, and it fires a change only
      when the picked option differs from the selected one. The text area is
      disabled while no report is selected, and the View button while the
      text is empty. The Close button exists only while the dialog is open. */
  predicate Enabled(s: State, e: Event) {
    match e
    case DropdownChange(v) => v in Reports && s.selectedItem != Item(v)
    case TextChange(_) => IsTruthy(s.selectedItem)
    case ViewClick => s.text != ""
    case CloseClick => s.isModalOpen
    case SaveClick => true
  }

  /** What the handler of `e` writes. Save only logs, so it writes nothing. */
  function Handle(s: State, e: Event): State {
    match e
    case DropdownChange(v) => s.(selectedItem := Item(v), text := LoadedText(v))
    case TextChange(t) => s.(text := t)
    case ViewClick => if IsTruthy(s.selectedItem) then s.(isModalOpen := true) else s
    case CloseClick => s.(isModalOpen := false)
    case SaveClick => s
  }

  /** The effect that runs after `text` has changed: the preview takes it. */
  function AfterEffect(s: State): (r: State)
    ensures r.previewText == r.text
    ensures r.(previewText := s.previewText) == s
  {
    s.(previewText := s.text)
  }

  /** One user action: the event (if its control is enabled), then the effect. */
  function Step(s: State, e: Event): State {
    if Enabled(s, e) then AfterEffect(Handle(s, e)) else s
  }

  /** A session: the events in order, starting from `s`. */
  function Run(s: State, events: seq<Event>): State
    decreases |events|
  {
    if events == [] then s else Run(Step(s, events[0]), events[1..])
  }

  /** The draft is empty while no report is selected, and the dialog is open
      only while a report is selected. */
  predicate Coherent(s: State) {
    && (!IsTruthy(s.selectedItem) ==> s.text == "")
    && (s.isModalOpen ==> IsTruthy(s.selectedItem))
  }

  /** The preview shows the draft. */
  predicate Synced(s: State) {
    s.previewText == s.text
  }

  /** The selection, if any, is a catalogue entry. */
  predicate FromCatalogue(s: State) {
    s.selectedItem.Item? ==> s.selectedItem.value in Reports
  }

  /** The invariant of the component between user actions. */
  predicate Inv(s: State) {
    Coherent(s) && Synced(s) && FromCatalogue(s)
  }

  /** What the dialog displays: the preview, or a placeholder when it is empty. */
  const NoPreview: string := "No preview available"

  function DisplayedPreview(s: State): (r: string)
    ensures r != ""
    ensures s.previewText != "" ==> r == s.previewText
    ensures s.previewText == "" ==> r == NoPreview
  {
    if s.previewText != "" then s.previewText else NoPreview
  }

  // ---------------------------------------------------------------------
  // Properties of single actions

  /** Picking the chest X-ray report while another selection (or none) is
      shown selects it and loads exactly the template, whatever the draft
      was; the dialog is left as it was. Picking it again while it is
      selected fires nothing, so the draft is kept. */
  lemma SelectChestXRayLoadsTemplate(s: State)
    ensures Step(s, DropdownChange(ChestXRay))
         == if s.selectedItem == Item(ChestXRay) then s
            else State(ChestXRayTemplate, Item(ChestXRay), ChestXRayTemplate, s.isModalOpen)
  {
    CatalogueWellFormed();
  }

  /** Picking any other catalogue entry, unless it is already selected,
      selects it and clears the draft and the preview; picking the selected
      entry again fires nothing. */
  lemma SelectOtherReportClears(s: State, i: nat)
    requires 1 <= i < |Reports|
    ensures Step(s, DropdownChange(Reports[i]))
         == if s.selectedItem == Item(Reports[i]) then s
            else State("", Item(Reports[i]), "", s.isModalOpen)
  {
    CatalogueWellFormed();
  }

  /** The drop-down handler loads the template for ChestXRay and empties the
      draft for every other value, catalogue entry or not. */
  lemma LoadedTextCases(value: string)
    ensures LoadedText(value) == ChestXRayTemplate <==> value == ChestXRay
    ensures LoadedText(value) == "" <==> value != ChestXRay
  {
    assert |ChestXRayTemplate| > 0 by { TitleOccurs(); }
  }

  /** Choosing the same report twice is the same as choosing it once: the
      second pick does not change the selection, so it fires nothing. */
  lemma SelectIdempotent(s: State, v: string)
    ensures Step(Step(s, DropdownChange(v)), DropdownChange(v)) == Step(s, DropdownChange(v))
  {
  }

  /** View is enabled only with a non-empty draft, which in a coherent state
      means a report is selected, so an enabled View always opens the dialog;
      a disabled one changes nothing. Nothing but the dialog changes. */
  lemma ViewOpensWithDraft(s: State)
    requires Inv(s)
    ensures Step(s, ViewClick) == if s.text != "" then s.(isModalOpen := true) else s
  {
  }

  /** Close shuts the dialog and keeps the draft, selection and preview. */
  lemma CloseKeepsDraft(s: State)
    requires Synced(s)
    ensures Step(s, CloseClick) == s.(isModalOpen := false)
  {
  }

  /** Save changes no state. */
  lemma SaveChangesNothing(s: State)
    requires Synced(s)
    ensures Step(s, SaveClick) == s
  {
  }

  /** Every action keeps the invariant. */
  lemma StepKeepsInv(s: State, e: Event)
    requires Inv(s)
    ensures Inv(Step(s, e))
  {
  }

  // ---------------------------------------------------------------------
  // Properties of whole sessions

  lemma {:induction false} RunAppend(s: State, a: seq<Event>, b: seq<Event>)
    ensures Run(s, a + b) == Run(Run(s, a), b)
    decreases |a|
  {
    if a == [] {
      assert a + b == b;
    } else {
      assert (a + b)[0] == a[0] && (a + b)[1..] == a[1..] + b;
      RunAppend(Step(s, a[0]), a[1..], b);
    }
  }

  /** Every session keeps the invariant. */
  lemma {:induction false} RunKeepsInv(s: State, events: seq<Event>)
    requires Inv(s)
    ensures Inv(Run(s, events))
    decreases |events|
  {
    if events != [] {
      StepKeepsInv(s, events[0]);
      RunKeepsInv(Step(s, events[0]), events[1..]);
    }
  }

  /** In every reachable state the draft is empty unless a catalogue report
      is selected, the preview mirrors the draft, and the dialog is open only
      with a non-empty catalogue entry selected. */
  lemma ReachableStates(events: seq<Event>)
    ensures Inv(Run(Initial, events))
    ensures var r := Run(Initial, events);
      r.isModalOpen ==> r.selectedItem.Item? && r.selectedItem.value in Reports && r.selectedItem.value != ""
  {
    RunKeepsInv(Initial, events);
  }

  /** In every reachable state with the dialog open, the dialog shows the
      draft, or the placeholder when the draft is empty. */
  lemma DialogShowsDraft(events: seq<Event>)
    ensures var r := Run(Initial, events);
      r.isModalOpen ==> DisplayedPreview(r) == if r.text == "" then NoPreview else r.text
  {
    RunKeepsInv(Initial, events);
  }

  /** After any session, picking catalogue entry `i` leaves it selected.
      If it was not already selected, all edits are discarded: the draft and
      the preview are exactly the text loaded for that report. If it was
      selected, no change fires and the state, edits included, is kept. */
  lemma SelectDiscardsHistory(events: seq<Event>, i: nat)
    requires i < |Reports|
    ensures var before := Run(Initial, events);
      var r := Run(Initial, events + [DropdownChange(Reports[i])]);
      && r.selectedItem == Item(Reports[i])
      && (before.selectedItem == Item(Reports[i]) ==> r == before)
      && (before.selectedItem != Item(Reports[i]) ==>
            r.text == r.previewText == (if i == 0 then ChestXRayTemplate else ""))
  {
    CatalogueWellFormed();
    RunAppend(Initial, events, [DropdownChange(Reports[i])]);
    assert Run(Run(Initial, events), [DropdownChange(Reports[i])])
        == Step(Run(Initial, events), DropdownChange(Reports[i]));
  }

  /** Anywhere in a session, picking the same report a second time in a row
      changes nothing. */
  lemma ReselectChangesNothing(s: State, before: seq<Event>, v: string, after: seq<Event>)
    ensures Run(s, before + [DropdownChange(v), DropdownChange(v)] + after)
         == Run(s, before + [DropdownChange(v)] + after)
  {
    var once := [DropdownChange(v)];
    var twice := [DropdownChange(v), DropdownChange(v)];
    RunAppend(s, before + twice, after);
    RunAppend(s, before, twice);
    RunAppend(s, before + once, after);
    RunAppend(s, before, once);
    var mid := Run(s, before);
    assert Run(mid, twice) == Step(Step(mid, DropdownChange(v)), DropdownChange(v));
    assert Run(mid, once) == Step(mid, DropdownChange(v));
    SelectIdempotent(mid, v);
  }

  // ---------------------------------------------------------------------
  // The component

  class Editor {
    var text: string
    var selectedItem: Selection
    var previewText: string
    var isModalOpen: bool

    /** The four fields as a value. */
    function Snapshot(): State
      reads this
    {
      State(text, selectedItem, previewText, isModalOpen)
    }

    /** The invariant kept by every handler; between a handler and the
        effect that follows it the preview may lag behind the draft. */
    predicate Valid()
      reads this
    {
      Coherent(Snapshot()) && FromCatalogue(Snapshot())
    }

    /** The initial render. */
    constructor ()
      ensures Snapshot() == Initial
      ensures Valid() && Synced(Snapshot())
    {
      text := "";
      selectedItem := Null;
      previewText := "";
      isModalOpen := false;
    }

    /** `handleDropdownChange`: select the value and load its text,
        discarding the draft. */
    method HandleDropdownChange(value: string)
      requires Valid()
      modifies this
      ensures Snapshot() == Handle(old(Snapshot()), DropdownChange(value))
      ensures selectedItem == Item(value)
      ensures text == (if value == ChestXRay then ChestXRayTemplate else "")
      ensures previewText == old(previewText) && isModalOpen == old(isModalOpen)
      ensures value != "" ==> Coherent(Snapshot())
      ensures value in Reports ==> Valid()
    {
      selectedItem := Item(value);
      if value == ChestXRay {
        text := ChestXRayTemplate;
      } else {
        text := "";
      }
    }

    /** The text area's change handler, which fires only while a report is
        selected. */
    method ChangeText(value: string)
      requires Valid()
      requires IsTruthy(selectedItem)
      modifies this
      ensures Snapshot() == Handle(old(Snapshot()), TextChange(value))
      ensures text == value
      ensures selectedItem == old(selectedItem) && previewText == old(previewText)
      ensures isModalOpen == old(isModalOpen)
      ensures Valid()
    {
      text := value;
    }

    /** The effect on `text`: the preview takes the draft. */
    method SyncPreview()
      requires Valid()
      modifies this
      ensures Snapshot() == AfterEffect(old(Snapshot()))
      ensures previewText == text
      ensures text == old(text) && selectedItem == old(selectedItem)
      ensures isModalOpen == old(isModalOpen)
      ensures Valid()
    {
      previewText := text;
    }

    /** `handleView`, reachable only while the draft is non-empty: open the
        dialog when a report is selected. A non-empty draft implies a
        selection, so it always opens. */
    method HandleView()
      requires Valid()
      requires text != ""
      modifies this
      ensures Snapshot() == Handle(old(Snapshot()), ViewClick)
      ensures isModalOpen == (old(isModalOpen) || IsTruthy(selectedItem))
      ensures isModalOpen
      ensures text == old(text) && selectedItem == old(selectedItem)
      ensures previewText == old(previewText)
      ensures Valid()
    {
      if selectedItem.Item? && selectedItem.value != "" {
        isModalOpen := true;
      }
    }

    /** `handleCloseModal`: close the dialog. */
    method HandleCloseModal()
      requires Valid()
      modifies this
      ensures Snapshot() == Handle(old(Snapshot()), CloseClick)
      ensures !isModalOpen
      ensures text == old(text) && selectedItem == old(selectedItem)
      ensures previewText == old(previewText)
      ensures Valid()
    {
      isModalOpen := false;
    }

    /** `handleSave`: it only logs the draft, which is returned here, and
        changes no state. */
    method HandleSave() returns (logged: string)
      requires Valid()
      ensures logged == text
    {
      logged := text;
    }

    /** One user action: the handler of an enabled control, then the effect. */
    method Dispatch(e: Event)
      requires Valid() && Synced(Snapshot())
      modifies this
      ensures Snapshot() == Step(old(Snapshot()), e)
      ensures Valid() && Synced(Snapshot())
    {
      if !Enabled(Snapshot(), e) {
        return;
      }
      match e {
        case DropdownChange(v) =>
          HandleDropdownChange(v);
        case TextChange(t) =>
          ChangeText(t);
        case ViewClick =>
          HandleView();
        case CloseClick =>
          HandleCloseModal();
        case SaveClick =>
          var _ := HandleSave();
      }
      SyncPreview();
    }
  }
}
