/**
 * The door card's editing handlers. Every handler is inert in read-only mode (the response
 * buttons, the location and notes inputs are disabled and the delete button is not rendered);
 * otherwise an edit writes one field of the card's own door through the store, and the delete
 * button removes that door.
 */
module DoorCard {
  import opened Wrappers
  import opened Store

  /** Number of entries of the detailed checklist (`CHECKLIST_ITEMS`). */
  const ChecklistItemCount := 15
  /** The response key that stands for the overall door result. */
  const OverallIndex := 99
  /** The card renders the detailed checklist, not the overall Pass/Fail pair. */
  const ShowDetailedChecklist := true

  /** One response button: the question index it writes and the answer it writes there. */
  datatype ResponseEdit = ResponseEdit(index: int, value: Verdict)

  function VerdictAt(k: nat): Verdict
    requires k < 3
  {
    if k == 0 then Pass else if k == 1 then Fail else NotApplicable
  }

  /**
   * The response buttons the card renders, in order: three per checklist item in detailed
   * mode, and Pass and Fail on index 99 in overall mode.
   */
  function ResponseButtons(detailed: bool): (r: seq<ResponseEdit>)
    ensures detailed ==> |r| == 3 * ChecklistItemCount
    ensures detailed ==> forall e :: e in r ==> 0 <= e.index < ChecklistItemCount
    ensures detailed ==> forall i, v :: 0 <= i < ChecklistItemCount ==> ResponseEdit(i, v) in r
    ensures !detailed ==> forall e :: e in r ==> e.index == OverallIndex && e.value != NotApplicable
    ensures !detailed ==> ResponseEdit(OverallIndex, Pass) in r && ResponseEdit(OverallIndex, Fail) in r
  {
    if detailed then
      var r := seq(3 * ChecklistItemCount, k requires 0 <= k < 3 * ChecklistItemCount => ResponseEdit(k / 3, VerdictAt(k % 3)));
      assert forall i, v :: 0 <= i < ChecklistItemCount ==> ResponseEdit(i, v) in r by {
        forall i, v | 0 <= i < ChecklistItemCount ensures ResponseEdit(i, v) in r {
          var k := 3 * i + (if v == Pass then 0 else if v == Fail then 1 else 2);
          assert r[k] == ResponseEdit(i, v);
        }
      }
      r
    else
      [ResponseEdit(OverallIndex, Pass), ResponseEdit(OverallIndex, Fail)]
  }

  /** `{ ...responses, [index]: value }`: `index` answered with `value`, every other answer kept. */
  function WithResponse(responses: map<int, Verdict>, index: int, value: Verdict): (r: map<int, Verdict>)
    ensures r.Keys == responses.Keys + {index}
    ensures r[index] == value
    ensures forall k :: k in responses && k != index ==> r[k] == responses[k]
  {
    responses[index := value]
  }

  /** Response keys are checklist indices or the overall index. */
  ghost predicate ResponsesWellFormed(responses: map<int, Verdict>) {
    forall k :: k in responses ==> (0 <= k < ChecklistItemCount || k == OverallIndex)
  }

  /** Pressing any rendered button, in either mode, keeps the response keys well formed. */
  lemma ButtonKeepsResponsesWellFormed(responses: map<int, Verdict>, detailed: bool, e: ResponseEdit)
    requires ResponsesWellFormed(responses) && e in ResponseButtons(detailed)
    ensures ResponsesWellFormed(WithResponse(responses, e.index, e.value))
  {
  }

  /**
   * The card as shipped renders the detailed checklist, so its buttons write only the fifteen
   * item keys, never the overall key 99, and each keeps the responses well-formed.
   */
  lemma ShippedButtonsWriteChecklistItems(responses: map<int, Verdict>, e: ResponseEdit)
    requires e in ResponseButtons(ShowDetailedChecklist)
    ensures 0 <= e.index < ChecklistItemCount && e.index != OverallIndex
    ensures ResponsesWellFormed(responses) ==> ResponsesWellFormed(WithResponse(responses, e.index, e.value))
  {
    if ResponsesWellFormed(responses) {
      ButtonKeepsResponsesWellFormed(responses, ShowDetailedChecklist, e);
    }
  }

  /** Doors fresh from `initializeDoors` have no responses, hence well-formed ones. */
  lemma NewDoorsResponsesWellFormed(count: int, randoms: seq<string>)
    requires |randoms| >= DoorCountFor(count)
    ensures forall d :: d in NewDoors(count, randoms) ==> ResponsesWellFormed(d.responses)
  {
  }

  function ResponsesPatch(responses: map<int, Verdict>): DoorPatch { NoDoorChanges.(responses := Some(responses)) }

  function LocationPatch(location: string): DoorPatch { NoDoorChanges.(location := Some(location)) }

  function NotesPatch(notes: string): DoorPatch { NoDoorChanges.(notes := Some(notes)) }

  /** Each card patch writes exactly one field of the door it is merged into. */
  lemma CardPatchesWriteOneField(d: Door, m: map<int, Verdict>, text: string)
    ensures MergeDoor(d, ResponsesPatch(m)) == d.(responses := m)
    ensures MergeDoor(d, LocationPatch(text)) == d.(location := text)
    ensures MergeDoor(d, NotesPatch(text)) == d.(notes := text)
  {
  }

  /**
   * When the card shows the store's current door at position `k` (ids unique), answering a
   * question rewrites that door's responses with the one key set and leaves every other door
   * and every other field as it was.
   */
  lemma ResponseEditAt(doors: seq<Door>, k: nat, index: int, value: Verdict)
    requires UniqueIds(doors) && k < |doors|
    ensures var d := doors[k];
      UpdateDoors(doors, d.id, ResponsesPatch(WithResponse(d.responses, index, value)))
        == doors[k := d.(responses := d.responses[index := value])]
  {
    var d := doors[k];
    UpdateDoorsAt(doors, k, ResponsesPatch(WithResponse(d.responses, index, value)));
    CardPatchesWriteOneField(d, WithResponse(d.responses, index, value), "");
  }

  /** With unique ids, a location or notes edit on the door at position `k` changes that one field of that one door. */
  lemma TextEditsAt(doors: seq<Door>, k: nat, text: string)
    requires UniqueIds(doors) && k < |doors|
    ensures UpdateDoors(doors, doors[k].id, LocationPatch(text)) == doors[k := doors[k].(location := text)]
    ensures UpdateDoors(doors, doors[k].id, NotesPatch(text)) == doors[k := doors[k].(notes := text)]
  {
    UpdateDoorsAt(doors, k, LocationPatch(text));
    UpdateDoorsAt(doors, k, NotesPatch(text));
    CardPatchesWriteOneField(doors[k], map[], text);
  }

  /** `handleResponseChange`: nothing in read-only mode, else the card's door gets `index` set to `value`. */
  method HandleResponseChange(store: AssessmentStore, door: Door, readOnly: bool, index: int, value: Verdict)
    modifies store
    ensures readOnly ==> store.doors == old(store.doors)
    ensures !readOnly ==> store.doors == UpdateDoors(old(store.doors), door.id, ResponsesPatch(WithResponse(door.responses, index, value)))
    ensures store.siteDetails == old(store.siteDetails) && store.isSidebarCollapsed == old(store.isSidebarCollapsed)
  {
    if readOnly {
      return;
    }
    var newResponses := WithResponse(door.responses, index, value);
    store.UpdateDoor(door.id, ResponsesPatch(newResponses));
  }

  /** The location input: writes the card's door location unless it is disabled. */
  method HandleLocationChange(store: AssessmentStore, door: Door, readOnly: bool, location: string)
    modifies store
    ensures readOnly ==> store.doors == old(store.doors)
    ensures !readOnly ==> store.doors == UpdateDoors(old(store.doors), door.id, LocationPatch(location))
    ensures store.siteDetails == old(store.siteDetails) && store.isSidebarCollapsed == old(store.isSidebarCollapsed)
  {
    if !readOnly {
      store.UpdateDoor(door.id, LocationPatch(location));
    }
  }

  /** The notes text area: writes the card's door notes unless it is disabled. */
  method HandleNotesChange(store: AssessmentStore, door: Door, readOnly: bool, notes: string)
    modifies store
    ensures readOnly ==> store.doors == old(store.doors)
    ensures !readOnly ==> store.doors == UpdateDoors(old(store.doors), door.id, NotesPatch(notes))
    ensures store.siteDetails == old(store.siteDetails) && store.isSidebarCollapsed == old(store.isSidebarCollapsed)
  {
    if !readOnly {
      store.UpdateDoor(door.id, NotesPatch(notes));
    }
  }

  /** The delete button exists only when the card is editable; it removes the card's door. */
  method HandleDelete(store: AssessmentStore, door: Door, readOnly: bool)
    modifies store
    ensures readOnly ==> store.doors == old(store.doors)
    ensures !readOnly ==> store.doors == DeleteDoors(old(store.doors), door.id)
    ensures store.siteDetails == old(store.siteDetails) && store.isSidebarCollapsed == old(store.isSidebarCollapsed)
  {
    if !readOnly {
      store.DeleteDoor(door.id);
    }
  }
}
