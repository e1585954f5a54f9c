/**
 * The timetable generator screen: a class picker, a day picker, the selected day's slots, and an
 * edit modal that adds or edits one slot. Whether Save edits or adds is decided by the slot the
 * modal was opened on (`editingItem`), not by the saved slot's id.
 */
module TimeTableGenerator {
  import opened Opt
  import opened Text
  import opened ListOps
  import opened Ui
  import Schedule

  datatype Slot = Slot(id: int, start: string, end: string, subject: string, teacher: string, room: string)

  function SlotId(s: Slot): int {
    s.id
  }

  function SlotStartTime(s: Slot): string {
    s.start
  }

  /** `CLASSES` and `DAYS`; the first of each is selected at first. */
  const ClassNames: seq<string> := ["Class 10-A", "Class 10-B", "Class 11-A", "Class 12-B"]
  const Days: seq<string> := ["Monday", "Tuesday", "Wednesday", "Thursday", "Friday", "Saturday"]

  /** `INITIAL_DATA` */
  const InitialData: Schedule.Table<Slot> := map[
    "Class 10-A" := map[
      "Monday" := [
        Slot(1, "09:00", "10:00", "Maths", "Dr. Wilson", "101"),
        Slot(2, "10:00", "11:00", "Physics", "Mr. Carter", "Lab 2")
      ],
      "Tuesday" := []
    ]
  ]

  /** The modal's form fields. */
  datatype Form = Form(start: string, end: string, subject: string, teacher: string, room: string)

  /**
   * `EditModal`'s `handleSave`: subject and start time are required; the slot keeps the id of the
   * slot the modal was opened on, or takes a fresh one (`initialData?.id || Date.now()`).
   */
  function EditModalSave(form: Form, initialId: Option<int>, freshId: int): (r: Saved<Slot>)
    ensures r.Refused? <==> form.subject == "" || form.start == ""
    ensures r.Refused? ==> r.alert == Alert("Error", "Subject and Start Time are required.")
    ensures r.Submitted? ==>
      && r.form.id == (if TruthyNumber(initialId) then initialId.value else freshId)
      && r.form.start == form.start && r.form.end == form.end && r.form.subject == form.subject
      && r.form.teacher == form.teacher && r.form.room == form.room
  {
    if form.subject == "" || form.start == "" then
      Refused(Alert("Error", "Subject and Start Time are required."))
    else
      var id := if TruthyNumber(initialId) then initialId.value else freshId;
      Submitted(Slot(id, form.start, form.end, form.subject, form.teacher, form.room))
  }

  /** The form the modal shows for a stored slot: its own fields. */
  function FormOf(slot: Slot): Form {
    Form(slot.start, slot.end, slot.subject, slot.teacher, slot.room)
  }

  /** Opening a stored slot and saving it unchanged gives that slot back, whatever the clock says. */
  lemma EditModalRoundTrip(slot: Slot, freshId: int)
    requires slot.id != 0 && slot.subject != "" && slot.start != ""
    ensures EditModalSave(FormOf(slot), Some(slot.id), freshId) == Submitted(slot)
  {
  }

  /**
   * The day's list after `handleSaveSlot`: in edit mode the slots with the saved slot's id are
   * replaced in place; otherwise the slot is appended and the day sorted by start time.
   */
  function SaveSlotDay(dayData: seq<Slot>, slotData: Slot, editing: bool): (r: seq<Slot>)
    ensures editing ==>
      && |r| == |dayData|
      && forall i :: 0 <= i < |dayData| ==> r[i] == if dayData[i].id == slotData.id then slotData else dayData[i]
    ensures !editing ==>
      && |r| == |dayData| + 1
      && multiset(r) == multiset(dayData) + multiset{slotData}
      && SortedBy(r, SlotStartTime)
  {
    if editing then MapId(dayData, SlotId, slotData.id, (s: Slot) => slotData)
    else
      var added := dayData + [slotData];
      SortBySorted(added, SlotStartTime);
      SortByPermutes(added, SlotStartTime);
      SortBy(added, SlotStartTime)
  }

  /** An edit whose id no slot of the day carries changes nothing (it is not added either). */
  lemma EditUnknownIdChangesNothing(dayData: seq<Slot>, slotData: Slot)
    requires forall i :: 0 <= i < |dayData| ==> dayData[i].id != slotData.id
    ensures SaveSlotDay(dayData, slotData, true) == dayData
  {
  }

  /** Editing a slot of a day whose ids are distinct replaces exactly that slot, where it stands. */
  lemma EditReplacesOnlyThatSlot(dayData: seq<Slot>, i: nat, form: Form, freshId: int)
    requires i < |dayData| && dayData[i].id != 0
    requires forall j, k :: 0 <= j < k < |dayData| ==> dayData[j].id != dayData[k].id
    requires form.subject != "" && form.start != ""
    ensures var saved := EditModalSave(form, Some(dayData[i].id), freshId);
      && saved.Submitted?
      && var r := SaveSlotDay(dayData, saved.form, true);
      && r[i] == saved.form
      && forall j :: 0 <= j < |dayData| && j != i ==> r[j] == dayData[j]
  {
    var saved := EditModalSave(form, Some(dayData[i].id), freshId);
    var r := SaveSlotDay(dayData, saved.form, true);
    forall j | 0 <= j < |dayData| && j != i ensures r[j] == dayData[j] {
      if j < i {
        assert dayData[j].id != dayData[i].id;
      } else {
        assert dayData[i].id != dayData[j].id;
      }
    }
  }

  /** Adding keeps the slots that start at the same time in their order, the new one last among them. */
  lemma AddSlotStable(dayData: seq<Slot>, slotData: Slot, start: string)
    ensures WithKey(SaveSlotDay(dayData, slotData, false), SlotStartTime, start)
         == WithKey(dayData, SlotStartTime, start) + WithKey([slotData], SlotStartTime, start)
  {
    SortByStable(dayData + [slotData], SlotStartTime, start);
    WithKeyAppend(dayData, [slotData], SlotStartTime, start);
  }

  /** On a day already in order, deleting a newly added slot's id gives the day back. */
  lemma AddThenDeleteSlot(dayData: seq<Slot>, slotData: Slot)
    requires SortedBy(dayData, SlotStartTime)
    requires forall i :: 0 <= i < |dayData| ==> dayData[i].id != slotData.id
    ensures RemoveId(SaveSlotDay(dayData, slotData, false), SlotId, slotData.id) == dayData
  {
    SortByAppend(dayData, slotData, SlotStartTime);
    SortByOfSorted(dayData, SlotStartTime);
    RemoveIdInsertBy(dayData, slotData, SlotStartTime, SlotId);
    RemoveIdAbsent(dayData, SlotId, slotData.id);
  }

  class GeneratorState {
    var schedule: Schedule.Table<Slot>
    var selectedClass: string
    var selectedDay: string
    /** The slot the modal was opened on, `None` when it was opened to add. */
    var editingItem: Option<Slot>

    constructor ()
      ensures schedule == InitialData && selectedClass == ClassNames[0] && selectedDay == Days[0]
      ensures editingItem == None
    {
      schedule := InitialData;
      selectedClass := ClassNames[0];
      selectedDay := Days[0];
      editingItem := None;
    }

    /** `currentList`: the selected day's slots, empty when the class or the day has none. */
    function CurrentList(): seq<Slot>
      reads this
    {
      Schedule.DayList(schedule, selectedClass, selectedDay)
    }

    method Select(cls: string, day: string)
      modifies this
      ensures selectedClass == cls && selectedDay == day
      ensures schedule == old(schedule) && editingItem == old(editingItem)
    {
      selectedClass, selectedDay := cls, day;
    }

    /** The add button: the modal opens empty. */
    method StartAdd()
      modifies this
      ensures editingItem == None
      ensures schedule == old(schedule) && selectedClass == old(selectedClass) && selectedDay == old(selectedDay)
    {
      editingItem := None;
    }

    /** A slot card's edit button: the modal opens on that slot. */
    method StartEdit(slot: Slot)
      modifies this
      ensures editingItem == Some(slot)
      ensures schedule == old(schedule) && selectedClass == old(selectedClass) && selectedDay == old(selectedDay)
    {
      editingItem := Some(slot);
    }

    /** `handleSaveSlot`: only the selected class's selected day changes. */
    method SaveSlot(slotData: Slot)
      modifies this
      ensures schedule == Schedule.SetDay(old(schedule), selectedClass, selectedDay,
        SaveSlotDay(Schedule.DayList(old(schedule), selectedClass, selectedDay), slotData, old(editingItem).Some?))
      ensures selectedClass == old(selectedClass) && selectedDay == old(selectedDay)
      ensures editingItem == old(editingItem)
    {
      var dayData := Schedule.DayList(schedule, selectedClass, selectedDay);
      var newDayData := SaveSlotDay(dayData, slotData, editingItem.Some?);
      schedule := Schedule.SetDay(schedule, selectedClass, selectedDay, newDayData);
    }

    /** The confirmed `handleDeleteSlot(id)` */
    method DeleteSlot(id: int)
      modifies this
      ensures schedule == Schedule.SetDay(old(schedule), selectedClass, selectedDay,
        RemoveId(Schedule.DayList(old(schedule), selectedClass, selectedDay), SlotId, id))
      ensures selectedClass == old(selectedClass) && selectedDay == old(selectedDay)
      ensures editingItem == old(editingItem)
    {
      var dayData := Schedule.DayList(schedule, selectedClass, selectedDay);
      schedule := Schedule.SetDay(schedule, selectedClass, selectedDay, RemoveId(dayData, SlotId, id));
    }
  }
}
