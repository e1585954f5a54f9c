/**
 * The admin panel: three lists (teachers, students, classes) edited through one form, a timetable
 * of slots per class and day edited through a slot form, the grouped view of a list, and the text
 * the timetable is shared as. Ids of new entries come from the clock (`Date.now()`); here they are
 * the `freshId` parameter.
 */
module AdminPanel {
  import opened Opt
  import opened Text
  import opened ListOps
  import opened Ui
  import Schedule

  /** A teacher, student or class: its detail (`subject`, `grade` or `location`) sits under its own key. */
  datatype Item = Item(id: int, name: string, details: map<string, string>, status: string)

  function ItemId(it: Item): int {
    it.id
  }

  const InitialTeachers: seq<Item> := [
    Item(1, "Dr. Sarah Wilson", map["subject" := "Maths"], "Active"),
    Item(2, "Mr. James Carter", map["subject" := "Physics"], "Active"),
    Item(3, "Ms. Emily Davis", map["subject" := "Chem"], "Inactive")
  ]

  const InitialStudents: seq<Item> := [
    Item(1, "John Doe", map["grade" := "10th"], "Active"),
    Item(2, "Jane Smith", map["grade" := "12th"], "Active")
  ]

  const InitialClasses: seq<Item> := [
    Item(1, "Class 10-A", map["location" := "1st Floor"], "Active"),
    Item(2, "Class 12-B", map["location" := "2nd Floor"], "Active"),
    Item(3, "Lab 1", map["location" := "Ground Floor"], "Active")
  ]

  /** `CLASSES_LIST` and `DAYS`: the timetable tabs; the first of each is selected at first. */
  const ClassesList: seq<string> := ["Class 10-A", "Class 10-B", "Class 11-A", "Class 12-B"]
  const Days: seq<string> := ["Monday", "Tuesday", "Wednesday", "Thursday", "Friday", "Saturday"]

  datatype Slot = Slot(id: int, startTime: string, endTime: string, subject: string, teacher: string)

  function SlotId(s: Slot): int {
    s.id
  }

  function SlotStart(s: Slot): string {
    s.startTime
  }

  const InitialSchedule: Schedule.Table<Slot> := map[
    "Class 10-A" := map[
      "Monday" := [
        Slot(1, "09:00 AM", "10:00 AM", "Mathematics", "Dr. Wilson"),
        Slot(2, "10:00 AM", "11:00 AM", "Physics", "Mr. Carter")
      ],
      "Tuesday" := [Slot(3, "09:00 AM", "10:00 AM", "English", "Mrs. Green")]
    ]
  ]

  // ---------------------------------------------------------------------------------------------
  // The two modals

  /** What a modal's Save passes on: `id` is `initialData?.id`, absent when adding. */
  datatype FormSave = FormSave(id: Option<int>, name: string, detail: string, status: string)
  datatype SlotSave = SlotSave(id: Option<int>, subject: string, teacher: string, startTime: string,
                               endTime: string)

  /** `FormModal`'s `handleSave`. */
  function FormModalSave(initialId: Option<int>, name: string, detail: string, status: string)
    : (r: Saved<FormSave>)
    ensures r.Refused? <==> name == "" || detail == ""
    ensures r.Refused? ==> r.alert == Alert("Error", "Please fill all fields")
    ensures r.Submitted? ==> r.form == FormSave(initialId, name, detail, status)
  {
    if name == "" || detail == "" then Refused(Alert("Error", "Please fill all fields"))
    else Submitted(FormSave(initialId, name, detail, status))
  }

  /** `TimetableModal`'s `handleSave`. */
  function SlotModalSave(initialId: Option<int>, subject: string, teacher: string, startTime: string,
                         endTime: string): (r: Saved<SlotSave>)
    ensures r.Refused? <==> subject == "" || teacher == "" || startTime == "" || endTime == ""
    ensures r.Refused? ==> r.alert == Alert("Missing Fields", "Please fill in all details.")
    ensures r.Submitted? ==> r.form == SlotSave(initialId, subject, teacher, startTime, endTime)
  {
    if subject == "" || teacher == "" || startTime == "" || endTime == "" then
      Refused(Alert("Missing Fields", "Please fill in all details."))
    else Submitted(SlotSave(initialId, subject, teacher, startTime, endTime))
  }

  // ---------------------------------------------------------------------------------------------
  // The lists

  /** The key `handleSaveForm` writes the detail under, for the list the form was opened on. */
  function DetailKey(listType: string): string {
    if listType == "Teacher" then "subject" else if listType == "Student" then "grade" else "location"
  }

  /** `{ ...item, name, [detailKey]: detail, status }` */
  function Edited(item: Item, form: FormSave, detailKey: string): (r: Item)
    ensures r.id == item.id && r.name == form.name && r.status == form.status
    ensures r.details.Keys == item.details.Keys + {detailKey} && r.details[detailKey] == form.detail
    ensures forall k :: k in item.details && k != detailKey ==> r.details[k] == item.details[k]
  {
    item.(name := form.name, details := item.details[detailKey := form.detail], status := form.status)
  }

  /** `{ id: Date.now(), name, [detailKey]: detail, status }` */
  function NewItem(freshId: int, form: FormSave, detailKey: string): Item {
    Item(freshId, form.name, map[detailKey := form.detail], form.status)
  }

  /**
   * The list `handleSaveForm` leaves: with an id, the entries with that id are rewritten in place;
   * without one, a new entry goes in front of the old list.
   */
  function SaveToList(list: seq<Item>, form: FormSave, detailKey: string, freshId: int): (r: seq<Item>)
    ensures TruthyNumber(form.id) ==>
      && |r| == |list|
      && forall i :: 0 <= i < |list| ==>
           r[i] == if list[i].id == form.id.value then Edited(list[i], form, detailKey) else list[i]
    ensures !TruthyNumber(form.id) ==>
      |r| == |list| + 1 && r[0] == NewItem(freshId, form, detailKey) && r[1..] == list
  {
    if TruthyNumber(form.id) then
      MapId(list, ItemId, form.id.value, (it: Item) => Edited(it, form, detailKey))
    else [NewItem(freshId, form, detailKey)] + list
  }

  /** Saving the same edit twice gives the same list as saving it once. */
  lemma SaveEditIdempotent(list: seq<Item>, form: FormSave, detailKey: string, n1: int, n2: int)
    requires TruthyNumber(form.id)
    ensures SaveToList(SaveToList(list, form, detailKey, n1), form, detailKey, n2)
         == SaveToList(list, form, detailKey, n1)
  {
    var once := SaveToList(list, form, detailKey, n1);
    var twice := SaveToList(once, form, detailKey, n2);
    forall i | 0 <= i < |list| ensures twice[i] == once[i] {
      if list[i].id == form.id.value {
        assert list[i].details[detailKey := form.detail][detailKey := form.detail]
            == list[i].details[detailKey := form.detail];
      }
    }
  }

  /** Deleting the id a new entry was given undoes adding it, when that id was not in use. */
  lemma AddThenDeleteItem(list: seq<Item>, form: FormSave, detailKey: string, freshId: int)
    requires !TruthyNumber(form.id)
    requires forall i :: 0 <= i < |list| ==> list[i].id != freshId
    ensures RemoveId(SaveToList(list, form, detailKey, freshId), ItemId, freshId) == list
  {
    var item := NewItem(freshId, form, detailKey);
    RemoveIdAppend([item], list, ItemId, freshId);
    assert RemoveId([item], ItemId, freshId) == [];
    RemoveIdAbsent(list, ItemId, freshId);
  }

  // ---------------------------------------------------------------------------------------------
  // The timetable

  /** The slot the form describes, under the id it is stored with. */
  function SlotOf(data: SlotSave, id: int): Slot {
    Slot(id, data.startTime, data.endTime, data.subject, data.teacher)
  }

  /**
   * The day's list after `handleSaveSlot`: a form with an id replaces the slots with that id in
   * place; a form without one is appended with a fresh id and the day is sorted by start time.
   */
  function SaveSlotDay(dayData: seq<Slot>, data: SlotSave, freshId: int): (r: seq<Slot>)
    ensures TruthyNumber(data.id) ==>
      && |r| == |dayData|
      && forall i :: 0 <= i < |dayData| ==>
           r[i] == if dayData[i].id == data.id.value then SlotOf(data, data.id.value) else dayData[i]
    ensures !TruthyNumber(data.id) ==>
      && |r| == |dayData| + 1
      && multiset(r) == multiset(dayData) + multiset{SlotOf(data, freshId)}
      && SortedBy(r, SlotStart)
  {
    if TruthyNumber(data.id) then
      MapId(dayData, SlotId, data.id.value, (s: Slot) => SlotOf(data, data.id.value))
    else
      var added := dayData + [SlotOf(data, freshId)];
      SortBySorted(added, SlotStart);
      SortByPermutes(added, SlotStart);
      SortBy(added, SlotStart)
  }

  /** Adding keeps the slots that start at the same time in their order, the new one last among them. */
  lemma AddSlotStable(dayData: seq<Slot>, data: SlotSave, freshId: int, start: string)
    requires !TruthyNumber(data.id)
    ensures WithKey(SaveSlotDay(dayData, data, freshId), SlotStart, start)
         == WithKey(dayData, SlotStart, start) + WithKey([SlotOf(data, freshId)], SlotStart, start)
  {
    var added := dayData + [SlotOf(data, freshId)];
    SortByStable(added, SlotStart, start);
    WithKeyAppend(dayData, [SlotOf(data, freshId)], SlotStart, start);
  }

  /** On a day already in order, deleting the fresh id of an added slot gives the day back. */
  lemma AddThenDeleteSlot(dayData: seq<Slot>, data: SlotSave, freshId: int)
    requires !TruthyNumber(data.id)
    requires SortedBy(dayData, SlotStart)
    requires forall i :: 0 <= i < |dayData| ==> dayData[i].id != freshId
    ensures RemoveId(SaveSlotDay(dayData, data, freshId), SlotId, freshId) == dayData
  {
    var slot := SlotOf(data, freshId);
    SortByAppend(dayData, slot, SlotStart);
    SortByOfSorted(dayData, SlotStart);
    RemoveIdInsertBy(dayData, slot, SlotStart, SlotId);
    RemoveIdAbsent(dayData, SlotId, freshId);
  }

  /**
   * Opening a stored slot in the modal and saving it unchanged leaves the day as it was, when no
   * other slot of the day shares its id.
   */
  lemma SaveUnchangedSlot(dayData: seq<Slot>, slot: Slot, freshId: int)
    requires slot.id != 0
    requires slot.subject != "" && slot.teacher != "" && slot.startTime != "" && slot.endTime != ""
    requires forall i :: 0 <= i < |dayData| && dayData[i].id == slot.id ==> dayData[i] == slot
    ensures var r := SlotModalSave(Some(slot.id), slot.subject, slot.teacher, slot.startTime, slot.endTime);
      r.Submitted? && SaveSlotDay(dayData, r.form, freshId) == dayData
  {
    var form := SlotSave(Some(slot.id), slot.subject, slot.teacher, slot.startTime, slot.endTime);
    var r := SaveSlotDay(dayData, form, freshId);
    assert SlotOf(form, slot.id) == slot;
    assert forall i :: 0 <= i < |dayData| ==> r[i] == dayData[i];
  }

  // ---------------------------------------------------------------------------------------------
  // The grouped view

  /** `item[groupKey]` as an object key: a missing field groups under the string "undefined". */
  function GroupKeyOf(item: Item, groupKey: string): string {
    if groupKey in item.details then item.details[groupKey] else "undefined"
  }

  /** The entries of `data` that fall in group `k`, in their order in `data`. */
  function InGroup(data: seq<Item>, groupKey: string, k: string): (r: seq<Item>)
    ensures |r| <= |data|
    ensures forall i :: 0 <= i < |r| ==> GroupKeyOf(r[i], groupKey) == k
  {
    if data == [] then []
    else
      var last := data[|data| - 1];
      InGroup(data[..|data| - 1], groupKey, k) + (if GroupKeyOf(last, groupKey) == k then [last] else [])
  }

  /** An entry is in the group of its own key. */
  lemma {:induction false} InOwnGroup(data: seq<Item>, groupKey: string, i: nat)
    requires i < |data|
    ensures data[i] in InGroup(data, groupKey, GroupKeyOf(data[i], groupKey))
  {
    if i < |data| - 1 {
      assert data[..|data| - 1][i] == data[i];
      InOwnGroup(data[..|data| - 1], groupKey, i);
    }
  }

  /** A group no entry's key names is empty. */
  lemma {:induction false} InGroupEmpty(data: seq<Item>, groupKey: string, k: string)
    requires forall i :: 0 <= i < |data| ==> GroupKeyOf(data[i], groupKey) != k
    ensures InGroup(data, groupKey, k) == []
  {
    if data != [] {
      InGroupEmpty(data[..|data| - 1], groupKey, k);
    }
  }

  predicate Distinct(keys: seq<string>) {
    forall i, j :: 0 <= i < j < |keys| ==> keys[i] != keys[j]
  }

  /** The keys of a list of group names, as a set. */
  function KeySet(keys: seq<string>): set<string> {
    if keys == [] then {} else KeySet(keys[..|keys| - 1]) + {keys[|keys| - 1]}
  }

  lemma {:induction false} KeySetMembership(keys: seq<string>, k: string)
    ensures k in KeySet(keys) <==> k in keys
  {
    if keys != [] {
      var init := keys[..|keys| - 1];
      KeySetMembership(init, k);
      assert keys == init + [keys[|keys| - 1]];
    }
  }

  /** The sizes of the groups listed in `keys`, added up; a key without a group counts 0. */
  function SizeSum(groups: map<string, seq<Item>>, keys: seq<string>): nat {
    if keys == [] then 0
    else
      var last := keys[|keys| - 1];
      SizeSum(groups, keys[..|keys| - 1]) + (if last in groups then |groups[last]| else 0)
  }

  lemma {:induction false} SizeSumFrame(groups: map<string, seq<Item>>, keys: seq<string>, k: string,
                                        v: seq<Item>)
    requires k !in keys
    ensures SizeSum(groups[k := v], keys) == SizeSum(groups, keys)
  {
    if keys != [] {
      var init := keys[..|keys| - 1];
      assert keys == init + [keys[|keys| - 1]];
      SizeSumFrame(groups, init, k, v);
    }
  }

  /** One more entry in a listed group adds one to the sum. */
  lemma {:induction false} SizeSumGrow(groups: map<string, seq<Item>>, keys: seq<string>, k: string,
                                       x: Item)
    requires Distinct(keys) && k in keys && k in groups
    ensures SizeSum(groups[k := groups[k] + [x]], keys) == SizeSum(groups, keys) + 1
  {
    var init, last := keys[..|keys| - 1], keys[|keys| - 1];
    assert keys == init + [last];
    if last == k {
      assert k !in init by {
        forall j | 0 <= j < |init| ensures init[j] != k {
          assert init[j] == keys[j];
        }
      }
      SizeSumFrame(groups, init, k, groups[k] + [x]);
    } else {
      assert Distinct(init) by {
        forall i, j | 0 <= i < j < |init| ensures init[i] != init[j] {
          assert init[i] == keys[i] && init[j] == keys[j];
        }
      }
      SizeSumGrow(groups, init, k, x);
    }
  }

  /**
   * `keys` and `groups` are the grouping of `prefix`: the groups are the listed keys, once each,
   * every entry's key has a group, each group holds exactly its entries in order, and the sizes
   * add up to the number of entries.
   */
  ghost predicate Grouped(prefix: seq<Item>, groupKey: string, keys: seq<string>,
                          groups: map<string, seq<Item>>)
  {
    && groups.Keys == KeySet(keys)
    && Distinct(keys)
    && (forall j :: 0 <= j < |prefix| ==> GroupKeyOf(prefix[j], groupKey) in groups)
    && (forall k {:trigger InGroup(prefix, groupKey, k)} :: k in groups ==> groups[k] == InGroup(prefix, groupKey, k))
    && SizeSum(groups, keys) == |prefix|
  }

  /** One more entry joins its own group and no other. */
  lemma InGroupSnoc(prefix: seq<Item>, item: Item, groupKey: string, c: string)
    ensures InGroup(prefix + [item], groupKey, c)
         == InGroup(prefix, groupKey, c) + (if GroupKeyOf(item, groupKey) == c then [item] else [])
  {
    assert (prefix + [item])[..|prefix|] == prefix;
  }

  /** Every entry of `prefix + [item]` has its key in `groups'` when `prefix`'s and `item`'s do. */
  lemma KeysStayGrouped(prefix: seq<Item>, item: Item, groupKey: string, groups': map<string, seq<Item>>)
    requires forall j :: 0 <= j < |prefix| ==> GroupKeyOf(prefix[j], groupKey) in groups'
    requires GroupKeyOf(item, groupKey) in groups'
    ensures forall j :: 0 <= j < |prefix + [item]| ==> GroupKeyOf((prefix + [item])[j], groupKey) in groups'
  {
    forall j | 0 <= j < |prefix + [item]| ensures GroupKeyOf((prefix + [item])[j], groupKey) in groups' {
      if j < |prefix| {
        assert (prefix + [item])[j] == prefix[j];
      }
    }
  }

  /** A key met again: its group grows by the entry, the others stay. */
  lemma PushExisting(prefix: seq<Item>, item: Item, groupKey: string, keys: seq<string>,
                     groups: map<string, seq<Item>>)
    requires Grouped(prefix, groupKey, keys, groups)
    requires GroupKeyOf(item, groupKey) in groups
    ensures Grouped(prefix + [item], groupKey, keys, groups[GroupKeyOf(item, groupKey) := groups[GroupKeyOf(item, groupKey)] + [item]])
  {
    var k := GroupKeyOf(item, groupKey);
    var groups' := groups[k := groups[k] + [item]];
    assert groups'.Keys == groups.Keys;
    forall c | c in groups' ensures groups'[c] == InGroup(prefix + [item], groupKey, c) {
      InGroupSnoc(prefix, item, groupKey, c);
    }
    KeySetMembership(keys, k);
    SizeSumGrow(groups, keys, k, item);
    KeysStayGrouped(prefix, item, groupKey, groups');
  }

  /** A key met for the first time: a new group holding just the entry, listed last. */
  lemma PushNew(prefix: seq<Item>, item: Item, groupKey: string, keys: seq<string>,
                groups: map<string, seq<Item>>)
    requires Grouped(prefix, groupKey, keys, groups)
    requires GroupKeyOf(item, groupKey) !in groups
    ensures Grouped(prefix + [item], groupKey, keys + [GroupKeyOf(item, groupKey)],
                    groups[GroupKeyOf(item, groupKey) := [item]])
  {
    var k := GroupKeyOf(item, groupKey);
    var keys', groups' := keys + [k], groups[k := [item]];
    assert keys'[..|keys|] == keys;
    assert groups'.Keys == KeySet(keys');
    KeySetMembership(keys, k);
    assert Distinct(keys') by {
      forall i, j | 0 <= i < j < |keys'| ensures keys'[i] != keys'[j] {
        assert keys'[i] == keys[i];
      }
    }
    InGroupEmpty(prefix, groupKey, k);
    forall c | c in groups' ensures groups'[c] == InGroup(prefix + [item], groupKey, c) {
      InGroupSnoc(prefix, item, groupKey, c);
    }
    SizeSumFrame(groups, keys, k, [item]);
    assert SizeSum(groups', keys') == SizeSum(groups', keys) + 1;
    KeysStayGrouped(prefix, item, groupKey, groups');
  }

  /** The group keys after meeting key `k`: listed last the first time it is met. */
  function NextKeys(keys: seq<string>, groups: map<string, seq<Item>>, k: string): seq<string> {
    if k in groups then keys else keys + [k]
  }

  /** `(acc[k] = acc[k] || []).push(item)` */
  function Pushed(groups: map<string, seq<Item>>, k: string, item: Item): map<string, seq<Item>> {
    groups[k := (if k in groups then groups[k] else []) + [item]]
  }

  /** One step of the `reduce` keeps the grouping invariant. */
  lemma PushKeepsGrouped(prefix: seq<Item>, item: Item, groupKey: string, keys: seq<string>,
                         groups: map<string, seq<Item>>)
    requires Grouped(prefix, groupKey, keys, groups)
    ensures var k := GroupKeyOf(item, groupKey);
      Grouped(prefix + [item], groupKey, NextKeys(keys, groups, k), Pushed(groups, k, item))
  {
    var k := GroupKeyOf(item, groupKey);
    if k in groups {
      PushExisting(prefix, item, groupKey, keys, groups);
    } else {
      assert [] + [item] == [item];
      PushNew(prefix, item, groupKey, keys, groups);
    }
  }

  /** What the invariant says once every entry has been grouped. */
  lemma GroupedMeans(data: seq<Item>, groupKey: string, keys: seq<string>, groups: map<string, seq<Item>>)
    requires Grouped(data, groupKey, keys, groups)
    ensures forall k :: k in groups <==> k in keys
    ensures Distinct(keys)
    ensures forall i :: 0 <= i < |data| ==> GroupKeyOf(data[i], groupKey) in groups
    ensures forall k :: k in groups ==> groups[k] == InGroup(data, groupKey, k)
    ensures SizeSum(groups, keys) == |data|
  {
    forall k ensures k in groups <==> k in keys {
      KeySetMembership(keys, k);
    }
  }

  /**
   * The names a plain `{}` inherits from `Object.prototype` (ECMAScript section 20.1.3 and
   * Annex B.2.2). Reading one of them on the accumulator gives a function (or, for `__proto__`,
   * the prototype object): a truthy value that is not an array.
   */
  const InheritedNames: set<string> := {
    "constructor", "hasOwnProperty", "isPrototypeOf", "propertyIsEnumerable", "toLocaleString",
    "toString", "valueOf", "__proto__", "__defineGetter__", "__defineSetter__",
    "__lookupGetter__", "__lookupSetter__"
  }

  /**
   * The `reduce` of `GenericListView`: every entry is pushed onto the group of its key, a group is
   * created the first time its key is met, and `keys` records the groups in that order. When an
   * entry's key is an inherited name, `acc[key] || []` is that inherited value, `push` is not a
   * function on it and the reduce throws a `TypeError` (`threw`); the list view is not rendered.
   */
  method GroupItems(data: seq<Item>, groupKey: string)
    returns (threw: bool, keys: seq<string>, groups: map<string, seq<Item>>)
    ensures threw <==> exists i :: 0 <= i < |data| && GroupKeyOf(data[i], groupKey) in InheritedNames
    ensures !threw ==> forall k :: k in groups <==> k in keys
    ensures !threw ==> Distinct(keys)
    ensures !threw ==> forall i :: 0 <= i < |data| ==> GroupKeyOf(data[i], groupKey) in groups
    ensures !threw ==> forall k :: k in groups ==> groups[k] == InGroup(data, groupKey, k)
    ensures !threw ==> SizeSum(groups, keys) == |data|
  {
    threw, keys, groups := false, [], map[];
    var i := 0;
    while i < |data|
      invariant 0 <= i <= |data|
      invariant forall j :: 0 <= j < i ==> GroupKeyOf(data[j], groupKey) !in InheritedNames
      invariant Grouped(data[..i], groupKey, keys, groups)
    {
      var k := GroupKeyOf(data[i], groupKey);
      if k in InheritedNames {
        return true, keys, groups;
      }
      PushKeepsGrouped(data[..i], data[i], groupKey, keys, groups);
      assert data[..i + 1] == data[..i] + [data[i]];
      keys, groups := NextKeys(keys, groups, k), Pushed(groups, k, data[i]);
      i := i + 1;
    }
    assert data[..i] == data;
    GroupedMeans(data, groupKey, keys, groups);
  }

  /** A teacher saved with the subject "constructor" makes the teachers' list view throw. */
  method ConstructorSubjectThrows(teachers: seq<Item>, i: nat) returns (threw: bool)
    requires i < |teachers| && "subject" in teachers[i].details
    requires teachers[i].details["subject"] == "constructor"
    ensures threw
  {
    var keys, groups;
    threw, keys, groups := GroupItems(teachers, "subject");
    assert GroupKeyOf(teachers[i], "subject") in InheritedNames;
  }

  // ---------------------------------------------------------------------------------------------
  // Sharing the timetable

  /** What Share does: an alert for an empty day, or the message handed to the share sheet. */
  datatype Share = NothingToShare(alert: Alert) | ShareText(message: string)

  function ShareHeader(cls: string, day: string): string {
    "\U{1F4C5} *Timetable for " + cls + "*\n\U{1F5D3}\U{FE0F} *" + day + "*\n\n"
  }

  function SlotText(slot: Slot): string {
    "\U{23F0} " + slot.startTime + " - " + slot.endTime + "\n\U{1F4DA} " + slot.subject
    + "\n\U{1F468}\U{200D}\U{1F3EB} " + slot.teacher + "\n\n"
  }

  const ShareFooter: string := "generated via EduCore"

  /** The slots' texts one after another. */
  function SlotsText(slots: seq<Slot>): string {
    JoinMap(slots, SlotText)
  }

  lemma SlotsTextAppend(a: seq<Slot>, b: seq<Slot>)
    ensures SlotsText(a + b) == SlotsText(a) + SlotsText(b)
  {
    JoinMapAppend(a, b, SlotText);
  }

  /** The message is the header, each slot's block in the day's order, and the footer. */
  function ShareOf(cls: string, day: string, slots: seq<Slot>): Share {
    if slots == [] then NothingToShare(Alert("Empty", "No schedule to share."))
    else ShareText(ShareHeader(cls, day) + SlotsText(slots) + ShareFooter)
  }

  /** Sharing a day with one more slot puts that slot's block just before the footer. */
  lemma ShareOneMore(cls: string, day: string, slots: seq<Slot>, slot: Slot)
    requires slots != []
    ensures ShareOf(cls, day, slots + [slot]).message
         == ShareHeader(cls, day) + SlotsText(slots) + SlotText(slot) + ShareFooter
  {
    assert (slots + [slot])[..|slots|] == slots;
  }

  /** `handleTimetableShare`: the `message +=` loop over the day's slots. */
  method ShareMessage(cls: string, day: string, slots: seq<Slot>) returns (r: Share)
    ensures r == ShareOf(cls, day, slots)
  {
    if |slots| == 0 {
      return NothingToShare(Alert("Empty", "No schedule to share."));
    }
    var message := ShareHeader(cls, day);
    var i := 0;
    while i < |slots|
      invariant 0 <= i <= |slots|
      invariant message == ShareHeader(cls, day) + SlotsText(slots[..i])
    {
      assert slots[..i + 1][..i] == slots[..i];
      message := message + SlotText(slots[i]);
      i := i + 1;
    }
    assert slots[..i] == slots;
    message := message + ShareFooter;
    return ShareText(message);
  }

  // ---------------------------------------------------------------------------------------------
  // The screen's state

  class AdminState {
    var teachers: seq<Item>
    var students: seq<Item>
    var classes: seq<Item>
    var schedule: Schedule.Table<Slot>
    var activeClass: string
    var activeDay: string
    var currentListType: string

    constructor ()
      ensures teachers == InitialTeachers && students == InitialStudents && classes == InitialClasses
      ensures schedule == InitialSchedule
      ensures activeClass == ClassesList[0] && activeDay == Days[0] && currentListType == "Teacher"
    {
      teachers := InitialTeachers;
      students := InitialStudents;
      classes := InitialClasses;
      schedule := InitialSchedule;
      activeClass := ClassesList[0];
      activeDay := Days[0];
      currentListType := "Teacher";
    }

    /** `handleAddNew(type)` and `handleEdit(item, type)`: the form opens on that list. */
    method OpenForm(listType: string)
      modifies this
      ensures currentListType == listType
      ensures teachers == old(teachers) && students == old(students) && classes == old(classes)
      ensures schedule == old(schedule) && activeClass == old(activeClass) && activeDay == old(activeDay)
    {
      currentListType := listType;
    }

    /** The class and day tabs of the timetable. */
    method SelectTimetable(cls: string, day: string)
      modifies this
      ensures activeClass == cls && activeDay == day
      ensures teachers == old(teachers) && students == old(students) && classes == old(classes)
      ensures schedule == old(schedule) && currentListType == old(currentListType)
    {
      activeClass, activeDay := cls, day;
    }

    /** `handleSaveForm`: only the list the form was opened on changes. */
    method SaveForm(form: FormSave, freshId: int)
      modifies this
      ensures currentListType == old(currentListType)
      ensures old(currentListType) == "Teacher" ==>
        teachers == SaveToList(old(teachers), form, "subject", freshId)
        && students == old(students) && classes == old(classes)
      ensures old(currentListType) == "Student" ==>
        students == SaveToList(old(students), form, "grade", freshId)
        && teachers == old(teachers) && classes == old(classes)
      ensures old(currentListType) != "Teacher" && old(currentListType) != "Student" ==>
        classes == SaveToList(old(classes), form, "location", freshId)
        && teachers == old(teachers) && students == old(students)
      ensures schedule == old(schedule) && activeClass == old(activeClass) && activeDay == old(activeDay)
    {
      var detailKey := DetailKey(currentListType);
      if currentListType == "Teacher" {
        teachers := SaveToList(teachers, form, detailKey, freshId);
      } else if currentListType == "Student" {
        students := SaveToList(students, form, detailKey, freshId);
      } else {
        classes := SaveToList(classes, form, detailKey, freshId);
      }
    }

    /** The confirmed `handleDelete(id, type)`; a type other than the three changes nothing. */
    method Delete(id: int, kind: string)
      modifies this
      ensures teachers == if kind == "teacher" then RemoveId(old(teachers), ItemId, id) else old(teachers)
      ensures students == if kind == "student" then RemoveId(old(students), ItemId, id) else old(students)
      ensures classes == if kind == "class" then RemoveId(old(classes), ItemId, id) else old(classes)
      ensures schedule == old(schedule) && currentListType == old(currentListType)
      ensures activeClass == old(activeClass) && activeDay == old(activeDay)
    {
      if kind == "teacher" {
        teachers := RemoveId(teachers, ItemId, id);
      }
      if kind == "student" {
        students := RemoveId(students, ItemId, id);
      }
      if kind == "class" {
        classes := RemoveId(classes, ItemId, id);
      }
    }

    /** `handleSaveSlot`: only the selected class's selected day is rewritten. */
    method SaveSlot(data: SlotSave, freshId: int)
      modifies this
      ensures schedule == Schedule.SetDay(old(schedule), activeClass, activeDay,
        SaveSlotDay(Schedule.DayList(old(schedule), activeClass, activeDay), data, freshId))
      ensures teachers == old(teachers) && students == old(students) && classes == old(classes)
      ensures activeClass == old(activeClass) && activeDay == old(activeDay)
      ensures currentListType == old(currentListType)
    {
      var dayData := Schedule.DayList(schedule, activeClass, activeDay);
      schedule := Schedule.SetDay(schedule, activeClass, activeDay, SaveSlotDay(dayData, data, freshId));
    }

    /** `handleDeleteSlot(id)` */
    method DeleteSlot(id: int)
      modifies this
      ensures schedule == Schedule.SetDay(old(schedule), activeClass, activeDay,
        RemoveId(Schedule.DayList(old(schedule), activeClass, activeDay), SlotId, id))
      ensures teachers == old(teachers) && students == old(students) && classes == old(classes)
      ensures activeClass == old(activeClass) && activeDay == old(activeDay)
      ensures currentListType == old(currentListType)
    {
      var dayData := Schedule.DayList(schedule, activeClass, activeDay);
      schedule := Schedule.SetDay(schedule, activeClass, activeDay, RemoveId(dayData, SlotId, id));
    }

    /** `handleTimetableShare` on the selected class and day. */
    method TimetableShare() returns (r: Share)
      ensures r == ShareOf(activeClass, activeDay, Schedule.DayList(schedule, activeClass, activeDay))
    {
      r := ShareMessage(activeClass, activeDay, Schedule.DayList(schedule, activeClass, activeDay));
    }
  }

  /** The panel's own timetable is in start-time order, so adding and then deleting a slot restores it. */
  lemma InitialDaysSorted()
    ensures SortedBy(Schedule.DayList(InitialSchedule, "Class 10-A", "Monday"), SlotStart)
    ensures SortedBy(Schedule.DayList(InitialSchedule, "Class 10-A", "Tuesday"), SlotStart)
  {
    var monday := Schedule.DayList(InitialSchedule, "Class 10-A", "Monday");
    assert StrLe(monday[0].startTime, monday[1].startTime) by {
      assert monday[0].startTime == "09:00 AM" && monday[1].startTime == "10:00 AM";
      assert monday[0].startTime[0] < monday[1].startTime[0];
    }
  }
}
