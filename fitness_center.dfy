/** The fitness-center page (`FitnessCenter`): gym equipment with a category
    filter, scheduled classes, and one booking dialog shared by both, in
    equipment mode (date, gym time slot, duration) or class mode (date and
    one of the class's own times). */
module FitnessCenter {
  import opened Lists
  import opened Catalog

  /** A piece of equipment: id, name, category and the units on board. */
  datatype Equipment = Equipment(id: int, name: string, category: string, availableUnits: nat)

  /** A class: id, name, instructor, length as displayed, capacity and its start times. */
  datatype FitnessClass = FitnessClass(id: int, name: string, instructor: string, duration: string, capacity: nat, times: seq<string>)

  const EquipmentList: seq<Equipment> := [
    Equipment(1, "Treadmill", "Cardio", 8),
    Equipment(2, "Rowing Machine", "Cardio", 4),
    Equipment(3, "Smith Machine", "Strength", 3),
    Equipment(4, "Free Weights Set", "Strength", 6),
    Equipment(5, "Yoga Mat", "Flexibility", 15),
    Equipment(6, "Exercise Bike", "Cardio", 6)
  ]

  const Classes: seq<FitnessClass> := [
    FitnessClass(1, "Morning Yoga", "Sarah Johnson", "45 min", 12, ["7:00 AM", "9:00 AM"]),
    FitnessClass(2, "HIIT Workout", "Mark Davis", "30 min", 10, ["11:00 AM", "4:00 PM"]),
    FitnessClass(3, "Zumba", "Elena Rodriguez", "60 min", 15, ["2:00 PM", "6:00 PM"])
  ]

  /** The gym's hourly slots, 6:00 AM to 8:00 PM. */
  const GymTimeSlots: seq<string> := [
    "6:00 AM", "7:00 AM", "8:00 AM", "9:00 AM", "10:00 AM",
    "11:00 AM", "12:00 PM", "1:00 PM", "2:00 PM", "3:00 PM",
    "4:00 PM", "5:00 PM", "6:00 PM", "7:00 PM", "8:00 PM"
  ]

  /** The duration select's values, in minutes, as the strings it stores. */
  const DurationOptions: seq<string> := ["30", "60", "90", "120"]

  /** Which kind of booking the dialog is for. */
  datatype DialogType = EquipmentDialog | ClassDialog

  function CategoryOf(e: Equipment): string
  {
    e.category
  }

  /** `filteredEquipment` for a selected category. */
  function FilteredEquipment(selected: string): seq<Equipment>
  {
    ByCategory(EquipmentList, CategoryOf, selected)
  }

  /** "All" shows all equipment; any other choice exactly the equipment of
      that category, each once and in catalog order. */
  lemma FilteredEquipmentExact(selected: string)
    ensures selected == AllCategories ==> FilteredEquipment(selected) == EquipmentList
    ensures SubsequenceOf(FilteredEquipment(selected), EquipmentList)
    ensures forall e :: e in FilteredEquipment(selected) <==>
              e in EquipmentList && (selected == AllCategories || e.category == selected)
  {
    ByCategoryExact(EquipmentList, CategoryOf, selected);
  }

  /** `uniqueCategories`. */
  function UniqueEquipmentCategories(): seq<string>
  {
    UniqueCategories(EquipmentList, CategoryOf)
  }

  /** The filter choices are "All", "Cardio", "Strength", "Flexibility", in that order. */
  lemma UniqueEquipmentCategoriesValue()
    ensures UniqueEquipmentCategories() == ["All", "Cardio", "Strength", "Flexibility"]
  {
    var cs := Categories(EquipmentList, CategoryOf);
    assert cs == ["Cardio", "Cardio", "Strength", "Strength", "Flexibility", "Cardio"];
    UniqueEquipmentCategoriesDistinct(cs);
  }

  /** The distinct categories, computed one catalog entry at a time. */
  lemma UniqueEquipmentCategoriesDistinct(cs: seq<string>)
    requires cs == ["Cardio", "Cardio", "Strength", "Strength", "Flexibility", "Cardio"]
    ensures Distinct(cs) == ["Cardio", "Strength", "Flexibility"]
  {
    assert Distinct(cs[..1]) == ["Cardio"];
    assert cs[..2][..1] == cs[..1];
    assert Distinct(cs[..2]) == ["Cardio"];
    assert cs[..3][..2] == cs[..2];
    assert Distinct(cs[..3]) == ["Cardio", "Strength"];
    assert cs[..4][..3] == cs[..3];
    assert Distinct(cs[..4]) == ["Cardio", "Strength"];
    assert cs[..5][..4] == cs[..4];
    assert Distinct(cs[..5]) == ["Cardio", "Strength", "Flexibility"];
    assert cs[..5] == cs[..|cs| - 1];
  }

  /** "Reserve Equipment" is disabled for a piece with no units left. */
  predicate ReserveDisabled(e: Equipment)
  {
    e.availableUnits == 0
  }

  /** Every piece in the catalog has units, so no reserve button starts disabled. */
  lemma NoReserveDisabled()
    ensures forall k :: 0 <= k < |EquipmentList| ==> !ReserveDisabled(EquipmentList[k])
  {
  }

  /** `fitnessClasses.find(c => c.id === selectedClass)`. */
  function FindClass(selectedClass: Option<int>): (r: Option<FitnessClass>)
    ensures r.Some? ==> r.value in Classes && selectedClass == Some(r.value.id)
    ensures r.None? <==> selectedClass.None? || forall i :: 0 <= i < |Classes| ==> Classes[i].id != selectedClass.value
  {
    match selectedClass
    case None => None
    case Some(id) => Find(Classes, (c: FitnessClass) => c.id == id)
  }

  /** The times the dialog's time select offers: the gym slots for equipment,
      the selected class's own times for a class (none if no class is found). */
  function TimeOptions(dialogType: DialogType, selectedClass: Option<int>): seq<string>
  {
    match dialogType
    case EquipmentDialog => GymTimeSlots
    case ClassDialog => match FindClass(selectedClass) case Some(c) => c.times case None => []
  }

  /** Equipment offers the fifteen gym slots; a catalog class offers exactly
      its own times; and every time any dialog offers is a gym slot. */
  lemma TimeOptionsFacts(dialogType: DialogType, selectedClass: Option<int>)
    ensures dialogType == EquipmentDialog ==> |TimeOptions(dialogType, selectedClass)| == 15
    ensures forall k :: 0 <= k < |Classes| && dialogType == ClassDialog && selectedClass == Some(Classes[k].id) ==>
              TimeOptions(dialogType, selectedClass) == Classes[k].times
    ensures forall t :: t in TimeOptions(dialogType, selectedClass) ==> t in GymTimeSlots
  {
    forall k | 0 <= k < |Classes| && selectedClass == Some(Classes[k].id)
      ensures FindClass(selectedClass) == Some(Classes[k])
    {
      FindFirstMatch(Classes, (c: FitnessClass) => c.id == Classes[k].id, k);
    }
    assert forall k, j :: 0 <= k < |Classes| && 0 <= j < |Classes[k].times| ==> Classes[k].times[j] in GymTimeSlots by {
      assert GymTimeSlots[1] == "7:00 AM" && GymTimeSlots[3] == "9:00 AM";
      assert GymTimeSlots[5] == "11:00 AM" && GymTimeSlots[10] == "4:00 PM";
      assert GymTimeSlots[8] == "2:00 PM" && GymTimeSlots[12] == "6:00 PM";
    }
  }

  /** The booking form of the dialog. */
  datatype SessionForm = SessionForm(date: Option<Date>, timeSlot: Option<string>, duration: string)

  /** "Confirm Booking" is enabled: a date and a time, plus a duration in equipment mode. */
  predicate CanConfirm(dialogType: DialogType, f: SessionForm)
  {
    f.date.Some? && Filled(f.timeSlot) && (dialogType == EquipmentDialog ==> f.duration != "")
  }

  /** The form after a confirmation: time cleared, duration back to "60", date kept. */
  function AfterConfirm(f: SessionForm): SessionForm
  {
    SessionForm(f.date, None, "60")
  }

  /** After a confirmation the button is disabled in either mode until a time
      is picked; the date is kept and the duration is back at an offered value. */
  lemma ConfirmResetsForm(dialogType: DialogType, f: SessionForm)
    ensures !CanConfirm(dialogType, AfterConfirm(f))
    ensures AfterConfirm(f).date == f.date && AfterConfirm(f).duration in DurationOptions
  {
  }

  /** On a kept date, any time the dialog offers enables the button again
      after a confirmation, in equipment mode too. */
  lemma ConfirmReenabled(dialogType: DialogType, selectedClass: Option<int>, f: SessionForm, i: nat)
    requires i < |TimeOptions(dialogType, selectedClass)|
    ensures f.date.Some? ==>
              CanConfirm(dialogType, AfterConfirm(f).(timeSlot := Some(TimeOptions(dialogType, selectedClass)[i])))
  {
    var t := TimeOptions(dialogType, selectedClass)[i];
    if dialogType == ClassDialog {
      match FindClass(selectedClass)
      case Some(c) =>
        assert c.times == Classes[0].times || c.times == Classes[1].times || c.times == Classes[2].times;
      case None =>
    }
  }

  /** The page's state. */
  class FitnessCenterPage {
    var selectedCategory: string
    var selectedEquipment: Option<int>
    var selectedClass: Option<int>
    var openDialog: bool
    var dialogType: DialogType
    var date: Option<Date>
    var timeSlot: Option<string>
    var duration: string

    /** The dialog's form fields. */
    function Form(): SessionForm
      reads this
    {
      SessionForm(date, timeSlot, duration)
    }

    constructor (today: Date)
      ensures selectedCategory == AllCategories && selectedEquipment.None? && selectedClass.None?
      ensures !openDialog && dialogType == EquipmentDialog
      ensures Form() == SessionForm(Some(today), None, "60")
    {
      selectedCategory := AllCategories;
      selectedEquipment := None;
      selectedClass := None;
      openDialog := false;
      dialogType := EquipmentDialog;
      date := Some(today);
      timeSlot := None;
      duration := "60";
    }

    /** "Confirm Booking" is disabled. */
    function ConfirmDisabled(): (d: bool)
      reads this
      ensures d <==> !CanConfirm(dialogType, Form())
    {
      date.None? || !Filled(timeSlot) || (dialogType == EquipmentDialog && duration == "")
    }

    /** The times the dialog offers now. */
    function ShownTimes(): (ts: seq<string>)
      reads this
      ensures dialogType == EquipmentDialog ==> ts == GymTimeSlots
      ensures dialogType == ClassDialog ==>
                forall k :: 0 <= k < |Classes| && selectedClass == Some(Classes[k].id) ==> ts == Classes[k].times
      ensures dialogType == ClassDialog && FindClass(selectedClass).None? ==> ts == []
      ensures forall t :: t in ts ==> t in GymTimeSlots
    {
      TimeOptionsFacts(dialogType, selectedClass);
      TimeOptions(dialogType, selectedClass)
    }

    /** `handleBookEquipment(equipmentId)`. */
    method HandleBookEquipment(equipmentId: int)
      modifies this
      ensures selectedEquipment == Some(equipmentId) && dialogType == EquipmentDialog && openDialog
      ensures selectedClass == old(selectedClass) && Form() == old(Form()) && selectedCategory == old(selectedCategory)
    {
      selectedEquipment := Some(equipmentId);
      dialogType := EquipmentDialog;
      openDialog := true;
    }

    /** `handleBookClass(classId)`. */
    method HandleBookClass(classId: int)
      modifies this
      ensures selectedClass == Some(classId) && dialogType == ClassDialog && openDialog
      ensures selectedEquipment == old(selectedEquipment) && Form() == old(Form()) && selectedCategory == old(selectedCategory)
    {
      selectedClass := Some(classId);
      dialogType := ClassDialog;
      openDialog := true;
    }

    /** `handleConfirmBooking`: close the dialog, clear the time and reset the
        duration; selections, mode and date stay, and the catalog (a constant
        here) is never touched. */
    method HandleConfirmBooking()
      modifies this
      ensures !openDialog && Form() == AfterConfirm(old(Form()))
      ensures selectedEquipment == old(selectedEquipment) && selectedClass == old(selectedClass)
      ensures dialogType == old(dialogType) && selectedCategory == old(selectedCategory)
    {
      openDialog := false;
      timeSlot := None;
      duration := "60";
    }
  }
}
