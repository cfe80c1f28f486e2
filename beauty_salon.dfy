/** The beauty-salon page (`BeautySalon`): six treatments in four categories,
    a category filter, and an appointment dialog with a date, a time slot and
    a specialist. */
module BeautySalon {
  import opened Lists
  import opened Catalog

  /** A treatment: id, name, price in dollars, length as displayed, and category. */
  datatype Treatment = Treatment(id: int, name: string, price: nat, duration: string, category: string)

  const Treatments: seq<Treatment> := [
    Treatment(1, "Classic Manicure", 35, "45 min", "Nails"),
    Treatment(2, "Deluxe Facial", 85, "60 min", "Facials"),
    Treatment(3, "Hot Stone Massage", 95, "75 min", "Massage"),
    Treatment(4, "Men's Haircut & Styling", 45, "30 min", "Hair"),
    Treatment(5, "Women's Haircut & Styling", 65, "60 min", "Hair"),
    Treatment(6, "Aromatherapy Massage", 90, "60 min", "Massage")
  ]

  const TimeSlots: seq<string> := [
    "9:00 AM", "10:00 AM", "11:00 AM", "12:00 PM", "1:00 PM",
    "2:00 PM", "3:00 PM", "4:00 PM", "5:00 PM"
  ]

  const Specialists: seq<string> := [
    "Emma Wilson", "James Rodriguez", "Sophie Chen",
    "Marcus Johnson", "Olivia Taylor", "Daniel Kim"
  ]

  function CategoryOf(t: Treatment): string
  {
    t.category
  }

  /** `filteredTreatments` for a selected category. */
  function FilteredTreatments(selected: string): seq<Treatment>
  {
    ByCategory(Treatments, CategoryOf, selected)
  }

  /** "All" shows every treatment; any other choice exactly the treatments of
      that category, each once and in catalog order. */
  lemma FilteredTreatmentsExact(selected: string)
    ensures selected == AllCategories ==> FilteredTreatments(selected) == Treatments
    ensures SubsequenceOf(FilteredTreatments(selected), Treatments)
    ensures forall t :: t in FilteredTreatments(selected) <==>
              t in Treatments && (selected == AllCategories || t.category == selected)
  {
    ByCategoryExact(Treatments, CategoryOf, selected);
  }

  /** "Massage" shows the hot-stone and the aromatherapy massage, in that order. */
  lemma MassageFilter()
    ensures FilteredTreatments("Massage") == [Treatments[2], Treatments[5]]
  {
    var p := (x: Treatment) => CategoryOf(x) == "Massage";
    assert Filter(Treatments[5..], p) == [Treatments[5]];
    assert Filter(Treatments[4..], p) == [Treatments[5]];
    assert Filter(Treatments[3..], p) == [Treatments[5]];
    assert Filter(Treatments[2..], p) == [Treatments[2], Treatments[5]];
    assert Filter(Treatments[1..], p) == [Treatments[2], Treatments[5]];
  }

  /** `uniqueCategories`. */
  function UniqueTreatmentCategories(): seq<string>
  {
    UniqueCategories(Treatments, CategoryOf)
  }

  /** The filter choices are "All", "Nails", "Facials", "Massage", "Hair", in that order. */
  lemma UniqueTreatmentCategoriesValue()
    ensures UniqueTreatmentCategories() == ["All", "Nails", "Facials", "Massage", "Hair"]
  {
    var cs := Categories(Treatments, CategoryOf);
    assert cs == ["Nails", "Facials", "Massage", "Hair", "Hair", "Massage"];
    UniqueTreatmentCategoriesDistinct(cs);
  }

  /** The distinct categories, computed one catalog entry at a time. */
  lemma UniqueTreatmentCategoriesDistinct(cs: seq<string>)
    requires cs == ["Nails", "Facials", "Massage", "Hair", "Hair", "Massage"]
    ensures Distinct(cs) == ["Nails", "Facials", "Massage", "Hair"]
  {
    FirstThreeTreatmentCategories(cs);
    assert cs[..4][..3] == cs[..3];
    assert Distinct(cs[..4]) == ["Nails", "Facials", "Massage", "Hair"];
    assert cs[..5][..4] == cs[..4];
    assert Distinct(cs[..5]) == ["Nails", "Facials", "Massage", "Hair"];
    assert cs[..5] == cs[..|cs| - 1];
  }

  /** The first three treatments bring three new categories. */
  lemma FirstThreeTreatmentCategories(cs: seq<string>)
    requires cs == ["Nails", "Facials", "Massage", "Hair", "Hair", "Massage"]
    ensures Distinct(cs[..3]) == ["Nails", "Facials", "Massage"]
  {
    assert Distinct(cs[..1]) == ["Nails"];
    assert cs[..2][..1] == cs[..1];
    assert Distinct(cs[..2]) == ["Nails", "Facials"];
    assert cs[..3][..2] == cs[..2];
  }

  /** The appointment form of the dialog. */
  datatype AppointmentForm = AppointmentForm(date: Option<Date>, timeSlot: Option<string>, specialist: Option<string>)

  /** "Confirm Booking" is enabled: date, time slot and specialist are all set. */
  predicate CanConfirm(f: AppointmentForm)
  {
    f.date.Some? && Filled(f.timeSlot) && Filled(f.specialist)
  }

  /** The form after a confirmation: time slot and specialist cleared, date kept. */
  function AfterConfirm(f: AppointmentForm): AppointmentForm
  {
    AppointmentForm(f.date, None, None)
  }

  /** After a confirmation the button is disabled until a new slot and
      specialist are picked; the date is kept. */
  lemma ConfirmResetsForm(f: AppointmentForm)
    ensures !CanConfirm(AfterConfirm(f))
    ensures AfterConfirm(f).date == f.date
  {
  }

  /** On a kept date, picking any offered slot and specialist enables the
      button again after a confirmation. */
  lemma ConfirmReenabled(f: AppointmentForm, i: nat, j: nat)
    requires i < |TimeSlots| && j < |Specialists|
    ensures f.date.Some? ==> CanConfirm(AfterConfirm(f).(timeSlot := Some(TimeSlots[i]), specialist := Some(Specialists[j])))
  {
  }

  /** The page's state. */
  class BeautySalonPage {
    var selectedCategory: string
    var selectedTreatment: Option<int>
    var openDialog: bool
    var date: Option<Date>
    var timeSlot: Option<string>
    var specialist: Option<string>

    /** The dialog's form fields. */
    function Form(): AppointmentForm
      reads this
    {
      AppointmentForm(date, timeSlot, specialist)
    }

    constructor (today: Date)
      ensures selectedCategory == AllCategories && selectedTreatment.None? && !openDialog
      ensures Form() == AppointmentForm(Some(today), None, None)
    {
      selectedCategory := AllCategories;
      selectedTreatment := None;
      openDialog := false;
      date := Some(today);
      timeSlot := None;
      specialist := None;
    }

    /** The treatments the page lists now. */
    function ShownTreatments(): (r: seq<Treatment>)
      reads this
      ensures forall t :: t in r <==> t in Treatments && (selectedCategory == AllCategories || t.category == selectedCategory)
    {
      FilteredTreatmentsExact(selectedCategory);
      FilteredTreatments(selectedCategory)
    }

    /** "Confirm Booking" is disabled. */
    function ConfirmDisabled(): (d: bool)
      reads this
      ensures d <==> !CanConfirm(Form())
    {
      date.None? || !Filled(timeSlot) || !Filled(specialist)
    }

    /** `handleBookAppointment(treatmentId)`. */
    method HandleBookAppointment(treatmentId: int)
      modifies this
      ensures selectedTreatment == Some(treatmentId) && openDialog
      ensures Form() == old(Form()) && selectedCategory == old(selectedCategory)
    {
      selectedTreatment := Some(treatmentId);
      openDialog := true;
    }

    /** `handleConfirmBooking`: close the dialog and clear slot and specialist. */
    method HandleConfirmBooking()
      modifies this
      ensures !openDialog && Form() == AfterConfirm(old(Form()))
      ensures selectedTreatment == old(selectedTreatment) && selectedCategory == old(selectedCategory)
    {
      openDialog := false;
      timeSlot := None;
      specialist := None;
    }
  }
}
