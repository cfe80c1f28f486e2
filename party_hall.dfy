/** The party-hall page (`PartyHall`): four halls, a party-type filter, and a
    booking dialog whose form is priced at the hall's hourly rate times the
    chosen number of hours. Durations are the whole hours the duration
    select offers (2 to 6), already read as numbers. */
module PartyHall {
  import opened Lists
  import opened Catalog

  /** A hall: id, name, capacity, hourly rate in dollars, and the party types it hosts. */
  datatype Hall = Hall(id: int, name: string, capacity: nat, pricePerHour: nat, partyTypes: seq<string>)

  const Halls: seq<Hall> := [
    Hall(1, "Grand Ballroom", 200, 550, ["Wedding", "Gala", "Corporate", "Birthday"]),
    Hall(2, "Sunset Terrace", 80, 350, ["Cocktail Party", "Engagement", "Birthday", "Anniversary"]),
    Hall(3, "Starlight Lounge", 50, 250, ["Birthday", "Get-together", "Anniversary", "Private Dinner"]),
    Hall(4, "Ocean View Hall", 120, 450, ["Wedding", "Corporate", "Gala", "Birthday"])
  ]

  /** The event types the dialog offers. */
  const EventTypes: seq<string> := [
    "Wedding", "Birthday", "Anniversary", "Engagement",
    "Corporate", "Gala", "Get-together", "Cocktail Party",
    "Private Dinner", "Other"
  ]

  const TimeSlots: seq<string> := ["10:00 AM", "12:00 PM", "2:00 PM", "4:00 PM", "6:00 PM", "8:00 PM", "10:00 PM"]

  /** The duration select's values, in hours. */
  const DurationOptions: seq<nat> := [2, 3, 4, 5, 6]

  const CateringOptions: seq<string> := ["buffet", "plated", "cocktail", "none"]

  const EntertainmentOptions: seq<string> := ["dj", "liveband", "solo", "none"]

  /** The hall ids are pairwise distinct, and every hall hosts birthdays. */
  lemma HallsWellFormed()
    ensures forall i, j :: 0 <= i < j < |Halls| ==> Halls[i].id != Halls[j].id
    ensures forall i :: 0 <= i < |Halls| ==> "Birthday" in Halls[i].partyTypes
  {
    assert Halls[0].partyTypes[3] == "Birthday";
    assert Halls[1].partyTypes[2] == "Birthday";
    assert Halls[2].partyTypes[0] == "Birthday";
    assert Halls[3].partyTypes[3] == "Birthday";
  }

  /** `partyHalls.find(h => h.id === selectedHall)`. */
  function FindHall(selectedHall: Option<int>): (r: Option<Hall>)
    ensures r.Some? ==> r.value in Halls && selectedHall == Some(r.value.id)
    ensures r.None? <==> selectedHall.None? || forall i :: 0 <= i < |Halls| ==> Halls[i].id != selectedHall.value
  {
    match selectedHall
    case None => None
    case Some(id) => Find(Halls, (h: Hall) => h.id == id)
  }

  /** The hall with a catalog id is the one found for it. */
  lemma FindHallAt(k: nat)
    requires k < |Halls|
    ensures FindHall(Some(Halls[k].id)) == Some(Halls[k])
  {
    HallsWellFormed();
    FindFirstMatch(Halls, (h: Hall) => h.id == Halls[k].id, k);
  }

  /** The price `handleConfirmBooking` computes: rate × hours, or 0 with no hall. */
  function BookingPrice(selectedHall: Option<int>, duration: nat): nat
  {
    match FindHall(selectedHall)
    case Some(h) => h.pricePerHour * duration
    case None => 0
  }

  /** `x || 0` on a possibly missing number. */
  function OrZero(x: Option<nat>): nat
  {
    if x.Some? && x.value != 0 then x.value else 0
  }

  /** `selectedHallData?.pricePerHour`. */
  function SelectedRate(selectedHall: Option<int>): Option<nat>
  {
    match FindHall(selectedHall)
    case Some(h) => Some(h.pricePerHour)
    case None => None
  }

  /** The figure the booking summary shows: hours × (rate `|| 0`). */
  function SummaryPrice(selectedHall: Option<int>, duration: nat): nat
  {
    duration * OrZero(SelectedRate(selectedHall))
  }

  /** The summary shows the same amount the confirmation charges, for every
      selection and duration. */
  lemma PricesAgree(selectedHall: Option<int>, duration: nat)
    ensures SummaryPrice(selectedHall, duration) == BookingPrice(selectedHall, duration)
  {
    match FindHall(selectedHall)
    case Some(h) =>
      var rate := h.pricePerHour;
      assert OrZero(SelectedRate(selectedHall)) == rate;
      assert duration * rate == rate * duration;
    case None =>
  }

  /** Booking a catalog hall costs its rate times the hours; an unknown or
      missing selection costs nothing; a booking of an offered duration costs
      between 500 (the cheapest hall for 2 hours) and 3300 (the dearest for 6). */
  lemma BookingPriceFacts(selectedHall: Option<int>, duration: nat)
    ensures forall k :: 0 <= k < |Halls| && selectedHall == Some(Halls[k].id) ==>
              BookingPrice(selectedHall, duration) == Halls[k].pricePerHour * duration
    ensures FindHall(selectedHall).None? ==> BookingPrice(selectedHall, duration) == 0
    ensures FindHall(selectedHall).Some? && duration in DurationOptions ==>
              500 <= BookingPrice(selectedHall, duration) <= 3300
  {
    forall k | 0 <= k < |Halls| && selectedHall == Some(Halls[k].id)
      ensures BookingPrice(selectedHall, duration) == Halls[k].pricePerHour * duration
    {
      FindHallAt(k);
    }
    if FindHall(selectedHall).Some? && duration in DurationOptions {
      var h := FindHall(selectedHall).value;
      assert 250 <= h.pricePerHour <= 550;
      assert 2 <= duration <= 6;
      assert 250 * 2 <= h.pricePerHour * duration <= 550 * 6;
    }
  }

  /** `filteredHalls`: "All", or the halls whose party types include the selection. */
  function FilteredHalls(selected: string): (r: seq<Hall>)
    ensures selected == AllCategories ==> r == Halls
    ensures selected != AllCategories ==> forall h :: h in r <==> h in Halls && selected in h.partyTypes
  {
    if selected == AllCategories then Halls else Filter(Halls, (h: Hall) => selected in h.partyTypes)
  }

  /** The filter keeps catalog order and each kept hall once. */
  lemma FilteredHallsInOrder(selected: string)
    ensures SubsequenceOf(FilteredHalls(selected), Halls)
    ensures forall h :: multiset(FilteredHalls(selected))[h] ==
              if selected == AllCategories || selected in h.partyTypes then multiset(Halls)[h] else 0
  {
    if selected == AllCategories {
      SubsequenceReflexive(Halls);
    } else {
      FilterIsSubsequence(Halls, (h: Hall) => selected in h.partyTypes);
      FilterCounts(Halls, (h: Hall) => selected in h.partyTypes);
    }
  }

  /** Every hall hosts birthdays, so that filter shows the whole catalog. */
  lemma BirthdayShowsEveryHall()
    ensures FilteredHalls("Birthday") == Halls
  {
    HallsWellFormed();
    FilterAllPass(Halls, (h: Hall) => "Birthday" in h.partyTypes);
  }

  /** Each hall's party types, in catalog order (`partyHalls.flatMap(h => h.partyTypes)` before flattening). */
  function HallPartyTypes(): seq<seq<string>>
  {
    seq(|Halls|, i requires 0 <= i < |Halls| => Halls[i].partyTypes)
  }

  /** `uniquePartyTypes`: "All", then each hall party type once. */
  function UniquePartyTypes(): (r: seq<string>)
    ensures |r| >= 1 && r[0] == AllCategories
    ensures NoDup(r[1..])
    ensures forall t :: t in r[1..] <==> exists i :: 0 <= i < |Halls| && t in Halls[i].partyTypes
  {
    var d := Distinct(Flatten(HallPartyTypes()));
    assert ([AllCategories] + d)[1..] == d;
    [AllCategories] + d
  }

  /** The party types after "All" appear in order of first occurrence across the halls. */
  lemma UniquePartyTypesOrder()
    ensures var r := UniquePartyTypes(); var ts := Flatten(HallPartyTypes());
      forall i, j :: 1 <= i < j < |r| ==> r[i] in ts && r[j] in ts && IndexOf(ts, r[i]) < IndexOf(ts, r[j])
  {
    var ts := Flatten(HallPartyTypes());
    var d := Distinct(ts);
    DistinctFirstOccurrenceOrder(ts);
    var r := UniquePartyTypes();
    assert r == [AllCategories] + d;
    forall i, j | 1 <= i < j < |r|
      ensures r[i] in ts && r[j] in ts && IndexOf(ts, r[i]) < IndexOf(ts, r[j])
    {
      assert r[i] == d[i - 1] && r[j] == d[j - 1];
    }
  }

  /** Every filter choice after "All" selects at least one hall, is one of the
      dialog's event types, and "Other" is never a filter choice. */
  lemma PartyTypeChoices()
    ensures forall t :: t in UniquePartyTypes()[1..] ==> FilteredHalls(t) != [] && t in EventTypes
    ensures "Other" !in UniquePartyTypes()
  {
    var r := UniquePartyTypes();
    HallTypesOffered();
    forall t | t in r[1..]
      ensures FilteredHalls(t) != [] && t in EventTypes
    {
      var i :| 0 <= i < |Halls| && t in Halls[i].partyTypes;
      assert t != AllCategories;
      assert Halls[i] in FilteredHalls(t);
    }
    assert r == [r[0]] + r[1..];
  }

  /** Every party type a hall lists is an event type of the dialog other than "Other". */
  lemma HallTypesOffered()
    ensures forall i, t :: 0 <= i < |Halls| && t in Halls[i].partyTypes ==> t in EventTypes && t != "Other"
  {
    assert EventTypes[0] == "Wedding" && EventTypes[1] == "Birthday" && EventTypes[2] == "Anniversary";
    assert EventTypes[3] == "Engagement" && EventTypes[4] == "Corporate" && EventTypes[5] == "Gala";
    assert EventTypes[6] == "Get-together" && EventTypes[7] == "Cocktail Party" && EventTypes[8] == "Private Dinner";
  }

  /** The booking form of the dialog. */
  datatype HallForm = HallForm(
    date: Option<Date>, startTime: Option<string>, duration: nat, eventType: Option<string>,
    guestCount: string, catering: string, entertainment: string, specialRequests: string)

  /** The form as the page mounts it on `today`. */
  function InitialForm(today: Date): HallForm
  {
    HallForm(Some(today), None, 3, None, "50", "buffet", "dj", "")
  }

  /** The form after a confirmation: every field back to its default but the date. */
  function AfterConfirm(f: HallForm): HallForm
  {
    HallForm(f.date, None, 3, None, "50", "buffet", "dj", "")
  }

  /** "Complete Booking" is enabled: event type, date, start time and guest
      count are all set (the duration is always one of the offered hours). */
  predicate CanConfirm(f: HallForm)
  {
    Filled(f.eventType) && f.date.Some? && Filled(f.startTime) && f.guestCount != ""
  }

  /** A confirmation puts the form back in its mount state, keeping only the
      date; it then cannot be confirmed again until an event type and a start
      time are picked, and a second reset changes nothing. */
  lemma ConfirmResetsForm(f: HallForm, today: Date)
    ensures AfterConfirm(f).(date := Some(today)) == InitialForm(today)
    ensures AfterConfirm(f).date == f.date
    ensures !CanConfirm(AfterConfirm(f))
    ensures AfterConfirm(AfterConfirm(f)) == AfterConfirm(f)
  {
  }

  /** A freshly mounted form is not ready to confirm. */
  lemma InitialFormNotReady(today: Date)
    ensures !CanConfirm(InitialForm(today))
    ensures InitialForm(today).catering in CateringOptions && InitialForm(today).entertainment in EntertainmentOptions
    ensures InitialForm(today).duration in DurationOptions
  {
  }

  /** The page's state. */
  class PartyHallPage {
    var selectedPartyType: string
    var selectedHall: Option<int>
    var openDialog: bool
    var date: Option<Date>
    var startTime: Option<string>
    var duration: nat
    var eventType: Option<string>
    var guestCount: string
    var catering: string
    var entertainment: string
    var specialRequests: string

    /** The dialog's form fields. */
    function Form(): HallForm
      reads this
    {
      HallForm(date, startTime, duration, eventType, guestCount, catering, entertainment, specialRequests)
    }

    constructor (today: Date)
      ensures selectedPartyType == AllCategories && selectedHall.None? && !openDialog
      ensures Form() == InitialForm(today)
    {
      selectedPartyType := AllCategories;
      selectedHall := None;
      openDialog := false;
      date := Some(today);
      startTime := None;
      duration := 3;
      eventType := None;
      guestCount := "50";
      catering := "buffet";
      entertainment := "dj";
      specialRequests := "";
    }

    /** The halls the page lists now. */
    function ShownHalls(): (r: seq<Hall>)
      reads this
      ensures forall h :: h in r <==> h in Halls && (selectedPartyType == AllCategories || selectedPartyType in h.partyTypes)
    {
      FilteredHalls(selectedPartyType)
    }

    /** "Complete Booking" is disabled. */
    function ConfirmDisabled(): (d: bool)
      reads this
      ensures d <==> !CanConfirm(Form())
    {
      !Filled(eventType) || date.None? || !Filled(startTime) || guestCount == ""
    }

    /** `handleBookHall(hallId)`: select the hall and open the dialog; the form keeps its values. */
    method HandleBookHall(hallId: int)
      modifies this
      ensures selectedHall == Some(hallId) && openDialog
      ensures Form() == old(Form()) && selectedPartyType == old(selectedPartyType)
    {
      selectedHall := Some(hallId);
      openDialog := true;
    }

    /** `handleConfirmBooking`: price the booking, close the dialog and reset the form but the date. */
    method HandleConfirmBooking() returns (totalPrice: nat)
      modifies this
      ensures totalPrice == BookingPrice(old(selectedHall), old(duration))
      ensures !openDialog && Form() == AfterConfirm(old(Form()))
      ensures selectedHall == old(selectedHall) && selectedPartyType == old(selectedPartyType)
    {
      var hall := FindHall(selectedHall);
      totalPrice := if hall.Some? then hall.value.pricePerHour * duration else 0;
      openDialog := false;
      startTime := None;
      duration := 3;
      eventType := None;
      guestCount := "50";
      catering := "buffet";
      entertainment := "dj";
      specialRequests := "";
    }
  }
}
