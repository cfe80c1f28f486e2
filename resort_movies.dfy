/** The resort-and-movies page (`ResortMovies`): three films with showtimes,
    three resort experiences, and one booking dialog in movie mode (date,
    showtime, guests) or resort mode (date, guests). */
module ResortMovies {
  import opened Lists
  import opened Catalog

  /** A film: id, title, running time as displayed, rating, genre and showtimes. */
  datatype Movie = Movie(id: int, title: string, duration: string, rating: string, genre: string, showtimes: seq<string>)

  /** A resort experience: id, name, price in cents, length and capacity as displayed. */
  datatype Resort = Resort(id: int, name: string, price: int, duration: string, capacity: string)

  const Movies: seq<Movie> := [
    Movie(1, "Ocean's Adventure", "2h 15m", "PG-13", "Adventure", ["10:00 AM", "2:30 PM", "7:00 PM"]),
    Movie(2, "Voyage of Dreams", "1h 55m", "PG", "Drama", ["11:30 AM", "3:00 PM", "8:30 PM"]),
    Movie(3, "Deep Blue Mystery", "2h 10m", "PG-13", "Mystery", ["1:00 PM", "5:30 PM", "9:00 PM"])
  ]

  const Resorts: seq<Resort> := [
    Resort(1, "Ocean View Restaurant", 8999, "3 hours", "40 people"),
    Resort(2, "Balcony Lounge Experience", 5999, "2 hours", "25 people"),
    Resort(3, "Luxury Dinner Cruise", 12999, "4 hours", "30 people")
  ]

  /** Which kind of booking the dialog is for. */
  datatype DialogType = MovieDialog | ResortDialog

  /** `num.toString()` for a one-digit guest number. */
  function GuestValue(n: nat): (s: string)
    requires 1 <= n <= 9
    ensures |s| == 1 && '1' <= s[0] <= '9' && s[0] as int - '0' as int == n
  {
    [('0' as int + n) as char]
  }

  /** The guest select's values: `[1, 2, 3, 4, 5, 6].map(num => num.toString())`. */
  function GuestOptions(): seq<string>
  {
    seq(6, i requires 0 <= i < 6 => GuestValue(i + 1))
  }

  /** The guest choices are "1" to "6", pairwise distinct, and the default "1" is the first. */
  lemma GuestOptionsValue()
    ensures GuestOptions() == ["1", "2", "3", "4", "5", "6"]
    ensures NoDup(GuestOptions())
  {
    assert forall i, j :: 0 <= i < j < 6 ==> GuestOptions()[i][0] != GuestOptions()[j][0];
  }

  /** `movies.find(m => m.id === selectedMovie)`. */
  function FindMovie(selectedMovie: Option<int>): (r: Option<Movie>)
    ensures r.Some? ==> r.value in Movies && selectedMovie == Some(r.value.id)
    ensures r.None? <==> selectedMovie.None? || forall i :: 0 <= i < |Movies| ==> Movies[i].id != selectedMovie.value
  {
    match selectedMovie
    case None => None
    case Some(id) => Find(Movies, (m: Movie) => m.id == id)
  }

  /** The time select's values in movie mode: the selected film's showtimes,
      none when no film is found. */
  function MovieTimeOptions(selectedMovie: Option<int>): seq<string>
  {
    match FindMovie(selectedMovie)
    case Some(m) => m.showtimes
    case None => []
  }

  /** A catalog film offers exactly its own three showtimes, and no showtime
      belongs to two films. */
  lemma MovieTimeOptionsFacts(k: nat)
    requires k < |Movies|
    ensures MovieTimeOptions(Some(Movies[k].id)) == Movies[k].showtimes
    ensures |MovieTimeOptions(Some(Movies[k].id))| == 3
    ensures forall j, t :: 0 <= j < |Movies| && j != k && t in Movies[j].showtimes ==> t !in MovieTimeOptions(Some(Movies[k].id))
  {
    FindFirstMatch(Movies, (m: Movie) => m.id == Movies[k].id, k);
  }

  /** The booking form of the dialog. */
  datatype TicketForm = TicketForm(date: Option<Date>, time: Option<string>, guests: string)

  /** "Confirm Booking" is enabled: a movie needs date, time and guests; a resort only date and guests. */
  predicate CanConfirm(dialogType: DialogType, f: TicketForm)
  {
    match dialogType
    case MovieDialog => f.date.Some? && Filled(f.time) && f.guests != ""
    case ResortDialog => f.date.Some? && f.guests != ""
  }

  /** The form after a confirmation: time cleared, guests back to "1", date kept. */
  function AfterConfirm(f: TicketForm): TicketForm
  {
    TicketForm(f.date, None, "1")
  }

  /** After a confirmation a resort booking on a kept date can be confirmed
      again straight away, while a movie booking waits for a showtime. The
      time never matters for a resort. */
  lemma ConfirmResetsForm(f: TicketForm)
    ensures AfterConfirm(f).date == f.date && AfterConfirm(f).guests == GuestOptions()[0]
    ensures CanConfirm(ResortDialog, AfterConfirm(f)) <==> f.date.Some?
    ensures !CanConfirm(MovieDialog, AfterConfirm(f))
    ensures forall t :: CanConfirm(ResortDialog, f.(time := t)) == CanConfirm(ResortDialog, f)
  {
    GuestOptionsValue();
  }

  /** On a kept date, any showtime the dialog offers enables a movie booking
      again after a confirmation. */
  lemma ConfirmReenabled(f: TicketForm, selectedMovie: Option<int>, i: nat)
    requires i < |MovieTimeOptions(selectedMovie)|
    ensures f.date.Some? ==> CanConfirm(MovieDialog, AfterConfirm(f).(time := Some(MovieTimeOptions(selectedMovie)[i])))
  {
    match FindMovie(selectedMovie)
    case Some(m) =>
      assert m.showtimes == Movies[0].showtimes || m.showtimes == Movies[1].showtimes || m.showtimes == Movies[2].showtimes;
    case None =>
  }

  /** The page's state. */
  class ResortMoviesPage {
    var selectedMovie: Option<int>
    var selectedResort: Option<int>
    var openDialog: bool
    var dialogType: DialogType
    var date: Option<Date>
    var time: Option<string>
    var guests: string

    /** The dialog's form fields. */
    function Form(): TicketForm
      reads this
    {
      TicketForm(date, time, guests)
    }

    constructor (today: Date)
      ensures selectedMovie.None? && selectedResort.None? && !openDialog && dialogType == MovieDialog
      ensures Form() == TicketForm(Some(today), None, "1")
    {
      selectedMovie := None;
      selectedResort := None;
      openDialog := false;
      dialogType := MovieDialog;
      date := Some(today);
      time := None;
      guests := "1";
    }

    /** "Confirm Booking" is disabled. */
    function ConfirmDisabled(): (d: bool)
      reads this
      ensures d <==> !CanConfirm(dialogType, Form())
    {
      if dialogType == MovieDialog then date.None? || !Filled(time) || guests == ""
      else date.None? || guests == ""
    }

    /** The showtimes the dialog offers now (the time select appears in movie mode only). */
    function ShownTimes(): (ts: seq<string>)
      reads this
      ensures dialogType == ResortDialog ==> ts == []
      ensures dialogType == MovieDialog ==> forall t :: t in ts <==> exists m :: m in Movies && Some(m.id) == selectedMovie && t in m.showtimes
      ensures dialogType == MovieDialog ==>
                forall k :: 0 <= k < |Movies| && selectedMovie == Some(Movies[k].id) ==> ts == Movies[k].showtimes
    {
      if dialogType == MovieDialog then
        assert forall m :: m in Movies && Some(m.id) == selectedMovie ==> FindMovie(selectedMovie) == Some(m) by {
          forall m | m in Movies && Some(m.id) == selectedMovie
            ensures FindMovie(selectedMovie) == Some(m)
          {
            var k :| 0 <= k < |Movies| && Movies[k] == m;
            MovieTimeOptionsFacts(k);
          }
        }
        MovieTimeOptions(selectedMovie)
      else []
    }

    /** `handleBookMovie(movieId)`. */
    method HandleBookMovie(movieId: int)
      modifies this
      ensures selectedMovie == Some(movieId) && dialogType == MovieDialog && openDialog
      ensures selectedResort == old(selectedResort) && Form() == old(Form())
    {
      selectedMovie := Some(movieId);
      dialogType := MovieDialog;
      openDialog := true;
    }

    /** `handleBookResort(resortId)`. */
    method HandleBookResort(resortId: int)
      modifies this
      ensures selectedResort == Some(resortId) && dialogType == ResortDialog && openDialog
      ensures selectedMovie == old(selectedMovie) && Form() == old(Form())
    {
      selectedResort := Some(resortId);
      dialogType := ResortDialog;
      openDialog := true;
    }

    /** `handleConfirmBooking`: close the dialog, clear the time and reset guests to "1". */
    method HandleConfirmBooking()
      modifies this
      ensures !openDialog && Form() == AfterConfirm(old(Form()))
      ensures selectedMovie == old(selectedMovie) && selectedResort == old(selectedResort) && dialogType == old(dialogType)
    {
      openDialog := false;
      time := None;
      guests := "1";
    }
  }
}
