/** The three-step booking wizard of the "Book Now" page: the draft booking record, the
    handlers that move between the steps, the list of bookable dates and the progress
    indicator. "Today" is a parameter and days are whole numbers. */
module Booking {
  import opened Common

  // ---------------------------------------------------------------------------------
  // The booking record

  /** The twelve keys of `bookingData`. */
  datatype Field =
    | ServiceType | Date | TimeSlot | Duration | Location | FirstName | LastName
    | Email | Phone | EventType | GuestCount | SpecialRequests

  /** `bookingData`: every value is the string the page stores for that key. */
  datatype BookingData = BookingData(
    serviceType: string,
    date: string,
    timeSlot: string,
    duration: string,
    location: string,
    firstName: string,
    lastName: string,
    email: string,
    phone: string,
    eventType: string,
    guestCount: string,
    specialRequests: string)
  {
    /** `bookingData[f]`. */
    function Get(f: Field): string
    {
      match f
      case ServiceType => serviceType
      case Date => date
      case TimeSlot => timeSlot
      case Duration => duration
      case Location => location
      case FirstName => firstName
      case LastName => lastName
      case Email => email
      case Phone => phone
      case EventType => eventType
      case GuestCount => guestCount
      case SpecialRequests => specialRequests
    }

    /** `{...bookingData, [f]: v}`: the named key holds `v` and every other key is unchanged. */
    function Set(f: Field, v: string): (r: BookingData)
      ensures r.Get(f) == v
      ensures forall g :: g != f ==> r.Get(g) == Get(g)
    {
      match f
      case ServiceType => this.(serviceType := v)
      case Date => this.(date := v)
      case TimeSlot => this.(timeSlot := v)
      case Duration => this.(duration := v)
      case Location => this.(location := v)
      case FirstName => this.(firstName := v)
      case LastName => this.(lastName := v)
      case Email => this.(email := v)
      case Phone => this.(phone := v)
      case EventType => this.(eventType := v)
      case GuestCount => this.(guestCount := v)
      case SpecialRequests => this.(specialRequests := v)
    }
  }

  /** The initial `bookingData` and the value `handleSubmit` resets it to. */
  const EmptyBooking: BookingData := BookingData("", "", "", "", "", "", "", "", "", "", "", "")

  /** Every key of the empty record holds the empty string. */
  lemma EmptyBookingIsBlank(f: Field)
    ensures EmptyBooking.Get(f) == ""
  {
  }

  /** The keys the booking form has an input for; the other four are set only by the
      service, date and time buttons. */
  const FormInputs: set<Field> :=
    {FirstName, LastName, Email, Phone, EventType, GuestCount, Location, SpecialRequests}

  /** The text inputs marked `required` in the form. */
  const RequiredInputs: set<Field> := {FirstName, LastName, Email, Phone}

  /** The inputs marked `required` in the form: the browser submits only when they are filled. */
  predicate RequiredFilled(b: BookingData)
    ensures RequiredFilled(b) <==> forall f :: f in RequiredInputs ==> b.Get(f) != ""
  {
    assert FirstName in RequiredInputs && LastName in RequiredInputs;
    assert Email in RequiredInputs && Phone in RequiredInputs;
    b.firstName != "" && b.lastName != "" && b.email != "" && b.phone != ""
  }

  // ---------------------------------------------------------------------------------
  // The service catalogue and the time slots

  datatype Service = Service(
    id: string, name: string, duration: string, price: string, popular: bool)

  const Services: seq<Service> := [
    Service("wedding", "Wedding Photography", "8-12 hours", "$1,999 - $3,999", true),
    Service("portrait", "Portrait Session", "1-2 hours", "$299 - $599", false),
    Service("commercial", "Commercial Photography", "2-4 hours", "$499 - $1,499", false),
    Service("event", "Event Coverage", "3-6 hours", "$699 - $1,999", false),
    Service("video", "Videography", "Custom", "$899 - $2,999", true),
    Service("consultation", "Consultation", "1 hour", "$99", false)
  ]

  const TimeSlots: seq<string> := [
    "9:00 AM", "10:00 AM", "11:00 AM", "12:00 PM",
    "1:00 PM", "2:00 PM", "3:00 PM", "4:00 PM", "5:00 PM"
  ]

  /** Some service of the list has this id. */
  predicate HasService(services: seq<Service>, id: string)
  {
    exists s :: s in services && s.id == id
  }

  /** No two services of the list share an id. */
  predicate UniqueIds(services: seq<Service>)
  {
    forall i, j :: 0 <= i < j < |services| ==> services[i].id != services[j].id
  }

  /** The test `s => s.id === id`. */
  function IdIs(id: string): Service -> bool
  {
    (s: Service) => s.id == id
  }

  /** `services.find(s => s.id === id)`: the first entry with that id, if any. */
  function FindIn(services: seq<Service>, id: string): (r: Option<Service>)
    ensures r.None? <==> !HasService(services, id)
    ensures r.Some? ==> r.value.id == id && r.value in services
  {
    FindFirst(services, IdIs(id))
  }

  /** A catalogue the wizard can work with: ids are unique and non-empty, so that a recorded
      `serviceType` is truthy. */
  predicate ValidCatalogue(services: seq<Service>)
  {
    UniqueIds(services) && forall s :: s in services ==> s.id != ""
  }

  /** The page's own catalogue is valid. */
  lemma CatalogueValid()
    ensures ValidCatalogue(Services)
  {
  }

  /** With unique ids, looking up an id of the list finds the one service that has it. */
  lemma FindInUnique(services: seq<Service>, id: string)
    requires UniqueIds(services)
    requires HasService(services, id)
    ensures FindIn(services, id).Some?
    ensures forall s :: s in services && s.id == id ==> FindIn(services, id).value == s
  {
    var r := FindIn(services, id);
    forall s | s in services && s.id == id
      ensures r.value == s
    {
      var i :| 0 <= i < |services| && services[i] == s;
      var k :| 0 <= k < |services| && services[k] == r.value;
      assert services[i].id == services[k].id;
    }
  }

  // ---------------------------------------------------------------------------------
  // The wizard state and its transitions

  /** The page's state: `step` and `bookingData`. */
  datatype Wizard = Wizard(step: int, booking: BookingData)

  const InitialWizard: Wizard := Wizard(1, EmptyBooking)

  predicate ValidStep(step: int)
  {
    1 <= step <= 3
  }

  /** `handleInputChange`: exactly the named key changes; the step stays. */
  function InputChange(w: Wizard, name: Field, value: string): (r: Wizard)
    ensures r.step == w.step
    ensures r.booking.Get(name) == value
    ensures forall g :: g != name ==> r.booking.Get(g) == w.booking.Get(g)
  {
    Wizard(w.step, w.booking.Set(name, value))
  }

  /** `handleServiceSelect`: records the service and that service's duration, and moves to
      step 2. The lookup is undefined for an id outside the list `services`. */
  function SelectService(w: Wizard, services: seq<Service>, serviceId: string): (r: Wizard)
    requires UniqueIds(services) && HasService(services, serviceId)
    ensures r.step == 2
    ensures r.booking.serviceType == serviceId
    ensures forall s :: s in services && s.id == serviceId ==> r.booking.duration == s.duration
    ensures forall g :: g != ServiceType && g != Duration ==> r.booking.Get(g) == w.booking.Get(g)
  {
    FindInUnique(services, serviceId);
    var selected := FindIn(services, serviceId).value;
    Wizard(2, w.booking.(serviceType := serviceId, duration := selected.duration))
  }

  /** `handleDateSelect`: only the date changes; the step stays. */
  function SelectDate(w: Wizard, date: string): (r: Wizard)
    ensures r.step == w.step
    ensures r.booking.date == date
    ensures forall g :: g != Date ==> r.booking.Get(g) == w.booking.Get(g)
  {
    Wizard(w.step, w.booking.(date := date))
  }

  /** `handleTimeSelect`: records the time slot and moves to step 3. */
  function SelectTime(w: Wizard, time: string): (r: Wizard)
    ensures r.step == 3
    ensures r.booking.timeSlot == time
    ensures forall g :: g != TimeSlot ==> r.booking.Get(g) == w.booking.Get(g)
  {
    Wizard(3, w.booking.(timeSlot := time))
  }

  /** The "Change Service" button: back to step 1, keeping every recorded choice. */
  function ChangeService(w: Wizard): (r: Wizard)
    ensures r.step == 1
    ensures r.booking == w.booking
  {
    Wizard(1, w.booking)
  }

  /** `handleSubmit`: every key back to '' and the step back to 1, whatever came before. */
  function Submit(w: Wizard): (r: Wizard)
    ensures r.step == 1
    ensures forall f :: r.booking.Get(f) == ""
    ensures r == InitialWizard
  {
    Wizard(1, EmptyBooking)
  }

  // ---------------------------------------------------------------------------------
  // Which handler the page offers in which state

  /** A user action; each one calls one handler. */
  datatype Event =
    | ClickService(serviceId: string)
    | ClickDate(date: string)
    | ClickTime(slot: string)
    | ClickChangeService
    | Edit(field: Field, value: string)
    | SubmitForm

  /** Whether the page renders the control that raises `e` in state `w`, given the
      service cards `services` and the date strings `dateChoices` of the date buttons. */
  predicate Offered(w: Wizard, e: Event, services: seq<Service>, dateChoices: seq<string>)
    ensures Offered(w, e, services, dateChoices) ==> ValidStep(w.step)
    ensures Offered(w, e, services, dateChoices) && e.ClickTime? ==> w.booking.date != ""
    ensures Offered(w, e, services, dateChoices) && e.SubmitForm? ==> RequiredFilled(w.booking)
  {
    match e
    case ClickService(id) => w.step == 1 && HasService(services, id)
    case ClickChangeService => w.step == 2 && w.booking.serviceType != ""
    case ClickDate(d) => w.step == 2 && d in dateChoices
    case ClickTime(t) => w.step == 2 && w.booking.date != "" && t in TimeSlots
    case Edit(f, _) => w.step == 3 && f in FormInputs
    case SubmitForm => w.step == 3 && RequiredFilled(w.booking)
  }

  /** The handler an event calls. */
  function Apply(w: Wizard, e: Event, services: seq<Service>): Wizard
    requires UniqueIds(services)
    requires e.ClickService? ==> HasService(services, e.serviceId)
  {
    match e
    case ClickService(id) => SelectService(w, services, id)
    case ClickDate(d) => SelectDate(w, d)
    case ClickTime(t) => SelectTime(w, t)
    case ClickChangeService => ChangeService(w)
    case Edit(f, v) => InputChange(w, f, v)
    case SubmitForm => Submit(w)
  }

  /** Every event of `es` is offered in the state the earlier ones lead to. */
  predicate Allowed(w: Wizard, es: seq<Event>, services: seq<Service>, dateChoices: seq<string>)
    requires UniqueIds(services)
    decreases |es|
  {
    es == [] ||
    (Offered(w, es[0], services, dateChoices) &&
     Allowed(Apply(w, es[0], services), es[1..], services, dateChoices))
  }

  function Run(w: Wizard, es: seq<Event>, services: seq<Service>, dateChoices: seq<string>): Wizard
    requires UniqueIds(services)
    requires Allowed(w, es, services, dateChoices)
    decreases |es|
  {
    if es == [] then w else Run(Apply(w, es[0], services), es[1..], services, dateChoices)
  }

  /** What holds in every state the page can reach: the step is 1, 2 or 3; a recorded
      service is one of the cards, with that card's duration; a recorded date and time
      are ones the page offered; past step 1 a service is recorded; and at step 3 a date
      and a time slot are recorded. */
  predicate Consistent(w: Wizard, services: seq<Service>, dateChoices: seq<string>)
  {
    ValidStep(w.step) &&
    (w.booking.serviceType == "" ==> w.booking.duration == "") &&
    (w.booking.serviceType != "" ==>
       HasService(services, w.booking.serviceType) &&
       forall s :: s in services && s.id == w.booking.serviceType ==> w.booking.duration == s.duration) &&
    (w.booking.date == "" || w.booking.date in dateChoices) &&
    (w.booking.timeSlot == "" || w.booking.timeSlot in TimeSlots) &&
    (w.step >= 2 ==> w.booking.serviceType != "") &&
    (w.step == 3 ==> w.booking.date != "" && w.booking.timeSlot != "")
  }

  /** One offered event keeps the state consistent. */
  lemma ApplyConsistent(w: Wizard, e: Event, services: seq<Service>, dateChoices: seq<string>)
    requires ValidCatalogue(services)
    requires Consistent(w, services, dateChoices)
    requires Offered(w, e, services, dateChoices)
    ensures Consistent(Apply(w, e, services), services, dateChoices)
  {
    var r := Apply(w, e, services);
    match e
    case ClickService(id) =>
      assert r.booking.serviceType == id;
      assert r.booking.date == w.booking.Get(Date);
      assert r.booking.timeSlot == w.booking.Get(TimeSlot);
    case ClickDate(d) =>
      assert r.booking.serviceType == w.booking.Get(ServiceType);
      assert r.booking.duration == w.booking.Get(Duration);
      assert r.booking.timeSlot == w.booking.Get(TimeSlot);
    case ClickTime(t) =>
      assert r.booking.serviceType == w.booking.Get(ServiceType);
      assert r.booking.duration == w.booking.Get(Duration);
      assert r.booking.date == w.booking.Get(Date);
    case ClickChangeService =>
    case Edit(f, v) =>
      assert r.booking.serviceType == w.booking.Get(ServiceType);
      assert r.booking.duration == w.booking.Get(Duration);
      assert r.booking.date == w.booking.Get(Date);
      assert r.booking.timeSlot == w.booking.Get(TimeSlot);
    case SubmitForm =>
  }

  /** Any run of offered events keeps the state consistent. */
  lemma {:induction false} RunConsistent(
    w: Wizard, es: seq<Event>, services: seq<Service>, dateChoices: seq<string>)
    requires ValidCatalogue(services)
    requires Consistent(w, services, dateChoices)
    requires Allowed(w, es, services, dateChoices)
    ensures Consistent(Run(w, es, services, dateChoices), services, dateChoices)
    decreases |es|
  {
    if es != [] {
      ApplyConsistent(w, es[0], services, dateChoices);
      RunConsistent(Apply(w, es[0], services), es[1..], services, dateChoices);
    }
  }

  /** From the page's initial state, every reachable state has a step in {1, 2, 3}, and
      whenever step 3 is shown a date and a time slot have been chosen. */
  lemma ReachableStatesConsistent(es: seq<Event>, services: seq<Service>, dateChoices: seq<string>)
    requires ValidCatalogue(services)
    requires Allowed(InitialWizard, es, services, dateChoices)
    ensures ValidStep(Run(InitialWizard, es, services, dateChoices).step)
    ensures Run(InitialWizard, es, services, dateChoices).step == 3 ==>
              Run(InitialWizard, es, services, dateChoices).booking.date != "" &&
              Run(InitialWizard, es, services, dateChoices).booking.timeSlot in TimeSlots
  {
    assert Consistent(InitialWizard, services, dateChoices);
    RunConsistent(InitialWizard, es, services, dateChoices);
  }

  // ---------------------------------------------------------------------------------
  // The stateful page

  /** The component's state as fields that the handlers replace; `services` is the
      component's constant service catalogue. */
  class BookNow {
    const services: seq<Service>
    var step: int
    var bookingData: BookingData

    function Snapshot(): Wizard
      reads this
    {
      Wizard(step, bookingData)
    }

    /** The catalogue is valid and the step is 1, 2 or 3. */
    predicate Valid()
      reads this
    {
      ValidCatalogue(services) && ValidStep(step)
    }

    constructor ()
      ensures Valid()
      ensures services == Services
      ensures Snapshot() == InitialWizard
    {
      services := Services;
      step := 1;
      bookingData := EmptyBooking;
      CatalogueValid();
    }

    method HandleInputChange(name: Field, value: string)
      requires Valid()
      modifies this
      ensures Valid()
      ensures Snapshot() == InputChange(old(Snapshot()), name, value)
    {
      bookingData := bookingData.Set(name, value);
    }

    method HandleServiceSelect(serviceId: string)
      requires Valid()
      requires HasService(services, serviceId)
      modifies this
      ensures Valid()
      ensures Snapshot() == SelectService(old(Snapshot()), services, serviceId)
    {
      FindInUnique(services, serviceId);
      var selectedService := FindIn(services, serviceId).value;
      bookingData := bookingData.(serviceType := serviceId, duration := selectedService.duration);
      step := 2;
    }

    method HandleDateSelect(date: string)
      requires Valid()
      modifies this
      ensures Valid()
      ensures Snapshot() == SelectDate(old(Snapshot()), date)
    {
      bookingData := bookingData.(date := date);
    }

    method HandleTimeSelect(time: string)
      requires Valid()
      modifies this
      ensures Valid()
      ensures Snapshot() == SelectTime(old(Snapshot()), time)
    {
      bookingData := bookingData.(timeSlot := time);
      step := 3;
    }

    method HandleChangeService()
      requires Valid()
      modifies this
      ensures Valid()
      ensures Snapshot() == ChangeService(old(Snapshot()))
    {
      step := 1;
    }

    method HandleSubmit()
      requires Valid()
      modifies this
      ensures Valid()
      ensures Snapshot() == Submit(old(Snapshot()))
    {
      bookingData := EmptyBooking;
      step := 1;
    }
  }

  // ---------------------------------------------------------------------------------
  // Bookable dates

  /** Day numbers count days from 1970-01-01, a Thursday, in the visitor's calendar;
      `Weekday` follows `Date.prototype.getDay` (0 is Sunday). */
  function Weekday(day: int): (w: int)
    ensures 0 <= w < 7
  {
    (day + 4) % 7
  }

  predicate IsSunday(day: int)
  {
    Weekday(day) == 0
  }

  const WindowDays: nat := 30
  const DateChoiceCount: nat := 10

  /** The non-Sunday days among offsets 1..n after `today`, in ascending order. */
  function Window(today: int, n: nat): (r: seq<int>)
    ensures |r| <= n
    ensures forall d :: d in r ==> today < d <= today + n
  {
    if n == 0 then []
    else Window(today, n - 1) + (if IsSunday(today + n) then [] else [today + n])
  }

  /** `generateAvailableDates`: the loop over offsets 1..30 that pushes every day that is
      not a Sunday. */
  method GenerateAvailableDates(today: int) returns (dates: seq<int>)
    ensures dates == Window(today, WindowDays)
    ensures forall d :: d in dates <==> today < d <= today + WindowDays && !IsSunday(d)
    ensures forall i, j :: 0 <= i < j < |dates| ==> dates[i] < dates[j]
    ensures 25 <= |dates| <= 26
  {
    dates := [];
    for i := 1 to WindowDays + 1
      invariant dates == Window(today, i - 1)
    {
      var date := today + i;
      if Weekday(date) != 0 {
        dates := dates + [date];
      }
    }
    WindowMembers(today, WindowDays);
    WindowAscending(today, WindowDays);
    WindowLength(today);
  }

  /** The window holds exactly the non-Sunday days after today, up to offset n; today
      itself never. */
  lemma {:induction false} WindowMembers(today: int, n: nat)
    ensures forall d :: d in Window(today, n) <==> today < d <= today + n && !IsSunday(d)
  {
    if n > 0 {
      WindowMembers(today, n - 1);
    }
  }

  /** The window is strictly ascending, so it has no repeats. */
  lemma {:induction false} WindowAscending(today: int, n: nat)
    ensures forall i, j :: 0 <= i < j < |Window(today, n)| ==> Window(today, n)[i] < Window(today, n)[j]
  {
    if n > 0 {
      WindowAscending(today, n - 1);
      WindowMembers(today, n - 1);
      var prev := Window(today, n - 1);
      assert forall i :: 0 <= i < |prev| ==> prev[i] in prev;
    }
  }

  /** Adding a day to the window adds one entry unless that day is a Sunday. */
  lemma WindowGrows(today: int, n: nat)
    ensures |Window(today, n + 1)| == |Window(today, n)| + Bookable(today + n + 1)
  {
  }

  /** The weekday `k` days after `day` is `k` places further round the week. */
  lemma WeekdayShift(day: int, k: nat)
    ensures Weekday(day + k) == (Weekday(day) + k) % 7
  {
    var q := (day + 4) / 7;
    var w := (day + 4) % 7;
    assert day + 4 == 7 * q + w;
    assert day + k + 4 == 7 * q + (w + k);
  }

  /** A day counts 1 when it is bookable and 0 when it is a Sunday. */
  function Bookable(day: int): nat
  {
    if IsSunday(day) then 0 else 1
  }

  /** Of any seven consecutive days exactly one is a Sunday. */
  lemma OneSundayPerWeek(day: int)
    ensures Bookable(day + 1) + Bookable(day + 2) + Bookable(day + 3) + Bookable(day + 4)
          + Bookable(day + 5) + Bookable(day + 6) + Bookable(day + 7) == 6
  {
    var w := Weekday(day);
    WeekdayShift(day, 1);
    WeekdayShift(day, 2);
    WeekdayShift(day, 3);
    WeekdayShift(day, 4);
    WeekdayShift(day, 5);
    WeekdayShift(day, 6);
    WeekdayShift(day, 7);
    if w == 0 {
    } else if w == 1 {
    } else if w == 2 {
    } else if w == 3 {
    } else if w == 4 {
    } else if w == 5 {
    } else {
    }
  }

  /** Seven more days add exactly six entries: a week has exactly one Sunday. */
  lemma WindowWeek(today: int, n: nat)
    ensures |Window(today, n + 7)| == |Window(today, n)| + 6
  {
    WindowGrows(today, n);
    WindowGrows(today, n + 1);
    WindowGrows(today, n + 2);
    WindowGrows(today, n + 3);
    WindowGrows(today, n + 4);
    WindowGrows(today, n + 5);
    WindowGrows(today, n + 6);
    OneSundayPerWeek(today + n);
  }

  /** Thirty days hold four or five Sundays, so 25 or 26 dates are generated. */
  lemma WindowLength(today: int)
    ensures 25 <= |Window(today, WindowDays)| <= 26
  {
    WindowGrows(today, 0);
    WindowGrows(today, 1);
    assert !(IsSunday(today + 1) && IsSunday(today + 2));
    WindowWeek(today, 2);
    WindowWeek(today, 9);
    WindowWeek(today, 16);
    WindowWeek(today, 23);
  }

  /** `availableDates.slice(0, 10)`: there are always ten date buttons, the ten earliest
      bookable days. */
  lemma DateChoicesAreFirstTen(today: int)
    ensures |Take(Window(today, WindowDays), DateChoiceCount)| == DateChoiceCount
    ensures Take(Window(today, WindowDays), DateChoiceCount) == Window(today, WindowDays)[..DateChoiceCount]
  {
    WindowLength(today);
  }

  // ---------------------------------------------------------------------------------
  // Progress indicator

  const StepLabels: seq<string> := ["Choose Service", "Pick Date & Time", "Complete Booking"]

  datatype Badge = Completed | CurrentStep | Upcoming

  /** The badge of label `index` (0-based): a check mark before the current step, the
      highlighted number at it, a grey number after it. */
  function StepBadge(step: int, index: nat): (b: Badge)
    ensures b == Completed <==> step > index + 1
    ensures b == CurrentStep <==> step == index + 1
    ensures b == Upcoming <==> step < index + 1
  {
    if step > index + 1 then Completed
    else if step == index + 1 then CurrentStep
    else Upcoming
  }

  /** The label text is white exactly for the steps reached so far. */
  function LabelLit(step: int, index: nat): (lit: bool)
    ensures lit <==> StepBadge(step, index) != Upcoming
  {
    step >= index + 1
  }

  /** A label is lit exactly when its badge is not upcoming; in a valid step exactly one of
      the three labels is current, and the labels before it are completed. */
  lemma StepIndicatorAgrees(step: int)
    requires ValidStep(step)
    ensures forall i :: 0 <= i < |StepLabels| ==> (LabelLit(step, i) <==> StepBadge(step, i) != Upcoming)
    ensures forall i :: 0 <= i < |StepLabels| ==> (StepBadge(step, i) == CurrentStep <==> i == step - 1)
    ensures forall i :: 0 <= i < step - 1 ==> StepBadge(step, i) == Completed
  {
  }

  /** The width of the progress bar, in percent: the source's `((step - 1) / 2) * 100`. */
  function ProgressWidth(step: int): (pct: int)
    ensures pct as real == ((step - 1) as real / 2.0) * 100.0
    ensures ValidStep(step) ==> 0 <= pct <= 100
  {
    (step - 1) * 50
  }

  /** The bar is empty at step 1, half full at step 2 and full at step 3. */
  lemma ProgressWidthValues()
    ensures ProgressWidth(1) == 0 && ProgressWidth(2) == 50 && ProgressWidth(3) == 100
  {
  }
}
