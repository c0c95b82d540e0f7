/**
 * The five-step driver sign-up wizard: the step counter moved by the Next
 * and Back buttons, the terms gate on the final Next, the progress dots,
 * and the form record whose fields the inputs overwrite one at a time.
 */
module Signup {
  import opened Common

  const TotalSteps: int := 5

  predicate ValidStep(step: int) { 1 <= step <= TotalSteps }

  /** What a button press asks of the page around the wizard. */
  datatype Signal =
    | Stay        // the wizard keeps control
    | Completed   // `onComplete()`: registration finished
    | LeftToEntry // `onNavigate('entry')`: back to the entry page
    | LeftToSignin // `onNavigate('driver-signin')`: the "Sign in here" link

  // ---------------------------------------------------------------------------
  // Form data

  /** The state a checkbox reports: checked, unchecked or indeterminate. */
  datatype CheckState = Checked | Unchecked | Indeterminate

  /** `!!checked`: anything but an unchecked box counts as true. */
  function Coerce(c: CheckState): (b: bool)
    ensures b <==> c != Unchecked
  {
    match c
    case Checked => true
    case Unchecked => false
    case Indeterminate => true
  }

  datatype TextField =
    | FirstName | LastName | Email | Password | ConfirmPassword | Address
    | CarMake | CarModel | CarYear | CarColor | LicensePlate
    | VehicleType | Seats | Transmission

  datatype FlagField = HasCar | HasAC | TermsAccepted

  /** `formData`; the date of birth is an instant, absent until picked. */
  datatype Form = Form(
    firstName: string, lastName: string, email: string, password: string,
    confirmPassword: string, address: string, dateOfBirth: Option<int>,
    hasCar: bool, carMake: string, carModel: string, carYear: string,
    carColor: string, licensePlate: string, vehicleType: string,
    seats: string, transmission: string, hasAC: bool, termsAccepted: bool)

  const EmptyForm: Form :=
    Form("", "", "", "", "", "", None, false, "", "", "", "", "", "", "", "", false, false)

  function Text(f: Form, field: TextField): string
  {
    match field
    case FirstName => f.firstName
    case LastName => f.lastName
    case Email => f.email
    case Password => f.password
    case ConfirmPassword => f.confirmPassword
    case Address => f.address
    case CarMake => f.carMake
    case CarModel => f.carModel
    case CarYear => f.carYear
    case CarColor => f.carColor
    case LicensePlate => f.licensePlate
    case VehicleType => f.vehicleType
    case Seats => f.seats
    case Transmission => f.transmission
  }

  function Flag(f: Form, field: FlagField): bool
  {
    match field
    case HasCar => f.hasCar
    case HasAC => f.hasAC
    case TermsAccepted => f.termsAccepted
  }

  /** An input's or select's `onChange`: `{ ...formData, [field]: value }`. */
  function WithText(f: Form, field: TextField, value: string): (r: Form)
    ensures Text(r, field) == value
    ensures forall g :: g != field ==> Text(r, g) == Text(f, g)
    ensures forall g :: Flag(r, g) == Flag(f, g)
    ensures r.dateOfBirth == f.dateOfBirth
  {
    match field
    case FirstName => f.(firstName := value)
    case LastName => f.(lastName := value)
    case Email => f.(email := value)
    case Password => f.(password := value)
    case ConfirmPassword => f.(confirmPassword := value)
    case Address => f.(address := value)
    case CarMake => f.(carMake := value)
    case CarModel => f.(carModel := value)
    case CarYear => f.(carYear := value)
    case CarColor => f.(carColor := value)
    case LicensePlate => f.(licensePlate := value)
    case VehicleType => f.(vehicleType := value)
    case Seats => f.(seats := value)
    case Transmission => f.(transmission := value)
  }

  /** A checkbox's `onCheckedChange`: `{ ...formData, [field]: !!checked }`. */
  function WithFlag(f: Form, field: FlagField, c: CheckState): (r: Form)
    ensures Flag(r, field) == (c != Unchecked)
    ensures forall g :: g != field ==> Flag(r, g) == Flag(f, g)
    ensures forall g :: Text(r, g) == Text(f, g)
    ensures r.dateOfBirth == f.dateOfBirth
  {
    match field
    case HasCar => f.(hasCar := Coerce(c))
    case HasAC => f.(hasAC := Coerce(c))
    case TermsAccepted => f.(termsAccepted := Coerce(c))
  }

  /** The birth-date picker's `onSelect`: the picked date, or none when cleared. */
  function WithBirthDate(f: Form, date: Option<int>): (r: Form)
    ensures r.dateOfBirth == date
    ensures forall g :: Text(r, g) == Text(f, g)
    ensures forall g :: Flag(r, g) == Flag(f, g)
  {
    f.(dateOfBirth := date)
  }

  /** Two forms that agree on every text field, flag and the birth date are equal. */
  lemma FormExtensionality(f: Form, g: Form)
    requires forall t :: Text(f, t) == Text(g, t)
    requires forall b :: Flag(f, b) == Flag(g, b)
    requires f.dateOfBirth == g.dateOfBirth
    ensures f == g
  {
    assert Text(f, FirstName) == Text(g, FirstName) && Text(f, LastName) == Text(g, LastName);
    assert Text(f, Email) == Text(g, Email) && Text(f, Password) == Text(g, Password);
    assert Text(f, ConfirmPassword) == Text(g, ConfirmPassword) && Text(f, Address) == Text(g, Address);
    assert Text(f, CarMake) == Text(g, CarMake) && Text(f, CarModel) == Text(g, CarModel);
    assert Text(f, CarYear) == Text(g, CarYear) && Text(f, CarColor) == Text(g, CarColor);
    assert Text(f, LicensePlate) == Text(g, LicensePlate) && Text(f, VehicleType) == Text(g, VehicleType);
    assert Text(f, Seats) == Text(g, Seats) && Text(f, Transmission) == Text(g, Transmission);
    assert Flag(f, HasCar) == Flag(g, HasCar) && Flag(f, HasAC) == Flag(g, HasAC);
    assert Flag(f, TermsAccepted) == Flag(g, TermsAccepted);
  }

  /** Writing a field the value it already holds changes nothing. */
  lemma WithTextSameValue(f: Form, field: TextField)
    ensures WithText(f, field, Text(f, field)) == f
  {
    var r := WithText(f, field, Text(f, field));
    FormExtensionality(r, f);
  }

  // ---------------------------------------------------------------------------
  // Step machine

  /** `handleNext`: the next step, or the same step with completion on the last one. */
  function NextStep(step: int): (r: (int, Signal))
  {
    if step < TotalSteps then (step + 1, Stay) else (step, Completed)
  }

  /** `handleBack`: the previous step, or the same step and the entry page on the first one. */
  function BackStep(step: int): (r: (int, Signal))
  {
    if step > 1 then (step - 1, Stay) else (step, LeftToEntry)
  }

  /** Next moves forward by exactly one step before the last; on the last it completes and stays. */
  lemma NextStepSpec(step: int)
    requires ValidStep(step)
    ensures ValidStep(NextStep(step).0)
    ensures step < TotalSteps ==> NextStep(step) == (step + 1, Stay)
    ensures step == TotalSteps ==> NextStep(step) == (step, Completed)
  {
  }

  /** Back moves back by exactly one step after the first; on the first it leaves for the entry page. */
  lemma BackStepSpec(step: int)
    requires ValidStep(step)
    ensures ValidStep(BackStep(step).0)
    ensures step > 1 ==> BackStep(step) == (step - 1, Stay)
    ensures step == 1 ==> BackStep(step) == (step, LeftToEntry)
  {
  }

  /** Next then Back returns to the step one started from, on steps 1 to 4. */
  lemma NextThenBack(step: int)
    requires 1 <= step < TotalSteps
    ensures BackStep(NextStep(step).0) == (step, Stay)
  {
  }

  /** The Next button's `disabled` prop: on the last step until the terms are accepted. */
  predicate NextDisabled(step: int, form: Form)
  {
    step == TotalSteps && !form.termsAccepted
  }

  /** Filled dots among the first `n`: dot `i` (from 0) is filled when `i + 1 <= step`. */
  function FilledDotsAmong(step: int, n: nat): nat
  {
    if n == 0 then 0 else FilledDotsAmong(step, n - 1) + (if n <= step then 1 else 0)
  }

  /** The progress row's filled dots. */
  function FilledDots(step: int): nat
  {
    FilledDotsAmong(step, TotalSteps as nat)
  }

  /** Among the first `n` dots, `step` are filled, capped at `n` and at zero. */
  lemma {:induction false} FilledDotsAmongCount(step: int, n: nat)
    ensures FilledDotsAmong(step, n) == if step < 0 then 0 else if step <= n then step else n
  {
    if n > 0 {
      FilledDotsAmongCount(step, n - 1);
    }
  }

  /** On every step the number of filled dots is the step number. */
  lemma FilledDotsIsStep(step: int)
    requires ValidStep(step)
    ensures FilledDots(step) == step
  {
    FilledDotsAmongCount(step, TotalSteps as nat);
  }

  // ---------------------------------------------------------------------------
  // The wizard as a whole

  /** Everything the user can do on the wizard. */
  datatype Event =
    | PressNext
    | PressBack
    | EditText(field: TextField, value: string)
    | EditFlag(flag: FlagField, state: CheckState)
    | PickBirthDate(date: Option<int>)
    | PressSignInLink // "Sign in here", shown under every step

  datatype Wizard = Wizard(step: int, form: Form)

  const InitialWizard: Wizard := Wizard(1, EmptyForm)

  /** One event: a press of a disabled Next does nothing. */
  function Apply(w: Wizard, e: Event): (r: (Wizard, Signal))
  {
    match e
    case PressNext =>
      if NextDisabled(w.step, w.form) then (w, Stay)
      else var (s, sig) := NextStep(w.step); (w.(step := s), sig)
    case PressBack => var (s, sig) := BackStep(w.step); (w.(step := s), sig)
    case EditText(field, value) => (w.(form := WithText(w.form, field, value)), Stay)
    case EditFlag(flag, state) => (w.(form := WithFlag(w.form, flag, state)), Stay)
    case PickBirthDate(date) => (w.(form := WithBirthDate(w.form, date)), Stay)
    case PressSignInLink => (w, LeftToSignin)
  }

  /** The sign-in link leaves for the sign-in page from every step, touching neither step nor form. */
  lemma SignInLinkLeaves(w: Wizard, e: Event)
    ensures e == PressSignInLink ==> Apply(w, e) == (w, LeftToSignin)
    ensures Apply(w, e).1 == LeftToSignin <==> e == PressSignInLink
  {
  }

  /** Registration completes only from the last step with the terms accepted, and always does so there on Next. */
  lemma CompletionGate(w: Wizard, e: Event)
    requires ValidStep(w.step)
    ensures Apply(w, e).1 == Completed <==>
      e == PressNext && w.step == TotalSteps && w.form.termsAccepted
  {
  }

  /** The events up to the first one that hands control back to the page. */
  function Run(w: Wizard, events: seq<Event>): (r: Wizard)
    decreases |events|
  {
    if events == [] then w
    else
      var (next, sig) := Apply(w, events[0]);
      if sig == Stay then Run(next, events[1..]) else next
  }

  /** From any valid step, any sequence of events keeps the step within 1..5. */
  lemma {:induction false} RunStaysInRange(w: Wizard, events: seq<Event>)
    requires ValidStep(w.step)
    ensures ValidStep(Run(w, events).step)
    decreases |events|
  {
    if events != [] {
      var (next, sig) := Apply(w, events[0]);
      assert ValidStep(next.step);
      if sig == Stay {
        RunStaysInRange(next, events[1..]);
      }
    }
  }

  /** From the wizard's opening state every run stays within steps 1..5. */
  lemma InitialRunStaysInRange(events: seq<Event>)
    ensures ValidStep(Run(InitialWizard, events).step)
    ensures Run(InitialWizard, []) == Wizard(1, EmptyForm)
  {
    RunStaysInRange(InitialWizard, events);
  }

  /** The wizard component: the step counter and the form record. */
  class DriverSignupWizard {
    var step: int
    var form: Form

    ghost predicate Valid()
      reads this
    {
      ValidStep(step)
    }

    constructor ()
      ensures Valid() && step == 1 && form == EmptyForm
    {
      step := 1;
      form := EmptyForm;
    }

    /** The Next (or "Complete Registration") button. */
    method PressNextButton() returns (signal: Signal)
      requires Valid()
      modifies this
      ensures Valid()
      ensures (Wizard(step, form), signal) == Apply(Wizard(old(step), old(form)), PressNext)
      ensures signal == Completed ==> old(step) == TotalSteps && form.termsAccepted
    {
      if NextDisabled(step, form) {
        signal := Stay;
      } else if step < TotalSteps {
        step := step + 1;
        signal := Stay;
      } else {
        signal := Completed;
      }
    }

    /** The Back (or "Back to Home") button. */
    method PressBackButton() returns (signal: Signal)
      requires Valid()
      modifies this
      ensures Valid()
      ensures (Wizard(step, form), signal) == Apply(Wizard(old(step), old(form)), PressBack)
    {
      if step > 1 {
        step := step - 1;
        signal := Stay;
      } else {
        signal := LeftToEntry;
      }
    }

    /** The "Sign in here" link. */
    method PressSignInLink() returns (signal: Signal)
      ensures signal == Apply(Wizard(step, form), Event.PressSignInLink).1
      ensures signal == LeftToSignin
    {
      signal := LeftToSignin;
    }

    method EditTextField(field: TextField, value: string)
      modifies this
      ensures step == old(step)
      ensures form == WithText(old(form), field, value)
    {
      form := WithText(form, field, value);
    }

    method EditCheckbox(flag: FlagField, state: CheckState)
      modifies this
      ensures step == old(step)
      ensures form == WithFlag(old(form), flag, state)
    {
      form := WithFlag(form, flag, state);
    }

    method PickDateOfBirth(date: Option<int>)
      modifies this
      ensures step == old(step)
      ensures form == WithBirthDate(old(form), date)
    {
      form := WithBirthDate(form, date);
    }
  }
}
