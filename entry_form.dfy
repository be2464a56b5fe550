/** The registration form: its fixed choice lists, its initial state, and the
    submit handler that checks only that the NR number and the client name are
    filled in before handing the form data on and resetting. */
module EntryForm {
  import opened Types
  import opened Text
  import Validators

  /** The finisher names the form offers (a fixed list, not the settings roster). */
  const ArtFinishers: seq<string> := ["Gustavo", "Gleison", "Heitor"]

  /** The weekdays the form offers, Monday first. */
  const WeekDays: seq<WeekDay> := [Segunda, Terca, Quarta, Quinta, Sexta, Sabado]

  /** `Array.from({ length: 8 }, (_, i) => `${i + 10}:00`)`. */
  const TimeSlots: seq<string> := seq(8, i requires 0 <= i < 8 => Decimal(i + 10) + ":00")

  /** The form's data, handed to the registration handler on submit. */
  datatype EntryData = EntryData(
    artFinisher: string,
    nrNumber: string,
    clientName: string,
    quantity: int,
    day: WeekDay,
    time: string)

  /** The form's state on first display and after every successful submit. */
  const InitialFormState: EntryData :=
    EntryData(ArtFinishers[0], "", "", 1, WeekDays[0], TimeSlots[0])

  /** The slots are the eight whole hours from ten to five, in ascending order. */
  lemma TimeSlotsAreTenToFive()
    ensures TimeSlots == ["10:00", "11:00", "12:00", "13:00", "14:00", "15:00", "16:00", "17:00"]
  {
    var expected := ["10:00", "11:00", "12:00", "13:00", "14:00", "15:00", "16:00", "17:00"];
    forall i | 0 <= i < 8 ensures TimeSlots[i] == expected[i] {
      SlotText(i);
    }
  }

  /** Slot `i` is the hour `10 + i` written as two digits and ":00". */
  lemma SlotText(i: int)
    requires 0 <= i < 8
    ensures TimeSlots[i] == ['1', ('0' as int + i) as char, ':', '0', '0']
  {
    assert Decimal(i + 10) == Decimal(1) + [DigitChar(i)];
  }

  /** Every slot the form offers passes the entry schema's time check. */
  lemma TimeSlotsPassSchema()
    ensures forall i :: 0 <= i < |TimeSlots| ==> Validators.TimeMatches(TimeSlots[i])
  {
    forall i | 0 <= i < |TimeSlots| ensures Validators.TimeMatches(TimeSlots[i]) {
      Validators.TimeMatchesIff(TimeSlots[i]);
    }
  }

  /** `!formData.nrNumber || !formData.clientName` fails: both are filled in. */
  predicate GuardPasses(d: EntryData) {
    d.nrNumber != "" && d.clientName != ""
  }

  /** The form data as the entry schema would receive it. */
  function AsInput(d: EntryData): Validators.EntryInput {
    Validators.EntryInput(d.artFinisher, d.nrNumber, d.clientName, d.quantity, WeekDayLabel(d.day), d.time)
  }

  /** Whatever the entry schema accepts also passes the form's guard. */
  lemma SchemaImpliesGuard(d: EntryData)
    requires Validators.EntrySchemaAccepts(AsInput(d))
    ensures GuardPasses(d)
  {
  }

  /** The guard is weaker than the schema: a three-character NR, a zero
      quantity or an unknown finisher gets through. */
  lemma GuardWeakerThanSchema()
    ensures var d := EntryData("Nobody", "AB1", "Acme", 0, Segunda, "10:00");
      GuardPasses(d) && !Validators.EntrySchemaAccepts(AsInput(d))
  {
  }

  /** The initial state has an empty NR number and client name, so the guard
      holds it back; its finisher, day and time are the first entries of their
      lists, and the finisher and time are values the entry schema accepts. */
  lemma InitialFormStateParts()
    ensures InitialFormState.nrNumber == "" && InitialFormState.clientName == ""
    ensures !GuardPasses(InitialFormState)
    ensures InitialFormState.quantity == 1
    ensures InitialFormState.artFinisher == "Gustavo" && InitialFormState.day == Segunda
    ensures InitialFormState.time == "10:00"
    ensures InitialFormState.artFinisher in Validators.SchemaFinishers
    ensures Validators.TimeMatches(InitialFormState.time)
  {
    TimeSlotsAreTenToFive();
    TimeSlotsPassSchema();
  }

  /** The registration form's state. */
  class EntryForm {
    var formData: EntryData

    constructor ()
      ensures formData == InitialFormState
    {
      formData := InitialFormState;
    }

    /** `handleSubmit`: with an empty NR number or client name nothing is
        submitted and the form is kept; otherwise the current data is
        submitted and the form goes back to its initial state. */
    method HandleSubmit() returns (submitted: Option<EntryData>)
      modifies this
      ensures !GuardPasses(old(formData)) ==> submitted == None && formData == old(formData)
      ensures GuardPasses(old(formData)) ==> submitted == Some(old(formData)) && formData == InitialFormState
    {
      if formData.nrNumber == "" || formData.clientName == "" {
        return None;
      }
      submitted := Some(formData);
      formData := InitialFormState;
    }
  }
}
