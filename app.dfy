/** The top-level session: the screen registry, the settings, the active tab,
    the three handlers that register, record and deliver a screen, and the
    two stage views. Identifiers and timestamps, which the session takes from
    the clock, are parameters. */
module App {
  import opened Types
  import opened Lists
  import opened ScreenUtils
  import EntryForm
  import RecordingForm
  import DeliveryForm
  import ReportView

  /** The rosters the session starts with. */
  const InitialSettings := Settings(["Gustavo", "Gleison", "Heitor"], ["João", "Maria", "Pedro"])

  /** Neither initial roster holds a name twice. */
  lemma InitialSettingsNoDups()
    ensures NoDups(InitialSettings.artFinishers) && NoDups(InitialSettings.deliveryPeople)
  {
  }

  /** What each stage implies about a screen's data: a screen in production
      has nothing recorded or delivered, a recorded one has its date and
      recorder, a delivered one its delivery block. */
  predicate StageConsistent(s: Screen) {
    && (s.status == EmProducao ==> s.recordingDate.None? && s.recordedBy.None? && s.delivery.None?)
    && (s.status == Gravada ==> s.recordingDate.Some? && s.recordedBy.Some?)
    && (s.status == Retirada ==> s.delivery.Some?)
  }

  /** Every screen of the registry agrees with its stage. */
  predicate AllStageConsistent(screens: seq<Screen>) {
    forall i :: 0 <= i < |screens| ==> StageConsistent(screens[i])
  }

  /** The screen `handleEntrySubmit` builds from the form data, its id and its
      creation time: in production, with nothing recorded or delivered. */
  function NewScreen(data: EntryForm.EntryData, id: string, now: string): (s: Screen)
    ensures s.status == EmProducao && StageConsistent(s)
    ensures s.id == id && s.createdAt == now
    ensures s.nrNumber == data.nrNumber && s.clientName == data.clientName && s.quantity == data.quantity
    ensures s.artFinisher == data.artFinisher && s.deadline == Deadline(data.day, data.time)
  {
    Screen(id, data.nrNumber, data.clientName, data.quantity, data.artFinisher,
           Deadline(data.day, data.time), None, None, EmProducao, None, now)
  }

  /** The patch `handleRecordingSubmit` applies: the recording date and the recorder. */
  function RecordingPatch(data: RecordingForm.RecordingData): ScreenPatch {
    EmptyPatch.(recordingDate := Some(data.date), recordedBy := Some(data.recordedBy))
  }

  /** What `handleDeliverySubmit` reads from its `data` argument: the method
      and `data.deliveryPerson`, `None` when that field is missing. */
  datatype DeliveryData = DeliveryData(deliveryMethod: DeliveryMethod, deliveryPerson: Option<string>)

  /** The patch `handleDeliverySubmit` applies: a delivery block stamped `now`. */
  function DeliveryPatch(data: DeliveryData, now: string): ScreenPatch {
    EmptyPatch.(delivery := Some(Delivery(data.deliveryMethod, data.deliveryPerson, now)))
  }

  /** Recording keeps every screen in agreement with its stage, whatever
      stage the recorded screens were in before. */
  lemma RecordingKeepsStages(screens: seq<Screen>, screenId: string, data: RecordingForm.RecordingData)
    requires AllStageConsistent(screens)
    ensures AllStageConsistent(UpdateScreenStatus(screens, screenId, Gravada, RecordingPatch(data)))
  {
  }

  /** Delivering keeps every screen in agreement with its stage, even a screen
      delivered straight from production. */
  lemma DeliveryKeepsStages(screens: seq<Screen>, screenId: string, data: DeliveryData, now: string)
    requires AllStageConsistent(screens)
    ensures AllStageConsistent(UpdateScreenStatus(screens, screenId, Retirada, DeliveryPatch(data, now)))
  {
  }

  /** A screen's recording date, recorder and delivery block, once set, stay
      set through a recording, since the patch only writes present values; but
      they are not set once only: a screen recorded again takes the new date
      and recorder over the earlier ones. */
  lemma RecordingNeverClears(screens: seq<Screen>, screenId: string, data: RecordingForm.RecordingData)
    ensures var r := UpdateScreenStatus(screens, screenId, Gravada, RecordingPatch(data));
      forall i :: 0 <= i < |screens| ==>
        && (screens[i].recordingDate.Some? ==> r[i].recordingDate.Some?)
        && (screens[i].recordedBy.Some? ==> r[i].recordedBy.Some?)
        && (screens[i].delivery.Some? ==> r[i].delivery.Some?)
        && (screens[i].id == screenId ==> r[i].recordingDate == Some(data.date) && r[i].recordedBy == Some(data.recordedBy))
  {
  }

  /** The same through a delivery: nothing recorded or delivered is cleared,
      and a screen delivered again takes the new block over the earlier one. */
  lemma DeliveryNeverClears(screens: seq<Screen>, screenId: string, data: DeliveryData, now: string)
    ensures var r := UpdateScreenStatus(screens, screenId, Retirada, DeliveryPatch(data, now));
      forall i :: 0 <= i < |screens| ==>
        && (screens[i].recordingDate.Some? ==> r[i].recordingDate.Some?)
        && (screens[i].recordedBy.Some? ==> r[i].recordedBy.Some?)
        && (screens[i].delivery.Some? ==> r[i].delivery.Some?)
        && (screens[i].id == screenId ==> r[i].delivery == Some(Delivery(data.deliveryMethod, data.deliveryPerson, now)))
  {
  }

  /** What the delivery handler reads from the object the delivery form
      submits, as written: `data.method` and `data.deliveryPerson`. The object
      has no `deliveryPerson` key, so that read is `undefined`. */
  function AsHandlerData(sent: DeliveryForm.DeliverySubmission): (data: DeliveryData)
    ensures Get(DeliveryForm.SentObject(sent), MethodKey) == Some(DeliveryMethodLabel(data.deliveryMethod))
    ensures data.deliveryPerson.None?
  {
    var o := DeliveryForm.SentObject(sent);
    DeliveryData(sent.deliveryMethod, Get(o, DeliveryPersonKey))
  }

  /** The evidently intended reading: the handler reads `data.seller`, the key
      the form does send, as the delivery person. */
  function AsHandlerDataIntended(sent: DeliveryForm.DeliverySubmission): (data: DeliveryData)
    ensures Get(DeliveryForm.SentObject(sent), MethodKey) == Some(DeliveryMethodLabel(data.deliveryMethod))
    ensures data.deliveryPerson == Some(sent.seller)
  {
    var o := DeliveryForm.SentObject(sent);
    DeliveryData(sent.deliveryMethod, Get(o, SellerKey))
  }

  /** The stage condition as the callback handed to `filter`. */
  function StatusIs(status: ScreenStatus): Screen -> bool {
    (s: Screen) => s.status == status
  }

  /** `screens.filter(s => s.status === status)`: exactly the screens in
      that stage, in registry order. */
  function StageFilter(screens: seq<Screen>, status: ScreenStatus): (r: seq<Screen>)
    ensures IsSubsequence(r, screens)
    ensures forall i :: 0 <= i < |r| ==> r[i] in screens && r[i].status == status
    ensures forall i :: 0 <= i < |screens| && screens[i].status == status ==> screens[i] in r
  {
    Filter(screens, StatusIs(status))
  }

  /** The three stage views partition the registry: together they hold every
      screen exactly as often as the registry does, so no screen is in two
      and none is in none. */
  lemma StagesPartition(screens: seq<Screen>)
    ensures multiset(StageFilter(screens, EmProducao)) + multiset(StageFilter(screens, Gravada))
          + multiset(StageFilter(screens, Retirada)) == multiset(screens)
    ensures |StageFilter(screens, EmProducao)| + |StageFilter(screens, Gravada)|
          + |StageFilter(screens, Retirada)| == |screens|
  {
    StagesCover(screens);
    var p, g, d := StageFilter(screens, EmProducao), StageFilter(screens, Gravada), StageFilter(screens, Retirada);
    assert |multiset(p) + multiset(g) + multiset(d)| == |p| + |g| + |d|;
  }

  /** The multiset half of the partition: each screen occurs in exactly the
      view of its own stage, as often as in the registry. */
  lemma StagesCover(screens: seq<Screen>)
    ensures multiset(StageFilter(screens, EmProducao)) + multiset(StageFilter(screens, Gravada))
          + multiset(StageFilter(screens, Retirada)) == multiset(screens)
  {
    var p, g, d := StageFilter(screens, EmProducao), StageFilter(screens, Gravada), StageFilter(screens, Retirada);
    forall s: Screen ensures (multiset(p) + multiset(g) + multiset(d))[s] == multiset(screens)[s] {
      FilterCount(screens, StatusIs(EmProducao), s);
      FilterCount(screens, StatusIs(Gravada), s);
      FilterCount(screens, StatusIs(Retirada), s);
    }
  }

  /** A screen is in at most one stage view. */
  lemma StagesDisjoint(screens: seq<Screen>, a: ScreenStatus, b: ScreenStatus)
    requires a != b
    ensures forall s :: s in StageFilter(screens, a) ==> s !in StageFilter(screens, b)
  {
  }

  /** A registered screen joins the end of the recording view and stays out of
      the other two; the screens already registered keep their views. */
  lemma RegisteredScreenAwaitsRecording(screens: seq<Screen>, data: EntryForm.EntryData, id: string, now: string)
    ensures StageFilter(screens + [NewScreen(data, id, now)], EmProducao)
         == StageFilter(screens, EmProducao) + [NewScreen(data, id, now)]
    ensures StageFilter(screens + [NewScreen(data, id, now)], Gravada) == StageFilter(screens, Gravada)
    ensures StageFilter(screens + [NewScreen(data, id, now)], Retirada) == StageFilter(screens, Retirada)
  {
    var s := NewScreen(data, id, now);
    StageFilterAppend(screens, s, EmProducao);
    StageFilterAppend(screens, s, Gravada);
    StageFilterAppend(screens, s, Retirada);
  }

  /** A screen appended to the registry joins the end of its own stage's
      view and leaves every other view as it was. */
  lemma StageFilterAppend(screens: seq<Screen>, s: Screen, status: ScreenStatus)
    ensures StageFilter(screens + [s], status) == StageFilter(screens, status) + if s.status == status then [s] else []
  {
    FilterAppend(screens, [s], StatusIs(status));
    assert [s][1..] == [];
  }

  /** Recording and then delivering the same id: every screen with that id
      ends delivered, with the recording data and the delivery block set and
      its id, NR number and client name unchanged; every other screen is
      untouched. */
  lemma RecordThenDeliver(screens: seq<Screen>, screenId: string, recording: RecordingForm.RecordingData,
                          delivery: DeliveryData, now: string)
    ensures var r := UpdateScreenStatus(UpdateScreenStatus(screens, screenId, Gravada, RecordingPatch(recording)),
                                        screenId, Retirada, DeliveryPatch(delivery, now));
      && |r| == |screens|
      && (forall i :: 0 <= i < |screens| && screens[i].id != screenId ==> r[i] == screens[i])
      && (forall i :: 0 <= i < |screens| && screens[i].id == screenId ==>
            && r[i].status == Retirada
            && r[i].id == screens[i].id
            && r[i].nrNumber == screens[i].nrNumber
            && r[i].clientName == screens[i].clientName
            && r[i].recordingDate == Some(recording.date)
            && r[i].recordedBy == Some(recording.recordedBy)
            && r[i].delivery == Some(Delivery(delivery.deliveryMethod, delivery.deliveryPerson, now)))
  {
  }

  /** No guard on the prior status: recording a screen that was already
      delivered moves it back to recorded and keeps its delivery block. */
  lemma RecordingIsNotGuarded(s: Screen, recording: RecordingForm.RecordingData)
    requires s.status == Retirada && s.delivery.Some?
    ensures var r := UpdateScreenStatus([s], s.id, Gravada, RecordingPatch(recording));
      r[0].status == Gravada && r[0].delivery == s.delivery
  {
  }

  /** Ids are not checked for uniqueness: one update transitions every screen
      that shares the id. */
  lemma SharedIdUpdatesBoth(a: Screen, b: Screen, recording: RecordingForm.RecordingData)
    requires a.id == b.id
    ensures var r := UpdateScreenStatus([a, b], a.id, Gravada, RecordingPatch(recording));
      r[0].status == Gravada && r[1].status == Gravada
      && r[0].recordedBy == Some(recording.recordedBy) && r[1].recordedBy == Some(recording.recordedBy)
  {
  }

  /** As written, the seller typed on the delivery form never reaches the
      registry: the delivered screen's delivery person is missing. */
  lemma SellerLostOnDelivery(screens: seq<Screen>, sent: DeliveryForm.DeliverySubmission, now: string)
    ensures var r := UpdateScreenStatus(screens, sent.screenId, Retirada, DeliveryPatch(AsHandlerData(sent), now));
      forall i :: 0 <= i < |r| && screens[i].id == sent.screenId ==>
        r[i].delivery.Some? && r[i].delivery.value.deliveryPerson == None
  {
  }

  /** A concrete case: the seller "Maria" is entered, nothing is stored. */
  lemma SellerLostExample()
    ensures var s := NewScreen(EntryForm.EntryData("Gustavo", "NR0001", "Acme", 2, Segunda, "10:00"), "1", "2024-05-01T10:00:00.000Z");
      var sent := DeliveryForm.DeliverySubmission("1", Motoboy, "Maria");
      var r := UpdateScreenStatus([s], "1", Retirada, DeliveryPatch(AsHandlerData(sent), "2024-05-02T10:00:00.000Z"));
      r[0].delivery.value.deliveryPerson != Some(sent.seller)
  {
  }

  /** With the intended reading the seller is stored as the delivery person
      and the report's seller column shows it. */
  lemma SellerKeptOnDelivery(screens: seq<Screen>, sent: DeliveryForm.DeliverySubmission, now: string)
    ensures var r := UpdateScreenStatus(screens, sent.screenId, Retirada, DeliveryPatch(AsHandlerDataIntended(sent), now));
      forall i :: 0 <= i < |r| && screens[i].id == sent.screenId ==>
        r[i].delivery.Some? && r[i].delivery.value.deliveryPerson == Some(sent.seller)
        && ReportView.ShownSellerIntended(r[i]) == Some(sent.seller)
  {
  }

  /** The session's state. */
  class App {
    var activeTab: string
    var screens: seq<Screen>
    var isSettingsOpen: bool
    var settings: Settings

    /** Every screen agrees with its stage and neither roster holds a name twice. */
    ghost predicate Valid()
      reads this
    {
      AllStageConsistent(screens) && NoDups(settings.artFinishers) && NoDups(settings.deliveryPeople)
    }

    /** No screens, the "Entrada" tab, the dialog closed, the initial rosters. */
    constructor ()
      ensures activeTab == "Entrada" && screens == [] && !isSettingsOpen && settings == InitialSettings
      ensures Valid()
    {
      activeTab := "Entrada";
      screens := [];
      isSettingsOpen := false;
      settings := InitialSettings;
      InitialSettingsNoDups();
    }

    /** What the recording tab is given: the screens in production. */
    function RecordingView(): seq<Screen>
      reads this
    {
      StageFilter(screens, EmProducao)
    }

    /** What the delivery tab is given: the recorded screens. */
    function DeliveryView(): seq<Screen>
      reads this
    {
      StageFilter(screens, Gravada)
    }

    /** `setActiveTab`, called by the tab bar. */
    method SetActiveTab(tab: string)
      modifies this
      ensures activeTab == tab
      ensures screens == old(screens) && settings == old(settings) && isSettingsOpen == old(isSettingsOpen)
    {
      activeTab := tab;
    }

    /** `handleEntrySubmit`: one new screen in production is appended, the
        others keep their place, and the recording tab becomes active. */
    method HandleEntrySubmit(data: EntryForm.EntryData, id: string, now: string)
      modifies this
      ensures screens == old(screens) + [NewScreen(data, id, now)]
      ensures RecordingView() == old(RecordingView()) + [NewScreen(data, id, now)]
      ensures DeliveryView() == old(DeliveryView())
      ensures activeTab == "Gravação"
      ensures settings == old(settings) && isSettingsOpen == old(isSettingsOpen)
      ensures old(Valid()) ==> Valid()
    {
      RegisteredScreenAwaitsRecording(screens, data, id, now);
      screens := screens + [NewScreen(data, id, now)];
      activeTab := "Gravação";
    }

    /** `handleRecordingSubmit`: the screens with `screenId` become recorded
        with the given date and recorder; all others are unchanged. */
    method HandleRecordingSubmit(screenId: string, data: RecordingForm.RecordingData)
      modifies this
      ensures screens == UpdateScreenStatus(old(screens), screenId, Gravada, RecordingPatch(data))
      ensures activeTab == old(activeTab) && settings == old(settings) && isSettingsOpen == old(isSettingsOpen)
      ensures old(Valid()) ==> Valid()
    {
      if Valid() {
        RecordingKeepsStages(screens, screenId, data);
      }
      screens := UpdateScreenStatus(screens, screenId, Gravada, RecordingPatch(data));
    }

    /** `handleDeliverySubmit`: the screens with `screenId` become delivered
        with a delivery block stamped `now`; all others are unchanged. */
    method HandleDeliverySubmit(screenId: string, data: DeliveryData, now: string)
      modifies this
      ensures screens == UpdateScreenStatus(old(screens), screenId, Retirada, DeliveryPatch(data, now))
      ensures activeTab == old(activeTab) && settings == old(settings) && isSettingsOpen == old(isSettingsOpen)
      ensures old(Valid()) ==> Valid()
    {
      if Valid() {
        DeliveryKeepsStages(screens, screenId, data, now);
      }
      screens := UpdateScreenStatus(screens, screenId, Retirada, DeliveryPatch(data, now));
    }

    /** The settings button: `setIsSettingsOpen(true)`. */
    method OpenSettings()
      modifies this
      ensures isSettingsOpen
      ensures screens == old(screens) && settings == old(settings) && activeTab == old(activeTab)
    {
      isSettingsOpen := true;
    }

    /** The dialog's `onClose`: `setIsSettingsOpen(false)`. */
    method CloseSettings()
      modifies this
      ensures !isSettingsOpen
      ensures screens == old(screens) && settings == old(settings) && activeTab == old(activeTab)
    {
      isSettingsOpen := false;
    }

    /** The dialog's `onSave` (`setSettings`) followed by its `onClose`. */
    method SaveSettings(saved: Settings)
      modifies this
      ensures settings == saved && !isSettingsOpen
      ensures screens == old(screens) && activeTab == old(activeTab)
      ensures old(Valid()) && NoDups(saved.artFinishers) && NoDups(saved.deliveryPeople) ==> Valid()
    {
      settings := saved;
      isSettingsOpen := false;
    }
  }

  /** The whole lifecycle of one job, with sample values: registered,
      recorded, then delivered. The delivery data reaches the handler as the
      delivery form sends it, so no delivery person is stored. */
  method LifecycleScenario() returns (registered: Screen, recorded: Screen, delivered: Screen)
    ensures registered.status == EmProducao && registered.nrNumber == "NR0001"
    ensures recorded.status == Gravada && recorded.recordingDate == Some("2024-05-01")
    ensures recorded.recordedBy == Some("Maria")
    ensures delivered.status == Retirada && delivered.delivery.Some?
    ensures delivered.delivery.value.deliveryMethod == Motoboy && delivered.delivery.value.deliveryPerson == None
    ensures delivered.id == registered.id && delivered.nrNumber == "NR0001" && delivered.clientName == "Acme"
  {
    var app := new App();
    app.HandleEntrySubmit(EntryForm.EntryData("Gustavo", "NR0001", "Acme", 2, Segunda, "10:00"), "1", "2024-05-01T09:00:00.000Z");
    registered := app.screens[0];
    app.HandleRecordingSubmit("1", RecordingForm.RecordingData("2024-05-01", "Maria"));
    recorded := app.screens[0];
    app.HandleDeliverySubmit("1", AsHandlerData(DeliveryForm.DeliverySubmission("1", Motoboy, "João")), "2024-05-02T09:00:00.000Z");
    delivered := app.screens[0];
  }
}
