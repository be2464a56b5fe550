/** The records and enumerations of the screen registry: a screen (one print
    job), its deadline and delivery block, the two-roster settings, and the
    three string-literal unions whose labels the user interface shows. */
module Types {

  /** A value that may be absent: an optional field of a record. */
  datatype Option<+T> = None | Some(value: T)

  /** The six working days a deadline can fall on. */
  datatype WeekDay = Segunda | Terca | Quarta | Quinta | Sexta | Sabado

  /** How a finished screen leaves the shop. */
  datatype DeliveryMethod = Motoboy | Cliente | Correio

  /** The three lifecycle stages of a screen. */
  datatype ScreenStatus = EmProducao | Gravada | Retirada

  function WeekDayLabel(d: WeekDay): string {
    match d
    case Segunda => "Segunda"
    case Terca => "Terça"
    case Quarta => "Quarta"
    case Quinta => "Quinta"
    case Sexta => "Sexta"
    case Sabado => "Sábado"
  }

  /** The weekday a label names, if it is one of the six labels. */
  function ParseWeekDay(s: string): Option<WeekDay> {
    if s == "Segunda" then Some(Segunda)
    else if s == "Terça" then Some(Terca)
    else if s == "Quarta" then Some(Quarta)
    else if s == "Quinta" then Some(Quinta)
    else if s == "Sexta" then Some(Sexta)
    else if s == "Sábado" then Some(Sabado)
    else None
  }

  function DeliveryMethodLabel(m: DeliveryMethod): string {
    match m
    case Motoboy => "Motoboy"
    case Cliente => "Cliente"
    case Correio => "Correio"
  }

  function ParseDeliveryMethod(s: string): Option<DeliveryMethod> {
    if s == "Motoboy" then Some(Motoboy)
    else if s == "Cliente" then Some(Cliente)
    else if s == "Correio" then Some(Correio)
    else None
  }

  /** The string each stage has in the status union type. The model keeps
      statuses as `ScreenStatus` values and never renders or parses one; this
      pair and `StatusLabels` only record which strings the union admits. */
  function StatusLabel(st: ScreenStatus): string {
    match st
    case EmProducao => "Em Produção"
    case Gravada => "Gravada"
    case Retirada => "Retirada"
  }

  function ParseStatus(s: string): Option<ScreenStatus> {
    if s == "Em Produção" then Some(EmProducao)
    else if s == "Gravada" then Some(Gravada)
    else if s == "Retirada" then Some(Retirada)
    else None
  }

  /** A string is a weekday exactly when it is the label of one, and then of only that one. */
  lemma WeekDayLabels(s: string, d: WeekDay)
    ensures ParseWeekDay(s) == Some(d) <==> s == WeekDayLabel(d)
  {
  }

  /** A string is a delivery method exactly when it is the label of one, and then of only that one. */
  lemma DeliveryMethodLabels(s: string, m: DeliveryMethod)
    ensures ParseDeliveryMethod(s) == Some(m) <==> s == DeliveryMethodLabel(m)
  {
  }

  /** A string is a status exactly when it is the label of one, and then of
      only that one: the union type admits these three strings and no other. */
  lemma StatusLabels(s: string, st: ScreenStatus)
    ensures ParseStatus(s) == Some(st) <==> s == StatusLabel(st)
  {
  }

  /** When a job is due: a weekday and an hour slot such as "10:00". */
  datatype Deadline = Deadline(day: WeekDay, time: string)

  /** The delivery block (its `method` field is called `deliveryMethod` here,
      `method` being a Dafny keyword). `deliveryPerson` is declared a string, but it is
      optional here because the delivery handler can store `undefined` in it
      (see `App.AsHandlerData`). */
  datatype Delivery = Delivery(deliveryMethod: DeliveryMethod, deliveryPerson: Option<string>, date: string)

  /** The property names of the objects that carry a delivery from the form
      to the registry and from the registry to the report. */
  datatype Key = MethodKey | SellerKey | DeliveryPersonKey | DateKey

  /** A plain object: the keys it was built with, each with its value, where
      `None` is a key present with the value `undefined`. */
  type Record = map<Key, Option<string>>

  /** The property read `o.k`: `undefined` (`None`) when `o` has no key `k`. */
  function Get(o: Record, k: Key): Option<string> {
    if k in o then o[k] else None
  }

  /** The delivery block as the registry stores it: the object literal
      `{ method, deliveryPerson, date }`. */
  function DeliveryObject(d: Delivery): Record {
    map[MethodKey := Some(DeliveryMethodLabel(d.deliveryMethod)), DeliveryPersonKey := d.deliveryPerson, DateKey := Some(d.date)]
  }

  /** A stored delivery block has exactly the keys method, deliveryPerson and
      date, and reading them gives back the block's fields. */
  lemma DeliveryObjectKeys(d: Delivery)
    ensures DeliveryObject(d).Keys == {MethodKey, DeliveryPersonKey, DateKey}
    ensures Get(DeliveryObject(d), SellerKey) == None
    ensures Get(DeliveryObject(d), DeliveryPersonKey) == d.deliveryPerson
    ensures Get(DeliveryObject(d), MethodKey) == Some(DeliveryMethodLabel(d.deliveryMethod))
  {
  }

  /** One print job. Only `recordingDate`, `recordedBy` and `delivery` are
      optional; every other field is always present. */
  datatype Screen = Screen(
    id: string,
    nrNumber: string,
    clientName: string,
    quantity: int,
    artFinisher: string,
    deadline: Deadline,
    recordingDate: Option<string>,
    recordedBy: Option<string>,
    status: ScreenStatus,
    delivery: Option<Delivery>,
    createdAt: string)

  /** The two name rosters: art finishers and delivery people. */
  datatype Settings = Settings(artFinishers: seq<string>, deliveryPeople: seq<string>)
}
