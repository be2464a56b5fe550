/** The three input schemas, stated as plain predicates over the raw form
    values they would receive. */
module Validators {
  import opened Types
  import opened Text

  /** The finisher names the entry schema enumerates. */
  const SchemaFinishers: seq<string> := ["Gustavo", "Gleison", "Heitor"]

  /** A registration form's raw values, as the entry schema would parse them. */
  datatype EntryInput = EntryInput(
    artFinisher: string,
    nrNumber: string,
    clientName: string,
    quantity: int,
    day: string,
    time: string)

  predicate IsDigit(c: char) {
    '0' <= c <= '9'
  }

  /** `([0-1]?[0-9]|2[0-3])`, the hour group of the time pattern. */
  predicate HourMatches(h: string) {
    (|h| == 1 && IsDigit(h[0]))
    || (|h| == 2 && '0' <= h[0] <= '1' && IsDigit(h[1]))
    || (|h| == 2 && h[0] == '2' && '0' <= h[1] <= '3')
  }

  /** `/^([0-1]?[0-9]|2[0-3]):00$/`: an hour group followed by ":00". */
  predicate TimeMatches(t: string)
    ensures TimeMatches(t) ==> (|t| == 4 || |t| == 5) && t[|t| - 3..] == ":00" && IsDigit(t[0])
  {
    |t| >= 3 && t[|t| - 3..] == ":00" && HourMatches(t[..|t| - 3])
  }

  /** `entryFormSchema`: an NR of exactly six characters, a non-empty client
      name, a quantity of at least one, a finisher and a day from the fixed
      enumerations, and a time matching the hour pattern. */
  predicate EntrySchemaAccepts(d: EntryInput)
    ensures EntrySchemaAccepts(d) ==>
      && |d.nrNumber| == 6 && d.clientName != "" && d.quantity >= 1
      && ParseWeekDay(d.day).Some? && d.day == WeekDayLabel(ParseWeekDay(d.day).value)
      && (|d.time| == 4 || |d.time| == 5)
  {
    && d.artFinisher in SchemaFinishers
    && |d.nrNumber| == 6
    && |d.clientName| >= 1
    && d.quantity >= 1
    && ParseWeekDay(d.day).Some?
    && TimeMatches(d.time)
  }

  /** `recordingFormSchema`: any date string and a non-empty recorder. */
  predicate RecordingSchemaAccepts(date: string, recordedBy: string)
    ensures RecordingSchemaAccepts(date, recordedBy) <==> recordedBy != ""
  {
    |recordedBy| >= 1
  }

  /** `deliveryFormSchema`: one of the three methods and a non-empty seller. */
  predicate DeliverySchemaAccepts(deliveryMethod: string, seller: string)
    ensures DeliverySchemaAccepts(deliveryMethod, seller) ==>
      ParseDeliveryMethod(deliveryMethod).Some? && deliveryMethod == DeliveryMethodLabel(ParseDeliveryMethod(deliveryMethod).value) && seller != ""
  {
    ParseDeliveryMethod(deliveryMethod).Some? && |seller| >= 1
  }

  /** The times the pattern accepts are exactly the hours 0 to 23 written in
      decimal, and the hours 0 to 9 also with a leading zero. */
  lemma TimeMatchesIff(t: string)
    ensures TimeMatches(t) <==>
      exists hour :: 0 <= hour <= 23 && (t == Decimal(hour) + ":00" || (hour <= 9 && t == "0" + Decimal(hour) + ":00"))
  {
    if TimeMatches(t) {
      var hour := MatchedHour(t);
    }
    if hour :| 0 <= hour <= 23 && (t == Decimal(hour) + ":00" || (hour <= 9 && t == "0" + Decimal(hour) + ":00")) {
      HourTimeMatches(t, hour);
    }
  }

  /** The hour that an accepted time writes. */
  lemma MatchedHour(t: string) returns (hour: nat)
    requires TimeMatches(t)
    ensures hour <= 23 && (t == Decimal(hour) + ":00" || (hour <= 9 && t == "0" + Decimal(hour) + ":00"))
  {
    var h := t[..|t| - 3];
    assert t == h + ":00";
    if |h| == 1 {
      hour := h[0] as int - '0' as int;
      assert Decimal(hour) == h;
    } else {
      hour := (h[0] as int - '0' as int) * 10 + (h[1] as int - '0' as int);
      if h[0] == '0' {
        assert Decimal(hour) == [h[1]];
        assert h == "0" + Decimal(hour);
      } else {
        assert Decimal(hour / 10) == [h[0]];
        assert Decimal(hour) == h;
      }
    }
  }

  /** Every hour from 0 to 23, written in decimal (with a leading zero or not
      below 10) and followed by ":00", is accepted. */
  lemma HourTimeMatches(t: string, hour: int)
    requires 0 <= hour <= 23 && (t == Decimal(hour) + ":00" || (hour <= 9 && t == "0" + Decimal(hour) + ":00"))
    ensures TimeMatches(t)
  {
    var h := if t == Decimal(hour) + ":00" then Decimal(hour) else "0" + Decimal(hour);
    assert t == h + ":00";
    assert t[..|t| - 3] == h && t[|t| - 3..] == ":00";
    if hour >= 10 {
      assert Decimal(hour) == [DigitChar(hour / 10), DigitChar(hour % 10)];
    }
    assert HourMatches(h);
  }

  /** The delivery schema accepts exactly a method label and a non-empty
      seller; any other method string, such as a misspelt one, is refused. */
  lemma DeliverySchemaIff(deliveryMethod: string, seller: string)
    ensures DeliverySchemaAccepts(deliveryMethod, seller) <==>
      (exists m: DeliveryMethod :: deliveryMethod == DeliveryMethodLabel(m)) && seller != ""
  {
    if ParseDeliveryMethod(deliveryMethod).Some? {
      var m := ParseDeliveryMethod(deliveryMethod).value;
      DeliveryMethodLabels(deliveryMethod, m);
    }
    if m: DeliveryMethod :| deliveryMethod == DeliveryMethodLabel(m) {
      DeliveryMethodLabels(deliveryMethod, m);
    }
  }

  /** The recording schema looks only at the recorder: any date, even an
      empty one, passes, and an empty recorder fails whatever the date. */
  lemma RecordingSchemaIgnoresDate(date1: string, date2: string, recordedBy: string)
    ensures RecordingSchemaAccepts(date1, recordedBy) == RecordingSchemaAccepts(date2, recordedBy)
    ensures RecordingSchemaAccepts("", "Maria") && !RecordingSchemaAccepts(date1, "")
  {
  }

  /** The length check on the NR number, on the two NR values that illustrate it. */
  lemma NrLengthExamples()
    ensures !EntrySchemaAccepts(EntryInput("Gustavo", "AB12", "Acme", 2, "Segunda", "10:00"))
    ensures EntrySchemaAccepts(EntryInput("Gustavo", "AB1234", "Acme", 2, "Segunda", "10:00"))
  {
    assert TimeMatches("10:00") by { assert "10:00"[..2] == "10"; assert "10:00"[2..] == ":00"; }
  }

  /** The hour pattern on the times that illustrate it. */
  lemma TimeExamples()
    ensures TimeMatches("5:00") && TimeMatches("05:00") && TimeMatches("23:00")
    ensures !TimeMatches("24:00") && !TimeMatches("10:30")
  {
    assert "5:00"[..1] == "5" && "5:00"[1..] == ":00";
    assert "05:00"[..2] == "05" && "05:00"[2..] == ":00";
    assert "23:00"[..2] == "23" && "23:00"[2..] == ":00";
    assert "24:00"[..2] == "24";
    assert "10:30"[2..] == ":30";
  }
}
