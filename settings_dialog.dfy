/** The settings dialog: a local copy of the two rosters edited by "add if
    non-empty and absent" and "remove every occurrence", with a pending name
    field per roster, and a save that hands the local copy back. */
module SettingsDialog {
  import opened Types
  import opened Lists

  /** The add guard: the pending name is non-empty and not yet in the roster. */
  predicate CanAdd(roster: seq<string>, name: string) {
    name != "" && name !in roster
  }

  /** `[...roster, name]` when the add guard holds, the roster otherwise. */
  function AddName(roster: seq<string>, name: string): (r: seq<string>)
    ensures roster <= r && |r| <= |roster| + 1
    ensures name != "" ==> name in r
    ensures forall i :: 0 <= i < |r| ==> r[i] in roster || r[i] == name
  {
    if CanAdd(roster, name) then roster + [name] else roster
  }

  /** The removal condition as the callback handed to `filter`. */
  function IsNot(name: string): string -> bool {
    (n: string) => n != name
  }

  /** `roster.filter(n => n !== name)`: every occurrence of `name` dropped,
      the other names kept in order. */
  function RemoveName(roster: seq<string>, name: string): (r: seq<string>)
    ensures IsSubsequence(r, roster)
    ensures name !in r
    ensures forall i :: 0 <= i < |roster| && roster[i] != name ==> roster[i] in r
    ensures forall x :: multiset(r)[x] == if x != name then multiset(roster)[x] else 0
  {
    FilterCounts(roster, IsNot(name));
    Filter(roster, IsNot(name))
  }

  /** After an add the roster holds exactly its old names, plus the added
      name when it is non-empty; the old names keep their positions. */
  lemma AddNameMembers(roster: seq<string>, name: string)
    ensures var r := AddName(roster, name);
      && roster <= r
      && (forall x :: x in r <==> x in roster || (x == name && name != ""))
      && |r| == if CanAdd(roster, name) then |roster| + 1 else |roster|
  {
  }

  /** Adding keeps a roster free of duplicates. */
  lemma AddNameNoDups(roster: seq<string>, name: string)
    requires NoDups(roster)
    ensures NoDups(AddName(roster, name))
  {
    if CanAdd(roster, name) {
      var r := roster + [name];
      forall i, j | 0 <= i < j < |r| ensures r[i] != r[j] {
        if j == |roster| {
          assert r[i] == roster[i];
        }
      }
    }
  }

  /** Removing keeps a roster free of duplicates. */
  lemma RemoveNameNoDups(roster: seq<string>, name: string)
    requires NoDups(roster)
    ensures NoDups(RemoveName(roster, name))
  {
    FilterNoDups(roster, IsNot(name));
  }

  /** Removing a name that is not in the roster changes nothing. */
  lemma RemoveAbsentName(roster: seq<string>, name: string)
    requires name !in roster
    ensures RemoveName(roster, name) == roster
  {
    FilterKeepsAll(roster, IsNot(name));
  }

  /** Adding a fresh name and then removing it gives back the roster. */
  lemma AddThenRemove(roster: seq<string>, name: string)
    requires CanAdd(roster, name)
    ensures RemoveName(AddName(roster, name), name) == roster
  {
    FilterAppend(roster, [name], IsNot(name));
    RemoveAbsentName(roster, name);
  }

  /** The dialog's state. */
  class SettingsDialog {
    var localSettings: Settings
    var newArtFinisher: string
    var newDeliveryPerson: string

    /** Neither roster holds a name twice. */
    ghost predicate Valid()
      reads this
    {
      NoDups(localSettings.artFinishers) && NoDups(localSettings.deliveryPeople)
    }

    /** The local copy starts as the settings handed in, with both pending names empty. */
    constructor (settings: Settings)
      ensures localSettings == settings && newArtFinisher == "" && newDeliveryPerson == ""
      ensures NoDups(settings.artFinishers) && NoDups(settings.deliveryPeople) ==> Valid()
    {
      localSettings := settings;
      newArtFinisher := "";
      newDeliveryPerson := "";
    }

    /** The finisher name input: `setNewArtFinisher`. */
    method SetNewArtFinisher(name: string)
      modifies this
      ensures newArtFinisher == name
      ensures localSettings == old(localSettings) && newDeliveryPerson == old(newDeliveryPerson)
    {
      newArtFinisher := name;
    }

    /** The delivery person name input: `setNewDeliveryPerson`. */
    method SetNewDeliveryPerson(name: string)
      modifies this
      ensures newDeliveryPerson == name
      ensures localSettings == old(localSettings) && newArtFinisher == old(newArtFinisher)
    {
      newDeliveryPerson := name;
    }

    /** `handleAddArtFinisher`: the pending finisher is appended when it is
        non-empty and absent, and only then is the pending field cleared. */
    method HandleAddArtFinisher()
      modifies this
      ensures localSettings.artFinishers == AddName(old(localSettings.artFinishers), old(newArtFinisher))
      ensures localSettings.deliveryPeople == old(localSettings.deliveryPeople)
      ensures newArtFinisher == if CanAdd(old(localSettings.artFinishers), old(newArtFinisher)) then "" else old(newArtFinisher)
      ensures newDeliveryPerson == old(newDeliveryPerson)
      ensures old(Valid()) ==> Valid()
    {
      if newArtFinisher != "" && newArtFinisher !in localSettings.artFinishers {
        if Valid() {
          AddNameNoDups(localSettings.artFinishers, newArtFinisher);
        }
        localSettings := localSettings.(artFinishers := localSettings.artFinishers + [newArtFinisher]);
        newArtFinisher := "";
      }
    }

    /** `handleAddDeliveryPerson`: as for finishers, on the other roster. */
    method HandleAddDeliveryPerson()
      modifies this
      ensures localSettings.deliveryPeople == AddName(old(localSettings.deliveryPeople), old(newDeliveryPerson))
      ensures localSettings.artFinishers == old(localSettings.artFinishers)
      ensures newDeliveryPerson == if CanAdd(old(localSettings.deliveryPeople), old(newDeliveryPerson)) then "" else old(newDeliveryPerson)
      ensures newArtFinisher == old(newArtFinisher)
      ensures old(Valid()) ==> Valid()
    {
      if newDeliveryPerson != "" && newDeliveryPerson !in localSettings.deliveryPeople {
        if Valid() {
          AddNameNoDups(localSettings.deliveryPeople, newDeliveryPerson);
        }
        localSettings := localSettings.(deliveryPeople := localSettings.deliveryPeople + [newDeliveryPerson]);
        newDeliveryPerson := "";
      }
    }

    /** `handleRemoveArtFinisher`: every occurrence of `name` leaves the finisher roster. */
    method HandleRemoveArtFinisher(name: string)
      modifies this
      ensures localSettings.artFinishers == RemoveName(old(localSettings.artFinishers), name)
      ensures localSettings.deliveryPeople == old(localSettings.deliveryPeople)
      ensures newArtFinisher == old(newArtFinisher) && newDeliveryPerson == old(newDeliveryPerson)
      ensures old(Valid()) ==> Valid()
    {
      if Valid() {
        RemoveNameNoDups(localSettings.artFinishers, name);
      }
      localSettings := localSettings.(artFinishers := RemoveName(localSettings.artFinishers, name));
    }

    /** `handleRemoveDeliveryPerson`: every occurrence of `name` leaves the delivery roster. */
    method HandleRemoveDeliveryPerson(name: string)
      modifies this
      ensures localSettings.deliveryPeople == RemoveName(old(localSettings.deliveryPeople), name)
      ensures localSettings.artFinishers == old(localSettings.artFinishers)
      ensures newArtFinisher == old(newArtFinisher) && newDeliveryPerson == old(newDeliveryPerson)
      ensures old(Valid()) ==> Valid()
    {
      if Valid() {
        RemoveNameNoDups(localSettings.deliveryPeople, name);
      }
      localSettings := localSettings.(deliveryPeople := RemoveName(localSettings.deliveryPeople, name));
    }

    /** `handleSave`: the local settings, unchanged, are what `onSave`
        receives; closing the dialog is the caller's `onClose`. */
    method HandleSave() returns (saved: Settings)
      ensures saved == localSettings
    {
      saved := localSettings;
    }
  }
}
