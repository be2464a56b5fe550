/** The two list utilities of the registry: the case-insensitive search by NR
    number or client name, and the "replace if the id matches" status update. */
module ScreenUtils {
  import opened Types
  import opened Lists
  import opened Text

  /** `Partial<Screen>`: every field is either absent (`None`) or carries the
      value that the spread `...updateData` writes over the screen's own. */
  datatype ScreenPatch = ScreenPatch(
    id: Option<string>,
    nrNumber: Option<string>,
    clientName: Option<string>,
    quantity: Option<int>,
    artFinisher: Option<string>,
    deadline: Option<Deadline>,
    recordingDate: Option<string>,
    recordedBy: Option<string>,
    status: Option<ScreenStatus>,
    delivery: Option<Delivery>,
    createdAt: Option<string>)

  /** The patch with no field present. */
  const EmptyPatch := ScreenPatch(None, None, None, None, None, None, None, None, None, None, None)

  /** The value a spread leaves in a required field. */
  function Pick<T>(patch: Option<T>, current: T): T {
    if patch.Some? then patch.value else current
  }

  /** The value a spread leaves in an optional field. */
  function PickOptional<T>(patch: Option<T>, current: Option<T>): Option<T> {
    if patch.Some? then patch else current
  }

  /** `{ ...screen, ...updateData, status }`: the patch's fields over the
      screen's, then `status` over both. */
  function Merge(s: Screen, patch: ScreenPatch, status: ScreenStatus): (m: Screen)
    ensures m.status == status
    ensures patch == EmptyPatch ==> m == s.(status := status)
    ensures patch.id.None? ==> m.id == s.id
  {
    Screen(
      Pick(patch.id, s.id),
      Pick(patch.nrNumber, s.nrNumber),
      Pick(patch.clientName, s.clientName),
      Pick(patch.quantity, s.quantity),
      Pick(patch.artFinisher, s.artFinisher),
      Pick(patch.deadline, s.deadline),
      PickOptional(patch.recordingDate, s.recordingDate),
      PickOptional(patch.recordedBy, s.recordedBy),
      status,
      PickOptional(patch.delivery, s.delivery),
      Pick(patch.createdAt, s.createdAt))
  }

  /** A merged screen takes every field the patch carries, keeps every field
      it does not, and ends with the given status even when the patch carries
      a status of its own. */
  lemma MergeFields(s: Screen, patch: ScreenPatch, status: ScreenStatus)
    ensures var m := Merge(s, patch, status);
      && m.status == status
      && (patch.id.Some? ==> m.id == patch.id.value) && (patch.id.None? ==> m.id == s.id)
      && (patch.nrNumber.Some? ==> m.nrNumber == patch.nrNumber.value) && (patch.nrNumber.None? ==> m.nrNumber == s.nrNumber)
      && (patch.clientName.Some? ==> m.clientName == patch.clientName.value) && (patch.clientName.None? ==> m.clientName == s.clientName)
      && (patch.quantity.Some? ==> m.quantity == patch.quantity.value) && (patch.quantity.None? ==> m.quantity == s.quantity)
      && (patch.artFinisher.Some? ==> m.artFinisher == patch.artFinisher.value) && (patch.artFinisher.None? ==> m.artFinisher == s.artFinisher)
      && (patch.deadline.Some? ==> m.deadline == patch.deadline.value) && (patch.deadline.None? ==> m.deadline == s.deadline)
      && (patch.recordingDate.Some? ==> m.recordingDate == patch.recordingDate) && (patch.recordingDate.None? ==> m.recordingDate == s.recordingDate)
      && (patch.recordedBy.Some? ==> m.recordedBy == patch.recordedBy) && (patch.recordedBy.None? ==> m.recordedBy == s.recordedBy)
      && (patch.delivery.Some? ==> m.delivery == patch.delivery) && (patch.delivery.None? ==> m.delivery == s.delivery)
      && (patch.createdAt.Some? ==> m.createdAt == patch.createdAt.value) && (patch.createdAt.None? ==> m.createdAt == s.createdAt)
  {
  }

  /** Merging the same patch and status a second time changes nothing. */
  lemma MergeIdempotent(s: Screen, patch: ScreenPatch, status: ScreenStatus)
    ensures Merge(Merge(s, patch, status), patch, status) == Merge(s, patch, status)
  {
  }

  /** `updateScreenStatus`: every screen whose id is `screenId` is merged with
      `updateData` and given `status`; every other screen is kept. The prior
      status is not checked. */
  function UpdateScreenStatus(screens: seq<Screen>, screenId: string, status: ScreenStatus, updateData: ScreenPatch): (r: seq<Screen>)
    ensures |r| == |screens|
    ensures forall i :: 0 <= i < |screens| && screens[i].id != screenId ==> r[i] == screens[i]
    ensures forall i :: 0 <= i < |screens| && screens[i].id == screenId ==> r[i] == Merge(screens[i], updateData, status)
  {
    seq(|screens|, i requires 0 <= i < |screens| =>
      if screens[i].id == screenId then Merge(screens[i], updateData, status) else screens[i])
  }

  /** With no screen carrying `screenId`, the update returns its input. */
  lemma UpdateWithoutMatch(screens: seq<Screen>, screenId: string, status: ScreenStatus, updateData: ScreenPatch)
    requires forall i :: 0 <= i < |screens| ==> screens[i].id != screenId
    ensures UpdateScreenStatus(screens, screenId, status, updateData) == screens
  {
  }

  /** Applying the same update twice is applying it once, even when the patch
      changes the id of the screens it matches. */
  lemma UpdateIdempotent(screens: seq<Screen>, screenId: string, status: ScreenStatus, updateData: ScreenPatch)
    ensures var once := UpdateScreenStatus(screens, screenId, status, updateData);
      UpdateScreenStatus(once, screenId, status, updateData) == once
  {
    var once := UpdateScreenStatus(screens, screenId, status, updateData);
    var twice := UpdateScreenStatus(once, screenId, status, updateData);
    forall i | 0 <= i < |screens| ensures twice[i] == once[i] {
      if screens[i].id == screenId {
        MergeIdempotent(screens[i], updateData, status);
      }
    }
  }

  /** The search condition: the lowercased NR number or client name includes
      the lowercased term. */
  predicate Matches(s: Screen, searchTerm: string) {
    Includes(Lower(s.nrNumber), Lower(searchTerm)) || Includes(Lower(s.clientName), Lower(searchTerm))
  }

  /** The search condition as the callback handed to `filter`. */
  function MatchesTerm(searchTerm: string): Screen -> bool {
    (s: Screen) => Matches(s, searchTerm)
  }

  /** `findScreenByNrOrClient`: exactly the screens meeting the search
      condition, in their original order. */
  function FindScreenByNrOrClient(screens: seq<Screen>, searchTerm: string): (r: seq<Screen>)
    ensures IsSubsequence(r, screens)
    ensures forall i :: 0 <= i < |r| ==> r[i] in screens && Matches(r[i], searchTerm)
    ensures forall i :: 0 <= i < |screens| && Matches(screens[i], searchTerm) ==> screens[i] in r
    ensures forall x :: multiset(r)[x] == if Matches(x, searchTerm) then multiset(screens)[x] else 0
  {
    FilterCounts(screens, MatchesTerm(searchTerm));
    Filter(screens, MatchesTerm(searchTerm))
  }

  /** An empty term matches every screen, so the search returns its input. */
  lemma FindWithEmptyTerm(screens: seq<Screen>)
    ensures FindScreenByNrOrClient(screens, "") == screens
  {
    assert Lower("") == "";
    forall s | s in screens ensures MatchesTerm("")(s) {
      IncludesEmpty(Lower(s.nrNumber));
    }
    FilterKeepsAll(screens, MatchesTerm(""));
  }

  /** The search ignores the case of the term. */
  lemma FindIgnoresTermCase(screens: seq<Screen>, searchTerm: string)
    ensures FindScreenByNrOrClient(screens, Lower(searchTerm)) == FindScreenByNrOrClient(screens, searchTerm)
  {
    LowerIdempotent(searchTerm);
    FilterCongruent(screens, MatchesTerm(Lower(searchTerm)), MatchesTerm(searchTerm));
  }

  /** Searching a search result again with the same term changes nothing. */
  lemma FindIdempotent(screens: seq<Screen>, searchTerm: string)
    ensures FindScreenByNrOrClient(FindScreenByNrOrClient(screens, searchTerm), searchTerm)
         == FindScreenByNrOrClient(screens, searchTerm)
  {
    FilterIdempotent(screens, MatchesTerm(searchTerm));
  }
}
