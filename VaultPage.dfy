/**
 * The vault overview page's state: the list of beats, the row being edited and
 * its form, and the flags shown while saving, deleting and loading. Requests to
 * the server are outputs of the handlers and the server's answers are inputs.
 */
module VaultPage {
  import opened Wrappers
  import opened Js
  import BeatsRoute

  /** A beat's `createdAt` as the page sees it: missing or "", an unparsable date, or a time in milliseconds. */
  datatype CreatedAt = NoDate | InvalidDate | At(ms: int)

  /** A beat as the page receives it; `None` stands for `undefined` (and `null` for `price`). */
  datatype ClientBeat = ClientBeat(
    id: string,
    title: string,
    producerName: string,
    bpm: Option<int>,
    key: Option<string>,
    moodTags: Option<seq<string>>,
    price: Option<int>,
    audioUrl: string,
    createdAt: CreatedAt)

  /** The edit form: every input holds text. */
  datatype FormState = FormState(
    title: string,
    producerName: string,
    bpm: string,
    key: string,
    moodTags: string,
    price: string,
    audioUrl: string)

  const EmptyForm: FormState := FormState("", "", "", "", "", "", "")

  /** The JSON body of the update request; `None` is sent as `null`. */
  datatype UpdateBody = UpdateBody(
    title: string,
    producerName: string,
    bpm: Option<int>,
    key: string,
    price: Option<int>,
    moodTags: string,
    audioUrl: string)

  // ---------------------------------------------------------------------------
  // Conversions between a beat, the form and the request body
  // ---------------------------------------------------------------------------

  /** The tags as one `", "`-separated string; missing tags give "". */
  function TagsText(tags: Option<seq<string>>): string {
    if tags.Some? then Join(tags.value, ", ") else ""
  }

  /** The form `startEdit` fills in from a beat. */
  function FormOf(b: ClientBeat): FormState {
    FormState(
      b.title,
      b.producerName,
      if b.bpm.Some? then IntToString(b.bpm.value) else "",
      b.key.GetOr(""),
      TagsText(b.moodTags),
      if b.price.None? then "" else IntToString(b.price.value),
      b.audioUrl)
  }

  /**
   * The body `handleUpdate` sends: an empty `bpm` or `price` is `null`, and so
   * is a non-numeric one, because `NaN` serialises as `null`.
   */
  function BodyOf(f: FormState): UpdateBody {
    UpdateBody(
      f.title,
      f.producerName,
      if f.bpm != "" then ParseNum(f.bpm) else None,
      f.key,
      if f.price == "" then None else ParseNum(f.price),
      f.moodTags,
      f.audioUrl)
  }

  /**
   * Editing a beat and saving it unchanged sends back its own fields: numbers
   * survive printing and parsing, a missing `bpm` or `price` is `null`, a
   * missing `key` is "", and the tag string parses back to the tags.
   */
  lemma EditRoundTrip(b: ClientBeat)
    ensures BodyOf(FormOf(b)) ==
              UpdateBody(b.title, b.producerName, b.bpm, b.key.GetOr(""), b.price, TagsText(b.moodTags), b.audioUrl)
    ensures b.moodTags.Some? && BeatsRoute.CleanTags(b.moodTags.value) ==>
              BeatsRoute.MoodTags(Some(BodyOf(FormOf(b)).moodTags)) == b.moodTags.value
  {
    if b.bpm.Some? {
      ParseNumOfIntToString(b.bpm.value);
    }
    if b.price.Some? {
      ParseNumOfIntToString(b.price.value);
    }
    if b.moodTags.Some? && BeatsRoute.CleanTags(b.moodTags.value) {
      BeatsRoute.MoodTagsOfJoin(b.moodTags.value);
    }
  }

  /** `moodString`: the tags joined with `", "`, or "No tags" when there are none. */
  function MoodString(b: ClientBeat): string {
    if b.moodTags.Some? && |b.moodTags.value| > 0 then Join(b.moodTags.value, ", ") else "No tags"
  }

  /** The displayed tag string reads back as the tags; a beat without tags shows "No tags". */
  lemma MoodStringReadsBack(b: ClientBeat)
    ensures b.moodTags.None? || b.moodTags == Some([]) ==> MoodString(b) == "No tags"
    ensures b.moodTags.Some? && b.moodTags.value != [] && BeatsRoute.CleanTags(b.moodTags.value) ==>
              BeatsRoute.MoodTags(Some(MoodString(b))) == b.moodTags.value
  {
    if b.moodTags.Some? && b.moodTags.value != [] && BeatsRoute.CleanTags(b.moodTags.value) {
      BeatsRoute.MoodTagsOfJoin(b.moodTags.value);
    }
  }

  // ---------------------------------------------------------------------------
  // List transforms
  // ---------------------------------------------------------------------------

  /** `beats.map((b) => b._id === updated._id ? updated : b)`. */
  function ReplaceById(beats: seq<ClientBeat>, updated: ClientBeat): (r: seq<ClientBeat>)
    ensures |r| == |beats|
    ensures forall i :: 0 <= i < |beats| && beats[i].id == updated.id ==> r[i] == updated
    ensures forall i :: 0 <= i < |beats| && beats[i].id != updated.id ==> r[i] == beats[i]
  {
    if beats == [] then []
    else [if beats[0].id == updated.id then updated else beats[0]] + ReplaceById(beats[1..], updated)
  }

  /** `beats.filter((b) => b._id !== id)`. */
  function RemoveById(beats: seq<ClientBeat>, id: string): (r: seq<ClientBeat>)
    ensures forall b :: b in r <==> b in beats && b.id != id
    ensures |r| <= |beats|
  {
    if beats == [] then []
    else (if beats[0].id == id then [] else [beats[0]]) + RemoveById(beats[1..], id)
  }

  /** Removal keeps the relative order: it works piece by piece on a concatenation. */
  lemma {:induction false} RemoveByIdAppend(a: seq<ClientBeat>, b: seq<ClientBeat>, id: string)
    ensures RemoveById(a + b, id) == RemoveById(a, id) + RemoveById(b, id)
  {
    if a == [] {
      assert a + b == b;
    } else {
      assert (a + b)[1..] == a[1..] + b;
      RemoveByIdAppend(a[1..], b, id);
    }
  }

  /** Removing an identifier no beat has leaves the list as it is. */
  lemma {:induction false} RemoveByIdAbsent(beats: seq<ClientBeat>, id: string)
    requires forall i :: 0 <= i < |beats| ==> beats[i].id != id
    ensures RemoveById(beats, id) == beats
  {
    if beats != [] {
      RemoveByIdAbsent(beats[1..], id);
    }
  }

  // ---------------------------------------------------------------------------
  // The latest upload time
  // ---------------------------------------------------------------------------

  /** One step of the `reduce`: a missing date counts as 0, an unparsable one (`NaN`) never wins. */
  function LatestStep(acc: int, b: ClientBeat): int {
    match b.createdAt
    case NoDate => if 0 > acc then 0 else acc
    case InvalidDate => acc
    case At(ms) => if ms > acc then ms else acc
  }

  function LatestFold(beats: seq<ClientBeat>, acc: int): int {
    if beats == [] then acc else LatestFold(beats[1..], LatestStep(acc, beats[0]))
  }

  /** The fold from a non-negative start is the start or a beat's time, and no beat's time exceeds it. */
  lemma {:induction false} LatestFoldBounds(beats: seq<ClientBeat>, acc: int)
    requires acc >= 0
    ensures LatestFold(beats, acc) >= acc
    ensures forall i :: 0 <= i < |beats| && beats[i].createdAt.At? ==> beats[i].createdAt.ms <= LatestFold(beats, acc)
    ensures LatestFold(beats, acc) == acc
            || exists i :: 0 <= i < |beats| && beats[i].createdAt == At(LatestFold(beats, acc))
  {
    if beats != [] {
      var next := LatestStep(acc, beats[0]);
      LatestFoldBounds(beats[1..], next);
      var m := LatestFold(beats, acc);
      assert m == LatestFold(beats[1..], next);
      forall i | 0 <= i < |beats| && beats[i].createdAt.At? ensures beats[i].createdAt.ms <= m {
        if i > 0 {
          assert beats[i] == beats[1..][i - 1];
        }
      }
      if m != acc {
        if m == next {
          assert beats[0].createdAt == At(m);
        } else {
          var j :| 0 <= j < |beats[1..]| && beats[1..][j].createdAt == At(m);
          assert beats[j + 1].createdAt == At(m);
        }
      }
    }
  }

  /**
   * `latestBeatDate` as the instant it formats: `None` (shown as "") for an empty
   * list or when no beat has a positive time, otherwise the greatest `createdAt`.
   */
  function LatestBeatDate(beats: seq<ClientBeat>): (r: Option<int>)
    ensures beats == [] ==> r.None?
    ensures r.Some? ==> r.value > 0 && exists i :: 0 <= i < |beats| && beats[i].createdAt == At(r.value)
    ensures r.Some? ==> forall i :: 0 <= i < |beats| && beats[i].createdAt.At? ==> beats[i].createdAt.ms <= r.value
    ensures r.None? <==> forall i :: 0 <= i < |beats| && beats[i].createdAt.At? ==> beats[i].createdAt.ms <= 0
  {
    if |beats| == 0 then None
    else
      var latest := LatestFold(beats, 0);
      LatestFoldBounds(beats, 0);
      if latest == 0 then None else Some(latest)
  }

  // ---------------------------------------------------------------------------
  // The component state
  // ---------------------------------------------------------------------------

  /** How `fetch("/api/beats")` ends: with the list, with a non-OK status, or by throwing. */
  datatype FetchResult = Fetched(data: seq<ClientBeat>) | NotOk | FetchThrew(message: Option<string>)

  /** How the update request ends: the updated beat, or an error carrying a message. */
  datatype UpdateResult = Updated(beat: ClientBeat) | UpdateFailed(message: Option<string>)

  /** How the delete request ends. */
  datatype DeleteResult = Deleted | DeleteFailed(message: Option<string>)

  /** `err?.message || fallback`. */
  function MessageOr(message: Option<string>, fallback: string): (r: string)
    ensures r != "" || fallback == ""
  {
    if message.Some? && message.value != "" then message.value else fallback
  }

  class Vault {
    var beats: seq<ClientBeat>
    var loading: bool
    var error: Option<string>
    var editingId: Option<string>
    var form: FormState
    var saving: bool
    var deletingId: Option<string>

    /** Between handlers nothing is being saved or deleted, and with no row in edit the form is empty. */
    ghost predicate Valid()
      reads this
    {
      && (editingId.None? ==> form == EmptyForm)
      && !saving
      && deletingId.None?
    }

    /** The state on first render. */
    constructor ()
      ensures Valid()
      ensures beats == [] && loading && error.None? && editingId.None? && form == EmptyForm
    {
      beats := [];
      loading := true;
      error := None;
      editingId := None;
      form := EmptyForm;
      saving := false;
      deletingId := None;
    }

    /** The synchronous start of `fetchBeats`. */
    method BeginFetch()
      modifies this`loading, this`error
      ensures loading && error.None?
    {
      loading := true;
      error := None;
    }

    /** The end of `fetchBeats`: the list is replaced, or the error is shown; loading stops. */
    method FinishFetch(result: FetchResult)
      modifies this`beats, this`loading, this`error
      ensures !loading
      ensures result.Fetched? ==> beats == result.data && error == old(error)
      ensures result.NotOk? ==> beats == old(beats) && error == Some("Failed to fetch beats")
      ensures result.FetchThrew? ==> beats == old(beats) && error == Some(MessageOr(result.message, "Failed to load beats"))
    {
      match result {
        case Fetched(data) =>
          beats := data;
        case NotOk =>
          error := Some("Failed to fetch beats");
        case FetchThrew(message) =>
          error := Some(MessageOr(message, "Failed to load beats"));
      }
      loading := false;
    }

    /** `fetchBeats()` run to completion. */
    method FetchBeats(result: FetchResult)
      modifies this`beats, this`loading, this`error
      ensures !loading
      ensures result.Fetched? ==> beats == result.data && error.None?
      ensures result.NotOk? ==> beats == old(beats) && error == Some("Failed to fetch beats")
      ensures result.FetchThrew? ==> beats == old(beats) && error == Some(MessageOr(result.message, "Failed to load beats"))
    {
      BeginFetch();
      FinishFetch(result);
    }

    /** `startEdit(beat)`. */
    method StartEdit(b: ClientBeat)
      requires Valid()
      modifies this`editingId, this`form
      ensures Valid()
      ensures editingId == Some(b.id) && form == FormOf(b)
    {
      editingId := Some(b.id);
      form := FormOf(b);
    }

    /** `cancelEdit()`. */
    method CancelEdit()
      modifies this`editingId, this`form
      ensures editingId.None? && form == EmptyForm
    {
      editingId := None;
      form := EmptyForm;
    }

    /**
     * `handleUpdate()`: returns the identifier and body it sends, or `None` when
     * no row is being edited (`editingId` is null or "").
     */
    method HandleUpdate(result: UpdateResult) returns (request: Option<(string, UpdateBody)>)
      requires Valid()
      modifies this
      ensures Valid()
      ensures old(editingId).None? || old(editingId) == Some("") ==>
                request.None? && beats == old(beats) && editingId == old(editingId) && form == old(form)
                && error == old(error)
      ensures old(editingId).Some? && old(editingId) != Some("") ==>
                request == Some((old(editingId).value, BodyOf(old(form))))
      ensures old(editingId).Some? && old(editingId) != Some("") && result.Updated? ==>
                beats == ReplaceById(old(beats), result.beat) && editingId.None? && form == EmptyForm
                && error.None?
      ensures old(editingId).Some? && old(editingId) != Some("") && result.UpdateFailed? ==>
                beats == old(beats) && editingId == old(editingId) && form == old(form)
                && error == Some(MessageOr(result.message, "Failed to update beat"))
      ensures loading == old(loading)
    {
      if editingId.None? || editingId.value == "" {
        return None;
      }
      saving := true;
      error := None;
      request := Some((editingId.value, BodyOf(form)));
      match result {
        case Updated(updated) =>
          beats := ReplaceById(beats, updated);
          CancelEdit();
        case UpdateFailed(message) =>
          error := Some(MessageOr(message, "Failed to update beat"));
      }
      saving := false;
    }

    /** The success branch of `handleDelete`: drop the row, leave its edit, start the refresh. */
    method ApplyDelete(targetId: string)
      requires editingId.None? ==> form == EmptyForm
      modifies this`beats, this`editingId, this`form, this`loading, this`error
      ensures editingId.None? ==> form == EmptyForm
      ensures beats == RemoveById(old(beats), targetId)
      ensures old(editingId) == Some(targetId) ==> editingId.None? && form == EmptyForm
      ensures old(editingId) != Some(targetId) ==> editingId == old(editingId) && form == old(form)
      ensures loading && error.None?
    {
      beats := RemoveById(beats, targetId);
      if editingId == Some(targetId) {
        CancelEdit();
      }
      BeginFetch();
    }

    /**
     * `handleDelete(id)` where `confirmed` is the answer to the confirmation
     * prompt: returns the trimmed identifier it asks the server to delete.
     * After a successful delete the refresh has started (`loading`).
     */
    method HandleDelete(id: string, confirmed: bool, result: DeleteResult) returns (request: Option<string>)
      requires Valid()
      modifies this
      ensures Valid()
      ensures !confirmed ==>
                request.None? && beats == old(beats) && editingId == old(editingId) && form == old(form)
                && error == old(error) && loading == old(loading)
      ensures confirmed ==> request == Some(Trim(id))
      ensures confirmed && result.Deleted? ==>
                && beats == RemoveById(old(beats), Trim(id))
                && (old(editingId) == Some(Trim(id)) ==> editingId.None? && form == EmptyForm)
                && (old(editingId) != Some(Trim(id)) ==> editingId == old(editingId) && form == old(form))
                && loading && error.None?
      ensures confirmed && result.DeleteFailed? ==>
                beats == old(beats) && editingId == old(editingId) && form == old(form)
                && error == Some(MessageOr(result.message, "Failed to delete beat")) && loading == old(loading)
    {
      if !confirmed {
        return None;
      }
      var targetId := Trim(id);
      deletingId := Some(targetId);
      error := None;
      request := Some(targetId);
      match result {
        case Deleted =>
          ApplyDelete(targetId);
        case DeleteFailed(message) =>
          error := Some(MessageOr(message, "Failed to delete beat"));
      }
      deletingId := None;
    }
  }
}
