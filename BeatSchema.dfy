/**
 * The `Beat` document schema: which fields a beat has, which of them are
 * required, and the timestamps every stored beat carries. `Create` is the
 * schema-checked insert that the collection route calls.
 */
module BeatSchema {
  import opened Wrappers
  import opened Js

  /** The field values handed to `Beat.create`, before validation. */
  datatype BeatInput = BeatInput(
    title: Option<string>,
    producerName: Option<string>,
    bpm: Option<int>,
    key: Option<string>,
    price: Option<int>,
    moodTags: seq<string>,
    audioUrl: Option<string>)

  /** A stored beat: required fields are present, `price` is optional, timestamps are set. */
  datatype BeatDoc = BeatDoc(
    id: nat,
    title: string,
    producerName: string,
    bpm: int,
    key: string,
    price: Option<int>,
    moodTags: seq<string>,
    audioUrl: string,
    createdAt: int,
    updatedAt: int)

  /** The schema's required paths, in declaration order. */
  const RequiredPaths: seq<string> := ["title", "producerName", "bpm", "key", "audioUrl"]

  /** A required string path is satisfied by a present, non-empty string (Mongoose rejects ""). */
  predicate Present(v: Option<string>) {
    v.Some? && v.value != ""
  }

  /** The input satisfies every `required: true` path of the schema. */
  predicate Valid(input: BeatInput) {
    && Present(input.title)
    && Present(input.producerName)
    && input.bpm.Some?
    && Present(input.key)
    && Present(input.audioUrl)
  }

  /** The required paths the input leaves unset, in schema order. */
  function MissingPaths(input: BeatInput): (r: seq<string>)
    ensures r == [] <==> Valid(input)
    ensures forall p :: p in r ==> p in RequiredPaths
    // each required path is named exactly when it is unset
    ensures ("title" in r <==> !Present(input.title)) && ("producerName" in r <==> !Present(input.producerName))
    ensures ("bpm" in r <==> input.bpm.None?) && ("key" in r <==> !Present(input.key))
    ensures "audioUrl" in r <==> !Present(input.audioUrl)
    ensures |r| <= |RequiredPaths|
  {
    (if Present(input.title) then [] else ["title"])
    + (if Present(input.producerName) then [] else ["producerName"])
    + (if input.bpm.Some? then [] else ["bpm"])
    + (if Present(input.key) then [] else ["key"])
    + (if Present(input.audioUrl) then [] else ["audioUrl"])
  }

  /** Mongoose's message for one missing required path. */
  function RequiredMessage(path: string): string {
    path + ": Path `" + path + "` is required."
  }

  /** The message of the `ValidationError` raised for the given missing paths. */
  function ValidationMessage(missing: seq<string>): string {
    "Beat validation failed: " + Join(seq(|missing|, i requires 0 <= i < |missing| => RequiredMessage(missing[i])), ", ")
  }

  /** The invariant of every stored beat: required text is non-empty, timestamps are ordered. */
  predicate WellFormed(d: BeatDoc) {
    && d.title != ""
    && d.producerName != ""
    && d.key != ""
    && d.audioUrl != ""
    && d.createdAt <= d.updatedAt
  }

  /**
   * `Beat.create(input)` with identifier `id` at time `now`: a validation error
   * naming the missing paths, or the stored document with both timestamps `now`.
   */
  function Create(input: BeatInput, id: nat, now: int): (r: Result<BeatDoc, Thrown>)
    ensures r.Success? <==> Valid(input)
    ensures r.Failure? ==> r.error == ErrorValue(ValidationMessage(MissingPaths(input)))
    ensures r.Success? ==> WellFormed(r.value)
    ensures r.Success? ==> && r.value.id == id
                           && r.value.createdAt == now && r.value.updatedAt == now
                           && Some(r.value.title) == input.title
                           && Some(r.value.producerName) == input.producerName
                           && Some(r.value.bpm) == input.bpm
                           && Some(r.value.key) == input.key
                           && r.value.price == input.price
                           && r.value.moodTags == input.moodTags
                           && Some(r.value.audioUrl) == input.audioUrl
  {
    if !Valid(input) then Failure(ErrorValue(ValidationMessage(MissingPaths(input))))
    else Success(BeatDoc(id, input.title.value, input.producerName.value, input.bpm.value,
                         input.key.value, input.price, input.moodTags, input.audioUrl.value, now, now))
  }
}
