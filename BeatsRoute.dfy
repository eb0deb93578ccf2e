/**
 * The `/api/beats` collection route: `GET` lists the stored beats newest first
 * and degrades to an empty list on any failure; `POST` turns a multipart upload
 * into a beat, writing the audio file and creating the record.
 *
 * The store is a sequence of documents and the upload directory a set of file
 * names, both held by `Backend`. The clock, the outcome of the connect, of the
 * file write and of the database write are parameters.
 */
module BeatsRoute {
  import opened Wrappers
  import opened Js
  import opened BeatSchema
  import Db

  // ---------------------------------------------------------------------------
  // The multipart form and its normalisation
  // ---------------------------------------------------------------------------

  /** A multipart entry: a text field or an uploaded file with its original name. */
  datatype FormValue = Text(text: string) | File(name: string)

  type FormData = map<string, FormValue>

  /** `formData.get(name) as string`: the text of the entry, `None` (`null`) when it is missing. */
  function TextField(form: FormData, name: string): Option<string> {
    if name in form && form[name].Text? then Some(form[name].text) else None
  }

  /** Trims every segment (`.map((t) => t.trim())`). */
  function TrimAll(parts: seq<string>): (r: seq<string>)
    ensures |r| == |parts|
    ensures forall i :: 0 <= i < |parts| ==> r[i] == Trim(parts[i])
  {
    seq(|parts|, i requires 0 <= i < |parts| => Trim(parts[i]))
  }

  /** Keeps the non-empty strings in order (`.filter(Boolean)`). */
  function DropEmpty(parts: seq<string>): (r: seq<string>)
    ensures forall t :: t in r <==> t in parts && t != ""
    ensures |r| <= |parts|
  {
    if parts == [] then []
    else (if parts[0] == "" then [] else [parts[0]]) + DropEmpty(parts[1..])
  }

  /** Filtering a concatenation filters each part and keeps them in order. */
  lemma {:induction false} DropEmptyAppend(a: seq<string>, b: seq<string>)
    ensures DropEmpty(a + b) == DropEmpty(a) + DropEmpty(b)
  {
    if a == [] {
      assert a + b == b;
    } else {
      assert (a + b)[1..] == a[1..] + b;
      DropEmptyAppend(a[1..], b);
    }
  }

  /** The comma-separated tag list as split, trimmed and filtered. */
  function ParseTags(raw: string): (tags: seq<string>)
    ensures forall i :: 0 <= i < |tags| ==> tags[i] != "" && Trim(tags[i]) == tags[i]
  {
    var tags := DropEmpty(TrimAll(Split(raw, ',')));
    forall i | 0 <= i < |tags| ensures tags[i] != "" && Trim(tags[i]) == tags[i] {
      var parts := Split(raw, ',');
      assert tags[i] in TrimAll(parts);
      var k :| 0 <= k < |parts| && TrimAll(parts)[k] == tags[i];
      TrimSpec(parts[k]);
      TrimOfTrimmed(tags[i]);
    }
    tags
  }

  /**
   * The `moodTags` form entry as tags: a missing or empty entry reads as "",
   * every tag is non-empty and trimmed.
   */
  function MoodTags(field: Option<string>): (tags: seq<string>)
    ensures forall i :: 0 <= i < |tags| ==> tags[i] != "" && Trim(tags[i]) == tags[i]
    ensures field.None? || field == Some("") ==> tags == []
  {
    var moodRaw := if field.None? then "" else field.value;
    assert moodRaw == "" ==> Split(moodRaw, ',') == [""];
    ParseTags(moodRaw)
  }

  /** Segment order is kept: the tag of the first segment comes before the tags of the rest. */
  lemma ParseTagsSegment(a: string, b: string)
    requires ',' !in a
    ensures ParseTags(a + "," + b) == DropEmpty([Trim(a)]) + ParseTags(b)
  {
    var parts := Split(b, ',');
    assert a + "," + b == a + [','] + b;
    SplitAtSeparator(a, ',', b);
    TrimAllAppend([a], parts);
    DropEmptyAppend([Trim(a)], TrimAll(parts));
  }

  lemma TrimAllAppend(x: seq<string>, y: seq<string>)
    ensures TrimAll(x + y) == TrimAll(x) + TrimAll(y)
  {
  }

  /**
   * An empty segment is dropped and whitespace around the others is trimmed,
   * as in "sad, drill, , late night" giving ["sad", "drill", "late night"].
   */
  lemma MoodTagsDropsEmptySegment(x: string, y: string, z: string)
    requires CleanTags([x, y, z])
    ensures MoodTags(Some(x + ", " + y + ", , " + z)) == [x, y, z]
  {
    var tags := [x, y, z];
    assert tags[0] == x && tags[1] == y && tags[2] == z;
    assert x != "" && IsTrimmed(x) && ',' !in x;
    assert y != "" && IsTrimmed(y) && ',' !in y;
    assert z != "" && IsTrimmed(z) && ',' !in z;
    var tail2 := " " + z;
    var tail1 := " " + "," + tail2;
    var tail0 := " " + y + "," + tail1;
    assert x + ", " + y + ", , " + z == x + "," + tail0;
    ParseTagsSegment(x, tail0);
    assert tail0 == (" " + y) + "," + tail1;
    ParseTagsSegment(" " + y, tail1);
    ParseTagsSegment(" ", tail2);
    SplitNoSeparator(tail2, ',');
    assert TrimAll(Split(tail2, ',')) == [Trim(tail2)];
    TrimOfTrimmed(x);
    TrimLeadingSpace(y);
    TrimLeadingSpace(z);
    assert TrimStart(" ") == "";
  }

  /** The tags not yet separated by a comma, each behind a single space. */
  function Spaced(tags: seq<string>): (r: seq<string>)
    ensures |r| == |tags|
  {
    seq(|tags|, i requires 0 <= i < |tags| => " " + tags[i])
  }

  /** Splitting a `", "`-join on commas leaves a single space in front of every piece after the first. */
  lemma {:induction false} SplitJoined(p: string, tags: seq<string>)
    requires |tags| >= 1 && ',' !in p
    requires forall i :: 0 <= i < |tags| ==> ',' !in tags[i]
    ensures Split(p + Join(tags, ", "), ',') == [p + tags[0]] + Spaced(tags[1..])
    decreases |tags|
  {
    if |tags| == 1 {
      SplitNoSeparator(p + tags[0], ',');
    } else {
      var rest := Join(tags[1..], ", ");
      assert p + Join(tags, ", ") == (p + tags[0]) + [','] + (" " + rest);
      SplitAtSeparator(p + tags[0], ',', " " + rest);
      SplitJoined(" ", tags[1..]);
      assert [" " + tags[1]] + Spaced(tags[2..]) == Spaced(tags[1..]);
    }
  }

  /** Tags as a client may send them: non-empty, trimmed, free of commas. */
  predicate CleanTags(tags: seq<string>) {
    forall i :: 0 <= i < |tags| ==> tags[i] != "" && IsTrimmed(tags[i]) && ',' !in tags[i]
  }

  /** Joining clean tags with `", "` and parsing the result gives back exactly those tags. */
  lemma MoodTagsOfJoin(tags: seq<string>)
    requires CleanTags(tags)
    ensures MoodTags(Some(Join(tags, ", "))) == tags
  {
    if tags == [] {
      assert Split("", ',') == [""];
      assert TrimAll([""]) == [""];
    } else {
      var joined := Join(tags, ", ");
      assert "" + joined == joined;
      SplitJoined("", tags);
      TrimAllUnspaces(tags);
      DropEmptyOfNonEmpty(tags);
    }
  }

  /** Trimming the pieces of a split `", "`-join recovers the clean tags. */
  lemma TrimAllUnspaces(tags: seq<string>)
    requires CleanTags(tags) && tags != []
    ensures TrimAll(["" + tags[0]] + Spaced(tags[1..])) == tags
  {
    var parts := ["" + tags[0]] + Spaced(tags[1..]);
    forall i | 0 <= i < |tags| ensures Trim(parts[i]) == tags[i] {
      if i == 0 {
        assert parts[0] == tags[0];
        TrimOfTrimmed(tags[0]);
      } else {
        assert parts[i] == " " + tags[i];
        TrimLeadingSpace(tags[i]);
      }
    }
  }

  /** Filtering strings that are all non-empty keeps them all. */
  lemma {:induction false} DropEmptyOfNonEmpty(parts: seq<string>)
    requires forall i :: 0 <= i < |parts| ==> parts[i] != ""
    ensures DropEmpty(parts) == parts
  {
    if parts != [] {
      DropEmptyOfNonEmpty(parts[1..]);
    }
  }

  /** `Number(field) || undefined`: the parsed number, absent when it is `NaN` or 0. */
  function NumberOrUndefined(field: Option<string>): (r: Option<int>)
    ensures r.Some? <==> NumberOf(field).Some? && NumberOf(field).value != 0
    ensures r.Some? ==> r == NumberOf(field)
    ensures field.None? || Trim(field.value) == "" ==> r.None?
  {
    var n := NumberOf(field);
    if n.Some? && n.value != 0 then n else None
  }

  /** `(field as string) || undefined`: a missing or empty entry is absent; a whitespace-only one is kept. */
  function KeyOrUndefined(field: Option<string>): (r: Option<string>)
    ensures r.None? <==> field.None? || field == Some("")
    ensures r.Some? ==> r == field
  {
    if field.None? || field.value == "" then None else field
  }

  /** The stored file's name: the upload time in milliseconds, a dash, and the original name. */
  function FileName(now: int, original: string): string {
    IntToString(now) + "-" + original
  }

  /** The public URL of a stored upload. */
  function AudioUrl(fileName: string): string {
    "/uploads/" + fileName
  }

  /** The object literal passed to `Beat.create`, once the tags have been split. */
  function InputFields(form: FormData, audioUrl: string): BeatInput {
    BeatInput(
      TextField(form, "title"),
      TextField(form, "producerName"),
      NumberOrUndefined(TextField(form, "bpm")),
      KeyOrUndefined(TextField(form, "key")),
      NumberOrUndefined(TextField(form, "price")),
      MoodTags(TextField(form, "moodTags")),
      Some(audioUrl))
  }

  /** A file entry under `moodTags` is truthy, so it survives `|| ""` and has no `split`. */
  predicate MoodTagsIsFile(form: FormData) {
    "moodTags" in form && form["moodTags"].File?
  }

  /** The TypeError raised by `moodRaw.split(",")` when `moodRaw` is a file. */
  const NotSplittableMessage: string := "moodRaw.split is not a function"

  /**
   * Builds the record handed to `Beat.create`, or raises the TypeError of
   * `moodRaw.split` when `moodTags` holds a file.
   */
  function ToInput(form: FormData, audioUrl: string): (r: Result<BeatInput, Thrown>)
    ensures r.Failure? <==> MoodTagsIsFile(form)
    ensures r.Failure? ==> r.error == ErrorValue(NotSplittableMessage)
    ensures r.Success? ==> r.value.audioUrl == Some(audioUrl)
    ensures r.Success? ==>
              r.value.title == TextField(form, "title") && r.value.producerName == TextField(form, "producerName")
    ensures r.Success? ==> (r.value.bpm.None? <==> NumberOf(TextField(form, "bpm")) in {None, Some(0)})
    ensures r.Success? ==> (r.value.price.None? <==> NumberOf(TextField(form, "price")) in {None, Some(0)})
    ensures r.Success? ==> (r.value.key.None? <==> TextField(form, "key") in {None, Some("")})
    // present fields carry the normalised entries
    ensures r.Success? ==>
              && r.value.bpm == NumberOrUndefined(TextField(form, "bpm"))
              && r.value.price == NumberOrUndefined(TextField(form, "price"))
              && r.value.key == KeyOrUndefined(TextField(form, "key"))
              && r.value.moodTags == MoodTags(TextField(form, "moodTags"))
    ensures r.Success? ==>
              forall i :: 0 <= i < |r.value.moodTags| ==>
                r.value.moodTags[i] != "" && Trim(r.value.moodTags[i]) == r.value.moodTags[i]
  {
    if MoodTagsIsFile(form) then Failure(ErrorValue(NotSplittableMessage)) else Success(InputFields(form, audioUrl))
  }

  /** The outcome of the record creation in `POST`: the TypeError from the tags, or `Beat.create` of the input. */
  function CreateFromForm(form: FormData, audioUrl: string, id: nat, now: int): Result<BeatDoc, Thrown> {
    var input := ToInput(form, audioUrl);
    if input.Failure? then Failure(input.error) else Create(input.value, id, now)
  }

  /** A form whose `bpm` is missing, whitespace-only, non-numeric or zero, or whose `key` is missing or empty, cannot be stored. */
  lemma MissingBpmOrEmptyKeyIsRejected(form: FormData, audioUrl: string, id: nat, now: int)
    requires NumberOf(TextField(form, "bpm")) in {None, Some(0)} || TextField(form, "key") in {None, Some("")}
    ensures CreateFromForm(form, audioUrl, id, now).Failure?
    ensures CreateFromForm(form, audioUrl, id, now).error.message != ""
  {
  }

  // ---------------------------------------------------------------------------
  // Responses
  // ---------------------------------------------------------------------------

  datatype Body = BeatList(beats: seq<BeatDoc>) | CreatedBeat(beat: BeatDoc) | ErrorBody(error: string)

  datatype Response = Response(status: int, body: Body)

  const FileRequiredMessage: string := "Audio file is required"
  const UploadFailedMessage: string := "Failed to upload beat"
  /** The `TypeError` raised when `audioFile` is a text entry, which has no `arrayBuffer`. */
  const NotAFileMessage: string := "file.arrayBuffer is not a function"

  /** The message of a caught error: its `message`, the string itself, or a fixed fallback. */
  function ErrorMessage(e: Thrown): string {
    match e
    case ErrorValue(message) => message
    case StringValue(text) => text
    case OtherValue => UploadFailedMessage
  }

  /** The response for a caught error. */
  function Failed(e: Thrown): (r: Response)
    ensures r.status == 500 && r.body.ErrorBody?
    ensures e.ErrorValue? ==> r.body.error == e.message
    ensures e.StringValue? ==> r.body.error == e.text
    ensures e.OtherValue? ==> r.body.error == "Failed to upload beat"
  {
    Response(500, ErrorBody(ErrorMessage(e)))
  }

  // ---------------------------------------------------------------------------
  // Newest-first ordering
  // ---------------------------------------------------------------------------

  predicate NewestFirst(docs: seq<BeatDoc>) {
    forall i, j :: 0 <= i < j < |docs| ==> docs[i].createdAt >= docs[j].createdAt
  }

  /** Places `d` in front of the first document older than it. */
  function InsertByDate(d: BeatDoc, sorted: seq<BeatDoc>): (r: seq<BeatDoc>)
    requires NewestFirst(sorted)
    ensures NewestFirst(r)
    ensures multiset(r) == multiset(sorted) + multiset{d}
    ensures |r| == |sorted| + 1 && (r[0] == d || (sorted != [] && r[0] == sorted[0]))
  {
    if sorted == [] || sorted[0].createdAt <= d.createdAt then [d] + sorted
    else
      var rest := InsertByDate(d, sorted[1..]);
      assert sorted == [sorted[0]] + sorted[1..];
      assert rest[0].createdAt <= sorted[0].createdAt;
      [sorted[0]] + rest
  }

  /** `.sort({ createdAt: -1 })`: the same documents, newest `createdAt` first. */
  function SortNewestFirst(docs: seq<BeatDoc>): (r: seq<BeatDoc>)
    ensures NewestFirst(r)
    ensures multiset(r) == multiset(docs)
  {
    if docs == [] then []
    else
      assert docs == [docs[0]] + docs[1..];
      InsertByDate(docs[0], SortNewestFirst(docs[1..]))
  }

  // ---------------------------------------------------------------------------
  // The handlers
  // ---------------------------------------------------------------------------

  /** The entry `audioFile` holds no file: missing, or an empty (falsy) text entry. */
  predicate AudioFileMissing(form: FormData) {
    "audioFile" !in form || form["audioFile"] == Text("")
  }

  /** What the environment does during one `POST`: the connect outcome, the clock, and the two writes. */
  datatype PostEnv = PostEnv(
    connect: Db.Settled,
    now: int,
    writeFailure: Option<Thrown>,
    storeFailure: Option<Thrown>,
    createdAt: int)

  /**
   * The effect of saving an upload, from the store `docs0`/`uploads0` to `docs`/`uploads`:
   * a failed file write changes nothing; otherwise the file is kept under its
   * timestamped name, and the record is appended (201) unless splitting a file
   * under `moodTags`, validation or the database write fails (500, file still kept).
   */
  ghost predicate Saved(docs0: seq<BeatDoc>, uploads0: set<string>, nextId0: nat, form: FormData,
                        originalName: string, env: PostEnv, docs: seq<BeatDoc>, uploads: set<string>, resp: Response)
  {
    var fileName := FileName(env.now, originalName);
    var created := CreateFromForm(form, AudioUrl(fileName), nextId0, env.createdAt);
    if env.writeFailure.Some? then
      resp == Failed(env.writeFailure.value) && docs == docs0 && uploads == uploads0
    else
      && uploads == uploads0 + {fileName}
      && (created.Failure? ==> resp == Failed(created.error) && docs == docs0)
      && (created.Success? && env.storeFailure.Some? ==> resp == Failed(env.storeFailure.value) && docs == docs0)
      && (created.Success? && env.storeFailure.None? ==>
            resp == Response(201, CreatedBeat(created.value)) && docs == docs0 + [created.value])
  }

  /** The beats collection and the upload directory. */
  class Backend {
    var docs: seq<BeatDoc>
    var nextId: nat
    var uploads: set<string>

    /** Every stored beat is well formed and has an identifier of its own below `nextId`. */
    ghost predicate Valid()
      reads this
    {
      && (forall i :: 0 <= i < |docs| ==> WellFormed(docs[i]) && docs[i].id < nextId)
      && (forall i, j :: 0 <= i < j < |docs| ==> docs[i].id != docs[j].id)
    }

    constructor ()
      ensures Valid() && docs == [] && uploads == {}
    {
      docs := [];
      nextId := 0;
      uploads := {};
    }

    /** `GET /api/beats`. */
    method Get(cache: Db.ConnectionCache, uri: string, connect: Db.Settled, findFailure: Option<Thrown>)
      returns (resp: Response)
      requires Valid() && cache.Valid()
      modifies cache
      ensures cache.Valid()
      ensures cache.State() == Db.Connect(old(cache.State()), uri, connect).next
      ensures resp.status == 200 && resp.body.BeatList?
      // every listed beat satisfies the schema
      ensures forall d :: d in resp.body.beats ==> WellFormed(d)
      ensures Db.Connect(old(cache.State()), uri, connect).result.Failure? || findFailure.Some? ==>
                resp.body.beats == []
      ensures Db.Connect(old(cache.State()), uri, connect).result.Success? && findFailure.None? ==>
                resp.body.beats == SortNewestFirst(docs)
    {
      var conn := cache.ConnectToDatabase(uri, connect);
      if conn.Failure? || findFailure.Some? {
        return Response(200, BeatList([]));
      }
      var listed := SortNewestFirst(docs);
      forall d | d in listed
        ensures WellFormed(d)
      {
        assert d in multiset(listed);
        var i :| 0 <= i < |docs| && docs[i] == d;
      }
      resp := Response(200, BeatList(listed));
    }

    /** `POST /api/beats` with the parsed multipart body, or the error parsing it raised. */
    method Post(cache: Db.ConnectionCache, uri: string, body: Result<FormData, Thrown>, env: PostEnv)
      returns (resp: Response)
      requires Valid() && cache.Valid()
      modifies this, cache
      ensures Valid() && cache.Valid()
      ensures cache.State() == Db.Connect(old(cache.State()), uri, env.connect).next
      ensures resp.status in {201, 400, 500}
      // the connect fails: the error is reported and nothing is written
      ensures var c := Db.Connect(old(cache.State()), uri, env.connect).result;
              c.Failure? ==> resp == Failed(c.error) && docs == old(docs) && uploads == old(uploads)
      // the body cannot be parsed
      ensures var c := Db.Connect(old(cache.State()), uri, env.connect).result;
              c.Success? && body.Failure? ==>
                resp == Failed(body.error) && docs == old(docs) && uploads == old(uploads)
      // no audio file: 400, no file written and no record created
      ensures var c := Db.Connect(old(cache.State()), uri, env.connect).result;
              c.Success? && body.Success? && AudioFileMissing(body.value) ==>
                resp == Response(400, ErrorBody(FileRequiredMessage)) && docs == old(docs) && uploads == old(uploads)
      // a non-empty text entry in place of the file fails when its bytes are read
      ensures var c := Db.Connect(old(cache.State()), uri, env.connect).result;
              c.Success? && body.Success? && !AudioFileMissing(body.value) && body.value["audioFile"].Text? ==>
                resp == Failed(ErrorValue(NotAFileMessage)) && docs == old(docs) && uploads == old(uploads)
      // otherwise the upload is saved and the record created, as `SaveUpload` states
      ensures var c := Db.Connect(old(cache.State()), uri, env.connect).result;
              c.Success? && body.Success? && !AudioFileMissing(body.value) && body.value["audioFile"].File? ==>
                Saved(old(docs), old(uploads), old(nextId), body.value, body.value["audioFile"].name, env,
                      docs, uploads, resp)
    {
      var conn := cache.ConnectToDatabase(uri, env.connect);
      if conn.Failure? {
        return Failed(conn.error);
      }
      if body.Failure? {
        return Failed(body.error);
      }
      var form := body.value;
      if AudioFileMissing(form) {
        return Response(400, ErrorBody(FileRequiredMessage));
      }
      var file := form["audioFile"];
      if file.Text? {
        return Failed(ErrorValue(NotAFileMessage));
      }
      resp := SaveUpload(form, file.name, env);
    }

    /** Writes the uploaded file and creates the record from the normalised form fields. */
    method SaveUpload(form: FormData, originalName: string, env: PostEnv) returns (resp: Response)
      requires Valid()
      modifies this
      ensures Valid()
      ensures Saved(old(docs), old(uploads), old(nextId), form, originalName, env, docs, uploads, resp)
    {
      var fileName := FileName(env.now, originalName);
      if env.writeFailure.Some? {
        return Failed(env.writeFailure.value);
      }
      uploads := uploads + {fileName};
      var audioUrl := AudioUrl(fileName);
      var input := ToInput(form, audioUrl);
      if input.Failure? {
        return Failed(input.error);
      }
      var created := Create(input.value, nextId, env.createdAt);
      if created.Failure? {
        return Failed(created.error);
      }
      if env.storeFailure.Some? {
        return Failed(env.storeFailure.value);
      }
      docs := docs + [created.value];
      nextId := nextId + 1;
      resp := Response(201, CreatedBeat(created.value));
    }
  }
}
