/**
 * The video-review dashboard of the admin area: the list of uploaded review
 * videos and the handlers that append, replace and remove entries, the
 * upload and edit forms, the 50 MiB file-size guard, the five-video cap of
 * the page and `formatDuration`.
 *
 * The REST calls and the `XMLHttpRequest` uploads are oracles: each handler
 * takes the outcome of its request as a parameter. Progress percentages,
 * status texts and the timers that clear them are not modelled, apart from
 * the `uploading` and `updatingVideo` flags they finally reset.
 */
module VideoReview {
  import opened Wrappers
  import opened JsText

  /** A stored review video: the `VideoCourse` record and its `_id`. */
  datatype Video = Video(
    id: string,
    title: string,
    description: string,
    courseName: string,
    cloudinaryUrl: string,
    cloudinaryPublicId: string,
    duration: Option<real>,
    order: int,
    isActive: bool,
    thumbnail: Option<string>)

  /** A file picked in a file input; only its size is inspected. */
  datatype File = File(name: string, size: nat)

  /** The largest accepted upload: 50 MiB. */
  const MaxFileSize: nat := 50 * 1024 * 1024

  /** The page offers uploads while fewer than this many videos exist. */
  const MaxVideos: nat := 5

  /** The guard shared by `handleUpload` and `handleVideoUpdate`: a file must
      be chosen and be at most 50 MiB. */
  predicate FileAccepted(file: Option<File>) {
    file.Some? && !(file.value.size > MaxFileSize)
  }

  lemma FileGuardBoundary(name: string)
    ensures FileAccepted(Some(File(name, 52428800)))
    ensures !FileAccepted(Some(File(name, 52428801)))
    ensures !FileAccepted(None)
  {
  }

  // ---------------------------------------------------------------------------
  // List transforms
  // ---------------------------------------------------------------------------

  /** `videos.map(v => v._id === id ? updated : v)`. */
  function ReplaceById(videos: seq<Video>, id: string, updated: Video): (r: seq<Video>)
    ensures |r| == |videos|
    ensures forall i :: 0 <= i < |r| && videos[i].id == id ==> r[i] == updated
    ensures forall i :: 0 <= i < |r| && videos[i].id != id ==> r[i] == videos[i]
    decreases |videos|
  {
    if videos == [] then []
    else [if videos[0].id == id then updated else videos[0]] + ReplaceById(videos[1..], id, updated)
  }

  /** Replacing an id that no video has changes nothing. */
  lemma ReplaceMissingId(videos: seq<Video>, id: string, updated: Video)
    requires forall i :: 0 <= i < |videos| ==> videos[i].id != id
    ensures ReplaceById(videos, id, updated) == videos
  {
  }

  /** Replacing twice with a record that keeps the id is replacing once. */
  lemma ReplaceIdempotent(videos: seq<Video>, id: string, updated: Video)
    requires updated.id == id
    ensures ReplaceById(ReplaceById(videos, id, updated), id, updated) == ReplaceById(videos, id, updated)
  {
  }

  /** `videos.filter(v => v._id !== id)`. */
  function RemoveById(videos: seq<Video>, id: string): (r: seq<Video>)
    ensures |r| + CountId(videos, id) == |videos|
    ensures forall i :: 0 <= i < |r| ==> r[i].id != id && r[i] in videos
    ensures forall i :: 0 <= i < |videos| && videos[i].id != id ==> videos[i] in r
    decreases |videos|
  {
    if videos == [] then []
    else (if videos[0].id != id then [videos[0]] else []) + RemoveById(videos[1..], id)
  }

  /** How many videos carry `id`. */
  function CountId(videos: seq<Video>, id: string): nat
    decreases |videos|
  {
    if videos == [] then 0 else (if videos[0].id == id then 1 else 0) + CountId(videos[1..], id)
  }

  /** Removal keeps the order of the rest: it works piecewise on a concatenation. */
  lemma {:induction false} RemoveAppend(a: seq<Video>, b: seq<Video>, id: string)
    ensures RemoveById(a + b, id) == RemoveById(a, id) + RemoveById(b, id)
    decreases |a|
  {
    if a == [] {
      assert a + b == b;
    } else {
      assert (a + b)[1..] == a[1..] + b;
      RemoveAppend(a[1..], b, id);
    }
  }

  /** Removing an id that no video has changes nothing. */
  lemma {:induction false} RemoveMissingId(videos: seq<Video>, id: string)
    requires forall i :: 0 <= i < |videos| ==> videos[i].id != id
    ensures RemoveById(videos, id) == videos
    decreases |videos|
  {
    if videos != [] {
      RemoveMissingId(videos[1..], id);
    }
  }

  /** Deleting after an update that keeps the id deletes the same videos. */
  lemma {:induction false} RemoveAfterReplace(videos: seq<Video>, id: string, updated: Video)
    requires updated.id == id
    ensures RemoveById(ReplaceById(videos, id, updated), id) == RemoveById(videos, id)
    decreases |videos|
  {
    if videos != [] {
      RemoveAfterReplace(videos[1..], id, updated);
      assert ReplaceById(videos, id, updated)[1..] == ReplaceById(videos[1..], id, updated);
    }
  }

  /** The upload form is shown while fewer than five videos exist. */
  predicate CanUploadMore(videos: seq<Video>) {
    |videos| < MaxVideos
  }

  /** "Remaining slots: 5 - videos.length". */
  function RemainingSlots(videos: seq<Video>): (n: int)
    ensures n > 0 <==> CanUploadMore(videos)
    ensures n + |videos| == MaxVideos
  {
    5 - |videos|
  }

  // ---------------------------------------------------------------------------
  // formatDuration
  // ---------------------------------------------------------------------------

  /** `Math.floor(s / 60)` and `Math.floor(s % 60)`. */
  function DurationParts(s: real): (p: (int, int))
    ensures s >= 0.0 ==> 0 <= p.0 && 0 <= p.1 < 60 && 60 * p.0 + p.1 == s.Floor
    ensures s < 0.0 ==> -60 <= p.1 <= 0
  {
    var mins := (s / 60.0).Floor;
    var secs := Rem60(s).Floor;
    if s >= 0.0 then
      FloorShift(s - 60.0 * (mins as real), 60 * mins);
      (mins, secs)
    else
      (mins, secs)
  }

  /** `formatDuration`: `0:00` for a missing or zero duration, otherwise
      minutes, a colon and the seconds padded to two digits. */
  function FormatDuration(seconds: Option<real>): string {
    if seconds.None? || seconds.value == 0.0 then "0:00"
    else
      var (mins, secs) := DurationParts(seconds.value);
      IntToString(mins) + ":" + PadStart2(IntToString(secs))
  }

  lemma FormatDurationFalsy(seconds: Option<real>)
    requires seconds.None? || seconds.value == 0.0
    ensures FormatDuration(seconds) == "0:00"
  {
  }

  predicate AllDigits(s: string) {
    forall i :: 0 <= i < |s| ==> IsDigit(s[i])
  }

  /** `m:ss`: digits, a colon, then exactly two digits. */
  predicate IsClock(r: string) {
    |r| >= 4 && r[|r| - 3] == ':' && AllDigits(r[..|r| - 3]) && AllDigits(r[|r| - 2..])
  }

  /** The seconds a clock text stands for. */
  function ClockSeconds(r: string): int
    requires IsClock(r)
  {
    60 * DecimalValue(r[..|r| - 3]) + DecimalValue(r[|r| - 2..])
  }

  /** For a positive duration the text reads back: the digits before the
      colon are the minutes, the two after it the seconds (below 60), and
      together they give the whole seconds of the duration. */
  lemma FormatDurationReadsBack(s: real)
    requires s > 0.0
    ensures IsClock(FormatDuration(Some(s)))
    ensures DecimalValue(FormatDuration(Some(s))[|FormatDuration(Some(s))| - 2..]) < 60
    ensures ClockSeconds(FormatDuration(Some(s))) == s.Floor
  {
    var p := DurationParts(s);
    var mins, secs := p.0, p.1;
    assert 0 <= mins && 0 <= secs < 60 && 60 * mins + secs == s.Floor;
    var m := NatToString(mins);
    var t := PadStart2(NatToString(secs));
    assert IntToString(mins) == m && IntToString(secs) == NatToString(secs);
    var r := FormatDuration(Some(s));
    assert r == m + ":" + t;
    NatToStringValue(mins);
    TwoDigitValue(secs);
    ClockParts(m, t);
    assert r[..|r| - 3] == m && r[|r| - 2..] == t;
  }

  lemma ClockParts(m: string, t: string)
    requires |m| >= 1 && AllDigits(m) && |t| == 2 && AllDigits(t)
    ensures IsClock(m + ":" + t)
    ensures (m + ":" + t)[..|m|] == m && (m + ":" + t)[|m| + 1..] == t
  {
    var r := m + ":" + t;
    assert r[..|m|] == m;
    assert r[|m| + 1..] == t;
  }

  /** A number below 60, padded to two digits, reads back as itself. */
  lemma TwoDigitValue(n: nat)
    requires n < 60
    ensures |PadStart2(NatToString(n))| == 2 && AllDigits(PadStart2(NatToString(n)))
    ensures DecimalValue(PadStart2(NatToString(n))) == n
  {
    var t := PadStart2(NatToString(n));
    if n < 10 {
      assert t == ['0', DigitChar(n)];
      assert t[..1] == ['0'];
    } else {
      assert NatToString(n / 10) == [DigitChar(n / 10)];
      assert t == [DigitChar(n / 10), DigitChar(n % 10)];
      assert t[..1] == [DigitChar(n / 10)];
      assert t[..1][..0] == [];
      assert DecimalValue(t[..1]) == n / 10;
    }
  }

  // ---------------------------------------------------------------------------
  // The dashboard
  // ---------------------------------------------------------------------------

  datatype UploadForm = UploadForm(title: string, description: string, courseName: string, videoFile: Option<File>)

  const EmptyUploadForm := UploadForm("", "", "", None)

  /** The text inputs of the upload form, by their `name`. */
  datatype UploadField = TitleField | DescriptionField | CourseNameField

  /** A value held in the edit form: the text of an input, a stored number,
      or a checkbox flag. */
  datatype EditValue = Text(text: string) | Number(number: int) | Flag(flag: bool)

  /** What an upload or a file update comes back with: the stored record, a
      200 whose body does not parse, another status, or a network error. */
  datatype UploadOutcome = Stored(video: Video) | BadBody | Refused(status: int) | NetworkError

  class Dashboard {
    var videos: seq<Video>
    var uploadForm: UploadForm
    var editForm: map<string, EditValue>
    var editingId: Option<string>
    var uploading: bool
    var updatingVideo: Option<string>

    constructor(initial: seq<Video>)
      ensures videos == initial && uploadForm == EmptyUploadForm && editForm == map[]
      ensures editingId == None && !uploading && updatingVideo == None
    {
      videos := initial;
      uploadForm := EmptyUploadForm;
      editForm := map[];
      editingId := None;
      uploading := false;
      updatingVideo := None;
    }

    /** `handleFileSelect`: a chosen file replaces the form's file. */
    method SelectFile(file: Option<File>)
      modifies this
      ensures file.Some? ==> uploadForm == old(uploadForm).(videoFile := file)
      ensures file.None? ==> uploadForm == old(uploadForm)
      ensures videos == old(videos) && editForm == old(editForm) && editingId == old(editingId)
      ensures uploading == old(uploading) && updatingVideo == old(updatingVideo)
    {
      if file.Some? {
        uploadForm := uploadForm.(videoFile := file);
      }
    }

    /** `handleUploadInputChange`: one text field takes the input's value. */
    method UploadInputChange(field: UploadField, value: string)
      modifies this
      ensures field == TitleField ==> uploadForm == old(uploadForm).(title := value)
      ensures field == DescriptionField ==> uploadForm == old(uploadForm).(description := value)
      ensures field == CourseNameField ==> uploadForm == old(uploadForm).(courseName := value)
      ensures videos == old(videos) && editForm == old(editForm) && editingId == old(editingId)
      ensures uploading == old(uploading) && updatingVideo == old(updatingVideo)
    {
      match field
      case TitleField => uploadForm := uploadForm.(title := value);
      case DescriptionField => uploadForm := uploadForm.(description := value);
      case CourseNameField => uploadForm := uploadForm.(courseName := value);
    }

    /** The synchronous part of `handleUpload`: with no file, or a file over
        50 MiB, nothing happens; otherwise the request is sent. The number
        of videos already stored is not checked here. */
    method StartUpload() returns (sent: bool)
      modifies this
      ensures sent == FileAccepted(old(uploadForm.videoFile))
      ensures uploading == (old(uploading) || sent)
      ensures videos == old(videos) && uploadForm == old(uploadForm) && editForm == old(editForm)
      ensures editingId == old(editingId) && updatingVideo == old(updatingVideo)
    {
      if uploadForm.videoFile.None? {
        return false;
      }
      if uploadForm.videoFile.value.size > MaxFileSize {
        return false;
      }
      uploading := true;
      sent := true;
    }

    /** The `load` handler of an upload: a stored video is appended at the
        end and the form is emptied; any other outcome changes neither. */
    method FinishUpload(outcome: UploadOutcome)
      modifies this
      ensures outcome.Stored? ==> videos == old(videos) + [outcome.video] && uploadForm == EmptyUploadForm
      ensures !outcome.Stored? ==> videos == old(videos) && uploadForm == old(uploadForm)
      ensures editForm == old(editForm) && editingId == old(editingId)
      ensures uploading == old(uploading) && updatingVideo == old(updatingVideo)
    {
      if outcome.Stored? {
        videos := videos + [outcome.video];
        uploadForm := EmptyUploadForm;
      }
    }

    /** The last status timer of an upload. */
    method SettleUpload()
      modifies this
      ensures !uploading
      ensures videos == old(videos) && uploadForm == old(uploadForm) && editForm == old(editForm)
      ensures editingId == old(editingId) && updatingVideo == old(updatingVideo)
    {
      uploading := false;
    }

    /** The synchronous part of `handleVideoUpdate` for video `videoId`. */
    method StartVideoUpdate(videoId: string, file: Option<File>) returns (sent: bool)
      modifies this
      ensures sent == FileAccepted(file)
      ensures sent ==> updatingVideo == Some(videoId)
      ensures !sent ==> updatingVideo == old(updatingVideo)
      ensures videos == old(videos) && uploadForm == old(uploadForm) && editForm == old(editForm)
      ensures editingId == old(editingId) && uploading == old(uploading)
    {
      if file.None? || file.value.size > MaxFileSize {
        return false;
      }
      updatingVideo := Some(videoId);
      sent := true;
    }

    /** The `load` handler of a file update: the stored record replaces every
        video with the id, in place. */
    method FinishVideoUpdate(videoId: string, outcome: UploadOutcome)
      modifies this
      ensures outcome.Stored? ==> videos == ReplaceById(old(videos), videoId, outcome.video)
      ensures !outcome.Stored? ==> videos == old(videos)
      ensures uploadForm == old(uploadForm) && editForm == old(editForm) && editingId == old(editingId)
      ensures uploading == old(uploading) && updatingVideo == old(updatingVideo)
    {
      if outcome.Stored? {
        videos := ReplaceById(videos, videoId, outcome.video);
      }
    }

    /** The last status timer of a file update. */
    method SettleVideoUpdate()
      modifies this
      ensures updatingVideo == None
      ensures videos == old(videos) && uploadForm == old(uploadForm) && editForm == old(editForm)
      ensures editingId == old(editingId) && uploading == old(uploading)
    {
      updatingVideo := None;
    }

    /** `startEdit`: the five editable fields are copied into the form. */
    method StartEdit(video: Video)
      modifies this
      ensures editingId == Some(video.id)
      ensures editForm == map["title" := Text(video.title), "description" := Text(video.description),
                              "courseName" := Text(video.courseName), "order" := Number(video.order),
                              "isActive" := Flag(video.isActive)]
      ensures videos == old(videos) && uploadForm == old(uploadForm)
      ensures uploading == old(uploading) && updatingVideo == old(updatingVideo)
    {
      editingId := Some(video.id);
      editForm := map["title" := Text(video.title), "description" := Text(video.description),
                      "courseName" := Text(video.courseName), "order" := Number(video.order),
                      "isActive" := Flag(video.isActive)];
    }

    /** `cancelEdit`. */
    method CancelEdit()
      modifies this
      ensures editingId == None && editForm == map[]
      ensures videos == old(videos) && uploadForm == old(uploadForm)
      ensures uploading == old(uploading) && updatingVideo == old(updatingVideo)
    {
      editingId := None;
      editForm := map[];
    }

    /** `handleEditInputChange`: only the named entry changes, to the
        checkbox's `checked` or else to the input's text. */
    method EditInputChange(name: string, isCheckbox: bool, value: string, checked: bool)
      modifies this
      ensures editForm == old(editForm)[name := if isCheckbox then Flag(checked) else Text(value)]
      ensures videos == old(videos) && uploadForm == old(uploadForm) && editingId == old(editingId)
      ensures uploading == old(uploading) && updatingVideo == old(updatingVideo)
    {
      editForm := editForm[name := if isCheckbox then Flag(checked) else Text(value)];
    }

    /** `handleSaveEdit`: on success the returned record replaces the video
        and editing ends; on failure nothing changes. */
    method SaveEdit(videoId: string, response: Option<Video>)
      modifies this
      ensures response.Some? ==> videos == ReplaceById(old(videos), videoId, response.value)
      ensures response.Some? ==> editingId == None && editForm == map[]
      ensures response.None? ==> videos == old(videos) && editingId == old(editingId) && editForm == old(editForm)
      ensures uploadForm == old(uploadForm) && uploading == old(uploading) && updatingVideo == old(updatingVideo)
    {
      if response.Some? {
        videos := ReplaceById(videos, videoId, response.value);
        editingId := None;
        editForm := map[];
      }
    }

    /** `handleDelete`: only a confirmed and successful delete removes the
        videos with the id. */
    method Delete(videoId: string, confirmed: bool, ok: bool)
      modifies this
      ensures confirmed && ok ==> videos == RemoveById(old(videos), videoId)
      ensures !(confirmed && ok) ==> videos == old(videos)
      ensures uploadForm == old(uploadForm) && editForm == old(editForm) && editingId == old(editingId)
      ensures uploading == old(uploading) && updatingVideo == old(updatingVideo)
    {
      if confirmed && ok {
        videos := RemoveById(videos, videoId);
      }
    }
  }
}
