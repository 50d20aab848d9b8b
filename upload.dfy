/**
 * The upload form (src/Components/Upload.js): its five state fields, the
 * change handlers, and the submit handler with its validation, its
 * three-field multipart payload and its reset. The outcome of the POST is a
 * parameter.
 */
module UploadForm {
  import opened Wrappers

  /** Label shown before a file is chosen. */
  const InitialLabel := "Upload your video..."
  /** Prefix of the label once a file is chosen. */
  const ChosenPrefix := "Your Video: "

  /** A file picked in the browser's file dialog. */
  datatype File = File(name: string, content: seq<bv8>)

  datatype FieldValue = Text(text: string) | Blob(file: File)

  /** One part of the multipart body, in the order it was appended. */
  datatype FormField = FormField(name: string, value: FieldValue)

  /** How the POST ends: `res.ok`, a response that is not ok, or a thrown error. */
  datatype HttpOutcome = Ok | NotOk | Error

  /** What one submit does outside the form: an alert, or a request and the `onClose` argument it led to. */
  datatype UploadEffect = Alerted | Requested(payload: seq<FormField>, closeSignal: Option<bool>)

  /** The guard `title && video`. */
  predicate CanSubmit(title: string, video: Option<File>)
    ensures CanSubmit(title, video) ==> |title| > 0 && video.Some?
    ensures title == "" || video.None? ==> !CanSubmit(title, video)
  {
    title != "" && video.Some?
  }

  /** The `FormData` the submit handler builds. */
  function Payload(title: string, description: string, video: File): (fields: seq<FormField>)
    ensures |fields| == 3
    ensures fields[0].name == "title" && fields[1].name == "description" && fields[2].name == "video"
  {
    [FormField("title", Text(title)), FormField("description", Text(description)), FormField("video", Blob(video))]
  }

  /** The value of the first part called `name`, as a multipart reader finds it. */
  function Lookup(fields: seq<FormField>, name: string): Option<FieldValue> {
    if fields == [] then None
    else if fields[0].name == name then Some(fields[0].value)
    else Lookup(fields[1..], name)
  }

  /** A reader of the payload: the title, the description and the file, if all three are present with their kinds. */
  function ReadPayload(fields: seq<FormField>): Option<(string, string, File)> {
    match (Lookup(fields, "title"), Lookup(fields, "description"), Lookup(fields, "video"))
    case (Some(Text(t)), Some(Text(d)), Some(Blob(f))) => Some((t, d, f))
    case _ => None
  }

  /** The payload carries exactly what was entered, the empty description included. */
  lemma PayloadRoundTrip(title: string, description: string, video: File)
    ensures ReadPayload(Payload(title, description, video)) == Some((title, description, video))
  {
    var fields := Payload(title, description, video);
    assert "video"[0] != "title"[0] && "video"[0] != "description"[0];
    assert "description"[0] != "title"[0];
    assert fields[1..][1..] == [fields[2]];
    assert Lookup(fields, "description") == Some(Text(description));
    assert Lookup(fields[1..][1..], "video") == Some(Blob(video));
    assert Lookup(fields[1..], "video") == Some(Blob(video));
  }

  /** The argument passed to `onClose` after the POST, or None when it is not called. */
  function CloseSignal(outcome: HttpOutcome): (signal: Option<bool>)
    ensures signal != Some(false)
    ensures signal == Some(true) <==> outcome == Ok
  {
    if outcome == Ok then Some(true) else None
  }

  class Upload {
    var video: Option<File>
    var title: string
    var description: string
    var videoLabel: string
    var loading: bool

    /** The state the form starts in, and returns to after every validated submit. */
    predicate IsInitial()
      reads this
    {
      video == None && title == "" && description == "" && videoLabel == InitialLabel && !loading
    }

    /** The submit button is enabled unless a request is in flight. */
    predicate SubmitEnabled()
      reads this
      ensures SubmitEnabled() ==> !loading
      ensures IsInitial() ==> SubmitEnabled()
    {
      !loading
    }

    constructor ()
      ensures IsInitial()
    {
      video := None;
      title := "";
      description := "";
      videoLabel := InitialLabel;
      loading := false;
    }

    /** `handleTextChange(name)` applied to a change event carrying `value`. */
    method HandleTextChange(name: string, value: string)
      modifies this
      ensures name == "title" ==> title == value && description == old(description)
      ensures name != "title" ==> description == value && title == old(title)
      ensures video == old(video) && videoLabel == old(videoLabel) && loading == old(loading)
    {
      if name == "title" {
        title := value;
      } else {
        description := value;
      }
    }

    /**
     * `handleVideo` given the selected files. An empty selection stores
     * `undefined` as the video and then throws on reading its name, so the
     * videoLabel is left as it was.
     */
    method HandleVideo(files: seq<File>) returns (threw: bool)
      modifies this
      ensures threw == (files == [])
      ensures files != [] ==> video == Some(files[0]) && videoLabel == ChosenPrefix + files[0].name
      ensures files == [] ==> video == None && videoLabel == old(videoLabel)
      ensures title == old(title) && description == old(description) && loading == old(loading)
    {
      if files == [] {
        video := None;
        threw := true;
      } else {
        video := Some(files[0]);
        videoLabel := ChosenPrefix + files[0].name;
        threw := false;
      }
    }

    /**
     * The submit handler up to its `await`: sets `loading`, then either
     * builds the payload and leaves the request in flight, or alerts and
     * clears `loading` without touching any other field.
     */
    method BeginUpload() returns (request: Option<seq<FormField>>)
      modifies this
      ensures request.Some? <==> CanSubmit(old(title), old(video))
      ensures request.Some? ==> request.value == Payload(old(title), old(description), old(video).value)
      ensures loading == request.Some? && SubmitEnabled() == request.None?
      ensures title == old(title) && description == old(description)
      ensures video == old(video) && videoLabel == old(videoLabel)
    {
      loading := true;
      if title != "" && video.Some? {
        request := Some(Payload(title, description, video.value));
      } else {
        request := None;  // alert
        loading := false;
      }
    }

    /**
     * The submit handler after its `await`: signals the parent only on an ok
     * response, then resets every field, whatever the outcome.
     */
    method CompleteUpload(outcome: HttpOutcome) returns (signal: Option<bool>)
      requires loading
      modifies this
      ensures signal == CloseSignal(outcome)
      ensures IsInitial()
    {
      if outcome == Ok {
        signal := Some(true);
      } else {
        signal := None;  // logged only
      }
      loading := false;
      title := "";
      description := "";
      video := None;
      videoLabel := InitialLabel;
    }

    /** `handleUpload` as a whole, given how the POST ends if it is sent. */
    method HandleUpload(outcome: HttpOutcome) returns (effect: UploadEffect)
      modifies this
      ensures !CanSubmit(old(title), old(video)) ==>
        effect == Alerted && !loading &&
        title == old(title) && description == old(description) && video == old(video) && videoLabel == old(videoLabel)
      ensures CanSubmit(old(title), old(video)) ==>
        effect == Requested(Payload(old(title), old(description), old(video).value), CloseSignal(outcome)) &&
        IsInitial()
    {
      var request := BeginUpload();
      if request.None? {
        effect := Alerted;
      } else {
        var signal := CompleteUpload(outcome);
        effect := Requested(request.value, signal);
      }
    }
  }
}
