/**
 * The upload step (`FileUploadStep`): the selected file, the inline error
 * message and the loading flag are React state, so they are the fields of a
 * class. Dropping files validates the first one; submitting posts it to the
 * inference service. The network round trip is not performed: its result is
 * an `Outcome` value handed to `CompleteSubmit`, so the transient loading
 * state between `StartSubmit` and `CompleteSubmit` is visible.
 */
module Upload {
  import opened Common

  /** A browser `File`: its name and its declared media type. */
  datatype File = File(name: string, mediaType: string)

  /** The POST request that the submission issues (a multipart body with one part). */
  datatype Request = Request(url: string, httpMethod: string, partName: string, file: File)

  /**
   * What the awaited `fetch` (and, on success, `response.json()`) yields:
   * a response with its status and, when its body parses, the `predictions`
   * field; or a thrown exception (network failure).
   */
  datatype Outcome =
    | Response(status: int, predictions: Option<seq<Location>>)
    | Thrown

  /** How a submitted request ends: the callback receives a list, or an error message is shown. */
  datatype Completion = Forward(locations: seq<Location>) | Fail(message: string)

  const Endpoint := "http://127.0.0.1:8000/predict-locations/"
  const ImagePrefix := "image/"
  const NotAnImageMessage := "Only image files are allowed."
  const RequestFailedMessage := "Failed to upload image or process inference."
  const UploadErrorMessage := "An error occurred during file upload."
  /** The `alert` shown when submitting without a file; it never enters `error`. */
  const SelectFilePrompt := "Please select a file before proceeding."

  /** `type.startsWith('image/')`: the slice test agrees with the sequence-prefix relation. */
  predicate IsImageType(mediaType: string): (b: bool)
    ensures b <==> ImagePrefix <= mediaType
  {
    |mediaType| >= |ImagePrefix| && mediaType[..|ImagePrefix|] == ImagePrefix
  }

  /** `response.ok`: the status is in the 2xx class. */
  predicate IsOk(status: int): (ok: bool)
    ensures ok <==> status / 100 == 2
  {
    200 <= status <= 299
  }

  /**
   * The `try`/`catch` around the request: a 2xx response whose body parses
   * forwards `predictions` untouched; a non-2xx response gives the request
   * failure message (its body is never read); an exception, including a body
   * that does not parse, gives the upload error message.
   */
  function Resolve(o: Outcome): (c: Completion)
    ensures c.Forward? <==> o.Response? && IsOk(o.status) && o.predictions.Some?
    ensures c.Forward? ==> c.locations == o.predictions.value
    ensures c == Fail(RequestFailedMessage) <==> o.Response? && !IsOk(o.status)
    ensures c == Fail(UploadErrorMessage) <==> o.Thrown? || (IsOk(o.status) && o.predictions.None?)
  {
    match o
    case Thrown => Fail(UploadErrorMessage)
    case Response(status, predictions) =>
      if !IsOk(status) then Fail(RequestFailedMessage)
      else if predictions.None? then Fail(UploadErrorMessage)
      else Forward(predictions.value)
  }

  /**
   * The Upload button's enable rule, `disabled={!file || loading}`: enabled
   * exactly when a file is selected and no submission is in flight.
   */
  predicate SubmitEnabled(file: Option<File>, loading: bool): (e: bool)
    ensures e <==> file.Some? && !loading
  {
    !(file.None? || loading)
  }

  class FileUploadStep {
    var file: Option<File>
    var error: Option<string>
    var loading: bool

    /** No file, no error, not loading. */
    constructor ()
      ensures file == None && error == None && !loading
    {
      file := None;
      error := None;
      loading := false;
    }

    /** `onDrop`: only the first accepted file is examined; an empty drop changes nothing. */
    method OnDrop(accepted: seq<File>)
      modifies this
      ensures loading == old(loading)
      ensures accepted == [] ==> file == old(file) && error == old(error)
      ensures accepted != [] && IsImageType(accepted[0].mediaType) ==>
        file == Some(accepted[0]) && error == None
      ensures accepted != [] && !IsImageType(accepted[0].mediaType) ==>
        file == None && error == Some(NotAnImageMessage)
    {
      if |accepted| > 0 {
        var selected := accepted[0];
        if IsImageType(selected.mediaType) {
          file := Some(selected);
          error := None;
        } else {
          error := Some(NotAnImageMessage);
          file := None;
        }
      }
    }

    /**
     * The synchronous part of `handleSubmit`. Without a file: no request,
     * no state change, only the prompt. With a file: loading is set and
     * the POST carrying that file under the part name `file` is issued.
     */
    method StartSubmit() returns (request: Option<Request>, prompt: Option<string>)
      modifies this
      ensures file == old(file) && error == old(error)
      ensures old(file).None? ==>
        request == None && prompt == Some(SelectFilePrompt) && loading == old(loading)
      ensures old(file).Some? ==>
        request == Some(Request(Endpoint, "POST", "file", old(file).value)) && prompt == None && loading
      ensures old(file).Some? ==> !SubmitEnabled(file, loading)
    {
      if file.Some? {
        loading := true;
        request := Some(Request(Endpoint, "POST", "file", file.value));
        prompt := None;
      } else {
        request := None;
        prompt := Some(SelectFilePrompt);
      }
    }

    /**
     * The part of `handleSubmit` after the awaited request: forward the
     * predictions or record the message, then clear `loading` (`finally`).
     * The selected file is kept, and a success leaves `error` as it was.
     */
    method CompleteSubmit(outcome: Outcome) returns (forwarded: Option<seq<Location>>)
      requires loading
      modifies this
      ensures !loading && file == old(file)
      ensures SubmitEnabled(file, loading) <==> file.Some?
      ensures Resolve(outcome).Forward? ==>
        forwarded == Some(Resolve(outcome).locations) && error == old(error)
      ensures Resolve(outcome).Fail? ==>
        forwarded == None && error == Some(Resolve(outcome).message)
    {
      forwarded := None;
      match outcome {
        case Response(status, predictions) =>
          if IsOk(status) {
            if predictions.Some? {
              forwarded := Some(predictions.value);
            } else {
              // `response.json()` rejected: handled by the `catch`
              error := Some(UploadErrorMessage);
            }
          } else {
            error := Some(RequestFailedMessage);
          }
        case Thrown =>
          error := Some(UploadErrorMessage);
      }
      loading := false;
    }

    /** The whole `handleSubmit` with the request answered by `outcome`. */
    method HandleSubmit(outcome: Outcome)
      returns (request: Option<Request>, prompt: Option<string>, forwarded: Option<seq<Location>>)
      modifies this
      ensures file == old(file)
      ensures old(file).None? ==>
        request == None && prompt == Some(SelectFilePrompt) && forwarded == None
        && error == old(error) && loading == old(loading)
      ensures old(file).Some? ==>
        request == Some(Request(Endpoint, "POST", "file", old(file).value)) && prompt == None && !loading
      ensures old(file).Some? ==> SubmitEnabled(file, loading)
      ensures old(file).Some? && Resolve(outcome).Forward? ==>
        forwarded == Some(Resolve(outcome).locations) && error == old(error)
      ensures old(file).Some? && Resolve(outcome).Fail? ==>
        forwarded == None && error == Some(Resolve(outcome).message)
    {
      request, prompt := StartSubmit();
      forwarded := None;
      if request.Some? {
        forwarded := CompleteSubmit(outcome);
      }
    }
  }

  /**
   * A valid image followed by an HTTP 500: the request failure message is
   * shown, loading is off, the file is still selected and nothing is forwarded.
   */
  method ServerErrorScenario(status: int) returns (error: Option<string>, loading: bool, kept: bool, forwarded: Option<seq<Location>>)
    requires !IsOk(status)
    ensures error == Some(RequestFailedMessage) && !loading && kept && forwarded == None
  {
    var upload := new FileUploadStep();
    var image := File("photo.png", "image/png");
    upload.OnDrop([image]);
    var request, prompt;
    request, prompt, forwarded := upload.HandleSubmit(Response(status, Some([])));
    error, loading, kept := upload.error, upload.loading, upload.file == Some(image);
  }

  /**
   * A successful response forwards exactly the predicted list, and a
   * non-image drop clears the selection so submission only prompts.
   */
  method SuccessScenario(predictions: seq<Location>)
    returns (forwarded: Option<seq<Location>>, afterBadDrop: Option<Request>, prompt: Option<string>)
    ensures forwarded == Some(predictions)
    ensures afterBadDrop == None && prompt == Some(SelectFilePrompt)
  {
    var upload := new FileUploadStep();
    upload.OnDrop([File("photo.jpg", "image/jpeg"), File("notes.txt", "text/plain")]);
    var request, p;
    request, p, forwarded := upload.HandleSubmit(Response(200, Some(predictions)));
    assert "text/plain"[..|ImagePrefix|][0] != ImagePrefix[0];
    upload.OnDrop([File("notes.txt", "text/plain")]);
    var unused;
    afterBadDrop, prompt, unused := upload.HandleSubmit(Thrown);
  }
}
