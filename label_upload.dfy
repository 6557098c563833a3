/** src/components/NutritionLabelUpload.tsx: picking or photographing a
    label, uploading it, and handing the parsed meal on. The permission
    answer, the picker or camera result and the upload's outcome are
    inputs; the `isLoading` state field is a field of `Uploader`. */
module LabelUpload {
  import opened Shapes
  import opened Wire
  import opened Text

  const DefaultFilename := "image.jpg"
  const UploadMimeType := "image/jpeg"

  const GenericMessage := "Failed to parse nutrition label. Please try again or enter manually."
  const InvalidImageMessage := "Invalid image format or empty image. Please try again."
  const UnreadableMessage :=
    "Failed to process image. Please ensure the image is clear and contains readable nutrition information."
  const NetworkMessage := "Network error: Unable to connect to server. Please check your connection."
  const UnknownDetail := "Unknown error"

  /** The last '/'-separated segment of `uri` (`uri.split('/').pop()`). */
  function LastSegment(uri: string): (r: string)
    ensures '/' !in r
    ensures |r| <= |uri| && r == uri[|uri| - |r|..]
    ensures |r| == |uri| || uri[|uri| - |r| - 1] == '/'
  {
    if uri == [] || uri[|uri| - 1] == '/' then []
    else LastSegment(uri[..|uri| - 1]) + [uri[|uri| - 1]]
  }

  /** The upload's file name: what follows the last '/', or "image.jpg"
      when that is empty (an empty URI or one ending in '/'). */
  function Filename(uri: string): (r: string)
    ensures r != []
    ensures LastSegment(uri) == [] <==> uri == [] || uri[|uri| - 1] == '/'
    ensures LastSegment(uri) == [] ==> r == DefaultFilename
    ensures LastSegment(uri) != [] ==> r == LastSegment(uri)
  {
    var segment := LastSegment(uri);
    if segment == [] then DefaultFilename else segment
  }

  /** A file name taken from a URI with no '/' is the whole URI. */
  lemma BareNameIsKept(uri: string)
    requires uri != [] && '/' !in uri
    ensures Filename(uri) == uri
  {
  }

  /** How an upload can fail: an error status with its JSON `detail` (None
      when missing or null), no answer at all, or a failure before sending. */
  datatype UploadError = ErrorResponse(status: int, detail: Option<string>) | NoResponse | SetupFailed

  /** `detail || fallback`: an empty or missing detail gives the fallback. */
  function DetailOr(detail: Option<string>, fallback: string): (r: string)
    ensures detail.Some? && detail.value != [] ==> r == detail.value
    ensures detail.None? || detail.value == [] ==> r == fallback
  {
    if detail.Some? && detail.value != [] then detail.value else fallback
  }

  /** The message of the error alert. */
  function ErrorMessage(e: UploadError): (msg: string)
    ensures msg != []
    ensures e.ErrorResponse? && e.status == 400 ==> msg == DetailOr(e.detail, InvalidImageMessage)
    ensures e.ErrorResponse? && e.status == 500 ==> msg == UnreadableMessage
    ensures e.ErrorResponse? && e.status != 400 && e.status != 500 ==>
              msg == "Server error: " + IntText(e.status) + " - " + DetailOr(e.detail, UnknownDetail)
    ensures e.NoResponse? ==> msg == NetworkMessage
    ensures e.SetupFailed? ==> msg == GenericMessage
  {
    match e
    case ErrorResponse(status, detail) =>
      if status == 400 then DetailOr(detail, InvalidImageMessage)
      else if status == 500 then UnreadableMessage
      else "Server error: " + IntText(status) + " - " + DetailOr(detail, UnknownDetail)
    case NoResponse => NetworkMessage
    case SetupFailed => GenericMessage
  }

  /** Every status other than 400 and 500 is reported as a server error,
      whatever its detail. */
  lemma ServerErrorsAreLabelled(status: int, detail: Option<string>)
    requires status != 400 && status != 500
    ensures "Server error: " <= ErrorMessage(ErrorResponse(status, detail))
  {
    var msg := ErrorMessage(ErrorResponse(status, detail));
    assert msg[..14] == "Server error: ";
  }

  datatype Alert = Alert(title: string, message: string)

  const ErrorTitle := "Error"

  const SuccessAlert := Alert("Success", "Nutrition label parsed successfully!")
  const PermissionAlert := Alert("Permission needed", "Camera permission is required to take photos")
  const PickFailedAlert := Alert(ErrorTitle, "Failed to pick image")
  const PhotoFailedAlert := Alert(ErrorTitle, "Failed to take photo")

  /** An awaited platform call: its value, or a rejection. */
  datatype Attempt<+T> = Completed(value: T) | Threw

  /** A picker or camera result: whether it was cancelled, and the URIs of
      its assets. */
  datatype PickerResult = PickerResult(canceled: bool, assets: seq<string>)

  /** The multipart field "image" sent to the backend. */
  datatype Part = Part(uri: string, mimeType: string, name: string)

  /** What an upload ends with: the meal handed to `onSubmit` (None when it
      is not called) and the alert shown. */
  datatype Finish = Finish(submitted: Option<MealEntry>, alert: Alert)

  /** The URI to upload: `!result.canceled && result.assets[0]`. */
  function Chosen(r: PickerResult): (uri: Option<string>)
    ensures uri.Some? <==> !r.canceled && |r.assets| > 0
    ensures uri.Some? ==> uri.value == r.assets[0]
  {
    if !r.canceled && |r.assets| > 0 then Some(r.assets[0]) else None
  }

  /** How an upload ends for a given answer: a parsed label is remapped
      and handed to `onSubmit` once, with the success alert; every error
      skips `onSubmit` and alerts its classified message. */
  function FinishFor(response: Result<MealRequest, UploadError>): (f: Finish)
    ensures f.submitted.Some? <==> response.Success?
    ensures response.Success? ==> f == Finish(Some(FromWire(response.value)), SuccessAlert)
    ensures response.Failure? ==> f.alert == Alert(ErrorTitle, ErrorMessage(response.error))
  {
    match response
    case Success(data) => Finish(Some(FromWire(data)), SuccessAlert)
    case Failure(e) => Finish(None, Alert(ErrorTitle, ErrorMessage(e)))
  }

  /** Switching loading on and then off appends the pair [true, false]. */
  lemma LoadingPair(history: seq<bool>)
    ensures history + [true] + [false] == history + [true, false]
  {
    assert (history + [true] + [false])[|history|..] == [true, false];
  }

  class Uploader {
    var isLoading: bool
    /** Every value passed to `setIsLoading`, in order. */
    var loadingHistory: seq<bool>

    constructor ()
      ensures !isLoading && loadingHistory == []
    {
      isLoading := false;
      loadingHistory := [];
    }

    /** `uploadImage`: loading is switched on before the upload and off
        after it on every path; the part sent is named after the URI. */
    method UploadImage(uri: string, response: Result<MealRequest, UploadError>) returns (part: Part, finish: Finish)
      modifies this
      ensures part == Part(uri, UploadMimeType, Filename(uri))
      ensures finish == FinishFor(response)
      ensures !isLoading && loadingHistory == old(loadingHistory) + [true, false]
    {
      isLoading := true;
      loadingHistory := loadingHistory + [true];
      part := Part(uri, UploadMimeType, Filename(uri));
      finish := FinishFor(response);
      isLoading := false;
      loadingHistory := loadingHistory + [false];
      LoadingPair(old(loadingHistory));
    }

    /** `pickImage`: a rejected picker alerts and uploads nothing; a
        cancelled pick or one without an asset does nothing; otherwise the
        first asset is uploaded. */
    method PickImage(picked: Attempt<PickerResult>, response: Result<MealRequest, UploadError>)
      returns (part: Option<Part>, finish: Option<Finish>, alert: Option<Alert>)
      modifies this
      ensures picked.Threw? ==> part.None? && finish.None? && alert == Some(PickFailedAlert)
      ensures picked.Completed? ==> alert.None?
      ensures part.None? ==> finish.None? && isLoading == old(isLoading) && loadingHistory == old(loadingHistory)
      ensures part.Some? <==> picked.Completed? && Chosen(picked.value).Some?
      ensures part.Some? ==>
                && part.value == Part(Chosen(picked.value).value, UploadMimeType, Filename(Chosen(picked.value).value))
                && finish == Some(FinishFor(response))
                && !isLoading && loadingHistory == old(loadingHistory) + [true, false]
    {
      part, finish, alert := None, None, None;
      if picked.Threw? {
        alert := Some(PickFailedAlert);
        return;
      }
      var result := picked.value;
      if !result.canceled && |result.assets| > 0 {
        var p, f := UploadImage(result.assets[0], response);
        part, finish := Some(p), Some(f);
      }
    }

    /** `takePhoto`: without a 'granted' permission the camera is not
        launched and nothing is uploaded; a rejected permission request or
        camera alerts; a cancelled capture or one without an asset does
        nothing; otherwise the first asset is uploaded. */
    method TakePhoto(permission: Attempt<string>, captured: Attempt<PickerResult>,
                     response: Result<MealRequest, UploadError>)
      returns (cameraLaunched: bool, part: Option<Part>, finish: Option<Finish>, alert: Option<Alert>)
      modifies this
      ensures cameraLaunched <==> permission == Completed("granted")
      ensures permission.Threw? ==> alert == Some(PhotoFailedAlert)
      ensures permission.Completed? && permission.value != "granted" ==> alert == Some(PermissionAlert)
      ensures cameraLaunched ==> alert == (if captured.Threw? then Some(PhotoFailedAlert) else None)
      ensures part.None? ==> finish.None? && isLoading == old(isLoading) && loadingHistory == old(loadingHistory)
      ensures part.Some? <==> cameraLaunched && captured.Completed? && Chosen(captured.value).Some?
      ensures part.Some? ==>
                && part.value == Part(Chosen(captured.value).value, UploadMimeType, Filename(Chosen(captured.value).value))
                && finish == Some(FinishFor(response))
                && !isLoading && loadingHistory == old(loadingHistory) + [true, false]
    {
      cameraLaunched, part, finish, alert := false, None, None, None;
      if permission.Threw? {
        alert := Some(PhotoFailedAlert);
        return;
      }
      if permission.value != "granted" {
        alert := Some(PermissionAlert);
        return;
      }
      cameraLaunched := true;
      if captured.Threw? {
        alert := Some(PhotoFailedAlert);
        return;
      }
      var result := captured.value;
      if !result.canceled && |result.assets| > 0 {
        var p, f := UploadImage(result.assets[0], response);
        part, finish := Some(p), Some(f);
      }
    }
  }
}
