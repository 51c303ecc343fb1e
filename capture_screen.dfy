/** The capture screen: the camera facing, the photo just taken, the
    contact-details modal and the submit flow (upload the photo, then record
    it against the event). The camera, the upload service and the backend
    are inputs: what they return is passed in, and what is sent to them is
    returned. */
module CaptureScreen {
  import opened Common

  const Back := "back"
  const Front := "front"
  const DataUrlPrefix := "data:image/jpg;base64,"
  const UploadPreset := "lumetry"
  const CloudName := "dfnggrmqp"
  const MissingContact := "Please enter either a phone number or an email."
  const PhotoAdded := "Photo added to event gallery successfully."
  const SubmitFailed := "Failed to submit details"

  /** The facing after a tap on "Flip Camera": `back` turns `front`, anything
      else turns `back`. */
  function ToggledFacing(facing: string): (r: string)
    ensures r == Back || r == Front
    ensures r == Front <==> facing == Back
  {
    if facing == Back then Front else Back
  }

  /** Flipping always lands on one of the two facings, and flipping twice
      from either of them returns to it. */
  lemma ToggledFacingInvolution(facing: string)
    ensures ToggledFacing(facing) == "back" || ToggledFacing(facing) == "front"
    ensures facing == "back" || facing == "front" ==> ToggledFacing(ToggledFacing(facing)) == facing
    ensures ToggledFacing(ToggledFacing("back")) == "back"
  {
  }

  /** How `${v}` renders a value that may be `undefined`: a string as
      itself, so an absent value cannot be told apart from the text
      `undefined`. */
  function TemplateText(v: Option<string>): (r: string)
    ensures v.Some? ==> r == v.value
    ensures r == "undefined" <==> v == None || v == Some("undefined")
  {
    if v.Some? then v.value else "undefined"
  }

  /** The data URL kept for upload: the prefix, then the base64 payload. */
  function DataUrl(base64: string): (r: string)
    ensures |r| == |DataUrlPrefix| + |base64|
    ensures r[..|DataUrlPrefix|] == DataUrlPrefix && r[|DataUrlPrefix|..] == base64
  {
    DataUrlPrefix + base64
  }

  /** The base64 payload of a data URL built by DataUrl; None for any other string. */
  function PayloadOf(url: string): (r: Option<string>)
  {
    if |url| >= |DataUrlPrefix| && url[..|DataUrlPrefix|] == DataUrlPrefix
    then Some(url[|DataUrlPrefix|..]) else None
  }

  /** DataUrl and PayloadOf are inverse: every data URL gives back its
      payload, and every string with a payload is the data URL of it. */
  lemma DataUrlRoundTrip(base64: string, url: string)
    ensures PayloadOf(DataUrl(base64)) == Some(base64)
    ensures PayloadOf(url).Some? ==> DataUrl(PayloadOf(url).value) == url
  {
    var u := DataUrl(base64);
    assert u[..|DataUrlPrefix|] == DataUrlPrefix;
    assert u[|DataUrlPrefix|..] == base64;
    if PayloadOf(url).Some? {
      assert url == url[..|DataUrlPrefix|] + url[|DataUrlPrefix|..];
    }
  }

  /** `value || null` for a text field: an empty string becomes null. */
  function OrNull(s: string): (r: Option<string>)
    ensures r.None? <==> s == ""
    ensures r.Some? ==> r.value == s
  {
    if s == "" then None else Some(s)
  }

  /** The body of `POST /add-photo`. */
  datatype PhotoPayload = PhotoPayload(eventName: string, imageUrl: string, phoneNumber: Option<string>, email: Option<string>)

  /** The payload `handleSubmit` builds from the route's event name, the
      uploaded image's URL and the two contact fields: the event name and
      image URL are passed through, an empty contact field is sent as null
      and a filled one as typed. */
  function BuildPayload(eventName: string, imageUrl: string, phoneNumber: string, email: string): (p: PhotoPayload)
    ensures p.eventName == eventName && p.imageUrl == imageUrl
    ensures (p.phoneNumber == None <==> phoneNumber == "") && (phoneNumber != "" ==> p.phoneNumber == Some(phoneNumber))
    ensures (p.email == None <==> email == "") && (email != "" ==> p.email == Some(email))
  {
    PhotoPayload(eventName, imageUrl, OrNull(phoneNumber), OrNull(email))
  }

  /** `!phoneNumber && !email` is false: at least one contact field is
      filled, which is exactly when the payload would carry a contact that
      is not null. */
  predicate HasContact(phoneNumber: string, email: string): (b: bool)
    ensures b <==> OrNull(phoneNumber).Some? || OrNull(email).Some?
  {
    phoneNumber != "" || email != ""
  }

  /** A photo taken by the camera: its file URI and its base64 text
      (`undefined` unless the camera was asked for it). */
  datatype Shot = Shot(uri: string, base64: Option<string>)

  /** The form data sent to the upload service. */
  datatype UploadRequest = UploadRequest(file: Option<string>, uploadPreset: string, cloudName: string)

  /** How the upload ended: the image's secure URL, or an exception. */
  datatype UploadOutcome = Uploaded(secureUrl: string) | UploadFailed

  /** How `POST /add-photo` ended: a reply (status `ok` or not, with its
      `data` message), or an exception. */
  datatype PostOutcome = Replied(ok: bool, message: string) | PostFailed

  /** Everything `handleSubmit` sends out: the upload, the backend post, the
      alert, and the event whose details screen is opened afterwards. */
  datatype Submission = Submission(upload: Option<UploadRequest>, post: Option<PhotoPayload>, alert: Alert,
                                   navigateTo: Option<string>)

  class Screen {
    var facing: string
    var photoUri: Option<string>
    var photo: Option<string>
    var modalVisible: bool
    var phoneNumber: string
    var email: string
    var secureUrl: Option<string>
    const eventName: string

    /** The screen as it opens for the event named in the route. */
    constructor (eventName: string)
      ensures facing == "back" && photoUri == None && photo == None && !modalVisible
      ensures phoneNumber == "" && email == "" && secureUrl == None && this.eventName == eventName
    {
      facing, photoUri, photo, modalVisible := Back, None, None, false;
      phoneNumber, email, secureUrl := "", "", None;
      this.eventName := eventName;
    }

    /** `toggleCameraFacing`. */
    method ToggleCameraFacing()
      modifies this
      ensures facing == ToggledFacing(old(facing))
      ensures unchanged(this`photoUri, this`photo, this`modalVisible, this`secureUrl, this`phoneNumber, this`email)
    {
      facing := ToggledFacing(facing);
    }

    /** `takePicture`: without a camera reference nothing happens; otherwise
        the photo's URI is shown and its data URL kept for upload. */
    method TakePicture(shot: Option<Shot>)
      modifies this
      ensures shot.None? ==> photoUri == old(photoUri) && photo == old(photo)
      ensures shot.Some? ==> photoUri == Some(shot.value.uri) && photo == Some(DataUrl(TemplateText(shot.value.base64)))
      ensures unchanged(this`facing, this`modalVisible, this`secureUrl, this`phoneNumber, this`email)
    {
      if shot.Some? {
        photoUri := Some(shot.value.uri);
        photo := Some(DataUrl(TemplateText(shot.value.base64)));
      }
    }

    /** `retakePicture`: back to the camera view; the kept data URL stays. */
    method RetakePicture()
      modifies this
      ensures photoUri == None && photo == old(photo)
      ensures unchanged(this`facing, this`modalVisible, this`secureUrl, this`phoneNumber, this`email)
    {
      photoUri := None;
    }

    /** `handleContinue`: the contact-details modal opens. */
    method HandleContinue()
      modifies this
      ensures modalVisible
      ensures unchanged(this`facing, this`photoUri, this`photo, this`secureUrl, this`phoneNumber, this`email)
    {
      modalVisible := true;
    }

    /** The modal's Cancel button. */
    method CancelModal()
      modifies this
      ensures !modalVisible
      ensures unchanged(this`facing, this`photoUri, this`photo, this`secureUrl, this`phoneNumber, this`email)
    {
      modalVisible := false;
    }

    /** The modal's close request (e.g. the back button) toggles it. */
    method RequestCloseModal()
      modifies this
      ensures modalVisible == !old(modalVisible)
      ensures unchanged(this`facing, this`photoUri, this`photo, this`secureUrl, this`phoneNumber, this`email)
    {
      modalVisible := !modalVisible;
    }

    /** `handleSubmit`. Without any contact details it alerts and stops.
        Otherwise it uploads the kept data URL; on success it records the URL,
        posts the payload and, after any reply, closes the modal. An upload
        or post that throws alerts and leaves the modal as it was. */
    method Submit(upload: UploadOutcome, post: PostOutcome) returns (s: Submission)
      modifies this
      ensures !HasContact(old(phoneNumber), old(email)) ==>
        s == Submission(None, None, Alert("Error", "Please enter either a phone number or an email."), None) &&
        unchanged(this`facing, this`photoUri, this`photo, this`modalVisible, this`secureUrl, this`phoneNumber, this`email)
      ensures HasContact(old(phoneNumber), old(email)) ==>
        s.upload == Some(UploadRequest(old(photo), "lumetry", "dfnggrmqp"))
      ensures HasContact(old(phoneNumber), old(email)) && upload.UploadFailed? ==>
        s.post == None && s.alert == Alert("Error", "Failed to submit details") && s.navigateTo == None &&
        unchanged(this`facing, this`photoUri, this`photo, this`modalVisible, this`secureUrl, this`phoneNumber, this`email)
      ensures HasContact(old(phoneNumber), old(email)) && upload.Uploaded? ==>
        secureUrl == Some(upload.secureUrl) &&
        s.post == Some(BuildPayload(eventName, upload.secureUrl, old(phoneNumber), old(email)))
      ensures HasContact(old(phoneNumber), old(email)) && upload.Uploaded? && post.PostFailed? ==>
        s.alert == Alert("Error", "Failed to submit details") && s.navigateTo == None &&
        unchanged(this`facing, this`photoUri, this`photo, this`modalVisible, this`phoneNumber, this`email)
      ensures HasContact(old(phoneNumber), old(email)) && upload.Uploaded? && post.Replied? ==>
        !modalVisible && unchanged(this`facing, this`photoUri, this`photo, this`phoneNumber, this`email) &&
        (post.ok ==> s.alert == Alert("Success", "Photo added to event gallery successfully.") && s.navigateTo == Some(eventName)) &&
        (!post.ok ==> s.alert == Alert("Error", post.message) && s.navigateTo == None)
    {
      if phoneNumber == "" && email == "" {
        return Submission(None, None, Alert("Error", MissingContact), None);
      }
      var request := UploadRequest(photo, UploadPreset, CloudName);
      if upload.UploadFailed? {
        return Submission(Some(request), None, Alert("Error", SubmitFailed), None);
      }
      secureUrl := Some(upload.secureUrl);
      var payload := BuildPayload(eventName, upload.secureUrl, phoneNumber, email);
      match post
      case PostFailed =>
        s := Submission(Some(request), Some(payload), Alert("Error", SubmitFailed), None);
      case Replied(ok, message) =>
        if ok {
          s := Submission(Some(request), Some(payload), Alert("Success", PhotoAdded), Some(eventName));
        } else {
          s := Submission(Some(request), Some(payload), Alert("Error", message), None);
        }
        modalVisible := false;
    }
  }
}
