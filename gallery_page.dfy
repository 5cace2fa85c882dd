/** The gallery page: the camera and preview flags of the upload form, the
    upload of a new photo, and deleting a photo, which only an administrator
    or the photo's uploader may do. */
module GalleryPage {
  import opened Types
  import opened Strings
  import opened App
  import opened AdminPage

  const UntitledTitle := "Untitled Memory"
  const CameraErrorText := "Could not access camera. Please check permissions."
  const SaveFailedAlert := "Gagal menyimpan foto ke database."
  const DeleteFailedAlert := "Gagal menghapus foto."
  const NotYoursAlert := "You can only delete your own photos."

  /** A preview counts when it is set and not the empty string (`!imagePreview`
      treats both as missing). */
  predicate HasPreview(preview: Option<string>) {
    preview.Some? && preview.value != ""
  }

  /** The photo `handleUpload` builds; `now` is `Date.now()`. */
  function NewPhoto(me: User, image: string, title: string, caption: string, now: int): (r: GalleryPhoto)
    ensures r.title == (if title == "" then UntitledTitle else title) && r.title != ""
    ensures r.imageUrl == image && r.caption == caption
    ensures r.uploadedBy == me.uid && r.uploaderName == me.displayName && r.isPublic
    ensures r.photoId == IntToString(now) && r.createdAt == now
  {
    GalleryPhoto(IntToString(now), image, if title == "" then UntitledTitle else title, caption,
                 me.uid, me.displayName, true, now)
  }

  /** `user.role === 'admin' || user.uid === uploadedBy` */
  predicate MayDelete(me: User, uploadedBy: string) {
    me.role == AdminRole || me.uid == uploadedBy
  }

  /** Whoever uploads a photo may delete it again. */
  lemma UploaderMayDelete(me: User, image: string, title: string, caption: string, now: int)
    ensures MayDelete(me, NewPhoto(me, image, title, caption, now).uploadedBy)
  {
  }

  /** Deletion is refused exactly to a non-administrator who did not upload
      the photo. */
  lemma MayDeleteIff(me: User, uploadedBy: string)
    ensures !MayDelete(me, uploadedBy) <==> me.role == UserRole && me.uid != uploadedBy
  {
  }

  class GalleryPageState {
    const app: AppState
    const me: User
    var showUpload: bool
    var selectedPhoto: Option<GalleryPhoto>
    var title: string
    var caption: string
    var imagePreview: Option<string>
    var isCameraActive: bool
    var isCameraStarting: bool
    var cameraError: Option<string>
    var isUploading: bool

    /** The camera is only ever starting while it is active. */
    predicate CameraFlagsConsistent()
      reads this
    {
      isCameraStarting ==> isCameraActive
    }

    constructor (app: AppState, me: User)
      ensures this.app == app && this.me == me
      ensures !showUpload && selectedPhoto == None && title == "" && caption == ""
      ensures imagePreview == None && !isCameraActive && !isCameraStarting
      ensures cameraError == None && !isUploading
      ensures CameraFlagsConsistent()
    {
      this.app := app;
      this.me := me;
      showUpload := false;
      selectedPhoto := None;
      title, caption := "", "";
      imagePreview := None;
      isCameraActive, isCameraStarting := false, false;
      cameraError := None;
      isUploading := false;
    }

    /** `stopCamera`: the stream is released and both flags drop. */
    method StopCamera()
      modifies this`isCameraActive, this`isCameraStarting
      ensures !isCameraActive && !isCameraStarting
    {
      isCameraActive := false;
      isCameraStarting := false;
    }

    /** `startCamera`: the preview and the error are cleared and the camera
        is marked active and starting. */
    method StartCamera()
      modifies this`imagePreview, this`cameraError, this`isCameraActive, this`isCameraStarting
      ensures imagePreview == None && cameraError == None
      ensures isCameraActive && isCameraStarting && CameraFlagsConsistent()
    {
      imagePreview := None;
      cameraError := None;
      isCameraStarting := true;
      isCameraActive := true;
    }

    /** The stream reached the video element: the spinner goes away. */
    method CameraReady()
      modifies this`isCameraStarting
      ensures !isCameraStarting && CameraFlagsConsistent()
    {
      isCameraStarting := false;
    }

    /** The camera could not be opened. */
    method CameraDenied()
      modifies this`cameraError, this`isCameraActive, this`isCameraStarting
      ensures cameraError == Some(CameraErrorText) && !isCameraActive && !isCameraStarting
    {
      cameraError := Some(CameraErrorText);
      isCameraActive := false;
      isCameraStarting := false;
    }

    /** `capturePhoto`; `ready` says whether the video element, the canvas
        and its context exist and the video has enough data. */
    method CapturePhoto(ready: bool, dataUrl: string)
      modifies this`imagePreview, this`isCameraActive, this`isCameraStarting
      ensures !ready ==>
                imagePreview == old(imagePreview)
                && isCameraActive == old(isCameraActive) && isCameraStarting == old(isCameraStarting)
      ensures ready ==> imagePreview == Some(dataUrl) && !isCameraActive && !isCameraStarting
    {
      if ready {
        imagePreview := Some(dataUrl);
        StopCamera();
      }
    }

    /** The file reader finished reading the chosen file. */
    method FileLoaded(dataUrl: string)
      modifies this`imagePreview
      ensures imagePreview == Some(dataUrl)
    {
      imagePreview := Some(dataUrl);
    }

    /** `closeUploadModal`: the camera stops and the form is emptied. */
    method CloseUploadModal()
      modifies this`isCameraActive, this`isCameraStarting, this`showUpload, this`title, this`caption,
               this`imagePreview, this`cameraError
      ensures !isCameraActive && !isCameraStarting && !showUpload
      ensures title == "" && caption == "" && imagePreview == None && cameraError == None
    {
      StopCamera();
      showUpload := false;
      title, caption := "", "";
      imagePreview := None;
      cameraError := None;
    }

    /** `handleUpload`; `resolved` is whether the promise of `db.savePhoto`
        resolved. It resolves even when the database reports an error, which
        `savePhoto` only logs, so only a thrown exception counts as not
        resolved. Without a preview nothing happens. Otherwise the photo goes
        in front of the list and the form closes when the call resolved, and
        an alert is raised when it threw. */
    method HandleUpload(now: int, resolved: bool) returns (alert: Option<string>)
      modifies app`photos, this`isUploading, this`isCameraActive, this`isCameraStarting,
               this`showUpload, this`title, this`caption, this`imagePreview, this`cameraError
      ensures !HasPreview(old(imagePreview)) ==>
                alert == None && app.photos == old(app.photos) && isUploading == old(isUploading)
                && imagePreview == old(imagePreview) && showUpload == old(showUpload)
                && title == old(title) && caption == old(caption)
                && isCameraActive == old(isCameraActive) && isCameraStarting == old(isCameraStarting)
                && cameraError == old(cameraError)
      ensures HasPreview(old(imagePreview)) && resolved ==>
                alert == None && !isUploading && !showUpload && imagePreview == None
                && title == "" && caption == "" && cameraError == None && !isCameraActive && !isCameraStarting
                && app.photos == [NewPhoto(me, old(imagePreview).value, old(title), old(caption), now)] + old(app.photos)
      ensures HasPreview(old(imagePreview)) && !resolved ==>
                alert == Some(SaveFailedAlert) && !isUploading && app.photos == old(app.photos)
                && imagePreview == old(imagePreview) && showUpload == old(showUpload)
                && title == old(title) && caption == old(caption)
                && isCameraActive == old(isCameraActive) && isCameraStarting == old(isCameraStarting)
                && cameraError == old(cameraError)
      ensures old(CameraFlagsConsistent()) ==> CameraFlagsConsistent()
    {
      if !HasPreview(imagePreview) {
        return None;
      }
      isUploading := true;
      var photo := NewPhoto(me, imagePreview.value, title, caption, now);
      if resolved {
        app.photos := [photo] + app.photos;
        CloseUploadModal();
        alert := None;
      } else {
        alert := Some(SaveFailedAlert);
      }
      isUploading := false;
    }

    /** `handleDelete`; `confirmed` is the answer to the confirmation dialog
        and `resolved` whether the promise of `db.deletePhoto` resolved, which
        it does even when the database reports an error (only logged). */
    method HandleDelete(id: string, uploadedBy: string, confirmed: bool, resolved: bool) returns (alert: Option<string>)
      modifies app`photos, this`selectedPhoto
      ensures !MayDelete(me, uploadedBy) ==>
                alert == Some(NotYoursAlert) && app.photos == old(app.photos) && selectedPhoto == old(selectedPhoto)
      ensures MayDelete(me, uploadedBy) && !confirmed ==>
                alert == None && app.photos == old(app.photos) && selectedPhoto == old(selectedPhoto)
      ensures MayDelete(me, uploadedBy) && confirmed && resolved ==>
                alert == None && app.photos == WithoutPhoto(old(app.photos), id) && selectedPhoto == None
      ensures MayDelete(me, uploadedBy) && confirmed && !resolved ==>
                alert == Some(DeleteFailedAlert) && app.photos == old(app.photos) && selectedPhoto == old(selectedPhoto)
    {
      if !MayDelete(me, uploadedBy) {
        return Some(NotYoursAlert);
      }
      alert := None;
      if confirmed {
        if resolved {
          app.photos := WithoutPhoto(app.photos, id);
          selectedPhoto := None;
        } else {
          alert := Some(DeleteFailedAlert);
        }
      }
    }
  }
}
