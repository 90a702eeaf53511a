/** The profile-photo dialog: which files it accepts, and what choosing, dropping, uploading
    and cancelling do to its state. The upload call's settled reply is an input; the preview
    the file reader produces later is not part of this model. */
module ProfilePhoto {
  import opened Wrappers
  import AuthStore

  /** A chosen file: its MIME type and its size in bytes. */
  datatype File = File(name: string, mimeType: string, size: nat)

  const AllowedTypes: seq<string> := ["image/jpeg", "image/jpg", "image/png", "image/webp"]

  /** 5 MB, counted as 5 · 1024 · 1024 bytes. */
  const MaxSize: nat := 5 * 1024 * 1024

  const TypeRefused := "Solo se permiten archivos JPG, PNG o WebP"
  const SizeRefused := "El archivo no puede ser mayor a 5MB"
  const UploadFailed := "Error al subir la imagen"

  /** A file the dialog takes: one of the four image types, and no larger than 5 MB. */
  predicate Acceptable(f: File) {
    f.mimeType in AllowedTypes && f.size <= MaxSize
  }

  /** The error `handleFileSelect` reports for a file: the type is checked first, then the
      size; an acceptable file has none. */
  function FileError(f: File): (e: Option<string>)
    ensures e.None? <==> Acceptable(f)
    ensures f.mimeType !in AllowedTypes ==> e == Some(TypeRefused)
    ensures f.mimeType in AllowedTypes && f.size > MaxSize ==> e == Some(SizeRefused)
  {
    if f.mimeType !in AllowedTypes then Some(TypeRefused)
    else if f.size > MaxSize then Some(SizeRefused)
    else None
  }

  /** The limit is inclusive: a PNG of exactly 5 MB is taken, one byte more is refused for
      its size. */
  lemma SizeBoundary(name: string)
    ensures FileError(File(name, "image/png", 5242880)).None?
    ensures FileError(File(name, "image/png", 5242881)) == Some(SizeRefused)
  {
    assert "image/png" == AllowedTypes[2];
  }

  /** A file of another type is refused for its type whatever its size, and `image/jpg` (not
      a registered type, but what some systems send) is taken like `image/jpeg`. */
  lemma TypeCheckedFirst(name: string, size: nat)
    ensures FileError(File(name, "image/gif", size)) == Some(TypeRefused)
    ensures FileError(File(name, "image/jpg", size)) == FileError(File(name, "image/jpeg", size))
  {
    assert "image/jpg" == AllowedTypes[1];
    assert "image/jpeg" == AllowedTypes[0];
    assert "image/gif" !in AllowedTypes by {
      assert forall i :: 0 <= i < |AllowedTypes| ==> AllowedTypes[i][6] != 'g';
    }
  }

  /** How the upload call settled: a reply with its `success` and `message`, or a throw with
      its message. */
  datatype UploadReply = Uploaded(success: bool, message: string) | UploadThrew(message: string)

  /** The error an upload leaves: none after success, otherwise the reply's or the thrown
      message, or `Error al subir la imagen` when that message is empty. */
  function UploadError(reply: UploadReply): (e: Option<string>)
    ensures e.None? <==> reply.Uploaded? && reply.success
    ensures e.Some? ==> e.value != ""
    ensures e.Some? && reply.message != "" ==> e.value == reply.message
    ensures e.Some? && reply.message == "" ==> e.value == UploadFailed
  {
    if reply.Uploaded? && reply.success then None
    else Some(AuthStore.OrElse(reply.message, UploadFailed))
  }

  class PhotoModal {
    var selectedFile: Option<File>
    /** The data URL of the preview, once the file reader has produced it. */
    var previewUrl: Option<string>
    var isUploading: bool
    var error: Option<string>
    var isDragging: bool

    /** Only an acceptable file is ever selected. */
    predicate Valid()
      reads this
    {
      selectedFile.Some? ==> Acceptable(selectedFile.value)
    }

    constructor()
      ensures Valid()
      ensures selectedFile.None? && previewUrl.None? && !isUploading && error.None? && !isDragging
    {
      selectedFile := None;
      previewUrl := None;
      isUploading := false;
      error := None;
      isDragging := false;
    }

    /** `handleFileSelect`: a refused file reports its error and changes nothing else; an
        acceptable one clears the error and becomes the selection (its preview follows
        later, from the file reader). */
    method HandleFileSelect(f: File)
      requires Valid()
      modifies this
      ensures Valid()
      ensures !Acceptable(f) ==> error == FileError(f) && selectedFile == old(selectedFile)
      ensures Acceptable(f) ==> error.None? && selectedFile == Some(f)
      ensures previewUrl == old(previewUrl) && isUploading == old(isUploading) && isDragging == old(isDragging)
    {
      var e := FileError(f);
      if e.Some? {
        error := e;
        return;
      }
      error := None;
      selectedFile := Some(f);
    }

    /** `handleFileInputChange`: the first chosen file, if any, goes through
        `handleFileSelect`. */
    method HandleFileInputChange(files: seq<File>)
      requires Valid()
      modifies this
      ensures Valid()
      ensures files == [] ==> selectedFile == old(selectedFile) && error == old(error)
      ensures files != [] && !Acceptable(files[0]) ==> error == FileError(files[0]) && selectedFile == old(selectedFile)
      ensures files != [] && Acceptable(files[0]) ==> error.None? && selectedFile == Some(files[0])
      ensures previewUrl == old(previewUrl) && isUploading == old(isUploading) && isDragging == old(isDragging)
    {
      if files != [] {
        HandleFileSelect(files[0]);
      }
    }

    /** `handleDragOver` */
    method HandleDragOver()
      modifies this
      ensures isDragging
      ensures selectedFile == old(selectedFile) && previewUrl == old(previewUrl)
      ensures isUploading == old(isUploading) && error == old(error)
    {
      isDragging := true;
    }

    /** `handleDragLeave` */
    method HandleDragLeave()
      modifies this
      ensures !isDragging
      ensures selectedFile == old(selectedFile) && previewUrl == old(previewUrl)
      ensures isUploading == old(isUploading) && error == old(error)
    {
      isDragging := false;
    }

    /** `handleDrop`: the drag ends, and the first dropped file, if any, goes through
        `handleFileSelect`. */
    method HandleDrop(files: seq<File>)
      requires Valid()
      modifies this
      ensures Valid()
      ensures !isDragging
      ensures files == [] ==> selectedFile == old(selectedFile) && error == old(error)
      ensures files != [] && !Acceptable(files[0]) ==> error == FileError(files[0]) && selectedFile == old(selectedFile)
      ensures files != [] && Acceptable(files[0]) ==> error.None? && selectedFile == Some(files[0])
      ensures previewUrl == old(previewUrl) && isUploading == old(isUploading)
    {
      isDragging := false;
      if files != [] {
        HandleFileSelect(files[0]);
      }
    }

    /** `handleUpload`. Without a selection nothing happens. Otherwise the selected file is
        sent (`sent`); a successful reply reloads the session's user, closes the dialog and
        clears the selection and the preview; any other outcome keeps them and records the
        error. The dialog is not uploading afterwards either way. */
    method HandleUpload(reply: UploadReply) returns (sent: Option<File>, closed: bool)
      requires Valid()
      modifies this
      ensures Valid()
      ensures sent == old(selectedFile)
      ensures old(selectedFile).None? ==>
        !closed && selectedFile.None? && previewUrl == old(previewUrl)
        && isUploading == old(isUploading) && error == old(error)
      ensures old(selectedFile).Some? ==> !isUploading && error == UploadError(reply)
      ensures old(selectedFile).Some? && UploadError(reply).None? ==>
        closed && selectedFile.None? && previewUrl.None?
      ensures old(selectedFile).Some? && UploadError(reply).Some? ==>
        !closed && selectedFile == old(selectedFile) && previewUrl == old(previewUrl)
      ensures isDragging == old(isDragging)
    {
      sent := selectedFile;
      closed := false;
      if selectedFile.None? {
        return;
      }
      isUploading := true;
      error := None;
      match reply {
        case Uploaded(success, message) =>
          if success {
            closed := true;
            selectedFile := None;
            previewUrl := None;
          } else {
            error := Some(AuthStore.OrElse(message, UploadFailed));
          }
        case UploadThrew(message) =>
          error := Some(AuthStore.OrElse(message, UploadFailed));
      }
      isUploading := false;
    }

    /** `handleCancel`: the selection, the preview and the error are cleared and the dialog
        closes. */
    method HandleCancel() returns (closed: bool)
      modifies this
      ensures Valid()
      ensures closed && selectedFile.None? && previewUrl.None? && error.None?
      ensures isUploading == old(isUploading) && isDragging == old(isDragging)
    {
      selectedFile := None;
      previewUrl := None;
      error := None;
      closed := true;
    }
  }
}
