/** The video routes of blueprints/videos_api.py: the upload validation and
    the name a video is stored under, and the guards of the synchronous
    processing route.  `secure_filename` and `uuid4` are foreign: their
    results are parameters. */
module VideosApi {
  import opened Common
  import opened Text
  import opened Catalog
  import VideoProcessor

  const AllowedExtensions: set<string> := {"mp4", "avi", "mov", "mkv", "wmv", "flv"}

  /** The names an accepted upload is recorded under. */
  datatype Upload = Upload(filename: string, originalFilename: string)

  predicate AllowedFile(filename: string)
  {
    HasAllowedExtension(filename, AllowedExtensions)
  }

  /** The extension that decides is the last one, in any case. */
  lemma UpperCaseAccepted()
    ensures AllowedFile("A" + "." + "MP4")
  {
    AllowedExtensionOf("A", "MP4", AllowedExtensions);
    assert Lower("MP4") == "mp4" by {
      assert Lower("MP4")[0] == 'm' && Lower("MP4")[1] == 'p' && Lower("MP4")[2] == '4';
    }
  }

  lemma DoubleExtensionRejected()
    ensures !AllowedFile("a.mp4" + "." + "exe")
  {
    AllowedExtensionOf("a.mp4", "exe", AllowedExtensions);
    assert Lower("exe") !in AllowedExtensions by {
      ExeNotAllowed();
      assert Lower("exe")[0] == 'e' && Lower("exe")[1] == 'x' && Lower("exe")[2] == 'e';
    }
  }

  lemma ExeNotAllowed()
    ensures forall e :: e in AllowedExtensions ==> e[0] != 'e'
  {
  }

  /** A trailing dot leaves an empty extension, which is not a format. */
  lemma TrailingDotRejected()
    ensures !AllowedFile("video" + "." + "")
  {
    AllowedExtensionOf("video", "", AllowedExtensions);
  }

  /** `upload_video` as written: the guards check the uploaded name, but the
      extension is then split off the sanitised name, and `rsplit` of a name
      without a dot has no second part: an `IndexError`, answered with 500. */
  function UploadVideoAsWritten(hasFile: bool, filename: string, sanitized: string, hex: string): Result<Upload, HttpError>
  {
    if !hasFile then Failure(HttpError(400, "No se proporcionó video"))
    else if filename == "" then Failure(HttpError(400, "No se seleccionó archivo"))
    else if !AllowedFile(filename) then Failure(HttpError(400, "Formato de archivo no permitido"))
    else match Extension(sanitized) {
      case None => Failure(HttpError(500, "IndexError"))
      case Some(ext) => Success(Upload(hex + "." + Lower(ext), sanitized))
    }
  }

  /** `secure_filename` strips leading dots, so it turns the accepted name
      `.mp4` into `mp4`, which has no extension: the upload fails with 500. */
  lemma HiddenNameUpload(hex: string)
    ensures AllowedFile(".mp4")
    ensures UploadVideoAsWritten(true, ".mp4", "mp4", hex) == Failure(HttpError(500, "IndexError"))
  {
    AllowedExtensionOf("", "mp4", AllowedExtensions);
    assert "" + "." + "mp4" == ".mp4";
    assert Lower("mp4") == "mp4" by {
      assert Lower("mp4")[0] == 'm' && Lower("mp4")[1] == 'p' && Lower("mp4")[2] == '4';
    }
    assert '.' !in "mp4" by {
      assert forall i :: 0 <= i < 3 ==> "mp4"[i] != '.';
    }
  }

  /** `upload_video` with the extension taken from the name the guards
      checked, as the face upload does. */
  function UploadVideo(hasFile: bool, filename: string, sanitized: string, hex: string): Result<Upload, HttpError>
  {
    if !hasFile then Failure(HttpError(400, "No se proporcionó video"))
    else if filename == "" then Failure(HttpError(400, "No se seleccionó archivo"))
    else if !AllowedFile(filename) then Failure(HttpError(400, "Formato de archivo no permitido"))
    else Success(Upload(hex + "." + Lower(Extension(filename).value), sanitized))
  }

  /** Every upload that passes the guards is stored, under `<hex>.<ext>`
      with `ext` the lowered last extension of the uploaded name, one of the
      six formats; the stored name's own extension is that `ext`.  When the
      sanitised name keeps the extension, this is what the code as written
      stores too. */
  lemma UploadVideoStored(hasFile: bool, filename: string, sanitized: string, hex: string)
    ensures UploadVideo(hasFile, filename, sanitized, hex).Success?
        <==> hasFile && filename != "" && AllowedFile(filename)
    ensures UploadVideo(hasFile, filename, sanitized, hex).Success? ==>
      var up := UploadVideo(hasFile, filename, sanitized, hex).value;
      var ext := Lower(Extension(filename).value);
      && ext in AllowedExtensions
      && up.filename == hex + "." + ext
      && Extension(up.filename) == Some(ext)
      && up.originalFilename == sanitized
    ensures Extension(sanitized) == Extension(filename) ==>
      UploadVideoAsWritten(hasFile, filename, sanitized, hex) == UploadVideo(hasFile, filename, sanitized, hex)
  {
    if hasFile && filename != "" && AllowedFile(filename) {
      ExtensionOf(hex, Extension(filename).value);
    }
  }

  /** `process_video_route`: a missing video is a 404 and an already
      processed one a 400, both without processing or notifying; otherwise
      the video is processed, and a success or an error notice is written
      depending on whether the analysis completed. */
  method ProcessVideoRoute(store: Store, media: VideoProcessor.Media, videoId: VideoId)
    returns (r: Result<AnalysisBlob, HttpError>)
    modifies store
    ensures videoId !in old(store.videos) ==>
      r == Failure(HttpError(404, "Video no encontrado")) && store.Snapshot() == old(store.Snapshot())
    ensures videoId in old(store.videos) && old(store.videos)[videoId].processed ==>
      r == Failure(HttpError(400, "El video ya fue procesado")) && store.Snapshot() == old(store.Snapshot())
    ensures videoId in old(store.videos) && !old(store.videos)[videoId].processed ==>
      && store.persons == old(store.persons)
      && match VideoProcessor.Job(old(store.persons), media, old(store.videos)[videoId].filePath) {
        case Failure(_) =>
          && r == Failure(HttpError(500, "Error al procesar video"))
          && store.appearances == old(store.appearances) && store.videos == old(store.videos)
          && store.notifications == old(store.notifications) + [Notice(LevelError, "Error de Procesamiento")]
        case Success(apps) =>
          && r == Success(VideoProcessor.ResultBlob(old(store.persons), apps))
          && store.appearances == ReplaceAppearances(old(store.appearances), videoId, apps)
          && store.videos == MarkProcessed(old(store.videos), videoId, r.value)
          && store.notifications == old(store.notifications) + [Notice(LevelSuccess, "Video Procesado")]
      }
  {
    if videoId !in store.videos {
      return Failure(HttpError(404, "Video no encontrado"));
    }
    var video := store.videos[videoId];
    if video.processed {
      return Failure(HttpError(400, "El video ya fue procesado"));
    }
    var result := VideoProcessor.ProcessVideo(store, media, videoId, video.filePath);
    match result {
      case Success(blob) =>
        store.Notify(LevelSuccess, "Video Procesado");
        r := Success(blob);
      case Failure(_) =>
        store.Notify(LevelError, "Error de Procesamiento");
        r := Failure(HttpError(500, "Error al procesar video"));
    }
  }
}
