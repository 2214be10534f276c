/**
 * The two upload handlers as step ladders over the outcomes of the calls
 * they make. Every external call (id parsing, token lookup and validation,
 * form parsing, file creation, copy, seek, ffprobe, ffmpeg, open, S3 and
 * database writes) is an oracle value in the request; the database, the
 * object store, the local files, the open file handles and the log of
 * `UpdateVideo` calls are the state the handlers change.
 */
module Api {
  import opened Wrappers
  import Base64
  import Media
  import ThumbnailUrl

  /** A parsed `uuid.UUID`. */
  type Uuid = string

  /** A row of the video catalog (`database.Video`). */
  datatype Video = Video(
    id: Uuid,
    createdAt: int,
    updatedAt: int,
    thumbnailUrl: Option<string>,
    videoUrl: Option<string>,
    title: string,
    description: string,
    userId: Uuid)

  /** What the handler writes back: `respondWithError` or `respondWithJSON`. */
  datatype Response =
    | ErrorResponse(status: int, message: string)
    | JsonResponse(status: int, video: Video)

  /** An object put in the bucket: the local file it was read from and its content type. */
  datatype StoredObject = StoredObject(source: string, contentType: string)

  /** Something a deferred call closes. */
  datatype Handle = FormFile(field: string) | OsFile(path: string)

  /** A call registered with `defer`. */
  datatype Deferred = Remove(path: string) | Close(handle: Handle)

  /** Outcomes of the three checks both handlers start with. */
  datatype AuthOutcome = AuthOutcome(
    videoId: Option<Uuid>,   // uuid.Parse(r.PathValue("videoID"))
    bearer: Option<string>,  // auth.GetBearerToken(r.Header)
    userId: Option<Uuid>)    // auth.ValidateJWT(token, cfg.jwtSecret)
  {
    predicate Passed() { videoId.Some? && bearer.Some? && userId.Some? }
  }

  /** The outcome of running ffmpeg; a failed run may leave a partial output file behind. */
  datatype FastStartOutcome = FastStartOk | FastStartFailed(partialOutput: bool)

  /** Outcomes of the external calls the video handler makes, in call order. */
  datatype VideoRequest = VideoRequest(
    auth: AuthOutcome,
    upload: Option<string>,         // r.FormFile("video"): the part's Content-Type header
    mediaType: Option<string>,      // mime.ParseMediaType of that header
    tempName: Option<string>,       // the random part os.CreateTemp chose; None: creation failed
    copyOk: bool,                   // io.Copy into the temp file
    seekOk: bool,                   // Seek(0, io.SeekStart)
    probe: Media.ProbeOutcome,      // ffprobe and its JSON
    fastStart: FastStartOutcome,    // ffmpeg -movflags faststart
    openOk: bool,                   // os.Open of the processed file
    assetPath: string,              // getAssetPath(mediaType)
    putOk: bool,                    // PutObject (its result is ignored)
    updateOk: bool)                 // UpdateVideo (its result is ignored)

  /** Outcomes of the external calls the thumbnail handler makes, in call order. */
  datatype ThumbnailRequest = ThumbnailRequest(
    auth: AuthOutcome,
    multipartOk: bool,              // r.ParseMultipartForm(10 << 20)
    upload: Option<string>,         // r.FormFile("thumbnail"): the part's Content-Type header
    data: Option<seq<Base64.byte>>, // io.ReadAll of the part
    updateOk: bool)                 // UpdateVideo

  /** `filepath.Join(a, b)`, without the lexical clean-up. */
  function Join(dir: string, name: string): string
  {
    dir + "/" + name
  }

  /** The file os.CreateTemp makes for the pattern "tubely-upload-*.mp4" in `<assetsRoot>/tmp`. */
  function TempVideoPath(assetsRoot: string, random: string): string
  {
    Join(Join(assetsRoot, "tmp"), "tubely-upload-" + random + ".mp4")
  }

  /** The random part os.CreateTemp picks takes the place of the `*` of the pattern. */
  lemma TempVideoPathPattern(assetsRoot: string, random: string)
    ensures var path := TempVideoPath(assetsRoot, random);
            var dir := assetsRoot + "/tmp/tubely-upload-";
            && |path| == |dir| + |random| + 4
            && path[..|dir|] == dir
            && path[|dir|..|path| - 4] == random
            && path[|path| - 4..] == ".mp4"
  {
    var path := TempVideoPath(assetsRoot, random);
    assert path == assetsRoot + "/tmp/tubely-upload-" + random + ".mp4";
  }

  /** Different random parts name different temp files. */
  lemma TempVideoPathInjective(assetsRoot: string, r1: string, r2: string)
    requires TempVideoPath(assetsRoot, r1) == TempVideoPath(assetsRoot, r2)
    ensures r1 == r2
  {
    TempVideoPathPattern(assetsRoot, r1);
    TempVideoPathPattern(assetsRoot, r2);
  }

  // ---- the video handler's checks, each one including those before it ----

  /** The caller is authenticated and owns the video named in the path. */
  predicate Owns(auth: AuthOutcome, db: map<Uuid, Video>)
  {
    auth.Passed() && auth.videoId.value in db && db[auth.videoId.value].userId == auth.userId.value
  }

  /** The checks up to line 69 passed: an owner sent an `video/mp4` file. */
  predicate VideoAccepted(req: VideoRequest, db: map<Uuid, Video>)
  {
    Owns(req.auth, db) && req.upload.Some? && req.mediaType == Some("video/mp4")
  }

  /** The upload sits in a temp file, rewound. */
  predicate VideoStaged(req: VideoRequest, db: map<Uuid, Video>)
  {
    VideoAccepted(req, db) && req.tempName.Some? && req.copyOk && req.seekOk
  }

  /** The probe classified the upload, so fast start is attempted. */
  predicate VideoClassified(req: VideoRequest, db: map<Uuid, Video>)
  {
    VideoStaged(req, db) && Media.GetVideoAspectRatio(req.probe).Ok?
  }

  /** ffmpeg wrote the fast-start copy. */
  predicate VideoProcessed(req: VideoRequest, db: map<Uuid, Video>)
  {
    VideoClassified(req, db) && req.fastStart.FastStartOk?
  }

  /** The fast-start copy opened: from here on the handler answers 200. */
  predicate VideoOpened(req: VideoRequest, db: map<Uuid, Video>)
  {
    VideoProcessed(req, db) && req.openOk
  }

  /**
   * The files the video handler creates, in order: none unless the upload
   * was accepted and os.CreateTemp succeeded, then the temp file, then the
   * fast-start copy whenever ffmpeg wrote one, completely or in part.
   */
  function CreatedFiles(assetsRoot: string, req: VideoRequest, db: map<Uuid, Video>): seq<string>
  {
    if !VideoAccepted(req, db) || req.tempName.None? then []
    else
      var tempPath := TempVideoPath(assetsRoot, req.tempName.value);
      if VideoClassified(req, db) && req.fastStart != FastStartFailed(false)
      then [tempPath, Media.FastStartOutputPath(tempPath)]
      else [tempPath]
  }

  /** The key the video is published under. */
  function VideoKey(req: VideoRequest): string
    requires Media.GetVideoAspectRatio(req.probe).Ok?
  {
    Media.StorageKey(Media.Prefix(Media.GetVideoAspectRatio(req.probe).value), req.assetPath)
  }

  /** The record with its video URL pointing at the published key. */
  function WithVideoUrl(v: Video, distribution: string, req: VideoRequest): Video
    requires Media.GetVideoAspectRatio(req.probe).Ok?
  {
    v.(videoUrl := Some(Media.VideoUrl(distribution, VideoKey(req))))
  }

  // ---- the thumbnail handler's checks ----

  /** Every check before line 62 passed and the thumbnail bytes were read. */
  predicate ThumbnailRead(req: ThumbnailRequest)
  {
    req.auth.Passed() && req.multipartOk && req.upload.Some? && req.upload.value != "" && req.data.Some?
  }

  /** The thumbnail was read and the caller owns the video: the one case that calls UpdateVideo. */
  predicate ThumbnailOwner(req: ThumbnailRequest, db: map<Uuid, Video>)
  {
    ThumbnailRead(req) && Owns(req.auth, db)
  }

  /** The record with its thumbnail URL set to the inline data URL. */
  function WithThumbnail(v: Video, req: ThumbnailRequest): Video
    requires ThumbnailRead(req)
  {
    v.(thumbnailUrl := Some(ThumbnailUrl.DataUrl(req.upload.value, req.data.value)))
  }

  /**
   * The handlers' configuration (`apiConfig`) together with the outside state
   * they act on: the catalog, the bucket, the local files and the handles
   * open in the process.
   */
  class ApiConfig {
    const assetsRoot: string
    const s3Bucket: string
    const s3CfDistribution: string

    var db: map<Uuid, Video>                // the video catalog
    var objects: map<string, StoredObject>  // the objects of bucket s3Bucket
    var files: set<string>                  // files on the local disk
    var open: set<Handle>                   // handles open in the process
    ghost var updates: seq<Video>           // every UpdateVideo call, in order
    ghost var created: seq<string>          // every local file created, in order
    ghost var puts: seq<string>             // the key of every PutObject call, in order

    /** A configuration over a catalog whose rows are stored under their own ids; nothing is open yet. */
    constructor(assetsRoot: string, s3Bucket: string, s3CfDistribution: string,
                db: map<Uuid, Video>, objects: map<string, StoredObject>, files: set<string>)
      requires forall id | id in db :: db[id].id == id
      ensures Valid()
      ensures this.assetsRoot == assetsRoot && this.s3Bucket == s3Bucket && this.s3CfDistribution == s3CfDistribution
      ensures this.db == db && this.objects == objects && this.files == files
      ensures updates == [] && created == [] && puts == []
    {
      this.assetsRoot := assetsRoot;
      this.s3Bucket := s3Bucket;
      this.s3CfDistribution := s3CfDistribution;
      this.db := db;
      this.objects := objects;
      this.files := files;
      open := {};
      updates := [];
      created := [];
      puts := [];
    }

    /** Between requests no handle is open, and every row of the catalog is stored under its own id. */
    predicate Valid()
      reads this
    {
      open == {} && forall id | id in db :: db[id].id == id
    }

    /**
     * Runs the deferred calls on the way out of a handler, the last
     * registered first: every path registered for removal is gone and every
     * handle registered for closing is closed, and nothing else changes.
     */
    method RunDeferred(stack: seq<Deferred>)
      modifies this`files, this`open
      ensures forall p :: p in files <==> p in old(files) && Remove(p) !in stack
      ensures forall h :: h in open <==> h in old(open) && Close(h) !in stack
    {
      var i := |stack|;
      while i > 0
        invariant 0 <= i <= |stack|
        invariant forall p :: p in files <==> p in old(files) && Remove(p) !in stack[i..]
        invariant forall h :: h in open <==> h in old(open) && Close(h) !in stack[i..]
      {
        i := i - 1;
        assert stack[i..] == [stack[i]] + stack[i + 1..];
        match stack[i]
        case Remove(p) => files := files - {p};
        case Close(h) => open := open - {h};
      }
    }

    /** `os.CreateTemp`: a new file, open, at `path`. */
    method CreateTemp(path: string)
      modifies this`files, this`open, this`created
      ensures files == old(files) + {path} && open == old(open) + {OsFile(path)}
      ensures created == old(created) + [path]
    {
      files := files + {path};
      open := open + {OsFile(path)};
      created := created + [path];
    }

    /** `processVideoForFastStart`: ffmpeg writes `<filePath>.processing`. */
    method ProcessVideoForFastStart(filePath: string, outcome: FastStartOutcome) returns (r: Result<string>)
      modifies this`files, this`created
      ensures outcome.FastStartOk? ==> r == Ok(Media.FastStartOutputPath(filePath))
      ensures outcome.FastStartOk? ==> files == old(files) + {Media.FastStartOutputPath(filePath)}
      ensures outcome.FastStartFailed? ==> r.Err?
      ensures outcome == FastStartFailed(true) ==> files == old(files) + {Media.FastStartOutputPath(filePath)}
      ensures outcome == FastStartFailed(false) ==> files == old(files)
      ensures created == old(created) + if outcome == FastStartFailed(false) then [] else [Media.FastStartOutputPath(filePath)]
    {
      var outputPath := Media.FastStartOutputPath(filePath);
      match outcome
      case FastStartOk =>
        files := files + {outputPath};
        created := created + [outputPath];
        r := Ok(outputPath);
      case FastStartFailed(partialOutput) =>
        if partialOutput {
          files := files + {outputPath};
          created := created + [outputPath];
        }
        r := Err("ffmpeg failed");
    }

    /** `UpdateVideo`: the call is logged; the row is replaced only when it succeeds. */
    method UpdateVideo(v: Video, ok: bool)
      modifies this`db, this`updates
      ensures updates == old(updates) + [v]
      ensures db == if ok then old(db)[v.id := v] else old(db)
    {
      updates := updates + [v];
      if ok {
        db := db[v.id := v];
      }
    }

    /** `PutObject` into bucket s3Bucket. */
    method PutObject(key: string, source: string, contentType: string, ok: bool)
      modifies this`objects, this`puts
      ensures puts == old(puts) + [key]
      ensures objects == if ok then old(objects)[key := StoredObject(source, contentType)] else old(objects)
    {
      puts := puts + [key];
      if ok {
        objects := objects[key := StoredObject(source, contentType)];
      }
    }

    /** `handlerUploadVideo`. */
    method HandlerUploadVideo(req: VideoRequest) returns (resp: Response)
      requires Valid()
      // os.CreateTemp creates a file that did not exist
      requires req.tempName.Some? ==> TempVideoPath(assetsRoot, req.tempName.value) !in files
      modifies this`db, this`objects, this`files, this`open, this`updates, this`created, this`puts
      ensures Valid()
      // the check ladder, in order
      ensures req.auth.videoId.None? ==> resp == ErrorResponse(400, "Invalid ID")
      ensures req.auth.videoId.Some? && req.auth.bearer.None? ==> resp == ErrorResponse(401, "Couldn't find JWT")
      ensures req.auth.videoId.Some? && req.auth.bearer.Some? && req.auth.userId.None? ==>
                resp == ErrorResponse(401, "Couldn't validate JWT")
      ensures req.auth.Passed() && req.auth.videoId.value !in old(db) ==> resp == ErrorResponse(404, "Video not found")
      ensures req.auth.Passed() && req.auth.videoId.value in old(db) && !Owns(req.auth, old(db)) ==>
                resp == ErrorResponse(401, "Not authorized to update this video")
      ensures Owns(req.auth, old(db)) && req.upload.None? ==> resp == ErrorResponse(400, "Couldn't get video file")
      ensures Owns(req.auth, old(db)) && req.upload.Some? && req.mediaType.None? ==>
                resp == ErrorResponse(400, "Invalid Content-Type")
      ensures Owns(req.auth, old(db)) && req.upload.Some? && req.mediaType.Some? && req.mediaType.value != "video/mp4" ==>
                resp == ErrorResponse(400, "Invalid file type")
      ensures VideoAccepted(req, old(db)) && req.tempName.None? ==> resp == ErrorResponse(500, "Unable to create video file")
      ensures VideoAccepted(req, old(db)) && req.tempName.Some? && !req.copyOk ==>
                resp == ErrorResponse(500, "Unable to copy video file")
      ensures VideoAccepted(req, old(db)) && req.tempName.Some? && req.copyOk && !req.seekOk ==>
                resp == ErrorResponse(500, "Unable to seek video file")
      ensures VideoStaged(req, old(db)) && Media.GetVideoAspectRatio(req.probe).Err? ==>
                resp == ErrorResponse(500, "Unable to get video aspect ratio")
      ensures VideoClassified(req, old(db)) && req.fastStart.FastStartFailed? ==>
                resp == ErrorResponse(500, "Unable to process video for fast start")
      ensures VideoProcessed(req, old(db)) && !req.openOk ==> resp == ErrorResponse(500, "Unable to open processed video file")
      // once the processed file opens: 200, whatever PutObject and UpdateVideo did
      ensures VideoOpened(req, old(db)) ==>
                resp == JsonResponse(200, WithVideoUrl(old(db)[req.auth.videoId.value], s3CfDistribution, req))
      ensures resp.JsonResponse? <==> VideoOpened(req, old(db))
      // the record, the bucket and the catalog
      ensures resp.JsonResponse? ==> resp.video.(videoUrl := old(db)[req.auth.videoId.value].videoUrl) == old(db)[req.auth.videoId.value]
      ensures !VideoOpened(req, old(db)) ==> db == old(db) && objects == old(objects) && updates == old(updates)
      ensures VideoOpened(req, old(db)) ==> updates == old(updates) + [resp.video]
      ensures puts == old(puts) + if VideoOpened(req, old(db)) then [VideoKey(req)] else []
      ensures VideoOpened(req, old(db)) ==>
                db == if req.updateOk then old(db)[req.auth.videoId.value := resp.video] else old(db)
      ensures VideoOpened(req, old(db)) ==>
                objects == if req.putOk
                           then old(objects)[VideoKey(req) := StoredObject(Media.FastStartOutputPath(TempVideoPath(assetsRoot, req.tempName.value)), "video/mp4")]
                           else old(objects)
      // the files created: none before line 72, then the temp file, then the fast-start copy
      ensures created == old(created) + CreatedFiles(assetsRoot, req, old(db))
      // the local files
      ensures !VideoClassified(req, old(db)) ==> files == old(files)
      ensures VideoClassified(req, old(db)) && req.fastStart == FastStartFailed(false) ==> files == old(files)
      ensures VideoClassified(req, old(db)) && req.fastStart == FastStartFailed(true) ==>
                files == old(files) + {Media.FastStartOutputPath(TempVideoPath(assetsRoot, req.tempName.value))}
      ensures VideoProcessed(req, old(db)) ==>
                files == old(files) - {Media.FastStartOutputPath(TempVideoPath(assetsRoot, req.tempName.value))}
      ensures VideoAccepted(req, old(db)) && req.tempName.Some? ==> TempVideoPath(assetsRoot, req.tempName.value) !in files
    {
      // lines 24-52: authentication and ownership; nothing is created yet
      if req.auth.videoId.None? {
        return ErrorResponse(400, "Invalid ID");
      }
      var videoId := req.auth.videoId.value;
      if req.auth.bearer.None? {
        return ErrorResponse(401, "Couldn't find JWT");
      }
      if req.auth.userId.None? {
        return ErrorResponse(401, "Couldn't validate JWT");
      }
      var userId := req.auth.userId.value;
      if videoId !in db {
        return ErrorResponse(404, "Video not found");
      }
      var dbVideo := db[videoId];
      if dbVideo.userId != userId {
        return ErrorResponse(401, "Not authorized to update this video");
      }

      // lines 54-133
      resp := ReceiveVideo(req, dbVideo);
    }

    /**
     * Lines 54-133 of `handlerUploadVideo`, for the owner: the form part is
     * opened and its close deferred (line 59), its media type is checked,
     * and the upload is staged, processed and published.
     */
    method ReceiveVideo(req: VideoRequest, dbVideo: Video) returns (resp: Response)
      requires Owns(req.auth, db) && dbVideo == db[req.auth.videoId.value]
      requires Valid()
      requires req.tempName.Some? ==> TempVideoPath(assetsRoot, req.tempName.value) !in files
      modifies this`db, this`objects, this`files, this`open, this`updates, this`created, this`puts
      ensures Valid()
      ensures req.upload.None? ==> resp == ErrorResponse(400, "Couldn't get video file")
      ensures req.upload.Some? && req.mediaType.None? ==> resp == ErrorResponse(400, "Invalid Content-Type")
      ensures req.upload.Some? && req.mediaType.Some? && req.mediaType.value != "video/mp4" ==>
                resp == ErrorResponse(400, "Invalid file type")
      ensures !VideoAccepted(req, old(db)) ==>
                db == old(db) && objects == old(objects) && updates == old(updates) && files == old(files) &&
                created == old(created) && puts == old(puts)
      ensures VideoAccepted(req, old(db)) ==>
                StageOutcome(req, dbVideo, resp, old(db), old(objects), old(updates), old(files), old(created), old(puts))
    {
      // lines 54-59
      if req.upload.None? {
        return ErrorResponse(400, "Couldn't get video file");
      }
      open := open + {FormFile("video")};
      var deferred := [Close(FormFile("video"))];
      // lines 61-69
      if req.mediaType.None? {
        resp := ErrorResponse(400, "Invalid Content-Type");
      } else if req.mediaType.value != "video/mp4" {
        resp := ErrorResponse(400, "Invalid file type");
      } else {
        // lines 72-133; the calls they defer run before the one of line 59
        resp := StageAndPublish(req, dbVideo);
      }
      RunDeferred(deferred);
    }

    /**
     * What lines 72-133 answer and leave behind, for an accepted upload
     * staged under `TempVideoPath(assetsRoot, req.tempName.value)`.
     */
    ghost predicate StageOutcome(req: VideoRequest, dbVideo: Video, resp: Response,
                                 db0: map<Uuid, Video>, objects0: map<string, StoredObject>,
                                 updates0: seq<Video>, files0: set<string>, created0: seq<string>, puts0: seq<string>)
      reads this
    {
      && (req.tempName.None? ==> resp == ErrorResponse(500, "Unable to create video file") && created == created0)
      && (req.tempName.Some? && !req.copyOk ==> resp == ErrorResponse(500, "Unable to copy video file"))
      && (req.tempName.Some? && req.copyOk && !req.seekOk ==> resp == ErrorResponse(500, "Unable to seek video file"))
      && (!(req.tempName.Some? && req.copyOk && req.seekOk) ==>
            db == db0 && objects == objects0 && updates == updates0 && files == files0 && puts == puts0)
      && (req.tempName.Some? ==> TempVideoPath(assetsRoot, req.tempName.value) !in files)
      && (req.tempName.Some? && !(req.copyOk && req.seekOk) ==>
            created == created0 + [TempVideoPath(assetsRoot, req.tempName.value)])
      && (req.tempName.Some? && req.copyOk && req.seekOk ==>
            && resp == ProcessedResponse(req, dbVideo)
            && PublishEffects(req, dbVideo, TempVideoPath(assetsRoot, req.tempName.value), db0, objects0, updates0, files0,
                              created0 + [TempVideoPath(assetsRoot, req.tempName.value)], puts0))
    }

    /**
     * Lines 72-133 of `handlerUploadVideo`: the upload is staged in a temp
     * file whose removal and close are deferred (lines 78-79); they run on
     * every way out, after the calls deferred later.
     */
    method StageAndPublish(req: VideoRequest, dbVideo: Video) returns (resp: Response)
      requires VideoAccepted(req, db) && dbVideo == db[req.auth.videoId.value]
      requires forall id | id in db :: db[id].id == id
      requires req.tempName.Some? ==> TempVideoPath(assetsRoot, req.tempName.value) !in files
      requires forall h | h in open :: h.FormFile?
      modifies this`db, this`objects, this`files, this`open, this`updates, this`created, this`puts
      ensures forall id | id in db :: db[id].id == id
      ensures open == old(open)
      ensures StageOutcome(req, dbVideo, resp, old(db), old(objects), old(updates), old(files), old(created), old(puts))
    {
      // lines 72-77
      if req.tempName.None? {
        return ErrorResponse(500, "Unable to create video file");
      }
      var tempPath := TempVideoPath(assetsRoot, req.tempName.value);
      CreateTemp(tempPath);
      // lines 78-79
      var deferred := [Remove(tempPath), Close(OsFile(tempPath))];
      // lines 81-89
      if !req.copyOk {
        resp := ErrorResponse(500, "Unable to copy video file");
      } else if !req.seekOk {
        resp := ErrorResponse(500, "Unable to seek video file");
      } else {
        assert Media.FastStartOutputPath(tempPath) != tempPath;
        resp := ProcessAndPublish(req, dbVideo, tempPath);
      }
      RunDeferred(deferred);
    }

    /** The response of lines 91-133 once the upload is staged. */
    function ProcessedResponse(req: VideoRequest, dbVideo: Video): Response
    {
      if Media.GetVideoAspectRatio(req.probe).Err? then ErrorResponse(500, "Unable to get video aspect ratio")
      else if req.fastStart.FastStartFailed? then ErrorResponse(500, "Unable to process video for fast start")
      else if !req.openOk then ErrorResponse(500, "Unable to open processed video file")
      else JsonResponse(200, WithVideoUrl(dbVideo, s3CfDistribution, req))
    }

    /**
     * What lines 91-133 leave behind: the catalog, bucket and update log
     * change only once the processed file opens; the fast-start copy is gone
     * if it was made, and a partial copy of a failed run stays.
     */
    ghost predicate PublishEffects(req: VideoRequest, dbVideo: Video, tempPath: string,
                                   db0: map<Uuid, Video>, objects0: map<string, StoredObject>,
                                   updates0: seq<Video>, files0: set<string>, created0: seq<string>, puts0: seq<string>)
      reads this
    {
      var classified := Media.GetVideoAspectRatio(req.probe).Ok?;
      var processedPath := Media.FastStartOutputPath(tempPath);
      var isOpen := classified && req.fastStart.FastStartOk? && req.openOk;
      && (!isOpen ==> db == db0 && objects == objects0 && updates == updates0 && puts == puts0)
      && (isOpen ==> var published := WithVideoUrl(dbVideo, s3CfDistribution, req);
            && updates == updates0 + [published]
            && puts == puts0 + [VideoKey(req)]
            && db == (if req.updateOk then db0[dbVideo.id := published] else db0)
            && objects == (if req.putOk then objects0[VideoKey(req) := StoredObject(processedPath, "video/mp4")] else objects0))
      && (!classified ==> files == files0)
      && (classified && req.fastStart == FastStartFailed(false) ==> files == files0)
      && (classified && req.fastStart == FastStartFailed(true) ==> files == files0 + {processedPath})
      && (classified && req.fastStart.FastStartOk? ==> files == files0 - {processedPath})
      && created == created0 + if classified && req.fastStart != FastStartFailed(false) then [processedPath] else []
    }

    /**
     * Lines 91-133 of `handlerUploadVideo`: classify, make the fast-start
     * copy, whose removal is deferred at once (line 112) and whose close is
     * deferred once it opens (line 118), publish it and record its URL.
     */
    method ProcessAndPublish(req: VideoRequest, dbVideo: Video, tempPath: string) returns (resp: Response)
      requires VideoStaged(req, db) && dbVideo == db[req.auth.videoId.value]
      requires tempPath == TempVideoPath(assetsRoot, req.tempName.value)
      requires forall id | id in db :: db[id].id == id
      requires OsFile(Media.FastStartOutputPath(tempPath)) !in open
      modifies this`db, this`objects, this`files, this`open, this`updates, this`created, this`puts
      ensures forall id | id in db :: db[id].id == id
      ensures open == old(open)
      ensures resp == ProcessedResponse(req, dbVideo)
      ensures PublishEffects(req, dbVideo, tempPath, old(db), old(objects), old(updates), old(files), old(created), old(puts))
    {
      // lines 91-104
      var aspectRatio := Media.GetVideoAspectRatio(req.probe);
      if aspectRatio.Err? {
        return ErrorResponse(500, "Unable to get video aspect ratio");
      }
      var prefix := Media.Prefix(aspectRatio.value);

      // lines 107-111
      var processed := ProcessVideoForFastStart(tempPath, req.fastStart);
      if processed.Err? {
        return ErrorResponse(500, "Unable to process video for fast start");
      }
      var processedPath := processed.value;
      // line 112
      var deferred := [Remove(processedPath)];
      if !req.openOk {
        resp := ErrorResponse(500, "Unable to open processed video file");
        RunDeferred(deferred);
        return;
      }
      // line 118
      open := open + {OsFile(processedPath)};
      deferred := deferred + [Close(OsFile(processedPath))];

      // lines 120-133: publish and record; both results are ignored
      var key := Media.StorageKey(prefix, req.assetPath);
      PutObject(key, processedPath, req.mediaType.value, req.putOk);
      var videoUrl := Media.VideoUrl(s3CfDistribution, key);
      var published := dbVideo.(videoUrl := Some(videoUrl));
      UpdateVideo(published, req.updateOk);
      resp := JsonResponse(200, published);
      RunDeferred(deferred);
    }

    /** `handlerUploadThumbnail`: no local file and no object-store write. */
    method HandlerUploadThumbnail(req: ThumbnailRequest) returns (resp: Response)
      requires Valid()
      modifies this`db, this`files, this`open, this`updates
      ensures Valid() && files == old(files) && created == old(created) && puts == old(puts)
      // the checks before the bytes are read, in order
      ensures req.auth.videoId.None? ==> resp == ErrorResponse(400, "Invalid ID")
      ensures req.auth.videoId.Some? && req.auth.bearer.None? ==> resp == ErrorResponse(401, "Couldn't find JWT")
      ensures req.auth.videoId.Some? && req.auth.bearer.Some? && req.auth.userId.None? ==>
                resp == ErrorResponse(401, "Couldn't validate JWT")
      ensures req.auth.Passed() && !req.multipartOk ==> resp == ErrorResponse(400, "Unable to parse multipart form")
      ensures req.auth.Passed() && req.multipartOk && req.upload.None? ==>
                resp == ErrorResponse(400, "Couldn't get thumbnail file")
      ensures req.auth.Passed() && req.multipartOk && req.upload == Some("") ==>
                resp == ErrorResponse(400, "Missing Content-Type for thumbnail")
      ensures req.auth.Passed() && req.multipartOk && req.upload.Some? && req.upload.value != "" && req.data.None? ==>
                resp == ErrorResponse(400, "Unable to read thumbnail file")
      // the checks after reading
      ensures ThumbnailRead(req) && req.auth.videoId.value !in old(db) ==> resp == ErrorResponse(404, "Video not found")
      ensures ThumbnailRead(req) && req.auth.videoId.value in old(db) && !Owns(req.auth, old(db)) ==>
                resp == ErrorResponse(403, "Not authorized to update this video")
      ensures ThumbnailOwner(req, old(db)) && !req.updateOk ==> resp == ErrorResponse(500, "Unable to update video")
      ensures ThumbnailOwner(req, old(db)) && req.updateOk ==>
                resp == JsonResponse(200, WithThumbnail(old(db)[req.auth.videoId.value], req))
      ensures resp.JsonResponse? <==> ThumbnailOwner(req, old(db)) && req.updateOk
      // the record and the catalog: one UpdateVideo call, and only for the owner
      ensures resp.JsonResponse? ==>
                resp.video.(thumbnailUrl := old(db)[req.auth.videoId.value].thumbnailUrl) == old(db)[req.auth.videoId.value]
      ensures updates == old(updates) + if ThumbnailOwner(req, old(db)) then [WithThumbnail(old(db)[req.auth.videoId.value], req)] else []
      ensures db == if ThumbnailOwner(req, old(db)) && req.updateOk
                    then old(db)[req.auth.videoId.value := WithThumbnail(old(db)[req.auth.videoId.value], req)]
                    else old(db)
    {
      // lines 14-31
      if req.auth.videoId.None? {
        return ErrorResponse(400, "Invalid ID");
      }
      var videoId := req.auth.videoId.value;
      if req.auth.bearer.None? {
        return ErrorResponse(401, "Couldn't find JWT");
      }
      if req.auth.userId.None? {
        return ErrorResponse(401, "Couldn't validate JWT");
      }
      var userId := req.auth.userId.value;

      // lines 36-60: the multipart form and the thumbnail bytes
      if !req.multipartOk {
        return ErrorResponse(400, "Unable to parse multipart form");
      }
      if req.upload.None? {
        return ErrorResponse(400, "Couldn't get thumbnail file");
      }
      var deferred: seq<Deferred> := [];
      open := open + {FormFile("thumbnail")};
      deferred := deferred + [Close(FormFile("thumbnail"))];
      var mediaType := req.upload.value;
      if mediaType == "" {
        resp := ErrorResponse(400, "Missing Content-Type for thumbnail");
        RunDeferred(deferred);
        return;
      }
      if req.data.None? {
        resp := ErrorResponse(400, "Unable to read thumbnail file");
        RunDeferred(deferred);
        return;
      }
      var thumbnailData := req.data.value;

      // lines 62-63
      var thumbnailDataUrl := ThumbnailUrl.DataUrl(mediaType, thumbnailData);

      // lines 65-84
      if videoId !in db {
        resp := ErrorResponse(404, "Video not found");
        RunDeferred(deferred);
        return;
      }
      var dbVideo := db[videoId];
      if dbVideo.userId != userId {
        resp := ErrorResponse(403, "Not authorized to update this video");
        RunDeferred(deferred);
        return;
      }
      dbVideo := dbVideo.(thumbnailUrl := Some(thumbnailDataUrl));
      UpdateVideo(dbVideo, req.updateOk);
      if !req.updateOk {
        resp := ErrorResponse(500, "Unable to update video");
        RunDeferred(deferred);
        return;
      }
      resp := JsonResponse(200, dbVideo);
      RunDeferred(deferred);
    }
  }
}
