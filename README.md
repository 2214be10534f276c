# Tubely upload handlers: a Dafny model

This project models the two upload handlers of a small Go video service: `handlerUploadVideo`, which stages an MP4 upload in a temp file, classifies its aspect ratio with ffprobe, rewrites it for fast start with ffmpeg, puts it in an S3 bucket under `<prefix>/<asset path>` and records the CloudFront URL on the video row; and `handlerUploadThumbnail`, which stores the thumbnail inline on the row as a base64 `data:` URL.

Modules:

- `Wrappers` (wrappers.dfy): `Option` and `Result`.
- `Base64` (base64.dfy): the standard encoding of section 4 of RFC 4648 (alphabet of Table 1, `=` padding), with a decoder that inverts it.
- `Media` (media.dfy): the pure parts of `handler_upload_video.go`. These are the aspect-ratio classifier, `abs`, the prefix switch, the fast-start output path, the storage key and the video URL. It also holds the parsers that invert the key and the URL.
- `ThumbnailUrl` (thumbnail_url.dfy): the `data:<type>;base64,<payload>` URL of section 3 of RFC 2397, with a parser that inverts it.
- `Api` (api.dfy): the handlers as methods of class `ApiConfig`.
  - The class holds what the handlers change: the catalog `db`, the bucket `objects`, the local `files` and the `open` handles.
  - Three ghost logs record the calls in order: `updates` holds every `UpdateVideo` record, `created` every local file created, and `puts` every `PutObject` key. They let the contracts say what happened on the way, not only the state left at the end.
  - Every external call is an oracle field of a `VideoRequest` or `ThumbnailRequest`: an `Option`, a `bool` or a probe or ffmpeg outcome.
  - Each `defer` pushes a `Remove` or `Close` on a stack, and `RunDeferred` runs that stack on every way out.
  - Go runs the defers of lines 112 and 118 before those of lines 78-79, and those before the one of line 59. So each of `ProcessAndPublish`, `StageAndPublish` and `ReceiveVideo` runs the defers it registered before it returns, in that nesting.

Facts about the code that a reader might not expect, all of which the model keeps:

- The video handler answers 401 to a caller who does not own the video (handler_upload_video.go:50). The thumbnail handler answers 403 (handler_upload_thumbnail.go:72).
- Thumbnails are stored inline on the row as data URLs, not in the object store.
- The results of `PutObject` and `UpdateVideo` in the video handler are discarded. Once the processed file opens, the answer is 200 with the updated record, even when neither write happened.
- The result of `http.MaxBytesReader` is discarded (line 22), so no body cap is in force.
- The key always has a prefix segment, `other` included.
- ffmpeg can fail after it has started writing `<temp>.processing`. No removal is registered in that case (lines 107-112), so the partial file stays on disk. `HandlerUploadVideo` states this: `files == old(files) + {<temp>.processing}`.

## Model

| member | source | states |
|---|---|---|
| `Base64.Encode` | handler_upload_thumbnail.go:62 | The output length is 4·⌈n/3⌉. Every character is in the standard alphabet, except `=` padding, which can only be in the last two positions. |
| `Base64.EncodeChar` | handler_upload_thumbnail.go:62 | The character for a 6-bit value is in the alphabet, and decoding it gives the value back. |
| `Base64.DecodeChar` | handler_upload_thumbnail.go:62 | A helper of the model's own decoder, which the source does not have: a character has a 6-bit value exactly when it is in the alphabet, and any other character gives -1. |
| `Base64.DecodeEncode` | handler_upload_thumbnail.go:62 | Decoding the standard encoding of any byte string gives back exactly that byte string. |
| `Base64.EncodeInjective` | handler_upload_thumbnail.go:62 | Different thumbnail bytes always have different encodings. |
| `Base64.TestVectors` | handler_upload_thumbnail.go:62 | The encoder gives the seven test vectors of section 10 of RFC 4648, from "" to "Zm9vYmFy", which pins the alphabet and the bit order. |
| `ThumbnailUrl.DataUrlLayout` | handler_upload_thumbnail.go:63 | `DataUrl` builds the header `data:<type>;base64`, one comma, then a payload of 4·⌈n/3⌉ characters with no comma, so the header ends at the URL's last comma. || `ThumbnailUrl.LastIndexOf` | handler_upload_thumbnail.go:63 | A helper of the model's own data-URL parser, which the source does not have. The result is the last position of the character, or None exactly when the character does not occur. |
| `ThumbnailUrl.ParseDataUrlRoundTrip` | handler_upload_thumbnail.go:62-63 | Parsing `data:<type>;base64,<Base64(data)>` gives back the media type and the bytes, whatever the media type contains. |
| `ThumbnailUrl.DataUrlInjective` | handler_upload_thumbnail.go:62-63 | Two thumbnail URLs are equal only when both the media type and the bytes are equal. |
| `Media.Abs` | handler_upload_video.go:180-185 | The result is non-negative and equals x or -x. |
| `Media.AspectRatio` | handler_upload_video.go:165-177 | The classifier never fails: it gives "16:9", "9:16" or "other". |
| `Media.ToleranceAsIntegers` | handler_upload_video.go:169-175 | For a non-zero height, \|w/h − p/q\| < 0.01 holds exactly when 100·\|q·w − p·h\| < q·\|h\|, for both target ratios. |
| `Media.AspectRatioByIntegers` | handler_upload_video.go:165-177 | A zero height gives "other". Otherwise the result is "16:9" iff 100·\|9w − 16h\| < 9\|h\|. It is "9:16" iff that test fails and 100·\|16w − 9h\| < 16\|h\|. In every other case it is "other", so 16:9 is tested first. |
| `Media.ScaledResolutions` | handler_upload_video.go:165-177 | For every k ≠ 0: 16k×9k gives 16:9 and landscape, 9k×16k gives 9:16 and portrait, and k×k gives other. |
| `Media.StandardResolutions` | handler_upload_video.go:96-104 | 1920×1080 gives landscape, 1080×1920 portrait, and 1×1 and 0×0 other. |
| `Media.GetVideoAspectRatio` | handler_upload_video.go:137-178 | The result is Ok exactly when the probe ran and found at least one stream, and the first stream is the one classified. An empty stream list gives "no streams found". |
| `Media.Prefix` | handler_upload_video.go:96-104 | "16:9" maps to landscape and "9:16" to portrait, each in both directions. Anything else maps to other. No prefix contains `/`. |
| `Media.FastStartOutputPath` | handler_upload_video.go:188 | The output path is strictly longer than the input path and begins with it, so it is a different file. The added suffix has no `/`, so the file is in the same directory. |
| `Media.IndexOf` | handler_upload_video.go:120 | A helper of the model's own key parser, which the source does not have. The result is the first position of the character, or None exactly when the character does not occur. |
| `Media.SplitStorageKey` | handler_upload_video.go:120 | For a prefix without `/`, splitting the key `StorageKey` builds at its first `/` gives back the prefix and the asset path. |
| `Media.KeyOfVideoUrlRoundTrip` | handler_upload_video.go:128 | Stripping `https://<distribution>/` from the URL `VideoUrl` builds gives back exactly the key. |
| `Media.PublishedLocation` | handler_upload_video.go:120-128 | The published URL determines the key, and the key's first segment is the prefix of the upload's label. |
| `Api.TempVideoPathPattern` | handler_upload_video.go:73 | The file `TempVideoPath` names is `<assetsRoot>/tmp/tubely-upload-<random>.mp4`: the random part takes the place of the pattern's `*`. |
| `Api.TempVideoPathInjective` | handler_upload_video.go:73 | Different random parts name different temp files. |
| `Api.ApiConfig.constructor` | handler_upload_video.go:21 | A configuration over a catalog whose rows are stored under their own ids starts `Valid()`, with no handle open and empty logs. |
| `Api.ApiConfig.CreateTemp` | handler_upload_video.go:73 | The new file exists and is open, and it is logged as created. Nothing else changes. |
| `Api.ApiConfig.RunDeferred` | handler_upload_video.go:59-118 | After the deferred calls run, each path registered for removal is gone and each registered handle is closed. Nothing else changes. |
| `Api.ApiConfig.ProcessVideoForFastStart` | handler_upload_video.go:187-194 | On success it returns `<input>.processing`, and that file exists and is logged as created. On failure it returns an error, and that file exists and is logged only if ffmpeg left partial output. |
| `Api.ApiConfig.PutObject` | handler_upload_video.go:121-126 | Each call is logged. On success the bucket maps the key to the processed file and its content type. Otherwise the bucket is unchanged. |
| `Api.ApiConfig.UpdateVideo` | handler_upload_video.go:130 | Each call is logged. The row with the record's id is replaced only when the call succeeds. |
| `Api.ApiConfig.HandlerUploadVideo` | handler_upload_video.go:21-134 | Checks run in source order with status codes 400, 401, 401, 404, 401 (non-owner), 400, 400, 400, then 500 for each later step. The files created, in order, are exactly `CreatedFiles`. No file is created unless the upload was accepted and `os.CreateTemp` succeeded, so none is created up to line 69. Then the temp file is created, and after it the fast-start copy whenever the probe classified the upload and ffmpeg wrote output, in full or in part. Up to the opening of the processed file, no `PutObject` or `UpdateVideo` call is made. Once the processed file opens, each is called once and the answer is always 200 with the row, where only `videoUrl` has changed. The bucket entry is written only if `PutObject` succeeds, and the catalog row only if `UpdateVideo` succeeds. The temp file is gone on every exit, and no handle stays open. A complete fast-start copy is removed. A partial copy left by a failed ffmpeg run stays on disk. |
| `Api.ApiConfig.ReceiveVideo` | handler_upload_video.go:54-133 | A missing form file or a media type that does not parse or is not `video/mp4` gives 400. It changes nothing and creates, puts and updates nothing. Otherwise the staging outcome holds, and the form part's handle is closed. |
| `Api.ApiConfig.StageAndPublish` | handler_upload_video.go:72-133 | If creation fails the answer is 500 and no file is created. If copy or seek fails the answer is 500, only the temp file was created, and nothing remains. Otherwise the processing outcome holds. In both cases the temp file is removed. |
| `Api.ApiConfig.ProcessAndPublish` | handler_upload_video.go:91-133 | Probe, fast-start and open failures each give 500, with no `PutObject` or `UpdateVideo` call. A partial fast-start output stays on disk. Once the processed file opens, `PutObject` is called with `prefix/assetPath` and `UpdateVideo` with the row carrying the URL of that key. The bucket holds the object only if `PutObject` succeeds, the catalog holds the new row only if `UpdateVideo` succeeds, and the answer is 200 either way. A complete fast-start copy is removed on every way out. |
| `Api.ApiConfig.HandlerUploadThumbnail` | handler_upload_thumbnail.go:13-85 | Checks run in source order: 400, 401, 401, 400 (multipart), 400 (no file), 400 (empty Content-Type), 400 (read), then 404, 403 and 500. Any non-empty Content-Type is accepted. No file is created and nothing is put in the bucket. `UpdateVideo` is called at most once, and only for the owner. Success is 200 with the row, where only `thumbnailUrl` has changed, to `data:<type>;base64,<Base64(bytes)>`. |

## Left out

- HTTP machinery: `PathValue`, `ParseMultipartForm`, `FormFile` and the JSON response bodies. The model keeps only the status code, the error message and the returned record.
- `uuid.Parse`, `auth.GetBearerToken`, `auth.ValidateJWT` and `mime.ParseMediaType` are not part of this model. Their results are oracle fields of the request, and `jwtSecret` is therefore not modelled.
- Running ffprobe and ffmpeg, and unmarshalling ffprobe's JSON (handler_upload_video.go:139-158, 189). The probe is an oracle outcome (failure or a stream list) and fast start is success or failure.
- The bytes of files: copying, seeking and the content of the temp and processed files. Each of these steps is only success or failure.
- `getAssetPath` is not part of this model. The asset path is an oracle field, so whether keys are unique cannot be stated.
- The S3 client and the CloudFront host: `PutObject` is success or failure on the bucket map.
- `GetVideo` is a lookup in the catalog map. Any other database error, which the source also answers with 404, is not modelled.
- `UpdateVideo` is success or failure on the catalog map. Timestamps the database may set are not modelled.
- `Media.AspectRatio`: computes with exact rationals, not IEEE-754 `float64`. The result can differ from Go's only when w/h lies within rounding error of a tolerance boundary, or when |w| or |h| is 2^53 or more.
- `Media.AspectRatio`: a zero height gives "other", standing for Go's ±Inf or NaN, where both comparisons are false.
- `http.MaxBytesReader` at line 22 has its result discarded, so there is no cap to model.
- The `os.MkdirAll` result at line 72 is ignored, and directories are not modelled.
- `filepath.Join` is modelled as joining with `/`, without lexical clean-up.
- `HandlerUploadVideo`: requires that the path `os.CreateTemp` picks does not exist yet, which the OS call guarantees by exclusive creation.
- `Api.ApiConfig.RunDeferred`: runs the stack last-first, as Go does. Its contract does not state the order, because removal and close commute in the modelled state.
- Concurrency between requests and last-writer-wins on the row: the model is sequential, one request at a time.
- The `fmt.Println` log line of the thumbnail handler (handler_upload_thumbnail.go:34).
- `Base64.Decode` is the model's own partner and is not used by the source. It accepts non-zero pad bits, and only the round trip is stated about it.
