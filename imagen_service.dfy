/** `ImagenService`: one image per prompt from the image model, stored in the
    bucket, with a single retry on an English prompt. */
module Imagen {
  import opened Wrappers
  import opened ByteSeq
  import opened Storage

  const NoImagesReturned := "Imagen no regresó imágenes"
  const NoResults := "Imagen no generó resultados"
  const NoBytes := "No pude extraer bytes de la imagen devuelta por Imagen"

  /** One generated image as the SDK exposes it. An attribute is `None` when it
      is missing or `None`; the converters are the bytes their method returns. */
  datatype GeneratedImage = GeneratedImage(
    imageBytes: Option<Bytes>,
    privateImageBytes: Option<Bytes>,
    toBytes: Option<Bytes>,
    privateToBytes: Option<Bytes>)

  /** The arguments of one `generate_images` call. */
  datatype ImageRequest = ImageRequest(prompt: string, numberOfImages: nat, addWatermark: bool, safetyFilterLevel: string)

  /** The image model: the images of the response (`Empty` when the response
      carries none), or the message of the exception it raises. */
  type ImageModel = ImageRequest -> Outcome<seq<GeneratedImage>>

  /** `image_bytes or _image_bytes`: empty bytes are falsy and give way. */
  function DirectBytes(img: GeneratedImage): Option<Bytes> {
    if img.imageBytes.Some? && img.imageBytes.value != [] then img.imageBytes else img.privateImageBytes
  }

  /** `to_bytes or _to_bytes`: a bound method is always truthy. */
  function ConverterBytes(img: GeneratedImage): Option<Bytes> {
    if img.toBytes.Some? then img.toBytes else img.privateToBytes
  }

  /** `_extract_image_bytes`: the bytes of the first image. */
  function ExtractImageBytes(images: seq<GeneratedImage>): Result<Bytes> {
    if images == [] then Failure(NoImagesReturned)
    else if DirectBytes(images[0]).Some? then Success(DirectBytes(images[0]).value)
    else if ConverterBytes(images[0]).Some? then Success(ConverterBytes(images[0]).value)
    else Failure(NoBytes)
  }

  /** Extraction looks at the first image only and takes the first attribute
      in the order `image_bytes` (when non-empty), `_image_bytes`, `to_bytes`,
      `_to_bytes`; it fails exactly when there is no image or none of them is
      there, an empty `image_bytes` counting as absent. */
  lemma ExtractContract(images: seq<GeneratedImage>)
    ensures images == [] ==> ExtractImageBytes(images) == Failure(NoImagesReturned)
    ensures images != [] ==>
      var img := images[0];
      && (ExtractImageBytes(images).Success? <==>
            (img.imageBytes.Some? && img.imageBytes.value != []) || img.privateImageBytes.Some?
            || img.toBytes.Some? || img.privateToBytes.Some?)
      && (ExtractImageBytes(images).Failure? ==> ExtractImageBytes(images).error == NoBytes)
      && (img.imageBytes.Some? && img.imageBytes.value != [] ==> ExtractImageBytes(images) == Success(img.imageBytes.value))
      && ((img.imageBytes.None? || img.imageBytes.value == []) && img.privateImageBytes.Some? ==>
            ExtractImageBytes(images) == Success(img.privateImageBytes.value))
      && (ExtractImageBytes(images).Success? ==>
            Some(ExtractImageBytes(images).value) in [img.imageBytes, img.privateImageBytes, img.toBytes, img.privateToBytes])
  {
  }

  /** `out_path`, or `retodia/images/<user_id>.<format>` when it is missing or empty. */
  function ObjectPath(userId: string, outPath: Option<string>, format: string): (p: string)
    ensures outPath.Some? && outPath.value != [] ==> p == outPath.value
    ensures outPath.None? || outPath.value == [] ==> p == "retodia/images/" + userId + "." + format
  {
    if outPath.None? || outPath.value == [] then "retodia/images/" + userId + "." + format else outPath.value
  }

  /** What one `generate_image_for_user` call did: the request sent to the
      model, the object written (if any), and the URI or the error raised. */
  datatype Attempt = Attempt(request: ImageRequest, upload: Option<Upload>, result: Result<string>)

  /** `generate_image_for_user` with its defaults (one image, no watermark,
      `block_some`). */
  function GenerateImageForUser(model: ImageModel, store: BlobStore, bucket: string,
                                userId: string, prompt: string, outPath: Option<string>, format: string): Attempt
  {
    var request := ImageRequest(prompt, 1, false, "block_some");
    var path := ObjectPath(userId, outPath, format);
    match model(request)
    case Fail(msg) => Attempt(request, None, Failure(msg))
    case Empty => Attempt(request, None, Failure(NoResults))
    case Ok(images) =>
      if images == [] then Attempt(request, None, Failure(NoResults))
      else
        match ExtractImageBytes(images)
        case Failure(e) => Attempt(request, None, Failure(e))
        case Success(data) =>
          var contentType := "image/" + format;
          Attempt(request, Some(Upload(bucket, path, data, contentType)), UploadBytes(store, bucket, data, path, contentType))
  }

  /** The prompt goes to the model unchanged; nothing is stored unless the
      model returned an image whose bytes could be read, and then they are
      stored under the object path as `image/<format>`; the call succeeds
      exactly when that write succeeds, with the object's `gs://` address. */
  lemma GenerateContract(model: ImageModel, store: BlobStore, bucket: string,
                         userId: string, prompt: string, outPath: Option<string>, format: string)
    ensures
      var a := GenerateImageForUser(model, store, bucket, userId, prompt, outPath, format);
      var reply := model(ImageRequest(prompt, 1, false, "block_some"));
      && a.request.prompt == prompt
      && ((reply.Empty? || reply == Ok([])) ==> a == Attempt(a.request, None, Failure(NoResults)))
      && (reply.Fail? ==> a.upload.None? && a.result == Failure(reply.msg))
      && (a.upload.Some? <==> reply.Ok? && reply.value != [] && ExtractImageBytes(reply.value).Success?)
      && (a.upload.Some? ==>
            a.upload.value == Upload(bucket, ObjectPath(userId, outPath, format), ExtractImageBytes(reply.value).value, "image/" + format))
      && (a.result.Success? <==> a.upload.Some? && store(a.upload.value).None?)
      && (a.result.Success? ==> a.result.value == ObjectUri(bucket, ObjectPath(userId, outPath, format)))
  {
  }

  /** `generate_image_with_translation_fallback`: the Spanish prompt first,
      and on any error one more call with the English prompt and the same
      object path. The attempts made, in order. */
  function GenerateWithFallback(model: ImageModel, store: BlobStore, bucket: string,
                                userId: string, promptEs: string, promptEn: string, outPath: Option<string>): (r: seq<Attempt>)
    ensures 1 <= |r| <= 2
  {
    var first := GenerateImageForUser(model, store, bucket, userId, promptEs, outPath, "png");
    if first.result.Success? then [first]
    else [first, GenerateImageForUser(model, store, bucket, userId, promptEn, outPath, "png")]
  }

  /** The outcome of the fallback: that of its last attempt. */
  function FallbackResult(attempts: seq<Attempt>): Result<string>
    requires attempts != []
  {
    attempts[|attempts| - 1].result
  }

  /** The English prompt is used only after the Spanish one failed, both go to
      the same object path, and the fallback succeeds exactly when one of the
      two attempts does. */
  lemma FallbackContract(model: ImageModel, store: BlobStore, bucket: string,
                         userId: string, promptEs: string, promptEn: string, outPath: Option<string>)
    ensures
      var r := GenerateWithFallback(model, store, bucket, userId, promptEs, promptEn, outPath);
      && r[0] == GenerateImageForUser(model, store, bucket, userId, promptEs, outPath, "png")
      && (|r| == 1 <==> r[0].result.Success?)
      && (|r| == 2 ==> r[1] == GenerateImageForUser(model, store, bucket, userId, promptEn, outPath, "png"))
      && (FallbackResult(r).Success? <==> exists i :: 0 <= i < |r| && r[i].result.Success?)
      && (forall i :: 0 <= i < |r| && r[i].upload.Some? ==> r[i].upload.value.path == ObjectPath(userId, outPath, "png"))
  {
    var r := GenerateWithFallback(model, store, bucket, userId, promptEs, promptEn, outPath);
    GenerateContract(model, store, bucket, userId, promptEs, outPath, "png");
    GenerateContract(model, store, bucket, userId, promptEn, outPath, "png");
    if |r| == 2 {
      assert !r[0].result.Success?;
    }
  }
}
