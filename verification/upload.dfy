/** The multer configuration for image uploads: where files go, how they are
    named and which MIME types are let through. */
module FileUpload {
  import opened Common

  /** `MIME_TYPE_MAP`: accepted MIME type to file extension. */
  const MimeTypeMap: map<string, string> :=
    map["image/png" := "png", "image/jpeg" := "jpeg", "image/jpg" := "jpg"]

  /** The `destination` callback's answer, whatever the file. */
  const Destination := "uploads/images"

  const InvalidMimeType := "Invalid mime type!"

  /** The properties every plain object inherits from `Object.prototype`
      (section 20.1.3 of ECMA-262, plus the Annex B accessors). Each one is a
      function or an object, so it is truthy. */
  const ObjectPrototypeNames: set<string> := {
    "constructor", "hasOwnProperty", "isPrototypeOf", "propertyIsEnumerable",
    "toLocaleString", "toString", "valueOf", "__proto__",
    "__defineGetter__", "__defineSetter__", "__lookupGetter__", "__lookupSetter__"}

  /** The `(error, accept)` pair the filter hands to multer's callback. */
  datatype FilterDecision = FilterDecision(error: Option<string>, accept: bool)

  /** `!!MIME_TYPE_MAP[file.mimetype]` as written: a plain-object lookup,
      which also finds the inherited prototype members. */
  function FileFilterAsWritten(mimetype: string): (d: FilterDecision)
    ensures d.accept <==> mimetype in MimeTypeMap || mimetype in ObjectPrototypeNames
    ensures d.error.None? <==> d.accept
  {
    var isValid := mimetype in MimeTypeMap || mimetype in ObjectPrototypeNames;
    FilterDecision(if isValid then None else Some(InvalidMimeType), isValid)
  }

  /** The MIME type `constructor` — the part's Content-Type, chosen by the
      client — passes the filter as written although it is no image type. */
  lemma AsWrittenAcceptsPrototypeName()
    ensures FileFilterAsWritten("constructor").accept
    ensures "constructor" !in MimeTypeMap
  {
  }

  /** The filter as intended: the map's own entries only. */
  function FileFilter(mimetype: string): (d: FilterDecision)
    ensures d.accept <==> mimetype == "image/png" || mimetype == "image/jpeg" || mimetype == "image/jpg"
    ensures d.error.None? <==> d.accept
    ensures !d.accept ==> d.error == Some(InvalidMimeType)
  {
    var isValid := mimetype in MimeTypeMap;
    FilterDecision(if isValid then None else Some(InvalidMimeType), isValid)
  }

  /** The corrected filter accepts exactly what the written one accepts,
      except the prototype names. */
  lemma FilterAgreesOffPrototypeNames(mimetype: string)
    requires mimetype !in ObjectPrototypeNames
    ensures FileFilter(mimetype) == FileFilterAsWritten(mimetype)
  {
  }

  /** `MIME_TYPE_MAP[mimetype]` turned into text, for every type the corrected
      filter decides on: the map's extension for its own keys, `undefined` for
      any other type that is no prototype name. (For a prototype name, which
      only the filter as written lets through, the lookup yields the inherited
      member and the name gets that member's text; this is not modelled.) */
  function Extension(mimetype: string): (ext: string)
    ensures FileFilter(mimetype).accept ==> ext in {"png", "jpeg", "jpg"}
    ensures mimetype == "image/png" ==> ext == "png"
    ensures mimetype == "image/jpeg" ==> ext == "jpeg"
    ensures mimetype == "image/jpg" ==> ext == "jpg"
  {
    if mimetype in MimeTypeMap then MimeTypeMap[mimetype] else "undefined"
  }

  /** The `filename` callback: `uuid() + '.' + ext`. */
  function Filename(uuid: string, mimetype: string): (name: string)
    ensures |name| > |uuid| && name[..|uuid|] == uuid && name[|uuid|] == '.'
    ensures name[|uuid| + 1..] == Extension(mimetype)
  {
    uuid + "." + Extension(mimetype)
  }

  /** An accepted file is stored under a name ending in `.png`, `.jpeg` or `.jpg`. */
  lemma AcceptedFileHasImageSuffix(uuid: string, mimetype: string)
    requires FileFilter(mimetype).accept
    ensures exists ext :: ext in {"png", "jpeg", "jpg"} && Filename(uuid, mimetype) == uuid + "." + ext
  {
    assert Filename(uuid, mimetype) == uuid + "." + Extension(mimetype);
  }

  /** A file of the request as multer sees it: the part's MIME type and where
      the stored object can be reached. */
  datatype IncomingFile = IncomingFile(mimetype: string, location: string)

  /** What `fileUpload.single('image')` leaves for the next handler. */
  datatype Uploaded = NoFile | Stored(location: string) | UploadRejected(code: int, message: string)

  /** The upload step with the corrected filter, which the routers use: a
      refused file ends the request through the app's error handler, whose
      status is the error's code or 500. */
  function Upload(file: Option<IncomingFile>): (u: Uploaded)
    ensures file.None? <==> u.NoFile?
    ensures u.Stored? <==> file.Some? && FileFilter(file.value.mimetype).accept
    ensures u.Stored? ==> u.location == file.value.location
    ensures u.UploadRejected? ==> u.code == StatusServerError && u.message == InvalidMimeType
  {
    match file
    case None => NoFile
    case Some(f) =>
      var d := FileFilter(f.mimetype);
      if d.accept then Stored(f.location) else UploadRejected(StatusServerError, d.error.GetOr(InvalidMimeType))
  }

  /** The upload step as written, with the plain-object filter. */
  function UploadAsWritten(file: Option<IncomingFile>): (u: Uploaded)
    ensures file.None? <==> u.NoFile?
    ensures u.Stored? <==> file.Some? && (file.value.mimetype in MimeTypeMap || file.value.mimetype in ObjectPrototypeNames)
    ensures u.Stored? ==> u.location == file.value.location
    ensures u.UploadRejected? ==> u.code == StatusServerError && u.message == InvalidMimeType
  {
    match file
    case None => NoFile
    case Some(f) =>
      var d := FileFilterAsWritten(f.mimetype);
      if d.accept then Stored(f.location) else UploadRejected(StatusServerError, d.error.GetOr(InvalidMimeType))
  }

  /** The two upload steps differ only on a part whose type is a prototype
      name: the written one stores it, the corrected one refuses it. */
  lemma UploadDiffersOnlyOnPrototypeNames(file: Option<IncomingFile>)
    ensures Upload(file) != UploadAsWritten(file) <==> file.Some? && file.value.mimetype in ObjectPrototypeNames
    ensures file.Some? && file.value.mimetype in ObjectPrototypeNames ==>
      && UploadAsWritten(file) == Stored(file.value.location)
      && Upload(file) == UploadRejected(StatusServerError, InvalidMimeType)
  {
    if file.Some? && file.value.mimetype in ObjectPrototypeNames {
      assert file.value.mimetype !in MimeTypeMap;
    }
  }
}
