/** The image model of the pump.io client: size variants, decoding a server
    response into an image, and the two-request upload-and-publish flow. */
module ImageModel {
  import opened Wrappers
  import opened JsonValues
  import Strings

  /** What the date parser produces: the fields of a Python `datetime`
      (time zone left out). */
  datatype DateTime = DateTime(year: int, month: int, day: int,
                               hour: int, minute: int, second: int, microsecond: int)

  /** The date parser, left uninterpreted: `None` where it raises. */
  type DateParser = string -> Option<DateTime>

  /** The mime-type guesser, left uninterpreted: the first component of its
      answer, `None` where it cannot tell. */
  type TypeGuesser = string -> Option<string>

  /** One rendition of an image. Nothing is validated: whatever the response
      holds under `url`, `width` and `height` is kept (`JNull` for a missing
      dimension, as `dict.get` gives `None`). */
  datatype ImageContainer = ImageContainer(url: Json, width: Json, height: Json)

  /** Why decoding raised, and for which input key. */
  datatype DecodeError =
    | NotSubscriptable(field: string)  // the variant is not an object: TypeError
    | MissingUrl(field: string)        // the variant object has no `url`: KeyError
    | BadDate(field: string)           // the date parser raised

  /** The two variant slots of an image. */
  datatype Variants = Variants(original: Option<ImageContainer>, thumbnail: Option<ImageContainer>)

  /** Every attribute of an `Image`. Json-valued attributes use `JNull` for
      `None`; an `Option` is `None` where the attribute is `None` or unset. */
  datatype ImageState = ImageState(
    id: Json, url: Json, displayName: Json, summary: Json, content: Json,
    actor: Option<Json>, author: Option<Json>,
    published: Option<DateTime>, updated: Option<DateTime>, deleted: Option<DateTime>,
    original: Option<ImageContainer>, thumbnail: Option<ImageContainer>)

  /** The keys whose values decoding can reject, in the order they are read. */
  const CheckedFields: seq<string> := ["fullImage", "image", "published", "updated", "deleted"]

  /** A variant key is acceptable when absent or when it holds an object with a `url`. */
  predicate VariantOk(data: Object, key: string) {
    key !in data || (data[key].JObj? && "url" in data[key].fields)
  }

  /** A date key is acceptable when absent or when it holds a string the parser accepts. */
  predicate DateOk(data: Object, key: string, parse: DateParser) {
    key !in data || (data[key].JStr? && parse(data[key].s).Some?)
  }

  predicate FieldOk(data: Object, key: string, parse: DateParser) {
    if key == "fullImage" || key == "image" then VariantOk(data, key) else DateOk(data, key, parse)
  }

  /** `ImageContainer(url=v["url"], height=v.get("height"), width=v.get("width"))`
      for the value `v` found under `field`. */
  function DecodeVariant(field: string, v: Json): (r: Result<ImageContainer, DecodeError>)
    ensures r.Ok? <==> v.JObj? && "url" in v.fields
    ensures !v.JObj? ==> r == Err(NotSubscriptable(field))
    ensures v.JObj? && "url" !in v.fields ==> r == Err(MissingUrl(field))
    ensures r.Ok? ==> r.value.url == v.fields["url"]
    ensures r.Ok? && "width" in v.fields ==> r.value.width == v.fields["width"]
    ensures r.Ok? && "width" !in v.fields ==> r.value.width == JNull
    ensures r.Ok? && "height" in v.fields ==> r.value.height == v.fields["height"]
    ensures r.Ok? && "height" !in v.fields ==> r.value.height == JNull
  {
    match v
    case JObj(fields) =>
      if "url" in fields then
        Ok(ImageContainer(fields["url"], GetOr(fields, "width", JNull), GetOr(fields, "height", JNull)))
      else
        Err(MissingUrl(field))
    case _ => Err(NotSubscriptable(field))
  }

  /** The variant under `key`, if the key is present. */
  function OptionalVariant(data: Object, key: string): (r: Result<Option<ImageContainer>, DecodeError>) {
    if key !in data then Ok(None)
    else
      var c :- DecodeVariant(key, data[key]);
      Ok(Some(c))
  }

  /** The slot rule: `fullImage` fills `original`; `image` fills `original`
      when that is still unset and `thumbnail` otherwise. */
  function ResolveVariants(data: Object): (r: Result<Variants, DecodeError>)
    ensures r.Ok? <==> VariantOk(data, "fullImage") && VariantOk(data, "image")
    ensures !VariantOk(data, "fullImage") ==> r.Err? && r.error.field == "fullImage"
    ensures VariantOk(data, "fullImage") && !VariantOk(data, "image") ==> r.Err? && r.error.field == "image"
    ensures r.Ok? ==> (r.value.original.None? <==> "fullImage" !in data && "image" !in data)
    ensures r.Ok? ==> (r.value.thumbnail.Some? <==> "fullImage" in data && "image" in data)
    ensures r.Ok? && r.value.thumbnail.Some? ==> r.value.original.Some?
    ensures r.Ok? && "fullImage" in data ==>
      r.value.original == Some(DecodeVariant("fullImage", data["fullImage"]).value)
    ensures r.Ok? && "fullImage" !in data && "image" in data ==>
      r.value.original == Some(DecodeVariant("image", data["image"]).value)
    ensures r.Ok? && "fullImage" in data && "image" in data ==>
      r.value.thumbnail == Some(DecodeVariant("image", data["image"]).value)
  {
    var full :- OptionalVariant(data, "fullImage");
    var image :- OptionalVariant(data, "image");
    if image.None? then Ok(Variants(full, None))
    else if full.None? then Ok(Variants(image, None))
    else Ok(Variants(full, image))
  }

  /** A date attribute: `parse(data[key]) if key in data else None`. */
  function DateField(data: Object, key: string, parse: DateParser): (r: Result<Option<DateTime>, DecodeError>)
    ensures r.Ok? <==> DateOk(data, key, parse)
    ensures r.Err? ==> r.error == BadDate(key)
    ensures r.Ok? ==> (r.value.None? <==> key !in data)
    ensures r.Ok? && key in data ==> r.value == parse(data[key].s)
  {
    if key !in data then Ok(None)
    else match data[key]
      case JStr(s) => if parse(s).Some? then Ok(parse(s)) else Err(BadDate(key))
      case _ => Err(BadDate(key))
  }

  /** The response is acceptable to `unserialize`: every checked key is well formed. */
  predicate WellFormed(data: Object, parse: DateParser) {
    && VariantOk(data, "fullImage") && VariantOk(data, "image")
    && DateOk(data, "published", parse) && DateOk(data, "updated", parse) && DateOk(data, "deleted", parse)
  }

  /** `Image.unserialize`: a fresh image built from a response object. */
  function Decode(data: Object, parse: DateParser): (r: Result<ImageState, DecodeError>)
    ensures r.Ok? <==> WellFormed(data, parse)
    ensures r.Err? ==> r.error.field in CheckedFields && !FieldOk(data, r.error.field, parse)
    // the variant slots are the resolver's
    ensures r.Ok? ==> ResolveVariants(data) == Ok(Variants(r.value.original, r.value.thumbnail))
    // `id` and `url` are taken as they are, absent meaning None
    ensures r.Ok? && "id" in data ==> r.value.id == data["id"]
    ensures r.Ok? && "id" !in data ==> r.value.id == JNull
    ensures r.Ok? && "url" in data ==> r.value.url == data["url"]
    ensures r.Ok? && "url" !in data ==> r.value.url == JNull
    // the display strings default to the empty string
    ensures r.Ok? && "displayName" in data ==> r.value.displayName == data["displayName"]
    ensures r.Ok? && "displayName" !in data ==> r.value.displayName == JStr("")
    ensures r.Ok? && "summary" in data ==> r.value.summary == data["summary"]
    ensures r.Ok? && "summary" !in data ==> r.value.summary == JStr("")
    ensures r.Ok? && "content" in data ==> r.value.content == data["content"]
    ensures r.Ok? && "content" !in data ==> r.value.content == JStr("")
    // author and the dates are absent exactly when their key is
    ensures r.Ok? ==> (r.value.author.None? <==> "author" !in data)
    ensures r.Ok? && "author" in data ==> r.value.author == Some(data["author"])
    ensures r.Ok? ==> (r.value.published.None? <==> "published" !in data)
    ensures r.Ok? && "published" in data ==>
      data["published"].JStr? && r.value.published == parse(data["published"].s)
    ensures r.Ok? ==> (r.value.updated.None? <==> "updated" !in data)
    ensures r.Ok? && "updated" in data ==>
      data["updated"].JStr? && r.value.updated == parse(data["updated"].s)
    ensures r.Ok? ==> (r.value.deleted.None? <==> "deleted" !in data)
    ensures r.Ok? && "deleted" in data ==>
      data["deleted"].JStr? && r.value.deleted == parse(data["deleted"].s)
    // the fresh instance is built without an actor
    ensures r.Ok? ==> r.value.actor.None?
  {
    var variants :- ResolveVariants(data);
    var author := if "author" in data then Some(data["author"]) else None;
    var published :- DateField(data, "published", parse);
    var updated :- DateField(data, "updated", parse);
    var deleted :- DateField(data, "deleted", parse);
    Ok(ImageState(
      id := GetOr(data, "id", JNull),
      url := GetOr(data, "url", JNull),
      displayName := GetOr(data, "displayName", JStr("")),
      summary := GetOr(data, "summary", JStr("")),
      content := GetOr(data, "content", JStr("")),
      actor := None,
      author := author,
      published := published, updated := updated, deleted := deleted,
      original := variants.original, thumbnail := variants.thumbnail))
  }

  /** The first `n` checked keys are well formed. */
  predicate CheckedBefore(data: Object, parse: DateParser, n: nat)
    requires n <= |CheckedFields|
  {
    forall j :: 0 <= j < n ==> FieldOk(data, CheckedFields[j], parse)
  }

  /** A failed decode reports the FIRST malformed key, in the order the
      source reads them. */
  lemma DecodeReportsFirstMalformedKey(data: Object, parse: DateParser)
    ensures Decode(data, parse).Err? ==>
      exists i :: 0 <= i < |CheckedFields| && CheckedFields[i] == Decode(data, parse).error.field
                  && CheckedBefore(data, parse, i) && !FieldOk(data, CheckedFields[i], parse)
  {
  }

  /** `filename.split("/")[-1]`: the part after the last `/`, or the whole
      name when it has none. */
  function Basename(filename: string): (name: string)
    ensures '/' !in name
    ensures |name| <= |filename| && filename[|filename| - |name|..] == name
    ensures '/' in filename ==> |name| < |filename| && filename[|filename| - |name| - 1] == '/'
    ensures '/' !in filename ==> name == filename
  {
    var parts := Strings.Split(filename, '/');
    Strings.JoinEndsWithLast(parts, '/');
    parts[|parts| - 1]
  }

  /** The generic binary type used when the guesser has no (or an empty) answer. */
  const FallbackType := "application/octal-stream"

  /** What an HTTP request carried. */
  datatype Body = RawBytes(bytes: seq<bv8>) | JsonBody(json: Object)
  datatype Request = Request(verb: string, path: string, headers: Object, params: Object, body: Body)

  /** Why the upload workflow raised. */
  datatype PublishError = Transport(path: string) | Undecodable(error: DecodeError)

  function UploadPath(nickname: string): (path: string) { "/api/user/" + nickname + "/uploads" }
  function FeedPath(nickname: string): (path: string) { "/api/user/" + nickname + "/feed" }

  /** The feed envelope: `verb` and `object`, then overwritten key by key by
      `serialize()`, whose every key keeps its value. */
  predicate IsEnvelope(data: Object, upload: Object, serialized: Object) {
    && data.Keys == {"verb", "object"} + serialized.Keys
    && (forall k :: k in serialized ==> data[k] == serialized[k])
    && ("verb" !in serialized ==> data["verb"] == JStr("post"))
    && ("object" !in serialized ==> data["object"] == JObj(upload))
  }

  /** The envelope of `from_file`: `{"verb": "post", "object": upload}`,
      then `data.update(serialized)`. */
  method FeedEnvelope(upload: Object, serialized: Object) returns (data: Object)
    ensures IsEnvelope(data, upload, serialized)
  {
    data := map["verb" := JStr("post"), "object" := JObj(upload)];
    data := data + serialized;
  }

  /** An image object of the client. */
  class Image {
    var id: Json
    var url: Json
    var displayName: Json
    var summary: Json
    var content: Json
    var actor: Option<Json>
    var author: Option<Json>
    var published: Option<DateTime>
    var updated: Option<DateTime>
    var deleted: Option<DateTime>
    var original: Option<ImageContainer>
    var thumbnail: Option<ImageContainer>

    /** All attributes at once. */
    function State(): ImageState
      reads this
    {
      ImageState(id, url, displayName, summary, content, actor, author,
                 published, updated, deleted, original, thumbnail)
    }

    /** `Image.__init__`: the given attributes, except that a falsy `actor`
        falls back to the class-level `None` (`actor or self.actor`);
        `summary` and `author` keep their class-level `None`; `deleted` and
        the variants are unset. */
    constructor (id: Json, url: Json, displayName: Json, content: Json,
                 actor: Option<Json>, published: Option<DateTime>, updated: Option<DateTime>)
      ensures State() == ImageState(id, url, displayName, JNull, content,
                                    if actor.Some? && Truthy(actor.value) then actor else None, None,
                                    published, updated, None, None, None)
    {
      this.id := id;
      this.displayName := displayName;
      this.content := content;
      this.actor := if actor.Some? && Truthy(actor.value) then actor else None;  // `actor or self.actor`
      this.url := url;
      this.published := published;
      this.updated := updated;
      summary := JNull;
      author := None;
      deleted := None;
      original := None;
      thumbnail := None;
    }

    /** `Image.unserialize`: a NEW image whose attributes are `Decode(data)`;
        the receiver is left as it was. */
    method Unserialize(data: Object, parse: DateParser) returns (r: Result<Image, DecodeError>)
      ensures r.Err? <==> Decode(data, parse).Err?
      ensures r.Err? ==> r.error == Decode(data, parse).error
      ensures r.Ok? ==> fresh(r.value) && r.value.State() == Decode(data, parse).value
      ensures unchanged(this)
    {
      var decoded := Decode(data, parse);
      if decoded.Err? {
        return Err(decoded.error);
      }
      var s := decoded.value;
      var image := new Image(s.id, JNull, JNull, JNull, None, None, None);
      image.original, image.thumbnail := s.original, s.thumbnail;
      image.author := s.author;
      image.published, image.updated, image.deleted := s.published, s.updated, s.deleted;
      image.displayName, image.summary := s.displayName, s.summary;
      image.url, image.content := s.url, s.content;
      return Ok(image);
    }

    /** What the upload request of `from_file` carries (lines 81-100): a POST
        of the file bytes to the uploads endpoint; `Content-Type` is the guess,
        or the fallback when the guess is `None` or empty; `Content-Length` is
        the size; `qqfile` is the basename, and `title` and `description` are
        sent exactly when `display_name` and `content` are not `None`. */
    ghost predicate IsUploadRequest(req: Request, nickname: string, filename: string,
                                    guessType: TypeGuesser, size: nat, bytes: seq<bv8>)
      reads this
    {
      var guess := guessType(filename);
      && req.verb == "POST" && req.path == UploadPath(nickname) && req.body == RawBytes(bytes)
      && req.headers == map["Content-Type" := JStr(if guess.Some? && guess.value != "" then guess.value else FallbackType),
                            "Content-Length" := JNum(size)]
      && req.params.Keys <= {"qqfile", "title", "description"}
      && "qqfile" in req.params && req.params["qqfile"] == JStr(Basename(filename))
      && ("title" in req.params <==> displayName != JNull)
      && ("title" in req.params ==> req.params["title"] == displayName)
      && ("description" in req.params <==> content != JNull)
      && ("description" in req.params ==> req.params["description"] == content)
    }

    /** The upload request of `from_file`: headers, then the parameters
        dictionary with its conditional inserts. */
    method UploadRequest(nickname: string, filename: string, guessType: TypeGuesser,
                         size: nat, bytes: seq<bv8>) returns (req: Request)
      ensures IsUploadRequest(req, nickname, filename, guessType, size, bytes)
    {
      var guessed := guessType(filename);
      var mimetype := if guessed.Some? && guessed.value != "" then guessed.value else FallbackType;
      var headers := map["Content-Type" := JStr(mimetype), "Content-Length" := JNum(size)];

      var params := map["qqfile" := JStr(Basename(filename))];
      if displayName != JNull {
        params := params["title" := displayName];
      }
      if content != JNull {
        params := params["description" := content];
      }
      req := Request("POST", UploadPath(nickname), headers, params, RawBytes(bytes));
    }

    /** `Image.from_file`: upload the file, then post it to the feed.
        The file system and the transport are inputs: `size` and `bytes` are
        what the file system reports, `uploadReply` and `feedReply` what the
        two requests return (`None` where the request raises), `serialized`
        what `self.serialize()` returns. `sent` lists the requests issued. */
    method FromFile(nickname: string, filename: string, guessType: TypeGuesser,
                    size: nat, bytes: seq<bv8>, uploadReply: Option<Object>,
                    serialized: Object, feedReply: Option<Object>, parse: DateParser)
      returns (sent: seq<Request>, r: Result<Image, PublishError>)
      // the upload request always goes out first
      ensures 1 <= |sent| <= 2
      ensures IsUploadRequest(sent[0], nickname, filename, guessType, size, bytes)
      // the feed request goes out exactly when the upload succeeded and its reply decoded
      ensures |sent| == 2 <==> uploadReply.Some? && Decode(uploadReply.value, parse).Ok?
      ensures uploadReply.None? ==> r == Err(Transport(UploadPath(nickname)))
      ensures uploadReply.Some? && Decode(uploadReply.value, parse).Err? ==>
        r == Err(Undecodable(Decode(uploadReply.value, parse).error))
      // the feed request carries the envelope built from the raw upload reply
      ensures |sent| == 2 ==>
        && sent[1] == Request("POST", FeedPath(nickname), map[], map[], sent[1].body)
        && sent[1].body.JsonBody? && IsEnvelope(sent[1].body.json, uploadReply.value, serialized)
      ensures |sent| == 2 && feedReply.None? ==> r == Err(Transport(FeedPath(nickname)))
      ensures |sent| == 2 && feedReply.Some? && Decode(feedReply.value, parse).Err? ==>
        r == Err(Undecodable(Decode(feedReply.value, parse).error))
      ensures |sent| == 2 && feedReply.Some? && Decode(feedReply.value, parse).Ok? ==> r == Ok(this)
      // both decode results are dropped: the receiver is not updated
      ensures unchanged(this)
    {
      var upload := UploadRequest(nickname, filename, guessType, size, bytes);
      sent := [upload];
      if uploadReply.None? {
        return sent, Err(Transport(UploadPath(nickname)));
      }
      var image := uploadReply.value;
      var uploaded := Unserialize(image, parse);
      if uploaded.Err? {
        return sent, Err(Undecodable(uploaded.error));
      }

      var data := FeedEnvelope(image, serialized);
      sent := sent + [Request("POST", FeedPath(nickname), map[], map[], JsonBody(data))];
      if feedReply.None? {
        return sent, Err(Transport(FeedPath(nickname)));
      }
      var published := Unserialize(feedReply.value, parse);
      if published.Err? {
        return sent, Err(Undecodable(published.error));
      }
      return sent, Ok(this);
    }
  }
}
