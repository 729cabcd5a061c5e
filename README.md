# PyPump image model

A Dafny model of the image object of PyPump, a Python client for pump.io
(`pypump/models/image.py`). It covers three parts:

- **`ImageContainer`**: the immutable record for one size variant of an image.
  It holds `url`, `width` and `height` as the server sent them, and validates nothing.
- **Decoding (`Image.unserialize`)**: turns a server response into a NEW image.
  The pure function `Decode` does the work, and the class method `Image.Unserialize`
  allocates the fresh object. The decode covers the variant slot rule: `fullImage`
  fills `original`; `image` fills `original` when that is still unset and
  `thumbnail` otherwise. It also covers the defaults (`""` for `displayName`,
  `summary` and `content`; `None` for `id` and `url`), `author` and the three
  dates (present exactly when their key is), and the errors the code raises.
- **Upload and publish (`Image.from_file`)**: the method `Image.FromFile`.
  It builds the upload headers and parameters and posts the file. It decodes
  the reply, then builds the feed envelope `{"verb": "post", "object": reply}`,
  overwrites it key by key with `serialize()`, posts that, and decodes the second reply.

How Python values are modelled:

- A JSON value is the datatype `JsonValues.Json`. A response is a
  `map<string, Json>`.
- Python's `None` and JSON `null` are the same value in Python, so attributes that
  hold JSON values use `JNull` for `None`. The other attributes use `Option`.
- A decode that raises is an `Err` value:
  - `NotSubscriptable` is the `TypeError` from `v["url"]` when the variant value is not an object.
  - `MissingUrl` is the `KeyError` when the object has no `url`.
  - `BadDate` is the date parser raising.
- The keys are checked in the order the code reads them:
  `fullImage`, `image`, `published`, `updated`, `deleted`.
- The date parser and the mime-type guesser are function parameters whose behaviour
  the model leaves open.
- The file size, the file bytes, the two transport replies and the output of
  `serialize()` are also parameters. A reply of `None` means that request raised.
- `FromFile` returns the list of requests it issued, in order.

As written, `from_file` throws away the object that `unserialize` returns,
in both places it calls it (lines 102 and 120). It is not assigned back.
The model keeps this: `Unserialize` ensures `unchanged(this)` and a `fresh`
result, and `FromFile` ensures `unchanged(this)`. So the receiver is never
updated by an upload, and `from_file` returns the receiver as it was.
Note also that line 120 decodes the whole feed reply rather than its `object`
field. The model follows the code on both points.

## Model

| member | source | states |
|---|---|---|
| `ImageModel.DecodeVariant` | pypump/models/image.py:128-132 | A variant is built exactly when the value is an object with a `url` (else a TypeError- or KeyError-like error naming the key). `url` is copied unchanged. `width`/`height` are copied when present and are `None` when absent, with no validation. |
| `ImageModel.ResolveVariants` | pypump/models/image.py:126-141 | The slot rule. Ok exactly when both variant keys are well formed, with `fullImage` checked first. If only `image` is present, `original` is built from it and `thumbnail` is absent. If both are present, `original` comes from `fullImage` and `thumbnail` from `image`. If neither is present, both slots are absent. `thumbnail` is never set without `original`. |
| `ImageModel.DateField` | pypump/models/image.py:146-148 | A date attribute is absent exactly when its key is missing. When present it is the parse of the string. A non-string value or a value the parser rejects raises. |
| `ImageModel.Decode` | pypump/models/image.py:123-154 | Decoding succeeds exactly when the response is well formed, and an error names a malformed checked key. The slots are the resolver's. `id`/`url` are copied, or `None` when missing. `displayName`/`summary`/`content` are copied, or `""` when missing. `author` and the dates are absent exactly when their key is missing, whatever the receiver held. The fresh image has no actor. |
| `ImageModel.DecodeReportsFirstMalformedKey` | pypump/models/image.py:126-148 | A failed decode reports the first malformed key in reading order. Every key read before it is well formed. |
| `ImageModel.Image.constructor` | pypump/models/image.py:57-68 | `__init__` sets the given attributes; `actor` is kept only when truthy and is `None` otherwise (`actor or self.actor`, the class-level `None`). `summary` and `author` keep their class-level `None`. `deleted` and both variants are unset. |
| `ImageModel.Image.Unserialize` | pypump/models/image.py:123-154 | Returns a fresh image whose attributes are `Decode(data)`, or that decode's error. The receiver is unchanged. Because the result is a function of the input, two decodes of the same response give equal states. |
| `Strings.Split` | pypump/models/image.py:87 | `str.split("/")` gives at least one piece. No piece contains the separator, and joining the pieces with the separator gives back the input. |
| `Strings.JoinEndsWithLast` | pypump/models/image.py:87 | The last piece ends the joined string, and when there are several pieces it is preceded by the separator. |
| `ImageModel.Basename` | pypump/models/image.py:87 | The `qqfile` name contains no `/` and is a suffix of the file name. When the file name contains a `/`, the name starts right after one, so it is the part after the last `/`. Otherwise it is the whole file name. |
| `ImageModel.Image.UploadRequest` | pypump/models/image.py:81-92 | `IsUploadRequest` holds of the result. The request is a POST of the file bytes to `/api/user/<nickname>/uploads`. Its `Content-Type` is the guess, or `application/octal-stream` when the guess is `None` or empty (Python's `or`), and `Content-Length` is the size. `qqfile` is the basename. `title` is present exactly when `display_name` is not `None` (an empty string still counts), with that value. `description` is present exactly when `content` is not `None`. No other parameter is sent. |
| `ImageModel.FeedEnvelope` | pypump/models/image.py:105-110 | `IsEnvelope` holds of the result. Its keys are `verb`, `object` and the keys of `serialize()`, and every `serialize()` key keeps its value. Otherwise `verb` is `"post"` and `object` is the raw upload reply. |
| `ImageModel.Image.FromFile` | pypump/models/image.py:79-121 | The upload request (`IsUploadRequest`) always comes first. The feed request, a POST to `/api/user/<nickname>/feed` carrying the envelope (`IsEnvelope`), is sent exactly when the upload reply arrived and decoded. A transport or decode error in either phase is returned unchanged. On success the receiver itself is returned. Both decode results are dropped, so the receiver is unchanged. |

## Left out

- HTTP transport, opening and reading the file, and `os.path.getsize` are I/O. Their results are parameters of `FromFile`.
- `mimetypes.guess_type` is a library lookup and is modelled as an uninterpreted parameter. `dateutil.parser.parse` is a foreign parser; it is uninterpreted too, and its result keeps the fields of `datetime` without a time zone.
- `Person().unserialize` is an outside collaborator. `author` keeps the raw JSON that would be handed to it, so it records only presence and the object given. `add_links` (line 145) is not modelled, and link fields are ignored.
- The mixins (`AbstractModel`, `Postable`, `Likeable`, `Shareable`, `Commentable`, `Deleteable`) and `serialize()` are not part of this model. The output of `serialize()` is an arbitrary input map.
- The `ENDPOINT` property (lines 53-55) is unused here. It formats a named placeholder with a positional argument, so it would raise if called.
- `__repr__` of both classes and the debug logging are diagnostics only.
- JSON numbers are integers. Floating-point widths or heights are not represented.
- `deleted`, `original` and `thumbnail` are modelled as `None` both where the attribute is unset and, for `deleted`, where it is set to `None` (after a decode). `deleted` is unset after `__init__`. `original` and `thumbnail` stay unset after `__init__` and after a decode without `fullImage`/`image`, and reading an unset attribute raises `AttributeError` in Python. The model does not distinguish these cases, and code that tells them apart with `hasattr` is not modelled.
- Concurrent use of one instance is not modelled. The client is single-threaded.
