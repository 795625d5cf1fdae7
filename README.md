# Image upload Worker: dispatch, watermark directive and delivery URLs

This project models the decision logic of `worker.js`, a single Cloudflare
Worker that takes a multipart upload (`image`, `type`), asks Cloudflare Images
to store the image with a watermark overlay directive, and answers with JSON
carrying the image id and two delivery URLs (`productfull`, `productthumb`).

The handler is modelled as a total, pure function
`Handler.Handle(verb, form, accounts, reply)`:

- `verb` is the request's HTTP method (`method` is a Dafny keyword);
- `form` is the outcome of `request.formData()`: the `image` and `type` fields
  (each absent, a text value or a file), or the message of the exception it threw;
- `accounts` holds the three ambient account globals as opaque strings;
- `reply` is the host's answer to the upload: `Succeeded(id)`,
  `Rejected(firstMessage)` (`success` false) or `Threw(message)` (the request
  or reading its JSON failed). It is read only when the upload is made.

Modules, following the source:

- `Config`: the `config` object literal. It holds the one-entry catalog
  (`product`: full size 1920x1080, thumbnail 300x300) and the watermark settings
  (opacity 0.5, scale 0.3, offset (10, 10)). It also models the JavaScript
  property lookup `config.image_types[type]`, including the names every object
  inherits from `Object.prototype`.
- `JsMath`: `Math.round` on exact rationals. It rounds to the nearest integer
  and sends halves toward +infinity.
- `Directive`: the `metadata` draw directive. It has one entry whose width is
  `Math.round(1920 * 0.3) = 576`.
- `Upload`: what `uploadToCloudflareImages` does after its network call. It
  splits on success or failure and derives the delivery URLs. `ImageIdOf`, the
  inverse of the URL construction, is the partner the URL properties are stated
  with.
- `Handler`: the `fetch` handler. `Dispatch` covers everything decided before
  the upload. `Finish` maps the host's reply to a response. `Handle` composes
  the two.

JavaScript semantics made explicit:

- `!file || !type` is JavaScript truthiness. An absent field and an empty text
  value are falsy. A file is always truthy, even an empty one.
- A file in the `type` field is used as the property key `"[object File]"`.
- A `type` that is present but is not `product` makes
  `config.image_types[type].full_size.width` throw a TypeError. The handler's
  `catch` answers 500 with that error's message. For a name inherited from
  `Object.prototype` (`toString`, `__proto__`, ...) the lookup finds a member
  with no `full_size`, so the throw comes one step later, at `.width`.
- The TypeError messages are the V8 engine's wording. They are not written in
  the source.

Two consequences of the code worth stating on their own:

- A `type` that is present but is not `product` is answered with 500, not 400
  (`Handler.UnknownTypeIsServerError`).
- The watermark is never composited or fetched here. The code sends a single
  remote draw directive with a fixed corner offset of (10, 10).

## Model

| member | source | states |
|---|---|---|
| JsMath.Round | worker.js:61 | `Math.round(n/d)` is the integer within half a unit of n/d, with halves going up: 2n - d < 2dr <= 2n + d |
| JsMath.RoundUnique | worker.js:61 | that bracket has exactly one integer solution, so `Round` is the only rounding meeting it |
| JsMath.RoundedScaleAtMostWidth | worker.js:48-61 | scaling a width by a fraction of at most 1 and rounding gives a width between 0 and the original |
| Config.LookupImageType | worker.js:40-45 | `config.image_types[key]` is the catalog entry exactly for `product` (full width 1920); it is an inherited member exactly for the `Object.prototype` names; otherwise it is undefined |
| Directive.OverlayWidth | worker.js:61 | the overlay width is the scaled full width rounded half-up, and for a scale of at most 1 it lies in [0, full width] |
| Directive.BuildMetadata | worker.js:54-66 | the directive builds exactly for key `product`: one draw entry with the watermark url, opacity 0.5, width 576 and x = y = 10, and metadata `type` equal to the key; any other key fails with the TypeError message of the property read that fails |
| Directive.ProductOverlayWidth | worker.js:42-61 | for the catalog's 1920 and scale 0.3, 576 is the one integer within half a pixel (halves up) of 576.0, and it does not exceed 1920 |
| Upload.DeliveryUrl | worker.js:111-112 | a delivery URL is the delivery host, then the account id, `/`, exactly as many characters as the image id has, `/` and the variant name; the image id itself is read back by `ImageIdOfDeliveryUrl` |
| Upload.ImageIdOf | worker.js:110-112 | whatever image id it reads from a URL rebuilds that URL exactly |
| Upload.ImageIdOfDeliveryUrl | worker.js:110-112 | reading the image id back out of a delivery URL gives the id it was built from |
| Upload.DeliveryUrlInjective | worker.js:110-112 | for one account and variant, two delivery URLs are equal if and only if their image ids are |
| Upload.UrlsFor | worker.js:110-112 | both URLs carry the given image id (recoverable by `ImageIdOf`) and share everything up to the final segment; that segment is `productfull` in one and `productthumb` in the other; the two URLs differ |
| Upload.UploadResult | worker.js:105-114 | the result is a success exactly when the host reports success, and then it holds the URLs for the returned id; a rejection becomes the error `"Upload thất bại: "` + the first remote message; an exception keeps its message |
| Upload.RejectionKeepsHostMessage | worker.js:106-108 | the rejection error starts with the fixed prefix, and what follows it is the host's first message verbatim |
| Handler.Truthy | worker.js:27 | a form field passes the `!file` / `!type` test exactly when it is present and is not the empty text value; a file always passes |
| Handler.PropertyKey | worker.js:61 | a text value is its own key and a file becomes `"[object File]"`: the key is `product` exactly for the text value `product`, and it names an `Object.prototype` member exactly for a text value naming one |
| Handler.FileName | worker.js:73 | `file.name` is defined exactly when the `image` field is a file, and then it is that file's name |
| Handler.Dispatch | worker.js:11-66 | OPTIONS gives 204 with no body; any method other than POST gives 405; a failed form parse gives 500 with its message; a falsy `image` or `type` gives 400; a truthy type other than `product` gives 500 with the message of the failing read: `.width` for a name inherited from `Object.prototype`, `.full_size` otherwise, a file included; the upload is made exactly for POST with a truthy `image` and type `product`, carrying the 576-wide directive |
| Handler.Finish | worker.js:69-87 | after the upload: 200 exactly on success, with a body echoing the file name, type, image id and both derived URLs; 500 carrying the prefixed remote message on rejection; 500 carrying the exception message otherwise |
| Handler.Handle | worker.js:3-88 | every response carries the CORS header set. Its status is one of 200, 204, 400, 405, 500, and each status holds exactly when its branch condition does (204 iff OPTIONS, 405 iff not OPTIONS/POST, 400 iff a falsy field, 200 iff POST, truthy image, type `product` and host success). There is no body exactly on 204 and an error body exactly on 400/405/500. On 200 the image id is recoverable from both URLs. After an upload the response is `Finish`'s: on a host rejection 500 with the prefixed remote message, on an exception 500 with its message; before an upload it is `Dispatch`'s answer |
| Handler.EarlyAnswerIgnoresReply | worker.js:11-32 | an answer given before the upload does not depend on the host's reply: the upload is not made |
| Handler.UnknownTypeIsServerError | worker.js:40-87 | a truthy `type` other than `product` gets 500, not 400, with the message of the failing property read |
| Handler.DistinctImagesDistinctUrls | worker.js:69-114 | successful answers for different image ids have different full URLs and different thumbnail URLs |

## Left out

- The `fetch` to the Images API is not modelled: its URL, the bearer-token header, `FormData` assembly and `response.json()` (worker.js:91-105). The host's reply is an input.
- `Request`/`Response` objects, multipart parsing and JSON serialisation are not modelled. A response is a status, a header list and a body datatype. A `fileName` of `None` is the field JSON leaves out.
- A reply whose `success` is false but whose `errors[0].message` is unreadable throws a TypeError. That case is folded into `Threw`. A successful reply without `result.id` is not modelled.
- Floating point is not modelled. 0.3 and 0.5 are exact fractions, and `Math.round` is taken on exact values. For 1920 * 0.3 both give 576.
- `async`/`await` is not modelled: the steps are sequential, so the model is synchronous.
- The model assumes the three account names (`CLOUDFLARE_ACCOUNT_ID`, `CLOUDFLARE_DELIVERY_ACCOUNT_ID`, `CLOUDFLARE_API_TOKEN`) are bound when the `config` literal is built (worker.js:34-39). The file uses the module Worker format (`export default { fetch }`), where deployment bindings arrive as an `env` argument, not as globals. Unless the names are bound globally some other way, reading them throws a ReferenceError. The `catch` then answers 500 with that error's message for every POST with truthy fields, before the type lookup. `Handler.Handle`'s "200 iff ..." holds only when the names are bound.
- `accountId` and `apiToken` are carried in `Config.Accounts` but used only by the upload call, which is not modelled.
