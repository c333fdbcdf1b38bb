# RESTfulCore in Dafny

RESTfulCore is a small Swift client library for JSON REST services. A
`Connection` holds a root URL and a diagnostic log (`info`). It builds request
URLs from path parts and offers list, get, post, put and delete operations.
Each operation comes in two forms: a suspendable (`async`) form and a form
that reports through a completion handler. Each operation decides for itself
which HTTP status codes succeed and which notes go into the log. The typed
objects it returns are built from JSON objects through a per-type
construction capability, `init(with:)`. A paged list is decoded into a
`RESTObjectList` envelope. A `MultipartRequest` serialises a
multipart/form-data body (RFC 7578, section 4, with the delimiters of
RFC 2046, section 5.1.1).

This project models that core:

- `wrappers.dfy`, `json.dfy`: `Option`/`Result`, and a JSON value type with
  the casts the library applies (`as? Int64`, `as? String`, `as? Bool`,
  `as? [String: Any]`, `as? [[String: Any]]`, `as? [String]`). It also has the
  loop that builds one typed object per element.
- `decimal.dfy`: the decimal rendering of status codes inside notes, and its
  inverse. With the inverse, "the note names the code" becomes a statement
  the model can prove.
- `utf8.dfy`: `Data.append(_ string:encoding:)` over UTF-8 and ASCII, with a
  decoder and the round trip.
- `outcomes.dfy`: one function per operation. Each function is the
  operation's status and decode decision, written branch for branch. It
  yields the result and the notes for a suspendable operation, or the
  sequence of `completion` calls and the notes for a handler operation.
  `ClassOf` is the documented status table (200/201 with a body, 202/204
  without one, everything else failure).
- `connection.dfy`:
  - `Url`: the URL builder's specification and its lemmas.
  - `Connection`: a class with `rootPath` and `info`. Its methods build the
    URL with the builder's loop, reset the log, and append the decision's
    notes one `setInfo` at a time.
- `rest_object_list.dfy`: the paged envelope, a class whose fields start at
  their defaults and are overwritten by `init(with:)`.
- `multipart.dfy`: the multipart buffer, a class with a byte buffer that only
  grows. It is proved against the serialisation of the list of fields added
  so far.
- `player.dfy`: the typed object of the repository's tests. This covers its
  initialisers, its encoding, its `==` as written, and the field equality it
  evidently intends.
- `variants.dfy`: lemmas comparing the operations with each other and with
  the status table.
- `scenarios.dfy`: the repository's get-player examples and the paged
  envelope example.

The network exchange is an input. `Exchange` is what `urlSession.data(...)`
returned or threw. `Delivery` is what a `dataTask` completion handler
receives. Whether `URL(string:)` accepted the URL and whether `JSONEncoder`
encoded the model are boolean inputs. `JSONSerialization`'s verdict on a body
is a `Payload`: either `Unparseable` or a parsed JSON value.

In these places the model follows the code rather than the comments around
it:
- `buildUrlString` does not append a query string. The `query` operation
  that would need one is commented out (Sources/RESTfulCore/Connection.swift:322-379).
- The paged `list` ignores `page` and `perPage`.
- A part that starts with "//" loses only its first slash.
- The doc-comment example (Sources/RESTfulCore/Connection.swift:62-67)
  shows no trailing slash, but the code always appends one.
- The FIXME at Sources/RESTfulCore/Connection.swift:10-14 lists 200, 201,
  202 and 204 as the codes to handle, but the operations treat them
  differently. 202/204 do not always record a note. The suspendable `Bool` forms of post
  and put, the post `Bool` handler, and both delete forms (on 204) succeed
  without one. The put `Bool` handler records the no-object note even on 200.
- `delete` refuses 202 in both its forms.
- `get` refuses 201.

## Model

| member | source | states |
|---|---|---|
| Url.WithTrailingSlash | Sources/RESTfulCore/Connection.swift:70 | a "/" is appended exactly when the text does not already end with one |
| Url.StripLeadingSlash | Sources/RESTfulCore/Connection.swift:73-74 | a part starting with "/" loses exactly that one character; any other part is kept |
| Url.Segment | Sources/RESTfulCore/Connection.swift:72-75 | what one part adds once the text ends in "/": the part without its leading slash, closed by "/" only when it is non-empty and does not already end with one |
| Url.BuildUrlShape | Sources/RESTfulCore/Connection.swift:69-79 | the URL always starts with the root path and always ends with "/" |
| Url.BuildUrlAppend | Sources/RESTfulCore/Connection.swift:72-75 | one more part extends the URL by exactly that part's segment |
| Url.BuildUrlIsJoin | Sources/RESTfulCore/Connection.swift:69-79 | the URL equals the root closed by "/", followed by every part's segment in order |
| Url.EmptyPartAddsNothing | Sources/RESTfulCore/Connection.swift:72-75 | an empty part or a lone "/" leaves the URL unchanged |
| Url.TestBuildUrlExample | Tests/RESTfulCoreTests/RESTfulCoreTests.swift:12-23 | root "https://www.trustee13.com/" with parts "/api/controller/", "" and "12" gives ".../api/controller/12/" |
| Connection.Reset | Sources/RESTfulCore/Connection.swift:86-88 | resetting empties a present log and leaves a nil log nil |
| Connection.Appended | Sources/RESTfulCore/Connection.swift:81-84 | appending notes creates the log if it is nil; appending no notes changes nothing |
| Connection.OperationLog | Sources/RESTfulCore/Connection.swift:86-88 | after any operation the log holds exactly that operation's notes, or stays nil when it was nil and there were none |
| Connection.Connection.constructor | Sources/RESTfulCore/Connection.swift:40-48 | the root path is the given base path and the log is nil |
| Connection.Connection.BuildUrlString | Sources/RESTfulCore/Connection.swift:69-79 | the loop computes `BuildUrl(rootPath, parts)` |
| Connection.Connection.SetInfo | Sources/RESTfulCore/Connection.swift:81-84 | the log becomes its old contents (empty if nil) plus the value |
| Connection.Connection.ResetInfo | Sources/RESTfulCore/Connection.swift:86-88 | the log becomes `Reset` of the old log |
| Connection.Connection.Note | Sources/RESTfulCore/Connection.swift:81-84 | successive `setInfo` calls leave `Appended(old log, notes)` |
| Connection.Connection.ListAsync | Sources/RESTfulCore/Connection.swift:147-189 | the URL is built from the path; result and log are those of `Outcomes.ListAsync` |
| Connection.Connection.GetAsync | Sources/RESTfulCore/Connection.swift:236-270 | the URL is built from path and id (nil id as ""); result and log are those of `Outcomes.GetAsync` |
| Connection.Connection.PostObjectAsync | Sources/RESTfulCore/Connection.swift:551-601 | the URL is built from the path; result and log are those of `Outcomes.PostObjectAsync` |
| Connection.Connection.PostBoolAsync | Sources/RESTfulCore/Connection.swift:616-654 | the same with `Outcomes.PostBoolAsync` |
| Connection.Connection.PutObjectAsync | Sources/RESTfulCore/Connection.swift:784-838 | the URL is built from path and id; result and log are those of `Outcomes.PutObjectAsync` |
| Connection.Connection.PutBoolAsync | Sources/RESTfulCore/Connection.swift:839-878 | the same with `Outcomes.PutBoolAsync` |
| Connection.Connection.DeleteBoolAsync | Sources/RESTfulCore/Connection.swift:969-996 | the same with `Outcomes.DeleteBoolAsync` |
| Connection.Connection.DeleteObjectAsync | Sources/RESTfulCore/Connection.swift:998-1036 | the same with `Outcomes.DeleteObjectAsync` |
| Connection.Connection.ListCallback | Sources/RESTfulCore/Connection.swift:96-145 | the completion calls and the log are those of `Outcomes.ListCallback` |
| Connection.Connection.ListPageCallback | Sources/RESTfulCore/Connection.swift:191-234 | a success call carries a fresh envelope built by `init(with:)` from the body object; the other calls and the log are those of `Outcomes.ListPageCallback` |
| Connection.Connection.GetCallback | Sources/RESTfulCore/Connection.swift:272-320 | calls and log are those of `Outcomes.GetCallback` |
| Connection.Connection.PostObjectCallback | Sources/RESTfulCore/Connection.swift:402-467 | calls and log are those of `Outcomes.PostObjectCallback` |
| Connection.Connection.PostBoolCallback | Sources/RESTfulCore/Connection.swift:487-534 | calls and log are those of `Outcomes.PostBoolCallback` |
| Connection.Connection.PutObjectCallback | Sources/RESTfulCore/Connection.swift:658-729 | calls and log are those of `Outcomes.PutObjectCallback` |
| Connection.Connection.PutBoolCallback | Sources/RESTfulCore/Connection.swift:731-782 | calls and log are those of `Outcomes.PutBoolCallback` |
| Connection.Connection.DeleteBoolCallback | Sources/RESTfulCore/Connection.swift:880-913 | calls and log are those of `Outcomes.DeleteBoolCallback` |
| Connection.Connection.DeleteObjectCallback | Sources/RESTfulCore/Connection.swift:915-967 | calls and log are those of `Outcomes.DeleteObjectCallback` |
| Outcomes.StatusNotesNameCode | Sources/RESTfulCore/Connection.swift:247 | each status note contains the code's decimal text, and the code parses back exactly from the note's tail |
| Outcomes.ObjectOf | Sources/RESTfulCore/Connection.swift:252 | the `as? [String: Any]` cast succeeds exactly on a JSON object |
| Outcomes.ObjectsOf | Sources/RESTfulCore/Connection.swift:167 | the `as? [[String: Any]]` cast succeeds exactly on an array of objects |
| Outcomes.ListAsync | Sources/RESTfulCore/Connection.swift:147-189 | yields elements exactly when the URL parses, the status is 200 and the body is an array of objects, and then one `T(with:)` per element with no note; a bad URL, a non-200 status (nil status as 0) and the other failures leave one note; a thrown transport error leaves none |
| Outcomes.GetAsync | Sources/RESTfulCore/Connection.swift:236-270 | yields `T(with:)` of the body exactly for 200 with an object body; every other status is refused with a note naming it |
| Outcomes.PostObjectAsync | Sources/RESTfulCore/Connection.swift:551-601 | decodes exactly for 200/201 with an object body; 202/204 give nil with the no-object note; other codes give the "Failed, Status Code" note; an encoding failure or a thrown error gives nil with its own note |
| Outcomes.PostBoolAsync | Sources/RESTfulCore/Connection.swift:616-654 | true exactly when encoded, returned, and the status is in the table; every failure leaves one note |
| Outcomes.PutObjectAsync | Sources/RESTfulCore/Connection.swift:784-838 | as for post, with the put notes |
| Outcomes.PutBoolAsync | Sources/RESTfulCore/Connection.swift:839-878 | true exactly when encoded, returned, and the status is in the table |
| Outcomes.DeleteBoolAsync | Sources/RESTfulCore/Connection.swift:969-996 | true exactly for 200, 201 and 204; 202 and all else fail with a note naming the code |
| Outcomes.DeleteObjectAsync | Sources/RESTfulCore/Connection.swift:998-1036 | 204 yields `T()`; 200/201 decode an object body; everything else gives nil with one note |
| Outcomes.ListCallback | Sources/RESTfulCore/Connection.swift:96-145 | completes once with the elements exactly for 200 with an array of objects; completes twice on an unparseable 200 body and never on a 200 body that is not an array of objects |
| Outcomes.ListCallbackOnce | Sources/RESTfulCore/Connection.swift:118-137 | the corrected list handler completes exactly once in every case, successfully exactly when the as-written one succeeds |
| Outcomes.ListPageCallback | Sources/RESTfulCore/Connection.swift:191-234 | the same decisions as the list handler, with a JSON object body that is handed on to the envelope |
| Outcomes.GetCallback | Sources/RESTfulCore/Connection.swift:272-320 | completes once; success exactly for 200 with an object body; only a transport error is passed through as itself |
| Outcomes.PostObjectCallback | Sources/RESTfulCore/Connection.swift:402-467 | completes once; succeeds with no object on 202/204, and on 200/201 when the body is absent (no object) or a JSON object (that object decoded); a 200/201 body that is not JSON or not an object fails; every failure carries "See Info" and one note |
| Outcomes.PostBoolCallback | Sources/RESTfulCore/Connection.swift:487-534 | completes once; `true` exactly when encoded, without error, and the status is in the table |
| Outcomes.PutObjectCallback | Sources/RESTfulCore/Connection.swift:658-729 | completes once; unlike post, an empty body fails; a failed status quotes the body as UTF-8 |
| Outcomes.PutBoolCallback | Sources/RESTfulCore/Connection.swift:731-782 | completes once and always leaves one note, the no-object note even on success |
| Outcomes.DeleteBoolCallback | Sources/RESTfulCore/Connection.swift:880-913 | completes once; success exactly for 200, 201 and 204 |
| Outcomes.DeleteObjectCallback | Sources/RESTfulCore/Connection.swift:915-967 | completes once; 204, and 200/201 without data, yield `T()`; 200/201 with an object body decode it |
| Variants.PostPutBoolAgree | Sources/RESTfulCore/Connection.swift:616-654 | post and put `Bool` agree on success for every input; their notes differ only for a thrown error |
| Variants.ObjectImpliesBool | Sources/RESTfulCore/Connection.swift:551-601 | an object from post/put implies the `Bool` form succeeds, and post and put yield the same object |
| Variants.DeleteRefusesAccepted | Sources/RESTfulCore/Connection.swift:969-996 | on 202, post and put succeed while both delete forms fail with a note ending in "202" |
| Variants.GetRefusesCreated | Sources/RESTfulCore/Connection.swift:246-249 | on 201 with an object body, get returns nil and notes the code while post, put and delete decode it |
| Variants.FailedStatusNamed | Sources/RESTfulCore/Connection.swift:147-1036 | every code outside the table fails all eight suspendable operations (list, get, post and put in both result forms, delete in both) with a note naming the code |
| Variants.GetFormsAgree | Sources/RESTfulCore/Connection.swift:272-320 | the handler form of get succeeds exactly when the suspendable form yields an object, with the same object |
| Variants.ListFormsAgree | Sources/RESTfulCore/Connection.swift:96-189 | the list handler's single success matches the suspendable list; its zero or double completions occur only where that yields nil |
| Variants.ListOnceCorrects | Sources/RESTfulCore/Connection.swift:118-137 | the corrected handler differs from the written one only where that one does not complete exactly once |
| Variants.ListCompletesTwiceOrNever | Sources/RESTfulCore/Connection.swift:118-137 | an unparseable 200 body completes twice; a 200 body that is any JSON object, or an array holding a non-object, completes never |
| Variants.ListOnceMatchesAsync | Sources/RESTfulCore/Connection.swift:96-189 | the corrected handler succeeds exactly when the suspendable list does, with the same elements |
| Variants.BoolFormsAgree | Sources/RESTfulCore/Connection.swift:880-996 | handler and suspendable forms of post, put and delete `Bool` report the same success |
| Variants.PostObjectFormsAgree | Sources/RESTfulCore/Connection.swift:402-601 | every object the suspendable post yields is the handler's single success, and the handler succeeds otherwise only without an object on 202/204 |
| Json.Field | Tests/RESTfulCoreTests/Player.swift:33-34 | a key lookup finds a value exactly when the key is present |
| Json.AsObject | Sources/RESTfulCore/Connection.swift:252 | `as? [String: Any]` succeeds exactly on a JSON object and yields its members |
| Json.AsString | Tests/RESTfulCoreTests/Player.swift:34 | `as? String` succeeds exactly on a JSON string and yields it |
| Json.FieldInt64 | Tests/RESTfulCoreTests/Player.swift:33 | `with["key"] as? Int64` is the stored integer when it fits 64 bits, else nil |
| Json.FieldString | Tests/RESTfulCoreTests/Player.swift:34 | `with["key"] as? String` is the stored string, or nil |
| Json.FieldObjects | Sources/RESTfulCore/RESTObjectList.swift:25 | `with["list"] as? [[String: Any]]` yields the members of each element, in order, exactly when all elements are objects |
| Json.AsInt64 | Tests/RESTfulCoreTests/Player.swift:33 | `as? Int64` succeeds exactly on integers in the 64-bit range |
| Json.AsObjectArray | Sources/RESTfulCore/RESTObjectList.swift:25 | `as? [[String: Any]]` succeeds exactly on arrays of objects, keeping their order |
| Json.AsStringArray | Sources/RESTfulCore/RESTObjectList.swift:37 | `as? [String]` succeeds exactly on arrays of strings, keeping their order |
| Json.FieldBool | Sources/RESTfulCore/RESTObjectList.swift:34 | `with["key"] as? Bool` is the stored boolean, or nil |
| Json.DecodeAll | Sources/RESTfulCore/Connection.swift:171-176 | one typed object per element, the k-th built by `T(with:)` from the k-th element |
| Json.DecodeEach | Sources/RESTfulCore/RESTObjectList.swift:26-28 | the loop computes `DecodeAll`: one `T(with:)` per element, in order |
| Decimal.Digits | Sources/RESTfulCore/Connection.swift:247 | the decimal text of a status code is non-empty, all digits, with no leading zero |
| Decimal.Dec | Sources/RESTfulCore/Connection.swift:247 | a negative number, and only a negative one, renders with a leading "-" |
| Decimal.DigitsRoundTrip | Sources/RESTfulCore/Connection.swift:247 | the digits read back as the number |
| Decimal.DecRoundTrip | Sources/RESTfulCore/Connection.swift:247 | a rendered code reads back exactly |
| Decimal.DecInjective | Sources/RESTfulCore/Connection.swift:247 | different codes render differently |
| Utf8.EncodeChar | Sources/RESTfulCore/MultipartRequest.swift:19 | a character encodes to one to four bytes, and to one byte exactly when it is below U+0080 |
| Utf8.EncodeCharFrames | Sources/RESTfulCore/MultipartRequest.swift:19 | each character's bytes form one well-framed UTF-8 sequence that reads back as its code point |
| Utf8.Encoded | Sources/RESTfulCore/MultipartRequest.swift:19 | `string.data(using:)` always succeeds for UTF-8 and succeeds for ASCII exactly on ASCII text |
| Utf8.Encode | Sources/RESTfulCore/MultipartRequest.swift:19 | every character encodes to at least one byte |
| Utf8.EncodeAppend | Sources/RESTfulCore/MultipartRequest.swift:19 | encoding distributes over concatenation |
| Utf8.EncodeAscii | Sources/RESTfulCore/MultipartRequest.swift:19 | ASCII text encodes to one byte per character |
| Utf8.Appended | Sources/RESTfulCore/MultipartRequest.swift:14-24 | `Data.append(string)` keeps the data as a prefix and adds exactly the encoded bytes, or nothing when the text cannot be encoded |
| Utf8.DecodeEncode | Sources/RESTfulCore/MultipartRequest.swift:19 | decoding the UTF-8 encoding of any text gives the text back |
| Multipart.FormBytesSnoc | Sources/RESTfulCore/MultipartRequest.swift:50-72 | adding a field appends exactly that field's bytes |
| Multipart.FormBytesConcat | Sources/RESTfulCore/MultipartRequest.swift:50-72 | the bytes of two runs of fields are the bytes of each, in order |
| Multipart.FormBytesPrefix | Sources/RESTfulCore/MultipartRequest.swift:50-72 | the buffer only grows: earlier bytes are never changed |
| Multipart.TextFieldBytes | Sources/RESTfulCore/MultipartRequest.swift:55-58 | a value part is the delimiter line, the disposition line, a blank line, then the value and CRLF |
| Multipart.FileFieldBytes | Sources/RESTfulCore/MultipartRequest.swift:67-71 | a file part is the delimiter line, the disposition with file name, the content type, a blank line, the raw bytes and CRLF |
| Multipart.FieldStartsWithDelimiter | Sources/RESTfulCore/MultipartRequest.swift:38-40 | every part that adds bytes opens with "--boundary" CRLF |
| Multipart.MultipartRequest.constructor | Sources/RESTfulCore/MultipartRequest.swift:33-36 | a new request keeps the boundary and has an empty buffer and no fields |
| Multipart.MultipartRequest.AppendString | Sources/RESTfulCore/MultipartRequest.swift:14-24 | the buffer gains the UTF-8 bytes of the text |
| Multipart.MultipartRequest.AppendBoundarySeparator | Sources/RESTfulCore/MultipartRequest.swift:38-40 | the buffer gains "--boundary" CRLF |
| Multipart.MultipartRequest.AppendSeparator | Sources/RESTfulCore/MultipartRequest.swift:42-44 | the buffer gains CRLF |
| Multipart.MultipartRequest.Add | Sources/RESTfulCore/MultipartRequest.swift:50-59 | the field is recorded and the buffer stays the serialisation of all fields; a nil value adds no bytes |
| Multipart.MultipartRequest.AddFile | Sources/RESTfulCore/MultipartRequest.swift:61-72 | the field is recorded and the buffer stays the serialisation of all fields, now ending with the file part |
| Multipart.MultipartRequest.Header | Sources/RESTfulCore/MultipartRequest.swift:74-76 | the header is "multipart/form-data; boundary=" followed by exactly the boundary |
| Multipart.MultipartRequest.Body | Sources/RESTfulCore/MultipartRequest.swift:78-82 | the body is the fields' serialisation closed by "--boundary--", and the buffer is a prefix of it |
| Multipart.FreshBody | Sources/RESTfulCore/MultipartRequest.swift:78-82 | a request with no fields has only the close delimiter as its body |
| Multipart.NilValueAddsNothing | Sources/RESTfulCore/MultipartRequest.swift:54 | a text field with a nil value leaves the serialisation unchanged |
| RestObjectList.RequiredInt64 | Sources/RESTfulCore/RESTObjectList.swift:31-33 | a forced `as! Int64` yields the stored integer |
| RestObjectList.ListItems | Sources/RESTfulCore/RESTObjectList.swift:25-29 | the elements are those of "list" when it is an array of objects, otherwise none |
| RestObjectList.Succeeded | Sources/RESTfulCore/RESTObjectList.swift:34 | `succeeded` is true exactly when the key holds `true` |
| RestObjectList.InfoOf | Sources/RESTfulCore/RESTObjectList.swift:35-38 | `info` is replaced by the server's strings only when the key is present |
| RestObjectList.RESTObjectList.constructor | Sources/RESTfulCore/RESTObjectList.swift:13-18 | `init()` leaves the defaults 0, 0, 10, [], true, [] |
| RestObjectList.RESTObjectList.FromJson | Sources/RESTfulCore/RESTObjectList.swift:20-39 | a nil map keeps the defaults; otherwise every field is what the JSON says, one `T(with:)` per list element |
| RestObjectList.NoCrossCheck | Sources/RESTfulCore/RESTObjectList.swift:25-31 | an envelope may report 5 records while holding none |
| Player.Empty | Tests/RESTfulCoreTests/Player.swift:19-22 | both fields nil |
| Player.WithId | Tests/RESTfulCoreTests/Player.swift:24-28 | the identifier set, the name nil |
| Player.FromJson | Tests/RESTfulCoreTests/Player.swift:30-35 | each field is set exactly when its key holds a value of its type, to that value |
| Player.Encode | Tests/RESTfulCoreTests/Player.swift:104-110 | exactly the keys "playerId" and "playerName" are written, and decoding them gives the same player back |
| Player.Eq | Tests/RESTfulCoreTests/Player.swift:114-119 | `==` as written is never true of two equal players |
| Player.EqMeansBothDiffer | Tests/RESTfulCoreTests/Player.swift:114-119 | `==` as written holds exactly when both fields differ |
| Player.EqNotReflexive | Tests/RESTfulCoreTests/Player.swift:114-119 | no player is `==` to itself or to one sharing a field |
| Player.EqSymmetric | Tests/RESTfulCoreTests/Player.swift:114-119 | `==` as written is symmetric |
| Player.Equal | Tests/RESTfulCoreTests/Player.swift:114-119 | the corrected equality holds exactly when the players are equal |
| Player.RoundTripEquality | Tests/RESTfulCoreTests/Player.swift:104-119 | an encode/decode round trip is `Equal` to the original and never `==` to it as written |
| Scenarios.PlayerUrl | Tests/RESTfulCoreTests/RESTfulCoreTests.swift:28-35 | path "/unittest/api/Players/" and id "1" give root + "unittest/api/Players/1/" |
| Scenarios.GetPlayerFound | Tests/RESTfulCoreTests/RESTfulCoreTests.swift:26-67 | a 200 answer with Mickey Mouse yields player 1 named "Mickey Mouse", with no note, in both forms of get |
| Scenarios.GetPlayerMissing | Sources/RESTfulCore/Connection.swift:246-249 | a 404 answer yields nil with one note that ends in "404" |
| Scenarios.PagedEnvelope | Sources/RESTfulCore/RESTObjectList.swift:20-39 | the one-element envelope decodes to one player, totalRecords 1, page 0, perPage 50, succeeded, no info |

## Findings

| source | as written | input that shows it | evidently intended | confidence | as-written member | corrected member |
|---|---|---|---|---|---|---|
| Tests/RESTfulCoreTests/Player.swift:114-119 | `==` returns false as soon as either field matches, so it is true only when both fields differ | any player compared with itself, e.g. player 1 "Mickey Mouse"; also every encode/decode round trip | true exactly when both fields match | high; not executed | Player.EqNotReflexive | Player.RoundTripEquality |
| Sources/RESTfulCore/Connection.swift:118-137 | with status 200, an unparseable body calls `completion` twice and a body that parses to something other than an array of objects never calls it | a 200 response whose body is not JSON (e.g. `<html>`), or whose body is the JSON object `{}` | exactly one completion, a failure in both cases | high; not executed | Variants.ListCompletesTwiceOrNever | Variants.ListOnceMatchesAsync |

`Outcomes.ListCallbackOnce` is the corrected list handler, and
`Variants.ListOnceCorrects` relates it to the handler as written.
`Connection.Connection.ListCallback` keeps the behaviour as written. The paged
`list` (Sources/RESTfulCore/Connection.swift:213-226) has the same double and
missing completions. The model keeps them as written and proves them in the
contract of `Outcomes.ListPageCallback`.

## Left out

- Network I/O, `URLSession`, cookies, request headers and HTTP methods are
  not modelled. The transport's answer is an input (`Exchange`, `Delivery`).
- Concurrency is not modelled. Handlers run on arbitrary threads and may race
  on `info`; the model runs each operation to completion, one at a time.
- `URL(string:)`: whether the built string is a valid URL is an input
  (`urlParses`) for the suspendable `list`. Every other operation
  force-unwraps the URL, and the model assumes it parses.
- Payload: a parsed body may be any JSON value, including a top-level
  scalar. `JSONSerialization.jsonObject(with:options: [])` never yields one,
  because without `.fragmentsAllowed` it throws on such a body. The model
  does not exclude those inputs, and the lemmas do not rely on them.
- Player.Eq, Player.Equal, Url.StripLeadingSlash, Url.WithTrailingSlash:
  strings are modelled as sequences of Unicode scalars. Swift's `String ==`
  compares by canonical equivalence, and `hasPrefix`/`hasSuffix` compare
  grapheme clusters, so the model can differ from Swift on such text. For
  example, "\u{E9}" and "e\u{301}" are equal names in Swift but not here,
  and "/\u{301}x" keeps its slash in Swift but loses it here.
- `JSONEncoder` and `JSONSerialization` are not modelled as code. Their
  verdicts are inputs, and numbers are plain integers, so `NSNumber`
  bridging between booleans and integers is not captured.
- Outcomes.GetAsync: the force-unwrapped `(response as? HTTPURLResponse)!`
  in a status note traps when the response is not HTTP. The model requires
  the status to be present instead. The same applies to
  Outcomes.PostObjectAsync, Outcomes.PostBoolAsync, Outcomes.PutObjectAsync,
  Outcomes.PutBoolAsync, Outcomes.DeleteBoolAsync, Outcomes.DeleteObjectAsync,
  Outcomes.PostObjectCallback and Outcomes.PostBoolCallback.
- RestObjectList.RESTObjectList.FromJson: the forced casts `as! Int64`,
  `as! Int` and `as! [String]` trap on a missing or mistyped key. The model
  requires `Decodable` instead, and so does
  Connection.Connection.ListPageCallback for a 200 object body. `Int` is
  taken as 64 bits.
- Connection.Connection.ListPageCallback: `page` and `perPage` are accepted
  and ignored, as in the code.
- Multipart.MultipartRequest.constructor: the random `UUID().uuidString`
  default boundary is left to the caller.
- Utf8.Appended: only the UTF-8 and ASCII encodings are modelled. Other
  `String.Encoding` values are not part of this model.
- `print(error)` calls, and `query`, which is commented out in the source,
  are not modelled.
- `Player.hash(into:)`, `Player.init(from:)` and the static `Player.get` are
  not modelled. Neither are `RESTObject.swift` (whose base initialisers do
  nothing the model needs) and `URLSessionExtensions.swift`.
- Idempotence of repeated identical gets is not stated as a lemma. Each
  operation's result is a function of the exchange it receives, so equal
  exchanges give equal results by construction.
