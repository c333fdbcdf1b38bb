/**
  How each public operation of `Connection` turns what the transport produced
  into its result and its diagnostic notes. Every operation hand-codes its own
  decision on the HTTP status, and the variants do not agree with each other;
  each one is a function here, written branch for branch, and `ClassOf` is the
  status table the variants are compared against.

  The transport itself is an input: `Exchange` is what the suspendable
  (`async`) operations get back from `urlSession.data(...)`, `Delivery` is what
  the completion handler of `urlSession.dataTask(...)` receives. A callback
  operation's result is the sequence of calls it makes to `completion`.
 */
module Outcomes {
  import opened Wrappers
  import opened Json
  import opened Decimal

  /** What `try await urlSession.data(...)` produced. */
  datatype Exchange =
    | Threw(description: string)
      // `error.localizedDescription` of the error thrown by the transport
    | Returned(payload: Payload, status: Option<int>, response: string)
      // `status`: `statusCode` when the response is an `HTTPURLResponse`;
      // `response`: `String(describing: response)`

  /** The three arguments of a `dataTask` completion handler, with the texts the notes quote. */
  datatype Delivery = Delivery(
    error: Option<string>,    // `String(describing: error)` when an error is reported
    data: Option<Payload>,    // the body, when `data` is non-nil, as `JSONSerialization` reads it
    status: Option<int>,      // `statusCode` when the response is an `HTTPURLResponse`
    response: string,         // `String(describing: response)`
    dataText: string,         // `String(describing: data)` for data that is present
    bodyText: string)         // `String(decoding: data!, as: UTF8.self)`

  /** The errors a callback operation passes to `completion(.failure(...))`. */
  datatype ConnectionError =
    | RequestError(message: string)   // `ConnectionError.requestError(message)`
    | TransportError(description: string)  // the transport's own error, passed on

  /** Result of a suspendable operation and the notes it appends to `info`. */
  datatype Answer<R> = Answer(value: R, notes: seq<string>)

  /** Calls a callback operation makes to `completion`, in order, and the notes it appends. */
  datatype Delivered<R> = Delivered(calls: seq<Result<R, ConnectionError>>, notes: seq<string>)

  /** The status table the library documents: 200/201 carry a body, 202/204 succeed without one. */
  datatype StatusClass = WithBody | WithoutBody | Failed

  function ClassOf(code: int): StatusClass {
    if code == 200 || code == 201 then WithBody
    else if code == 202 || code == 204 then WithoutBody
    else Failed
  }

  // ---- the notes, verbatim ----

  const SEE_INFO := "See Info for more details"
  const NOTE_PARSE := "Error: Unable to parse the result"
  const NOTE_NO_OBJECT := "Succeeded, but no object was returned"
  const NOTE_ENCODING := "Encoding Failed before the post operation"
  const NOTE_UNABLE_TO_ENCODE := "Failed, Unable to Encode the Model"
  const NOTE_BAD_URL := "Failed to construct a valid URL"
  const NOTE_UNPARSED_SUCCESS := "Succeeded, but unable to parse the result"

  function NonTwoHundredNote(code: int): string {
    "Server Responded with a non-200 Status Code " + Dec(code)
  }

  function FailedStatusNote(code: int): string {
    "Failed, Status Code: " + Dec(code)
  }

  function ErrorStatusNote(code: int, detail: string): string {
    "Error: " + Dec(code) + " : " + detail
  }

  function InvalidResponseNote(response: string): string {
    "Request produced an invalid HTTP response: " + response
  }

  function FailedInvalidNote(response: string): string {
    "Failed, Invalid HTTP response: " + response
  }

  function RequestErrorNote(error: string): string {
    "Request Encountered an error: " + error
  }

  /** `"Request Response is Empty: \(String(describing: data))"`, only ever written when `data`
      is nil, which `String(describing:)` renders as "nil". */
  const NOTE_EMPTY_RESPONSE := "Request Response is Empty: nil"

  function UnexpectedErrorNote(description: string): string {
    "Request encountered an unexpected error " + description
  }

  /** The decimal rendering of `code` occurs in `note` at position `i`. */
  predicate CodeAt(note: string, code: int, i: int) {
    0 <= i <= |note| - |Dec(code)| && note[i..i + |Dec(code)|] == Dec(code)
  }

  /** The decimal rendering of `code` occurs in `note`. */
  ghost predicate NamesCode(note: string, code: int) {
    exists i :: CodeAt(note, code, i)
  }

  /** Every status note names its code, and the code reads back from it exactly. */
  lemma StatusNotesNameCode(code: int, detail: string)
    ensures NamesCode(NonTwoHundredNote(code), code)
    ensures NamesCode(FailedStatusNote(code), code)
    ensures NamesCode(ErrorStatusNote(code, detail), code)
    ensures EndsWithCode(NonTwoHundredNote(code), code)
    ensures EndsWithCode(FailedStatusNote(code), code)
    ensures ParseDec(NonTwoHundredNote(code)[44..]) == code
    ensures ParseDec(FailedStatusNote(code)[21..]) == code
  {
    var d := Dec(code);
    var a := NonTwoHundredNote(code);
    var b := FailedStatusNote(code);
    var c := ErrorStatusNote(code, detail);
    assert |"Server Responded with a non-200 Status Code "| == 44;
    assert |"Failed, Status Code: "| == 21;
    assert a[44..] == d;
    assert b[21..] == d;
    assert c[7..7 + |d|] == d;
    assert a[44..44 + |d|] == d;
    assert b[21..21 + |d|] == d;
    assert CodeAt(a, code, 44) && CodeAt(b, code, 21) && CodeAt(c, code, 7);
    DecRoundTrip(code);
  }

  // ---- what the casts make of a payload ----

  /** `try JSONSerialization.jsonObject(with: data) as? [String: Any]`, when it did not throw. */
  function ObjectOf(p: Payload): (r: Option<map<string, Json>>)
    requires p.Parsed?
    ensures r.Some? <==> p.json.Obj?
  {
    AsObject(p.json)
  }

  /** `... as? [[String: Any]]`, when it did not throw. */
  function ObjectsOf(p: Payload): (r: Option<seq<map<string, Json>>>)
    requires p.Parsed?
    ensures r.Some? <==> p.json.Arr? && AllObjects(p.json.items)
  {
    AsObjectArray(p.json)
  }

  /** A response that is an `HTTPURLResponse` with this status code. */
  predicate ReturnedWith(ex: Exchange, code: int) {
    ex.Returned? && ex.status == Some(code)
  }

  /** A delivery without a transport error whose response is an `HTTPURLResponse` with this status. */
  predicate DeliveredWith(d: Delivery, code: int) {
    d.error.None? && d.status == Some(code)
  }

  // =====================================================================
  // Suspendable operations
  // =====================================================================

  /** `list(path:) async -> [T]?` */
  function ListAsync<T>(urlParses: bool, ex: Exchange, make: map<string, Json> -> T): (r: Answer<Option<seq<T>>>)
    ensures r.value.Some? <==>
      urlParses && ReturnedWith(ex, 200) && ex.payload.Parsed? && ObjectsOf(ex.payload).Some?
    ensures r.value.Some? ==>
      r.notes == [] && r.value.value == DecodeAll(ObjectsOf(ex.payload).value, make)
    ensures r.value.None? && !(urlParses && ex.Threw?) ==> |r.notes| == 1
    ensures !urlParses ==> r.notes == [NOTE_BAD_URL]
    ensures urlParses && ex.Threw? ==> r.notes == []
    ensures urlParses && ex.Returned? && ex.status != Some(200) ==>
      r.notes == [NonTwoHundredNote(ex.status.GetOr(0))]
  {
    if !urlParses then Answer(None, [NOTE_BAD_URL])
    else match ex
      case Threw(_) => Answer(None, [])
      case Returned(payload, status, response) =>
        if status != Some(200) then Answer(None, [NonTwoHundredNote(status.GetOr(0))])
        else match payload
          case Unparseable => Answer(None, [NOTE_PARSE])
          case Parsed(_) =>
            match ObjectsOf(payload)
            case Some(items) => Answer(Some(DecodeAll(items, make)), [])
            case None => Answer(None, [InvalidResponseNote(response)])
  }

  /** `get(path:id:) async -> T?` */
  function GetAsync<T>(ex: Exchange, make: map<string, Json> -> T): (r: Answer<Option<T>>)
    requires ex.Returned? ==> ex.status.Some?
    ensures r.value.Some? <==> ReturnedWith(ex, 200) && ex.payload.Parsed? && ObjectOf(ex.payload).Some?
    ensures r.value.Some? ==> r.notes == [] && r.value.value == make(ObjectOf(ex.payload).value)
    ensures ex.Threw? ==> r.notes == []
    ensures ex.Returned? && ex.status.value != 200 ==> r.notes == [NonTwoHundredNote(ex.status.value)]
    ensures ex.Returned? && r.value.None? ==> |r.notes| == 1
  {
    match ex
    case Threw(_) => Answer(None, [])
    case Returned(payload, status, response) =>
      if status.value != 200 then Answer(None, [NonTwoHundredNote(status.value)])
      else match payload
        case Unparseable => Answer(None, [NOTE_PARSE])
        case Parsed(_) =>
          match ObjectOf(payload)
          case Some(obj) => Answer(Some(make(obj)), [])
          case None => Answer(None, [InvalidResponseNote(response)])
  }

  /** `post(path:model:) async -> U?` */
  function PostObjectAsync<T>(encoded: bool, ex: Exchange, make: map<string, Json> -> T): (r: Answer<Option<T>>)
    requires encoded && ex.Returned? ==> ex.status.Some?
    ensures !encoded ==> r == Answer(None, [NOTE_UNABLE_TO_ENCODE])
    ensures encoded && ex.Threw? ==> r == Answer(None, [ex.description])
    ensures r.value.Some? <==>
      encoded && ex.Returned? && ClassOf(ex.status.value) == WithBody
      && ex.payload.Parsed? && ObjectOf(ex.payload).Some?
    ensures r.value.Some? ==> r.notes == [] && r.value.value == make(ObjectOf(ex.payload).value)
    ensures encoded && ex.Returned? && ClassOf(ex.status.value) == WithBody && r.value.None? ==>
      |r.notes| == 1
    ensures encoded && ex.Returned? && ClassOf(ex.status.value) == WithoutBody ==>
      r == Answer(None, [NOTE_NO_OBJECT])
    ensures encoded && ex.Returned? && ClassOf(ex.status.value) == Failed ==>
      r == Answer(None, [FailedStatusNote(ex.status.value)])
  {
    if !encoded then Answer(None, [NOTE_UNABLE_TO_ENCODE])
    else match ex
      case Threw(description) => Answer(None, [description])
      case Returned(payload, status, response) =>
        var code := status.value;
        if code == 200 || code == 201 then
          match payload
          case Unparseable => Answer(None, [NOTE_UNPARSED_SUCCESS])
          case Parsed(_) =>
            match ObjectOf(payload)
            case Some(obj) => Answer(Some(make(obj)), [])
            case None => Answer(None, [FailedInvalidNote(response)])
        else if code == 202 || code == 204 then Answer(None, [NOTE_NO_OBJECT])
        else Answer(None, [FailedStatusNote(code)])
  }

  /** `post(path:model:) async -> Bool` */
  function PostBoolAsync(encoded: bool, ex: Exchange): (r: Answer<bool>)
    requires encoded && ex.Returned? ==> ex.status.Some?
    ensures r.value <==> encoded && ex.Returned? && ClassOf(ex.status.value) != Failed
    ensures r.value ==> r.notes == []
    ensures !r.value ==> |r.notes| == 1
    ensures !encoded ==> r.notes == [NOTE_ENCODING]
    ensures encoded && ex.Returned? && ClassOf(ex.status.value) == Failed ==>
      r.notes == [NonTwoHundredNote(ex.status.value)]
  {
    if !encoded then Answer(false, [NOTE_ENCODING])
    else match ex
      case Threw(description) => Answer(false, [UnexpectedErrorNote(description)])
      case Returned(_, status, _) =>
        var code := status.value;
        if code == 200 || code == 201 || code == 202 || code == 204 then Answer(true, [])
        else Answer(false, [NonTwoHundredNote(code)])
  }

  /** `put(path:id:model:) async -> U?` */
  function PutObjectAsync<T>(encoded: bool, ex: Exchange, make: map<string, Json> -> T): (r: Answer<Option<T>>)
    requires encoded && ex.Returned? ==> ex.status.Some?
    ensures !encoded ==> r == Answer(None, [NOTE_ENCODING])
    ensures encoded && ex.Threw? ==> r == Answer(None, [ex.description])
    ensures r.value.Some? <==>
      encoded && ex.Returned? && ClassOf(ex.status.value) == WithBody
      && ex.payload.Parsed? && ObjectOf(ex.payload).Some?
    ensures r.value.Some? ==> r.notes == [] && r.value.value == make(ObjectOf(ex.payload).value)
    ensures encoded && ex.Returned? && ClassOf(ex.status.value) == WithBody && r.value.None? ==>
      |r.notes| == 1
    ensures encoded && ex.Returned? && ClassOf(ex.status.value) == WithoutBody ==>
      r == Answer(None, [NOTE_NO_OBJECT])
    ensures encoded && ex.Returned? && ClassOf(ex.status.value) == Failed ==>
      r == Answer(None, [NonTwoHundredNote(ex.status.value)])
  {
    if !encoded then Answer(None, [NOTE_ENCODING])
    else match ex
      case Threw(description) => Answer(None, [description])
      case Returned(payload, status, response) =>
        var code := status.value;
        if code == 200 || code == 201 then
          match payload
          case Unparseable => Answer(None, [NOTE_PARSE])
          case Parsed(_) =>
            match ObjectOf(payload)
            case Some(obj) => Answer(Some(make(obj)), [])
            case None => Answer(None, [InvalidResponseNote(response)])
        else if code == 202 || code == 204 then Answer(None, [NOTE_NO_OBJECT])
        else Answer(None, [NonTwoHundredNote(code)])
  }

  /** `put(path:id:model:) async -> Bool` */
  function PutBoolAsync(encoded: bool, ex: Exchange): (r: Answer<bool>)
    requires encoded && ex.Returned? ==> ex.status.Some?
    ensures r.value <==> encoded && ex.Returned? && ClassOf(ex.status.value) != Failed
    ensures r.value ==> r.notes == []
    ensures !r.value ==> |r.notes| == 1
    ensures !encoded ==> r.notes == [NOTE_ENCODING]
    ensures encoded && ex.Threw? ==> r.notes == [ex.description]
    ensures encoded && ex.Returned? && ClassOf(ex.status.value) == Failed ==>
      r.notes == [NonTwoHundredNote(ex.status.value)]
  {
    if !encoded then Answer(false, [NOTE_ENCODING])
    else match ex
      case Threw(description) => Answer(false, [description])
      case Returned(_, status, _) =>
        var code := status.value;
        if code == 200 || code == 201 || code == 202 || code == 204 then Answer(true, [])
        else Answer(false, [NonTwoHundredNote(code)])
  }

  /** `delete(path:id:) async -> Bool`: 202 is not among the accepted codes. */
  function DeleteBoolAsync(ex: Exchange): (r: Answer<bool>)
    requires ex.Returned? ==> ex.status.Some?
    ensures r.value <==>
      ex.Returned? && ClassOf(ex.status.value) != Failed && ex.status.value != 202
    ensures r.value ==> r.notes == []
    ensures !r.value ==> |r.notes| == 1
    ensures ex.Threw? ==> r.notes == [ex.description]
    ensures ex.Returned? && !r.value ==> r.notes == [NonTwoHundredNote(ex.status.value)]
  {
    match ex
    case Threw(description) => Answer(false, [description])
    case Returned(_, status, _) =>
      var code := status.value;
      if code == 200 || code == 201 || code == 204 then Answer(true, [])
      else Answer(false, [NonTwoHundredNote(code)])
  }

  /** `delete(path:id:) async -> T?`: 204 yields an empty `T()`, 202 is a failure. */
  function DeleteObjectAsync<T>(ex: Exchange, make: map<string, Json> -> T, empty: T): (r: Answer<Option<T>>)
    requires ex.Returned? ==> ex.status.Some?
    ensures ReturnedWith(ex, 204) ==> r == Answer(Some(empty), [])
    ensures ex.Returned? && ClassOf(ex.status.value) == WithBody ==>
      (r.value.Some? <==> ex.payload.Parsed? && ObjectOf(ex.payload).Some?)
    ensures ex.Returned? && ClassOf(ex.status.value) == WithBody && r.value.Some? ==>
      r.notes == [] && r.value.value == make(ObjectOf(ex.payload).value)
    ensures ex.Returned? && ex.status.value != 204 && ClassOf(ex.status.value) != WithBody ==>
      r == Answer(None, [NonTwoHundredNote(ex.status.value)])
    ensures ex.Threw? ==> r == Answer(None, [ex.description])
    ensures r.value.None? ==> |r.notes| == 1
  {
    match ex
    case Threw(description) => Answer(None, [description])
    case Returned(payload, status, response) =>
      var code := status.value;
      if code == 200 || code == 201 then
        match payload
        case Unparseable => Answer(None, [NOTE_PARSE])
        case Parsed(_) =>
          match ObjectOf(payload)
          case Some(obj) => Answer(Some(make(obj)), [])
          case None => Answer(None, [InvalidResponseNote(response)])
      else if code == 204 then Answer(Some(empty), [])
      else Answer(None, [NonTwoHundredNote(code)])
  }

  // =====================================================================
  // Callback operations
  // =====================================================================

  /** `list(path:completion:)`: a body that parses but is not an array of objects
      completes nothing, and one that does not parse completes twice. */
  function ListCallback<T>(d: Delivery, make: map<string, Json> -> T): (r: Delivered<Option<seq<T>>>)
    ensures |r.notes| == 1 <==> |r.calls| != 1 || r.calls[0].Failure?
    ensures |r.notes| <= 1
    ensures |r.calls| == 0 <==>
      DeliveredWith(d, 200) && d.data.Some? && d.data.value.Parsed? && ObjectsOf(d.data.value).None?
    ensures |r.calls| == 2 <==> DeliveredWith(d, 200) && d.data == Some(Unparseable)
    ensures |r.calls| <= 2
    ensures |r.calls| == 1 && r.calls[0].Success? <==>
      DeliveredWith(d, 200) && d.data.Some? && d.data.value.Parsed? && ObjectsOf(d.data.value).Some?
    ensures |r.calls| == 1 && r.calls[0].Success? ==>
      r.calls[0].value == Some(DecodeAll(ObjectsOf(d.data.value).value, make))
    ensures d.error.None? && d.data.Some? && d.status.Some? && d.status.value != 200 ==>
      r.notes == [ErrorStatusNote(d.status.value, d.dataText)]
  {
    if d.error.Some? then
      Delivered([Failure(TransportError(d.error.value))], [RequestErrorNote(d.error.value)])
    else if d.data.None? then
      Delivered([Failure(RequestError(NOTE_EMPTY_RESPONSE))], [NOTE_EMPTY_RESPONSE])
    else if d.status.None? then
      Delivered([Failure(RequestError(InvalidResponseNote(d.response)))], [InvalidResponseNote(d.response)])
    else if d.status.value == 200 then
      match d.data.value
      case Unparseable =>
        Delivered([Failure(RequestError(SEE_INFO)), Failure(RequestError(SEE_INFO))], [NOTE_PARSE])
      case Parsed(_) =>
        match ObjectsOf(d.data.value)
        case Some(items) => Delivered([Success(Some(DecodeAll(items, make)))], [])
        case None => Delivered([], [InvalidResponseNote(d.response)])
    else
      Delivered([Failure(RequestError(SEE_INFO))], [ErrorStatusNote(d.status.value, d.dataText)])
  }

  /** `list(path:completion:)` as evidently intended: the body that does not parse fails once
      rather than twice, and the body that is not an array of objects fails instead of
      completing nothing. Every other branch is the one `ListCallback` takes. */
  function ListCallbackOnce<T>(d: Delivery, make: map<string, Json> -> T): (r: Delivered<Option<seq<T>>>)
    ensures |r.calls| == 1 && |r.notes| <= 1
    ensures r.calls[0].Success? <==>
      DeliveredWith(d, 200) && d.data.Some? && d.data.value.Parsed? && ObjectsOf(d.data.value).Some?
    ensures r.calls[0].Success? ==>
      r.notes == [] && r.calls[0].value == Some(DecodeAll(ObjectsOf(d.data.value).value, make))
    ensures r.calls[0].Failure? ==> |r.notes| == 1
  {
    if d.error.Some? then
      Delivered([Failure(TransportError(d.error.value))], [RequestErrorNote(d.error.value)])
    else if d.data.None? then
      Delivered([Failure(RequestError(NOTE_EMPTY_RESPONSE))], [NOTE_EMPTY_RESPONSE])
    else if d.status.None? then
      Delivered([Failure(RequestError(InvalidResponseNote(d.response)))], [InvalidResponseNote(d.response)])
    else if d.status.value == 200 then
      match d.data.value
      case Unparseable => Delivered([Failure(RequestError(SEE_INFO))], [NOTE_PARSE])
      case Parsed(_) =>
        match ObjectsOf(d.data.value)
        case Some(items) => Delivered([Success(Some(DecodeAll(items, make)))], [])
        case None => Delivered([Failure(RequestError(SEE_INFO))], [InvalidResponseNote(d.response)])
    else
      Delivered([Failure(RequestError(SEE_INFO))], [ErrorStatusNote(d.status.value, d.dataText)])
  }

  /** `list(path:page:perPage:completion:)`: the same decisions as `ListCallback`, but the
      body must be one JSON object, which is handed to `RESTObjectList(with:)`. */
  function ListPageCallback(d: Delivery): (r: Delivered<Option<map<string, Json>>>)
    ensures |r.notes| == 1 <==> |r.calls| != 1 || r.calls[0].Failure?
    ensures |r.notes| <= 1
    ensures |r.calls| == 0 <==>
      DeliveredWith(d, 200) && d.data.Some? && d.data.value.Parsed? && ObjectOf(d.data.value).None?
    ensures |r.calls| == 2 <==> DeliveredWith(d, 200) && d.data == Some(Unparseable)
    ensures |r.calls| <= 2
    ensures |r.calls| == 1 && r.calls[0].Success? <==>
      DeliveredWith(d, 200) && d.data.Some? && d.data.value.Parsed? && ObjectOf(d.data.value).Some?
    ensures |r.calls| == 1 && r.calls[0].Success? ==>
      r.calls[0].value == Some(d.data.value.json.fields)
    ensures d.error.None? && d.data.Some? && d.status.Some? && d.status.value != 200 ==>
      r.notes == [ErrorStatusNote(d.status.value, d.dataText)]
  {
    if d.error.Some? then
      Delivered([Failure(TransportError(d.error.value))], [RequestErrorNote(d.error.value)])
    else if d.data.None? then
      Delivered([Failure(RequestError(NOTE_EMPTY_RESPONSE))], [NOTE_EMPTY_RESPONSE])
    else if d.status.None? then
      Delivered([Failure(RequestError(InvalidResponseNote(d.response)))], [InvalidResponseNote(d.response)])
    else if d.status.value == 200 then
      match d.data.value
      case Unparseable =>
        Delivered([Failure(RequestError(SEE_INFO)), Failure(RequestError(SEE_INFO))], [NOTE_PARSE])
      case Parsed(_) =>
        match ObjectOf(d.data.value)
        case Some(obj) => Delivered([Success(Some(obj))], [])
        case None => Delivered([], [InvalidResponseNote(d.response)])
    else
      Delivered([Failure(RequestError(SEE_INFO))], [ErrorStatusNote(d.status.value, d.dataText)])
  }

  /** `get(path:id:completion:)` */
  function GetCallback<T>(d: Delivery, make: map<string, Json> -> T): (r: Delivered<Option<T>>)
    ensures |r.calls| == 1
    ensures r.calls[0].Success? <==>
      DeliveredWith(d, 200) && d.data.Some? && d.data.value.Parsed? && ObjectOf(d.data.value).Some?
    ensures r.calls[0].Success? ==>
      r.notes == [] && r.calls[0].value == Some(make(ObjectOf(d.data.value).value))
    ensures r.calls[0].Failure? ==> |r.notes| == 1
    ensures r.calls[0].Failure? && r.calls[0].error.TransportError? <==> d.error.Some?
    ensures d.error.None? && d.data.Some? && d.status.Some? && d.status.value != 200 ==>
      r.notes == [ErrorStatusNote(d.status.value, d.dataText)]
  {
    if d.error.Some? then
      Delivered([Failure(TransportError(d.error.value))], [RequestErrorNote(d.error.value)])
    else if d.data.None? then
      Delivered([Failure(RequestError(NOTE_EMPTY_RESPONSE))], [NOTE_EMPTY_RESPONSE])
    else if d.status.None? then
      Delivered([Failure(RequestError(InvalidResponseNote(d.response)))], [InvalidResponseNote(d.response)])
    else if d.status.value == 200 then
      match d.data.value
      case Unparseable => Delivered([Failure(RequestError(SEE_INFO))], [NOTE_PARSE])
      case Parsed(_) =>
        match ObjectOf(d.data.value)
        case Some(obj) => Delivered([Success(Some(make(obj)))], [])
        case None => Delivered([Failure(RequestError(SEE_INFO))], [InvalidResponseNote(d.response)])
    else
      Delivered([Failure(RequestError(SEE_INFO))], [ErrorStatusNote(d.status.value, d.dataText)])
  }

  /** `post(path:model:completion:)` returning `U?` */
  function PostObjectCallback<T>(encoded: bool, d: Delivery, make: map<string, Json> -> T): (r: Delivered<Option<T>>)
    requires encoded && d.error.None? ==> d.status.Some?
    ensures |r.calls| == 1
    ensures !encoded ==> r == Delivered([Failure(RequestError(SEE_INFO))], [NOTE_ENCODING])
    ensures r.calls[0].Success? <==>
      encoded && d.error.None? && ClassOf(d.status.value) != Failed
      && (ClassOf(d.status.value) == WithBody && d.data.Some? ==>
            d.data.value.Parsed? && ObjectOf(d.data.value).Some?)
    ensures r.calls[0].Failure? ==> r.calls[0].error == RequestError(SEE_INFO) && |r.notes| == 1
    ensures encoded && d.error.None? && ClassOf(d.status.value) == WithBody && d.data.Some?
            && r.calls[0].Success? ==>
      r.notes == [] && r.calls[0].value == Some(make(ObjectOf(d.data.value).value))
    ensures encoded && d.error.None? && ClassOf(d.status.value) == WithBody && d.data.None? ==>
      r == Delivered([Success(None)], [])
    ensures encoded && d.error.None? && ClassOf(d.status.value) == WithoutBody ==>
      r == Delivered([Success(None)], [NOTE_NO_OBJECT])
    ensures encoded && d.error.None? && ClassOf(d.status.value) == Failed ==>
      r.notes == [FailedStatusNote(d.status.value)]
  {
    if !encoded then Delivered([Failure(RequestError(SEE_INFO))], [NOTE_ENCODING])
    else if d.error.Some? then
      Delivered([Failure(RequestError(SEE_INFO))], [RequestErrorNote(d.error.value)])
    else
      var code := d.status.value;
      if code == 200 || code == 201 then
        if d.data.None? then Delivered([Success(None)], [])
        else match d.data.value
          case Unparseable => Delivered([Failure(RequestError(SEE_INFO))], [NOTE_PARSE])
          case Parsed(_) =>
            match ObjectOf(d.data.value)
            case Some(obj) => Delivered([Success(Some(make(obj)))], [])
            case None => Delivered([Failure(RequestError(SEE_INFO))], [FailedInvalidNote(d.response)])
      else if code == 202 || code == 204 then Delivered([Success(None)], [NOTE_NO_OBJECT])
      else Delivered([Failure(RequestError(SEE_INFO))], [FailedStatusNote(code)])
  }

  /** `post(path:model:completion:)` returning `Bool` */
  function PostBoolCallback(encoded: bool, d: Delivery): (r: Delivered<bool>)
    requires encoded && d.error.None? ==> d.status.Some?
    ensures |r.calls| == 1
    ensures r.calls[0].Success? <==> encoded && d.error.None? && ClassOf(d.status.value) != Failed
    ensures r.calls[0].Success? ==> r.calls[0].value && r.notes == []
    ensures r.calls[0].Failure? ==> r.calls[0].error == RequestError(SEE_INFO) && |r.notes| == 1
    ensures encoded && d.error.None? && ClassOf(d.status.value) == Failed ==>
      r.notes == [FailedStatusNote(d.status.value)]
  {
    if !encoded then Delivered([Failure(RequestError(SEE_INFO))], [NOTE_ENCODING])
    else if d.error.Some? then
      Delivered([Failure(RequestError(SEE_INFO))], [RequestErrorNote(d.error.value)])
    else
      var code := d.status.value;
      if code == 200 || code == 201 || code == 202 || code == 204 then Delivered([Success(true)], [])
      else Delivered([Failure(RequestError(SEE_INFO))], [FailedStatusNote(code)])
  }

  /** `put(path:id:model:completion:)` returning `U?` */
  function PutObjectCallback<T>(encoded: bool, d: Delivery, make: map<string, Json> -> T): (r: Delivered<Option<T>>)
    ensures |r.calls| == 1
    ensures r.calls[0].Success? <==>
      encoded && d.error.None? && d.data.Some? && d.status.Some? && ClassOf(d.status.value) != Failed
      && (ClassOf(d.status.value) == WithBody ==>
            d.data.value.Parsed? && ObjectOf(d.data.value).Some?)
    ensures r.calls[0].Failure? ==> r.calls[0].error == RequestError(SEE_INFO) && |r.notes| == 1
    ensures r.calls[0].Success? && ClassOf(d.status.value) == WithBody ==>
      r.notes == [] && r.calls[0].value == Some(make(ObjectOf(d.data.value).value))
    ensures r.calls[0].Success? && ClassOf(d.status.value) == WithoutBody ==>
      r == Delivered([Success(None)], [NOTE_NO_OBJECT])
    ensures encoded && d.error.None? && d.data.Some? && d.status.Some?
            && ClassOf(d.status.value) == Failed ==>
      r.notes == [ErrorStatusNote(d.status.value, d.bodyText)]
  {
    if !encoded then Delivered([Failure(RequestError(SEE_INFO))], [NOTE_ENCODING])
    else if d.error.Some? then
      Delivered([Failure(RequestError(SEE_INFO))], [RequestErrorNote(d.error.value)])
    else if d.data.None? then
      Delivered([Failure(RequestError(SEE_INFO))], [NOTE_EMPTY_RESPONSE])
    else if d.status.None? then
      Delivered([Failure(RequestError(SEE_INFO))], [InvalidResponseNote(d.response)])
    else
      var code := d.status.value;
      if code == 200 || code == 201 then
        match d.data.value
        case Unparseable => Delivered([Failure(RequestError(SEE_INFO))], [NOTE_PARSE])
        case Parsed(_) =>
          match ObjectOf(d.data.value)
          case Some(obj) => Delivered([Success(Some(make(obj)))], [])
          case None => Delivered([Failure(RequestError(SEE_INFO))], [InvalidResponseNote(d.response)])
      else if code == 202 || code == 204 then Delivered([Success(None)], [NOTE_NO_OBJECT])
      else Delivered([Failure(RequestError(SEE_INFO))], [ErrorStatusNote(code, d.bodyText)])
  }

  /** `put(path:id:model:completion:)` returning `Bool`: success also leaves a note. */
  function PutBoolCallback(encoded: bool, d: Delivery): (r: Delivered<bool>)
    ensures |r.calls| == 1 && |r.notes| == 1
    ensures r.calls[0].Success? <==>
      encoded && d.error.None? && d.status.Some? && ClassOf(d.status.value) != Failed
    ensures r.calls[0].Success? ==> r.calls[0].value && r.notes == [NOTE_NO_OBJECT]
    ensures r.calls[0].Failure? ==> r.calls[0].error == RequestError(SEE_INFO)
    ensures encoded && d.error.None? && d.status.Some? && ClassOf(d.status.value) == Failed ==>
      r.notes == [ErrorStatusNote(d.status.value, if d.data.None? then "" else d.bodyText)]
  {
    if !encoded then Delivered([Failure(RequestError(SEE_INFO))], [NOTE_ENCODING])
    else if d.error.Some? then
      Delivered([Failure(RequestError(SEE_INFO))], [RequestErrorNote(d.error.value)])
    else if d.status.None? then
      Delivered([Failure(RequestError(SEE_INFO))], [InvalidResponseNote(d.response)])
    else
      var code := d.status.value;
      if code == 200 || code == 201 || code == 202 || code == 204 then
        Delivered([Success(true)], [NOTE_NO_OBJECT])
      else
        Delivered([Failure(RequestError(SEE_INFO))],
                  [ErrorStatusNote(code, if d.data.None? then "" else d.bodyText)])
  }

  /** `delete(path:id:completion:)` returning `Bool`: 202 is not among the accepted codes. */
  function DeleteBoolCallback(d: Delivery): (r: Delivered<bool>)
    ensures |r.calls| == 1
    ensures r.calls[0].Success? <==>
      d.error.None? && d.status.Some? && ClassOf(d.status.value) != Failed && d.status.value != 202
    ensures r.calls[0].Success? ==> r.calls[0].value && r.notes == []
    ensures r.calls[0].Failure? ==> r.calls[0].error == RequestError(SEE_INFO) && |r.notes| == 1
    ensures d.error.None? && d.status.Some? && r.calls[0].Failure? ==>
      r.notes == [NonTwoHundredNote(d.status.value)]
  {
    if d.error.Some? then
      Delivered([Failure(RequestError(SEE_INFO))], [RequestErrorNote(d.error.value)])
    else if d.status.None? then
      Delivered([Failure(RequestError(SEE_INFO))], [InvalidResponseNote(d.response)])
    else
      var code := d.status.value;
      if code == 200 || code == 201 || code == 204 then Delivered([Success(true)], [])
      else Delivered([Failure(RequestError(SEE_INFO))], [NonTwoHundredNote(code)])
  }

  /** `delete(path:id:completion:)` returning `T?`: 204, and 200/201 without data, yield `T()`. */
  function DeleteObjectCallback<T>(d: Delivery, make: map<string, Json> -> T, empty: T): (r: Delivered<Option<T>>)
    ensures |r.calls| == 1
    ensures DeliveredWith(d, 204) ==> r == Delivered([Success(Some(empty))], [])
    ensures d.error.None? && d.status.Some? && ClassOf(d.status.value) == WithBody && d.data.None? ==>
      r == Delivered([Success(Some(empty))], [])
    ensures r.calls[0].Success? <==>
      d.error.None? && d.status.Some?
      && (d.status.value == 204
          || (ClassOf(d.status.value) == WithBody
              && (d.data.Some? ==> d.data.value.Parsed? && ObjectOf(d.data.value).Some?)))
    ensures r.calls[0].Success? ==> r.notes == [] && r.calls[0].value.Some?
    ensures r.calls[0].Failure? ==> r.calls[0].error == RequestError(SEE_INFO) && |r.notes| == 1
    ensures d.error.None? && d.status.Some? && ClassOf(d.status.value) == WithBody && d.data.Some?
            && r.calls[0].Success? ==>
      r.calls[0].value == Some(make(ObjectOf(d.data.value).value))
  {
    if d.error.Some? then
      Delivered([Failure(RequestError(SEE_INFO))], [RequestErrorNote(d.error.value)])
    else if d.status.None? then
      Delivered([Failure(RequestError(SEE_INFO))], [InvalidResponseNote(d.response)])
    else
      var code := d.status.value;
      if code == 200 || code == 201 then
        if d.data.None? then Delivered([Success(Some(empty))], [])
        else match d.data.value
          case Unparseable => Delivered([Failure(RequestError(SEE_INFO))], [NOTE_PARSE])
          case Parsed(_) =>
            match ObjectOf(d.data.value)
            case Some(obj) => Delivered([Success(Some(make(obj)))], [])
            case None => Delivered([Failure(RequestError(SEE_INFO))], [InvalidResponseNote(d.response)])
      else if code == 204 then Delivered([Success(Some(empty))], [])
      else Delivered([Failure(RequestError(SEE_INFO))], [NonTwoHundredNote(code)])
  }
}
