/**
  How the operations of `Connection` compare with each other. Each operation
  decides on the HTTP status by itself; these lemmas state where the
  decisions coincide (the suspendable and completion-handler forms of one
  operation, the `Bool` forms of post and put) and where they do not (delete
  refuses 202, get refuses 201), measured against the status table `ClassOf`.
 */
module Variants {
  import opened Wrappers
  import opened Json
  import opened Decimal
  import opened Outcomes

  /** A completion handler receiving what a suspendable call got back: the same body, status and
      response, or an error whenever the transport threw. */
  predicate SameExchange(ex: Exchange, d: Delivery) {
    match ex
    case Threw(_) => d.error.Some?
    case Returned(payload, status, response) =>
      d.error.None? && d.data == Some(payload) && d.status == status && d.response == response
  }

  /** Post and put report the same success for every encoding outcome and exchange; they differ
      only in the note a thrown transport error leaves. */
  lemma PostPutBoolAgree(encoded: bool, ex: Exchange)
    requires encoded && ex.Returned? ==> ex.status.Some?
    ensures PostBoolAsync(encoded, ex).value == PutBoolAsync(encoded, ex).value
    ensures PostBoolAsync(encoded, ex).notes == PutBoolAsync(encoded, ex).notes <==> !(encoded && ex.Threw?)
  {
    if encoded && ex.Threw? {
      var u := UnexpectedErrorNote(ex.description);
      assert |u| > |ex.description|;
      assert PostBoolAsync(encoded, ex).notes[0] != PutBoolAsync(encoded, ex).notes[0];
    }
  }

  /** Whenever the object form of post or put yields an object, the `Bool` form succeeds. */
  lemma ObjectImpliesBool<T>(encoded: bool, ex: Exchange, make: map<string, Json> -> T)
    requires encoded && ex.Returned? ==> ex.status.Some?
    ensures PostObjectAsync(encoded, ex, make).value.Some? ==> PostBoolAsync(encoded, ex).value
    ensures PutObjectAsync(encoded, ex, make).value.Some? ==> PutBoolAsync(encoded, ex).value
    ensures PostObjectAsync(encoded, ex, make).value == PutObjectAsync(encoded, ex, make).value
  {
  }

  /** 202 Accepted: post and put succeed, both forms of delete fail and name the code. */
  lemma DeleteRefusesAccepted<T>(ex: Exchange, make: map<string, Json> -> T, empty: T)
    requires ReturnedWith(ex, 202)
    ensures PostBoolAsync(true, ex).value && PutBoolAsync(true, ex).value
    ensures !DeleteBoolAsync(ex).value
    ensures DeleteObjectAsync(ex, make, empty).value.None?
    ensures EndsWithCode(DeleteBoolAsync(ex).notes[0], 202)
    ensures EndsWithCode(DeleteObjectAsync(ex, make, empty).notes[0], 202)
  {
    StatusNotesNameCode(202, "");
  }

  /** 201 Created with an object body: post, put and delete decode it, get refuses it. */
  lemma GetRefusesCreated<T>(ex: Exchange, make: map<string, Json> -> T, empty: T)
    requires ReturnedWith(ex, 201) && ex.payload.Parsed? && ex.payload.json.Obj?
    ensures GetAsync(ex, make).value.None?
    ensures GetAsync(ex, make).notes == [NonTwoHundredNote(201)]
    ensures PostObjectAsync(true, ex, make).value == Some(make(ex.payload.json.fields))
    ensures PutObjectAsync(true, ex, make).value == Some(make(ex.payload.json.fields))
    ensures DeleteObjectAsync(ex, make, empty).value == Some(make(ex.payload.json.fields))
  {
  }

  /** Every status outside the table fails every suspendable operation with a note that names
      the code. */
  lemma FailedStatusNamed<T>(ex: Exchange, make: map<string, Json> -> T, empty: T)
    requires ex.Returned? && ex.status.Some? && ClassOf(ex.status.value) == Failed
    ensures ListAsync(true, ex, make).value.None? && NamesCode(ListAsync(true, ex, make).notes[0], ex.status.value)
    ensures GetAsync(ex, make).value.None? && NamesCode(GetAsync(ex, make).notes[0], ex.status.value)
    ensures !PostBoolAsync(true, ex).value && NamesCode(PostBoolAsync(true, ex).notes[0], ex.status.value)
    ensures PostObjectAsync(true, ex, make).value.None?
    ensures NamesCode(PostObjectAsync(true, ex, make).notes[0], ex.status.value)
    ensures PutObjectAsync(true, ex, make).value.None?
    ensures NamesCode(PutObjectAsync(true, ex, make).notes[0], ex.status.value)
    ensures !PutBoolAsync(true, ex).value && NamesCode(PutBoolAsync(true, ex).notes[0], ex.status.value)
    ensures !DeleteBoolAsync(ex).value && NamesCode(DeleteBoolAsync(ex).notes[0], ex.status.value)
    ensures DeleteObjectAsync(ex, make, empty).value.None?
    ensures NamesCode(DeleteObjectAsync(ex, make, empty).notes[0], ex.status.value)
  {
    StatusNotesNameCode(ex.status.value, "");
  }

  /** The two forms of get agree: the handler succeeds exactly when the suspendable call yields
      an object, and with the same object. */
  lemma GetFormsAgree<T>(ex: Exchange, d: Delivery, make: map<string, Json> -> T)
    requires SameExchange(ex, d) && (ex.Returned? ==> ex.status.Some?)
    ensures GetCallback(d, make).calls[0].Success? <==> GetAsync(ex, make).value.Some?
    ensures GetCallback(d, make).calls[0].Success? ==>
      GetCallback(d, make).calls[0].value == GetAsync(ex, make).value
  {
  }

  /** The two forms of list agree whenever the handler completes exactly once; it fails to
      complete, or completes twice, only where the suspendable call yields nil. */
  lemma ListFormsAgree<T>(ex: Exchange, d: Delivery, make: map<string, Json> -> T)
    requires SameExchange(ex, d)
    ensures |ListCallback(d, make).calls| != 1 ==> ListAsync(true, ex, make).value.None?
    ensures |ListCallback(d, make).calls| == 1 && ListCallback(d, make).calls[0].Success? <==>
      ListAsync(true, ex, make).value.Some?
    ensures ListAsync(true, ex, make).value.Some? ==>
      ListCallback(d, make).calls[0].value == ListAsync(true, ex, make).value
  {
  }

  /** The corrected list callback departs from the one as written only where that one does not
      complete exactly once, and there it fails once, leaving the same note. */
  lemma ListOnceCorrects<T>(d: Delivery, make: map<string, Json> -> T)
    ensures |ListCallback(d, make).calls| == 1 ==> ListCallbackOnce(d, make) == ListCallback(d, make)
    ensures |ListCallback(d, make).calls| != 1 ==>
      ListCallbackOnce(d, make) == Delivered([Failure(RequestError(SEE_INFO))], ListCallback(d, make).notes)
  {
  }

  /** The two completion counts the list callback as written can produce, on bodies a server can
      send: one that is not JSON completes twice; a JSON object, or an array holding a
      non-object, completes never. */
  lemma ListCompletesTwiceOrNever<T>(response: string, text: string, m: map<string, Json>,
                                     make: map<string, Json> -> T)
    ensures |ListCallback(Delivery(None, Some(Unparseable), Some(200), response, text, text), make).calls| == 2
    ensures |ListCallback(Delivery(None, Some(Parsed(Obj(m))), Some(200), response, text, text), make).calls| == 0
    ensures |ListCallback(Delivery(None, Some(Parsed(Arr([Null]))), Some(200), response, text, text), make).calls| == 0
  {
    assert !([Null][0].Obj?);
  }

  /** With the correction, the completion handler reports exactly what the suspendable call
      returns: success with the same elements, or failure where it returns nil. */
  lemma ListOnceMatchesAsync<T>(ex: Exchange, d: Delivery, make: map<string, Json> -> T)
    requires SameExchange(ex, d)
    ensures ListCallbackOnce(d, make).calls[0].Success? <==> ListAsync(true, ex, make).value.Some?
    ensures ListCallbackOnce(d, make).calls[0].Success? ==>
      ListCallbackOnce(d, make).calls[0].value == ListAsync(true, ex, make).value
  {
  }

  /** The two `Bool` forms of post, put and delete report the same success. */
  lemma BoolFormsAgree(encoded: bool, ex: Exchange, d: Delivery)
    requires SameExchange(ex, d) && (ex.Returned? ==> ex.status.Some?)
    ensures PostBoolCallback(encoded, d).calls[0].Success? <==> PostBoolAsync(encoded, ex).value
    ensures PutBoolCallback(encoded, d).calls[0].Success? <==> PutBoolAsync(encoded, ex).value
    ensures DeleteBoolCallback(d).calls[0].Success? <==> DeleteBoolAsync(ex).value
  {
  }

  /** The object forms of post agree on every object they yield; the handler also succeeds,
      without an object, on 202 and 204. */
  lemma PostObjectFormsAgree<T>(encoded: bool, ex: Exchange, d: Delivery, make: map<string, Json> -> T)
    requires SameExchange(ex, d) && (ex.Returned? ==> ex.status.Some?)
    ensures PostObjectAsync(encoded, ex, make).value.Some? ==>
      PostObjectCallback(encoded, d, make).calls == [Success(PostObjectAsync(encoded, ex, make).value)]
    ensures PostObjectCallback(encoded, d, make).calls[0].Success? ==>
      PostObjectCallback(encoded, d, make).calls[0].value == PostObjectAsync(encoded, ex, make).value
      || ClassOf(ex.status.value) == WithoutBody
  {
  }
}
