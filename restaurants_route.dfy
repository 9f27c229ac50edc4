/** `POST /api/restaurants`: read `name` and `oilType` from the JSON body,
    reject a missing or empty one with 400, otherwise create the document
    and answer 201 with it; anything thrown on the way is a 500 carrying
    the error's message. */
module RestaurantsRoute {
  import opened Wrappers
  import opened Strings
  import opened Restaurant
  import opened Http

  /** The parsed request body. `submittedDate` stands for every field
      besides `name` and `oilType` that a client may send: the handler
      never passes it on. */
  datatype Body = Body(name: Option<string>, oilType: Option<string>, submittedDate: Option<int>)

  const FIELDS_REQUIRED := "Name and oilType are required fields."

  /** JavaScript truthiness of an optional string: present and non-empty. */
  predicate Truthy(v: Option<string>) {
    v.Some? && v.value != ""
  }

  /** The response, given the parsed body (or the message of the error
      that parsing threw), the clock reading `now` that becomes the default
      `submittedDate`, and the messages of a failed database connection or
      a failed insert. */
  function PostResponse(body: Result<Body, string>, now: int,
                        connectFault: Option<string>, writeFault: Option<string>): Response
  {
    match body
    case Failure(parseError) => ErrorResponse(500, parseError)
    case Success(b) =>
      if !Truthy(b.name) || !Truthy(b.oilType) then ErrorResponse(400, FIELDS_REQUIRED)
      else if connectFault.Some? then ErrorResponse(500, connectFault.value)
      else
        match CreateOutcome(b.name, b.oilType, None, now, writeFault)
        case Failure(message) => ErrorResponse(500, message)
        case Success(record) => Response(201, true, Created(record), None, None, None)
  }

  /** The records a request adds to the collection. */
  function PostInserts(body: Result<Body, string>, now: int,
                       connectFault: Option<string>, writeFault: Option<string>): seq<Record>
  {
    if body.Failure? || !Truthy(body.value.name) || !Truthy(body.value.oilType) || connectFault.Some? then []
    else Inserted(CreateOutcome(body.value.name, body.value.oilType, None, now, writeFault))
  }

  /** The handler. Only `name` and `oilType` reach `create`. */
  method Post(store: RestaurantCollection, body: Result<Body, string>, now: int,
              connectFault: Option<string>, writeFault: Option<string>) returns (response: Response)
    requires store.Valid()
    modifies store
    ensures store.Valid()
    ensures response == PostResponse(body, now, connectFault, writeFault)
    ensures store.records == old(store.records) + PostInserts(body, now, connectFault, writeFault)
  {
    if body.Failure? {
      return ErrorResponse(500, body.error);
    }
    var name, oilType := body.value.name, body.value.oilType;
    if !Truthy(name) || !Truthy(oilType) {
      return ErrorResponse(400, FIELDS_REQUIRED);
    }
    if connectFault.Some? {
      return ErrorResponse(500, connectFault.value);
    }
    var created := store.Create(name, oilType, None, now, writeFault);
    if created.Failure? {
      response := ErrorResponse(500, created.error);
    } else {
      response := Response(201, true, Created(created.value), None, None, None);
    }
  }

  /** Two identical submissions store two identical records: there is no
      deduplication. */
  method SubmitTwice(store: RestaurantCollection, body: Body, now: int) returns (first: Response, second: Response)
    requires store.Valid()
    requires PostResponse(Success(body), now, None, None).status == 201
    modifies store
    ensures first == second && first.status == 201
    ensures |store.records| == |old(store.records)| + 2
    ensures store.records[|store.records| - 1] == store.records[|store.records| - 2]
  {
    PostStatuses(Success(body), now, None, None);
    first := Post(store, Success(body), now, None, None);
    second := Post(store, Success(body), now, None, None);
  }

  // ---------------------------------------------------------------------
  // Lemmas

  /** Only 400, 201 and 500 are answered; `success` holds exactly for 201,
      which is exactly when one record is inserted, and that record is the
      response's `data`. Every other outcome leaves the store unchanged. */
  lemma PostStatuses(body: Result<Body, string>, now: int, connectFault: Option<string>, writeFault: Option<string>)
    ensures var r := PostResponse(body, now, connectFault, writeFault);
      && r.status in {400, 201, 500}
      && (r.success <==> r.status == 201)
      && (r.status == 201 <==> |PostInserts(body, now, connectFault, writeFault)| == 1)
      && (r.status != 201 <==> PostInserts(body, now, connectFault, writeFault) == [])
      && (r.status == 201 ==> r.data == Created(PostInserts(body, now, connectFault, writeFault)[0]))
      && (r.status != 201 ==> r.error.Some? && r.data == NoData)
  {
  }

  /** 400 is answered exactly when the body lacks a non-empty `name` or
      `oilType`, always with the same error and no insert. */
  lemma PostMissingFields(body: Result<Body, string>, now: int, connectFault: Option<string>, writeFault: Option<string>)
    ensures PostResponse(body, now, connectFault, writeFault).status == 400 <==>
      body.Success? && (!Truthy(body.value.name) || !Truthy(body.value.oilType))
    ensures PostResponse(body, now, connectFault, writeFault).status == 400 ==>
      && PostResponse(body, now, connectFault, writeFault) == ErrorResponse(400, FIELDS_REQUIRED)
      && PostInserts(body, now, connectFault, writeFault) == []
  {
  }

  /** 201 is answered exactly when the trimmed name is non-empty, the oil
      type is one of the listed labels and neither the connection nor the
      insert fails. */
  lemma PostSucceeds(body: Result<Body, string>, now: int, connectFault: Option<string>, writeFault: Option<string>)
    ensures PostResponse(body, now, connectFault, writeFault).status == 201 <==>
      && body.Success?
      && body.value.name.Some? && Trim(body.value.name.value) != ""
      && body.value.oilType.Some? && body.value.oilType.value in OIL_TYPES
      && connectFault.None? && writeFault.None?
  {
    if body.Success? {
      var b := body.value;
      if Truthy(b.name) && Truthy(b.oilType) && connectFault.None? {
        var v := Validate(b.name, b.oilType, None, now);
        assert PostResponse(body, now, connectFault, writeFault).status == 201 <==>
          v.Success? && writeFault.None?;
      } else {
        assert Trim("") == "";
        EmptyIsNoOilType();
      }
    }
  }

  /** The created record holds the trimmed name, the oil type as sent, and
      the creation time, whatever `submittedDate` the body carried. */
  lemma PostCreatedRecord(body: Body, now: int, connectFault: Option<string>, writeFault: Option<string>)
    requires PostResponse(Success(body), now, connectFault, writeFault).status == 201
    ensures var record := PostResponse(Success(body), now, connectFault, writeFault).data.record;
      && record == Record(Trim(body.name.value), body.oilType.value, now)
      && record.name != "" && IsTrimmed(record.name)
      && record.oilType in OIL_TYPES
  {
    PostSucceeds(Success(body), now, connectFault, writeFault);
    var v := Validate(body.name, body.oilType, None, now);
    assert v.Success?;
    assert CreateOutcome(body.name, body.oilType, None, now, writeFault) == Success(v.value);
  }

  /** A whitespace-only name passes the presence check but is emptied by
      the schema's trim, so it is a 500 carrying the validation message,
      not a 400. */
  lemma PostBlankNameIs500(name: string, oilType: string, submittedDate: Option<int>, now: int, writeFault: Option<string>)
    requires name != "" && AllWhitespace(name)
    requires oilType in OIL_TYPES
    ensures PostResponse(Success(Body(Some(name), Some(oilType), submittedDate)), now, None, writeFault)
         == ErrorResponse(500, ValidationMessage([FieldError("name", NAME_REQUIRED)]))
  {
    var e := FieldError("name", NAME_REQUIRED);
    TrimEndEmpty(name);
    assert Trim(name) == "";
    assert oilType != "";
    assert Validate(Some(name), Some(oilType), None, now) == Failure([e]) by {
      assert ErrorsOf(CheckName(Some(name))) == [e];
      assert ErrorsOf(CheckOilType(Some(oilType))) == [];
      assert [e] + [] == [e];
    }
  }

  /** An oil type outside the list is a 500 whose message names the value. */
  lemma PostInvalidOilTypeIs500(name: string, oilType: string, submittedDate: Option<int>, now: int, writeFault: Option<string>)
    requires Trim(name) != ""
    requires oilType != "" && oilType !in OIL_TYPES
    ensures PostResponse(Success(Body(Some(name), Some(oilType), submittedDate)), now, None, writeFault)
         == ErrorResponse(500, ValidationMessage([FieldError("oilType", InvalidOilTypeMessage(oilType))]))
  {
    assert name != "";
    InvalidOilTypeRejected(name, oilType, None, now);
  }

  /** Once the presence check is passed, every failure is a 500 with the
      thrown error's message and no insert. */
  lemma PostLaterFailuresAre500(body: Body, now: int, connectFault: Option<string>, writeFault: Option<string>)
    requires Truthy(body.name) && Truthy(body.oilType)
    requires PostResponse(Success(body), now, connectFault, writeFault).status != 201
    ensures var r := PostResponse(Success(body), now, connectFault, writeFault);
      && r.status == 500 && !r.success
      && r.error == Some(
           if connectFault.Some? then connectFault.value
           else CreateOutcome(body.name, body.oilType, None, now, writeFault).error)
      && PostInserts(Success(body), now, connectFault, writeFault) == []
  {
  }
}
