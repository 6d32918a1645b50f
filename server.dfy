/** The three route handlers of the directory service (server/server.js):
    list, check-phone and create, over a store that enforces uniqueness of
    username, email and phone. */
module Server {
  import opened Wrappers
  import opened Api

  /** The six fields of a create request that passed validation. */
  datatype Candidate = Candidate(
    name: string,
    username: string,
    email: string,
    phone: string,
    image: string,
    styleType: string)

  /** A failure reported by the store; `code` is the driver's error code, if any. */
  datatype StoreError = StoreError(code: Option<int>)

  // ---------------------------------------------------------------------------
  // POST /api/robots
  // ---------------------------------------------------------------------------

  predicate AllFieldsPresent(body: Body) {
    && Truthy(body.name) && Truthy(body.username) && Truthy(body.email)
    && Truthy(body.phone) && Truthy(body.image) && Truthy(body.styleType)
  }

  /** The "basic validation" step: a body missing any of the six fields is
      answered with 400 "Please enter all fields"; otherwise its six strings
      are passed on unchanged. */
  function Validate(body: Body): (r: Result<Candidate, Response>)
    ensures r.Failure? <==> !AllFieldsPresent(body)
    ensures r.Failure? ==> r.error == Response(400, Msg(EnterAllFields))
    ensures r.Success? ==>
      && body == Body(Some(r.value.name), Some(r.value.username), Some(r.value.email),
                      Some(r.value.phone), Some(r.value.image), Some(r.value.styleType))
      && r.value.name != "" && r.value.username != "" && r.value.email != ""
      && r.value.phone != "" && r.value.image != "" && r.value.styleType != ""
  {
    if !AllFieldsPresent(body) then
      Failure(Response(400, Msg(EnterAllFields)))
    else
      Success(Candidate(body.name.value, body.username.value, body.email.value,
                        body.phone.value, body.image.value, body.styleType.value))
  }

  /** `r` shares a unique key (username, email or phone) with `c`. */
  predicate Clashes(r: Robot, c: Candidate) {
    r.username == c.username || r.email == c.email || r.phone == c.phone
  }

  predicate Conflicts(records: seq<Robot>, c: Candidate) {
    exists i :: 0 <= i < |records| && Clashes(records[i], c)
  }

  /** The store's invariant: no two records share an id, a username, an email
      or a phone, and every id is below the next one to hand out. */
  ghost predicate StoreInvariant(records: seq<Robot>, nextId: nat) {
    && (forall i, j :: 0 <= i < j < |records| ==>
          && records[i].id != records[j].id
          && records[i].username != records[j].username
          && records[i].email != records[j].email
          && records[i].phone != records[j].phone)
    && (forall i :: 0 <= i < |records| ==> records[i].id < nextId)
  }

  function Stored(c: Candidate, id: nat): Robot {
    Robot(id, c.name, c.username, c.email, c.phone, c.image, c.styleType)
  }

  /** What `newRobot.save()` reports: the fault the store raises, if any;
      otherwise a duplicate-key error (code 11000) when a unique key is taken;
      otherwise the saved record with a fresh id. */
  function SaveOutcome(records: seq<Robot>, nextId: nat, c: Candidate,
                       fault: Option<StoreError>): (r: Result<Robot, StoreError>)
    ensures r.Success? <==> fault.None? && !Conflicts(records, c)
    ensures r.Success? ==> r.value == Stored(c, nextId)
    ensures fault.None? && Conflicts(records, c) ==>
              r == Failure(StoreError(Some(DuplicateKeyCode)))
    ensures fault.Some? ==> r == Failure(fault.value)
  {
    if fault.Some? then Failure(fault.value)
    else if Conflicts(records, c) then Failure(StoreError(Some(DuplicateKeyCode)))
    else Success(Stored(c, nextId))
  }

  /** A successful save keeps the store's invariant: the new record's id is
      fresh and its unique keys are not taken. */
  lemma SaveKeepsInvariant(records: seq<Robot>, nextId: nat, c: Candidate,
                           fault: Option<StoreError>)
    requires StoreInvariant(records, nextId)
    requires SaveOutcome(records, nextId, c, fault).Success?
    ensures StoreInvariant(records + [Stored(c, nextId)], nextId + 1)
  {
    var after := records + [Stored(c, nextId)];
    forall i | 0 <= i < |records|
      ensures !Clashes(after[i], c) && after[i].id < nextId
    {
      assert after[i] == records[i];
    }
  }

  /** The catch block: code 11000 becomes 400 with the fixed duplicate
      message, every other failure 500 with the generic save error. */
  function SaveFailureResponse(e: StoreError): (r: Response)
    ensures r.status == 400 <==> e.code == Some(DuplicateKeyCode)
    ensures r.status == 400 ==> r.body == Msg(DuplicateMessage)
    ensures r.status != 400 ==> r == Response(500, ErrorMsg(SaveError))
  {
    if e.code == Some(DuplicateKeyCode) then Response(400, Msg(DuplicateMessage))
    else Response(500, ErrorMsg(SaveError))
  }

  /** The success response as written: status 201 and the saved record with its
      name prefixed by "DEBUG: ". */
  function CreatedResponse(saved: Robot): (r: Response)
    ensures r.status == 201 && r.body.One?
    ensures r.body.robot == saved.(name := DebugPrefix + saved.name)
  {
    var debugResponse := saved.(name := DebugPrefix + saved.name);
    Response(201, One(debugResponse))
  }

  /** The success response as the service describes it: status 201 and the
      saved record itself. */
  function IntendedCreatedResponse(saved: Robot): (r: Response)
    ensures r.status == 201 && r.body.One?
    ensures r.body.robot == saved
  {
    Response(201, One(saved))
  }

  /** The response the create handler sends for a save outcome. */
  function PostResponse(outcome: Result<Robot, StoreError>): (r: Response)
    ensures r.status == 201 <==> outcome.Success?
    ensures outcome.Failure? ==> r == SaveFailureResponse(outcome.error)
    ensures outcome.Success? ==> r == CreatedResponse(outcome.value)
  {
    match outcome
    case Success(saved) => CreatedResponse(saved)
    case Failure(e) => SaveFailureResponse(e)
  }

  /** A fresh record is answered with 201 and an echo of what was submitted,
      except that the echoed name is not the stored one. */
  lemma {:induction false} DebugEchoDiffers(records: seq<Robot>, nextId: nat, c: Candidate)
    requires !Conflicts(records, c)
    ensures var saved := SaveOutcome(records, nextId, c, None);
            var r := PostResponse(saved);
            && saved.Success? && r.status == 201
            && r.body.robot.name == DebugPrefix + c.name
            && r.body.robot.name != saved.value.name
            && r.body.robot.(name := c.name) == saved.value
  {
    var saved := SaveOutcome(records, nextId, c, None);
    var echoed := PostResponse(saved).body.robot.name;
    assert |echoed| == |DebugPrefix| + |c.name|;
  }

  /** With the intended echo, the 201 body carries exactly the submitted fields. */
  lemma IntendedEchoIsSubmitted(records: seq<Robot>, nextId: nat, body: Body)
    requires Validate(body).Success?
    requires !Conflicts(records, Validate(body).value)
    ensures var saved := SaveOutcome(records, nextId, Validate(body).value, None);
            var echo := IntendedCreatedResponse(saved.value).body.robot;
            && saved.Success?
            && body == Body(Some(echo.name), Some(echo.username), Some(echo.email),
                            Some(echo.phone), Some(echo.image), Some(echo.styleType))
  {
  }

  /** Reusing a taken username, email or phone is answered with 400 and the
      duplicate message, whatever the other fields. */
  lemma DuplicateRejected(records: seq<Robot>, nextId: nat, c: Candidate, i: nat)
    requires i < |records| && Clashes(records[i], c)
    ensures PostResponse(SaveOutcome(records, nextId, c, None))
            == Response(400, Msg(DuplicateMessage))
  {
  }

  /** The store behind the routes: the collection's records in insertion order
      and the next id to hand out. */
  class Store {
    var records: seq<Robot>
    var nextId: nat

    ghost predicate Valid()
      reads this
    {
      StoreInvariant(records, nextId)
    }

    constructor ()
      ensures Valid() && records == [] && nextId == 0
    {
      records := [];
      nextId := 0;
    }

    /** `newRobot.save()`: appends the record when it is saved, under an id no
        stored record has, else leaves the collection as it was. */
    method Save(c: Candidate, fault: Option<StoreError>) returns (r: Result<Robot, StoreError>)
      requires Valid()
      modifies this
      ensures Valid()
      ensures r == SaveOutcome(old(records), old(nextId), c, fault)
      ensures r.Success? ==> records == old(records) + [r.value] && nextId == old(nextId) + 1
      ensures r.Success? ==> forall i :: 0 <= i < |old(records)| ==> old(records)[i].id != r.value.id
      ensures r.Failure? ==> records == old(records) && nextId == old(nextId)
    {
      if fault.Some? {
        r := Failure(fault.value);
      } else if Conflicts(records, c) {
        r := Failure(StoreError(Some(DuplicateKeyCode)));
      } else {
        SaveKeepsInvariant(records, nextId, c, fault);
        var saved := Stored(c, nextId);
        records := records + [saved];
        nextId := nextId + 1;
        r := Success(saved);
      }
    }
  }

  /** POST /api/robots: validate, save, respond. Nothing is stored unless the
      answer is 201. */
  method PostRobot(store: Store, body: Body, fault: Option<StoreError>) returns (res: Response)
    requires store.Valid()
    modifies store
    ensures store.Valid()
    ensures Validate(body).Failure? ==>
              && res == Validate(body).error
              && store.records == old(store.records) && store.nextId == old(store.nextId)
    ensures Validate(body).Success? ==>
              var outcome := SaveOutcome(old(store.records), old(store.nextId),
                                         Validate(body).value, fault);
              && res == PostResponse(outcome)
              && store.records == old(store.records) + (if outcome.Success? then [outcome.value] else [])
    ensures res.status == 201 <==> |store.records| == |old(store.records)| + 1
  {
    var validated := Validate(body);
    if validated.Failure? {
      return validated.error;
    }
    var saved := store.Save(validated.value, fault);
    match saved
    case Success(robot) =>
      res := CreatedResponse(robot);
    case Failure(e) =>
      res := SaveFailureResponse(e);
  }

  // ---------------------------------------------------------------------------
  // GET /api/robots and GET /api/robots/check-phone/:phone
  // ---------------------------------------------------------------------------

  /** GET /api/robots: the records as stored, in store order, or 500 when the
      store cannot be read. */
  function ListResponse(records: seq<Robot>, storeDown: bool): (r: Response)
    ensures !storeDown ==> r == Response(200, Robots(records))
    ensures storeDown ==> r == Response(500, ErrorMsg(FetchError))
  {
    if storeDown then Response(500, ErrorMsg(FetchError)) else Response(200, Robots(records))
  }

  /** Some stored record has exactly this phone string. */
  predicate HasPhone(records: seq<Robot>, phone: string) {
    exists i :: 0 <= i < |records| && records[i].phone == phone
  }

  /** `Robot.findOne({ phone })`: the first record whose phone is exactly
      `phone`, if any. */
  function FindOne(records: seq<Robot>, phone: string): (r: Option<Robot>)
    ensures r.Some? <==> HasPhone(records, phone)
    ensures r.Some? ==> exists i :: 0 <= i < |records| && records[i] == r.value
                                 && r.value.phone == phone
                                 && forall j :: 0 <= j < i ==> records[j].phone != phone
  {
    if records == [] then None
    else if records[0].phone == phone then Some(records[0])
    else
      var rest := FindOne(records[1..], phone);
      assert HasPhone(records[1..], phone) ==> HasPhone(records, phone) by {
        if HasPhone(records[1..], phone) {
          var k :| 0 <= k < |records[1..]| && records[1..][k].phone == phone;
          assert records[k + 1].phone == phone;
        }
      }
      assert HasPhone(records, phone) ==> HasPhone(records[1..], phone) by {
        if HasPhone(records, phone) {
          var k :| 0 <= k < |records| && records[k].phone == phone;
          assert records[1..][k - 1].phone == phone;
        }
      }
      if rest.Some? then
        var i :| 0 <= i < |records[1..]| && records[1..][i] == rest.value
                 && rest.value.phone == phone
                 && forall j :: 0 <= j < i ==> records[1..][j].phone != phone;
        assert records[i + 1] == rest.value;
        assert forall j :: 0 <= j < i + 1 ==> records[j].phone != phone by {
          forall j | 0 <= j < i + 1 ensures records[j].phone != phone {
            if j > 0 { assert records[j] == records[1..][j - 1]; }
          }
        }
        rest
      else
        None
  }

  /** GET /api/robots/check-phone/:phone: `{ exists }` is true exactly when a
      stored record has that phone string, compared literally; 500 when the
      store cannot be read. */
  function CheckPhoneResponse(records: seq<Robot>, phone: string, storeDown: bool): (r: Response)
    ensures !storeDown ==> r == Response(200, ExistsFlag(HasPhone(records, phone)))
    ensures storeDown ==> r == Response(500, ErrorMsg(CheckPhoneError))
  {
    if storeDown then Response(500, ErrorMsg(CheckPhoneError))
    else Response(200, ExistsFlag(FindOne(records, phone).Some?))
  }
}
