/** The add-robot form (src/components/modal/Modals.jsx): the form fields, the
    style table and avatar URL, and the submit flow (validate, guard against a
    second submit, check the phone, create, then reset or keep the form). */
module Modals {
  import opened Wrappers
  import opened TextUtil
  import opened Api
  import AppView

  // ---------------------------------------------------------------------------
  // Form fields
  // ---------------------------------------------------------------------------

  /** The `user` state object. */
  datatype UserForm = UserForm(
    firstname: string,
    lastname: string,
    username: string,
    email: string,
    phoneNumber: string)

  const EmptyUser := UserForm("", "", "", "", "")

  /** The `name` attributes of the five text inputs. */
  datatype FieldName = FirstName | LastName | Username | Email | PhoneNumber

  function Get(u: UserForm, f: FieldName): string {
    match f
    case FirstName => u.firstname
    case LastName => u.lastname
    case Username => u.username
    case Email => u.email
    case PhoneNumber => u.phoneNumber
  }

  /** `{ ...user, [name]: value }`: the named field takes the new value and
      every other field keeps its own. */
  function SetField(u: UserForm, f: FieldName, v: string): (r: UserForm)
    ensures Get(r, f) == v
    ensures forall g :: g != f ==> Get(r, g) == Get(u, g)
  {
    match f
    case FirstName => u.(firstname := v)
    case LastName => u.(lastname := v)
    case Username => u.(username := v)
    case Email => u.(email := v)
    case PhoneNumber => u.(phoneNumber := v)
  }

  // ---------------------------------------------------------------------------
  // Avatar URL
  // ---------------------------------------------------------------------------

  /** The `robotstyle` table: style name to robohash set suffix. */
  const RobotStyle: map<string, string> := map[
    "Robots" := ".png?set=set1",
    "Monsters" := ".png?set=set2",
    "Aliens" := ".png?set=set3",
    "Cats" := ".png?set=set4"]

  const RobohashBase := "https://robohash.org/"

  /** `robotstyle[key]` as a template literal renders it: "undefined" exactly
      for a key the table does not have. The four suffixes are distinct, so a
      suffix names its style. */
  function StyleSuffix(key: string): (r: string)
    ensures r == "undefined" <==> key !in RobotStyle
    ensures StyleOfUrl(r) == if key in RobotStyle then Some(key) else None
  {
    if key in RobotStyle then RobotStyle[key] else "undefined"
  }

  /** The URL Generate builds: the robohash address, first and last name, then
      the style's suffix, from which the selected style can be read back. */
  function ImageUrl(first: string, last: string, key: string): (r: string)
    ensures IsPrefix(RobohashBase + first + last, r)
    ensures StyleOfUrl(r) == if key in RobotStyle then Some(key) else None
  {
    var seed := RobohashBase + first + last;
    var suffix := StyleSuffix(key);
    var url := seed + suffix;
    assert url[..|seed|] == seed;
    if key in RobotStyle then
      StyleOfAppend(seed, suffix);
      url
    else
      assert url[|url| - 1] == 'd';
      url
  }

  /** Only the last 13 characters decide the style a URL names. */
  lemma StyleOfAppend(seed: string, suffix: string)
    requires |suffix| == 13
    ensures StyleOfUrl(seed + suffix) == StyleOfUrl(suffix)
  {
    var url := seed + suffix;
    assert url[|url| - 13..] == suffix;
    assert suffix[|suffix| - 13..] == suffix;
  }

  predicate HasSuffix(s: string, suffix: string) {
    |suffix| <= |s| && s[|s| - |suffix|..] == suffix
  }

  /** Which style an avatar URL was generated with, read back from its suffix. */
  function StyleOfUrl(url: string): Option<string> {
    if HasSuffix(url, ".png?set=set1") then Some("Robots")
    else if HasSuffix(url, ".png?set=set2") then Some("Monsters")
    else if HasSuffix(url, ".png?set=set3") then Some("Aliens")
    else if HasSuffix(url, ".png?set=set4") then Some("Cats")
    else None
  }

  /** First "Rob", last "Ot" and style "Robots" give the "RobOt" avatar of set 1. */
  lemma ImageUrlExample()
    ensures ImageUrl("Rob", "Ot", "Robots") == "https://robohash.org/RobOt.png?set=set1"
  {
  }

  // ---------------------------------------------------------------------------
  // The record handleAdd builds and the request body sent for it
  // ---------------------------------------------------------------------------

  /** The `newRobot` object: five fields, and no `styleType`. */
  datatype NewRobot = NewRobot(
    name: string,
    username: string,
    email: string,
    phone: string,
    image: string)

  /** The record built from the form: the name is "first last" trimmed, so it
      is empty exactly when both parts are white space, and is "first last"
      itself when neither part has white space at its outer end; the other
      four fields are copied unchanged. */
  function BuildNewRobot(user: UserForm, imageUrl: string): (r: NewRobot)
    ensures r.name == "" <==> AllSpace(user.firstname) && AllSpace(user.lastname)
    ensures user.firstname != "" && user.lastname != ""
            && !IsJsSpace(user.firstname[0]) && !IsJsSpace(user.lastname[|user.lastname| - 1])
            ==> r.name == user.firstname + " " + user.lastname
    ensures r.username == user.username && r.email == user.email
    ensures r.phone == user.phoneNumber && r.image == imageUrl
  {
    var joined := user.firstname + " " + user.lastname;
    TrimJoinedBlank(user.firstname, user.lastname);
    if user.firstname != "" && user.lastname != ""
       && !IsJsSpace(user.firstname[0]) && !IsJsSpace(user.lastname[|user.lastname| - 1])
    then
      assert joined[0] == user.firstname[0];
      assert joined[|joined| - 1] == user.lastname[|user.lastname| - 1];
      TrimUnchanged(joined);
      NewRobot(Trim(joined), user.username, user.email, user.phoneNumber, imageUrl)
    else
      NewRobot(Trim(joined), user.username, user.email, user.phoneNumber, imageUrl)
  }

  /** The client-side guard: none of the five fields is the empty string. */
  predicate IsComplete(n: NewRobot) {
    n.name != "" && n.username != "" && n.email != "" && n.phone != "" && n.image != ""
  }

  /** In terms of the form: the guard fails exactly when first and last name are
      both white space, or username, email, phone or image URL is empty. Only
      the name is trimmed. */
  lemma CompleteIff(user: UserForm, imageUrl: string)
    ensures IsComplete(BuildNewRobot(user, imageUrl)) <==>
            && !(AllSpace(user.firstname) && AllSpace(user.lastname))
            && user.username != "" && user.email != ""
            && user.phoneNumber != "" && imageUrl != ""
  {
    TrimJoinedBlank(user.firstname, user.lastname);
  }

  /** `JSON.stringify(newRobot)` as the create request body: `styleType` is
      absent, the other five fields are all non-empty exactly when the record
      passed the guard, and adding a style gives the body the service expects. */
  function SubmissionBody(n: NewRobot): (r: Body)
    ensures r.styleType.None?
    ensures (Truthy(r.name) && Truthy(r.username) && Truthy(r.email)
             && Truthy(r.phone) && Truthy(r.image)) <==> IsComplete(n)
    ensures forall k :: r.(styleType := Some(k)) == IntendedSubmissionBody(n, k)
  {
    Body(Some(n.name), Some(n.username), Some(n.email), Some(n.phone), Some(n.image), None)
  }

  /** The body the service expects: the same five fields plus the selected
      style as `styleType`. */
  function IntendedSubmissionBody(n: NewRobot, styleKey: string): (r: Body)
    ensures (Truthy(r.name) && Truthy(r.username) && Truthy(r.email) && Truthy(r.phone)
             && Truthy(r.image) && Truthy(r.styleType)) <==> IsComplete(n) && styleKey != ""
    ensures r.styleType == Some(styleKey)
  {
    Body(Some(n.name), Some(n.username), Some(n.email), Some(n.phone), Some(n.image),
         Some(styleKey))
  }

  // ---------------------------------------------------------------------------
  // Reading the two replies
  // ---------------------------------------------------------------------------

  /** Why a submission failed, as the error message shown to the user says it. */
  datatype Problem =
    | NetworkFailure                             // fetch rejected
    | HttpStatus(status: int)                    // "HTTP error! status: N"
    | HttpStatusWithBody(status: int, text: string)  // "... Response body: text"
    | NotJson                                    // check-phone: "Expected JSON, got ...";
                                                 // create: `response.json()` fails to parse
    | UnexpectedBody                             // a 2xx create reply that is no robot
    | ServerMessage(msg: string)                 // the `msg` of a JSON error body

  /** The check-phone reply: an error unless it is a 2xx JSON response;
      otherwise whether its `exists` is true. */
  function ReadPhoneReply(reply: Reply): (r: Result<bool, Problem>)
    ensures reply.NoReply? ==> r == Failure(NetworkFailure)
    ensures reply.Got? && !IsOk(reply.response.status) ==>
              r == Failure(HttpStatus(reply.response.status))
    ensures r.Success? <==>
              reply.Got? && IsOk(reply.response.status) && !reply.response.body.Text?
    ensures r == Success(true) <==>
              reply.Got? && IsOk(reply.response.status) && reply.response.body == ExistsFlag(true)
  {
    match reply
    case NoReply => Failure(NetworkFailure)
    case Got(Response(status, body)) =>
      if !IsOk(status) then Failure(HttpStatus(status))
      else if body.Text? then Failure(NotJson)
      else Success(body == ExistsFlag(true))
  }

  /** The create reply: a 2xx reply carrying a record yields that record; an
      error reply yields its non-empty `msg` when it has one, else its status. */
  function ReadCreateReply(reply: Reply): (r: Result<Robot, Problem>)
    ensures reply.NoReply? ==> r == Failure(NetworkFailure)
    ensures r.Success? <==>
              reply.Got? && IsOk(reply.response.status) && reply.response.body.One?
    ensures r.Success? ==> r.value == reply.response.body.robot
    ensures reply.Got? && !IsOk(reply.response.status) ==>
              match reply.response.body
              case Msg(m) => r == Failure(if m != "" then ServerMessage(m)
                                          else HttpStatus(reply.response.status))
              case Text(t) => r == Failure(HttpStatusWithBody(reply.response.status, t))
              case _ => r == Failure(HttpStatus(reply.response.status))
  {
    match reply
    case NoReply => Failure(NetworkFailure)
    case Got(Response(status, body)) =>
      if !IsOk(status) then
        match body
        case Text(t) => Failure(HttpStatusWithBody(status, t))
        case Msg(m) => if m != "" then Failure(ServerMessage(m)) else Failure(HttpStatus(status))
        case _ => Failure(HttpStatus(status))
      else
        match body
        case One(robot) => Success(robot)
        case Text(_) => Failure(NotJson)
        case _ => Failure(UnexpectedBody)
  }

  // ---------------------------------------------------------------------------
  // The submit flow as a transition on the form's state
  // ---------------------------------------------------------------------------

  /** The blocking prompts the form shows. */
  datatype Alert =
    | FillNameAndStyle      // Generate without first name, last name or style
    | FillAllFields         // Add with a field or the image missing
    | PhoneTaken            // the phone is already registered
    | AddFailed(problem: Problem)  // "An error occurred: ..."

  /** The form's state: `user`, `selectedOptionKey`, `generatedImageUrl`,
      `isLoading`. */
  datatype FormState = FormState(
    user: UserForm,
    selectedOptionKey: string,
    generatedImageUrl: string,
    isLoading: bool)

  const ClearedForm := FormState(EmptyUser, "", "", false)

  /** One Add click: the next form state, the prompt shown, the requests sent
      in order, and the record passed to `onAddRobot` (which also closes the
      modal), if any. */
  datatype AddResult = AddResult(
    next: FormState,
    alert: Option<Alert>,
    requests: seq<Request>,
    added: Option<Robot>)

  /** The network part of `handleAdd`, for a form whose record `n` passed the
      guard: check-phone is sent first; create is sent exactly when the phone
      check read "not taken"; a record is added exactly when create then
      returned one, and it is that record; the form is cleared then, and kept
      otherwise, with the prompt for the step that stopped the flow. */
  function SubmitStep(s: FormState, n: NewRobot, phoneReply: Reply, createReply: Reply): (r: AddResult)
    requires !s.isLoading
    ensures r.requests == if ReadPhoneReply(phoneReply) == Success(false)
                          then [CheckPhoneRequest(n.phone), CreateRequest(SubmissionBody(n))]
                          else [CheckPhoneRequest(n.phone)]
    ensures r.added.Some? <==>
              ReadPhoneReply(phoneReply) == Success(false) && ReadCreateReply(createReply).Success?
    ensures r.added.Some? ==>
              r.added.value == ReadCreateReply(createReply).value
              && r.next == ClearedForm && r.alert.None?
    ensures r.added.None? ==> r.next == s
    ensures ReadPhoneReply(phoneReply).Failure? ==>
              r.alert == Some(AddFailed(ReadPhoneReply(phoneReply).error))
    ensures ReadPhoneReply(phoneReply) == Success(true) ==> r.alert == Some(PhoneTaken)
    ensures ReadPhoneReply(phoneReply) == Success(false) && ReadCreateReply(createReply).Failure? ==>
              r.alert == Some(AddFailed(ReadCreateReply(createReply).error))
  {
    var probe := [CheckPhoneRequest(n.phone)];
    match ReadPhoneReply(phoneReply)
    case Failure(p) => AddResult(s, Some(AddFailed(p)), probe, None)
    case Success(phoneTaken) =>
      if phoneTaken then AddResult(s, Some(PhoneTaken), probe, None)
      else
        var sent := probe + [CreateRequest(SubmissionBody(n))];
        match ReadCreateReply(createReply)
        case Failure(p) => AddResult(s, Some(AddFailed(p)), sent, None)
        case Success(robot) => AddResult(ClearedForm, None, sent, Some(robot))
  }

  /** `handleAdd` as a function of the state and the two replies. While a
      submission is in flight nothing happens; a form that fails the guard
      only prompts and sends nothing; otherwise the network part runs. Every
      path that starts ends with `isLoading` false, and check-phone, for the
      form's phone, is always the first request. A record is added exactly
      when the form is complete, the phone is free and create returned a
      record, and the record added is the one create returned. */
  function AddStep(s: FormState, phoneReply: Reply, createReply: Reply): (r: AddResult)
    ensures s.isLoading ==> r == AddResult(s, None, [], None)
    ensures !s.isLoading ==> !r.next.isLoading
    ensures r.added.Some? <==>
              && !s.isLoading && IsComplete(BuildNewRobot(s.user, s.generatedImageUrl))
              && ReadPhoneReply(phoneReply) == Success(false)
              && ReadCreateReply(createReply).Success?
    ensures r.added.Some? ==> r.added.value == ReadCreateReply(createReply).value
    ensures r.added.Some? ==> r.next == ClearedForm && r.alert.None?
    ensures r.added.None? ==> r.next == s
    ensures !s.isLoading && r.added.None? ==> r.alert.Some?
    ensures |r.requests| <= 2
    ensures r.requests != [] ==> r.requests[0] == CheckPhoneRequest(s.user.phoneNumber)
  {
    if s.isLoading then AddResult(s, None, [], None)
    else
      var n := BuildNewRobot(s.user, s.generatedImageUrl);
      if !IsComplete(n) then AddResult(s, Some(FillAllFields), [], None)
      else SubmitStep(s, n, phoneReply, createReply)
  }

  /** The guard: with a blank name, or an empty username, email, phone or
      image, Add only prompts; no request is sent and the form is kept. */
  lemma AddIncompleteSendsNothing(s: FormState, phoneReply: Reply, createReply: Reply)
    requires !s.isLoading
    requires || (AllSpace(s.user.firstname) && AllSpace(s.user.lastname))
             || s.user.username == "" || s.user.email == ""
             || s.user.phoneNumber == "" || s.generatedImageUrl == ""
    ensures AddStep(s, phoneReply, createReply)
            == AddResult(s, Some(FillAllFields), [], None)
  {
    CompleteIff(s.user, s.generatedImageUrl);
  }

  /** A taken phone number stops the flow after check-phone: create is never
      sent, nothing is added, and the form is kept. */
  lemma AddPhoneTakenStops(s: FormState, phoneReply: Reply, createReply: Reply)
    requires !s.isLoading && IsComplete(BuildNewRobot(s.user, s.generatedImageUrl))
    requires ReadPhoneReply(phoneReply) == Success(true)
    ensures AddStep(s, phoneReply, createReply)
            == AddResult(s, Some(PhoneTaken), [CheckPhoneRequest(s.user.phoneNumber)], None)
  {
  }

  /** A failed phone check (no reply, an error status, or a body that is not
      JSON) aborts: create is not sent, nothing is added, the form is kept and
      the problem is shown. */
  lemma AddPhoneCheckFails(s: FormState, phoneReply: Reply, createReply: Reply)
    requires !s.isLoading && IsComplete(BuildNewRobot(s.user, s.generatedImageUrl))
    requires ReadPhoneReply(phoneReply).Failure?
    ensures AddStep(s, phoneReply, createReply)
            == AddResult(s, Some(AddFailed(ReadPhoneReply(phoneReply).error)),
                         [CheckPhoneRequest(s.user.phoneNumber)], None)
  {
  }

  /** A failed create, after a free phone, keeps the form and shows the
      problem read from the create reply; both requests were sent. */
  lemma AddCreateFails(s: FormState, phoneReply: Reply, createReply: Reply)
    requires !s.isLoading && IsComplete(BuildNewRobot(s.user, s.generatedImageUrl))
    requires ReadPhoneReply(phoneReply) == Success(false)
    requires ReadCreateReply(createReply).Failure?
    ensures var n := BuildNewRobot(s.user, s.generatedImageUrl);
            AddStep(s, phoneReply, createReply)
            == AddResult(s, Some(AddFailed(ReadCreateReply(createReply).error)),
                         [CheckPhoneRequest(n.phone), CreateRequest(SubmissionBody(n))], None)
  {
  }

  /** A successful create passes the returned record on once and clears the
      form; the create request carried the body built from the form. */
  lemma AddSuccessClears(s: FormState, phoneReply: Reply, createReply: Reply)
    requires !s.isLoading && IsComplete(BuildNewRobot(s.user, s.generatedImageUrl))
    requires ReadPhoneReply(phoneReply) == Success(false)
    requires ReadCreateReply(createReply).Success?
    ensures var n := BuildNewRobot(s.user, s.generatedImageUrl);
            AddStep(s, phoneReply, createReply)
            == AddResult(ClearedForm, None,
                         [CheckPhoneRequest(n.phone), CreateRequest(SubmissionBody(n))],
                         Some(createReply.response.body.robot))
  {
  }

  /** The form's component state, with the parent view it reports to. */
  class AddRobotModal {
    var user: UserForm
    var selectedOptionKey: string
    var generatedImageUrl: string
    var isLoading: bool
    /** The parent: `trigger`/`setTrigger` are its `showModal`, and
        `onAddRobot` is its `HandleAddRobot`. */
    const app: AppView.App

    constructor (parent: AppView.App)
      ensures State() == ClearedForm && app == parent
    {
      user := EmptyUser;
      selectedOptionKey := "";
      generatedImageUrl := "";
      isLoading := false;
      app := parent;
    }

    function State(): FormState
      reads this
    {
      FormState(user, selectedOptionKey, generatedImageUrl, isLoading)
    }

    /** `handleSelectChange`: the style drop-down's new value. */
    method HandleSelectChange(value: string)
      modifies this`selectedOptionKey
      ensures State() == old(State()).(selectedOptionKey := value)
    {
      selectedOptionKey := value;
    }

    /** `handleInfo`: one text input's new value; only that field changes. */
    method HandleInfo(field: FieldName, value: string)
      modifies this`user
      ensures State() == old(State()).(user := SetField(old(user), field, value))
      ensures Get(user, field) == value
      ensures forall g :: g != field ==> Get(user, g) == Get(old(user), g)
    {
      user := SetField(user, field, value);
    }

    /** `handleGenerateClick`: with first name, last name and a style the URL is
        built; otherwise a prompt and no change. */
    method HandleGenerateClick() returns (alert: Option<Alert>)
      modifies this`generatedImageUrl
      ensures old(user.firstname) != "" && old(user.lastname) != "" && old(selectedOptionKey) != "" ==>
                && State() == old(State()).(generatedImageUrl :=
                                            ImageUrl(user.firstname, user.lastname, selectedOptionKey))
                && alert == None
      ensures !(old(user.firstname) != "" && old(user.lastname) != "" && old(selectedOptionKey) != "") ==>
                State() == old(State()) && alert == Some(FillNameAndStyle)
    {
      if user.firstname != "" && user.lastname != "" && selectedOptionKey != "" {
        var imageUrl := ImageUrl(user.firstname, user.lastname, selectedOptionKey);
        generatedImageUrl := imageUrl;
        alert := None;
      } else {
        alert := Some(FillNameAndStyle);
      }
    }

    /** `handleAdd`, with the replies to check-phone and create as inputs (the
        create reply is read only when create is sent). */
    method HandleAdd(phoneReply: Reply, createReply: Reply)
      returns (alert: Option<Alert>, requests: seq<Request>)
      modifies this, app
      ensures var r := AddStep(old(State()), phoneReply, createReply);
              && State() == r.next && alert == r.alert && requests == r.requests
      ensures var r := AddStep(old(State()), phoneReply, createReply);
              app.robot == old(app.robot) + (if r.added.Some? then [r.added.value] else [])
      ensures var r := AddStep(old(State()), phoneReply, createReply);
              app.showModal == (if r.added.Some? then false else old(app.showModal))
      ensures app.searched == old(app.searched)
    {
      ghost var expected := AddStep(State(), phoneReply, createReply);
      if isLoading {
        return None, [];
      }
      var newRobot := BuildNewRobot(user, generatedImageUrl);
      if !IsComplete(newRobot) {
        return Some(FillAllFields), [];
      }
      isLoading := true;
      alert := None;
      requests := [CheckPhoneRequest(newRobot.phone)];
      var phoneExists := ReadPhoneReply(phoneReply);
      if phoneExists.Failure? {
        alert := Some(AddFailed(phoneExists.error));
      } else if phoneExists.value {
        alert := Some(PhoneTaken);
      } else {
        requests := requests + [CreateRequest(SubmissionBody(newRobot))];
        var created := ReadCreateReply(createReply);
        if created.Failure? {
          alert := Some(AddFailed(created.error));
        } else {
          assert expected.added == Some(created.value);
          AddSucceeded(created.value);
        }
      }
      isLoading := false;
    }

    /** The success path of `handleAdd`: `onAddRobot(addedRobot)`, then
        `setTrigger(false)`, then the form is cleared. */
    method AddSucceeded(addedRobot: Robot)
      modifies this, app
      ensures State() == ClearedForm.(isLoading := old(isLoading))
      ensures app.robot == old(app.robot) + [addedRobot]
      ensures !app.showModal && app.searched == old(app.searched)
    {
      app.HandleAddRobot(addedRobot);
      app.SetShowModal(false);
      generatedImageUrl := "";
      user := EmptyUser;
      selectedOptionKey := "";
    }

    /** The Close button: the modal is hidden and the form cleared; an in-flight
        flag is left as it is. */
    method Close()
      modifies this, app
      ensures State() == ClearedForm.(isLoading := old(isLoading))
      ensures !app.showModal
      ensures app.robot == old(app.robot) && app.searched == old(app.searched)
    {
      app.SetShowModal(false);
      generatedImageUrl := "";
      user := EmptyUser;
      selectedOptionKey := "";
    }
  }
}
