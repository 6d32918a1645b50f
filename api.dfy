/** The HTTP/JSON contract between the front end and the `/api/robots`
    service: the stored robot record, the create request body, the responses
    the service sends and what the browser receives. */
module Api {
  import opened Wrappers

  /** A robot as the store holds it and the service returns it. `id` stands for
      the store-assigned `_id`. */
  datatype Robot = Robot(
    id: nat,
    name: string,
    username: string,
    email: string,
    phone: string,
    image: string,
    styleType: string)

  /** The JSON body of `POST /api/robots`: each field is absent or a string. */
  datatype Body = Body(
    name: Option<string>,
    username: Option<string>,
    email: Option<string>,
    phone: Option<string>,
    image: Option<string>,
    styleType: Option<string>)

  /** JavaScript truthiness of a body field: present and not the empty string. */
  predicate Truthy(f: Option<string>) {
    f.Some? && f.value != ""
  }

  /** Response bodies the service produces; `Text` is any body that is not JSON
      (an HTML error page from a proxy, say). */
  datatype Payload =
    | Robots(robots: seq<Robot>)        // `[...]`
    | ExistsFlag(flag: bool)            // `{ exists }`
    | Msg(msg: string)                  // `{ msg }`
    | ErrorMsg(error: string)           // `{ error }`
    | One(robot: Robot)                 // a single record
    | Text(text: string)                // a non-JSON body

  datatype Response = Response(status: int, body: Payload)

  /** `response.ok`: a status in the range 200 to 299. */
  predicate IsOk(status: int) {
    200 <= status <= 299
  }

  /** What `fetch` hands the browser: either nothing (the promise rejected) or a
      response. */
  datatype Reply = NoReply | Got(response: Response)

  /** The requests the add-robot form issues. */
  datatype Request =
    | CheckPhoneRequest(phone: string)  // GET /api/robots/check-phone/:phone
    | CreateRequest(body: Body)         // POST /api/robots

  const EnterAllFields := "Please enter all fields"
  const DuplicateMessage :=
    "A robot with this email, username, or phone number already exists."
  const FetchError := "Server error while fetching robots."
  const CheckPhoneError := "Server error while checking phone number."
  const SaveError := "Server error while saving robot."
  const DebugPrefix := "DEBUG: "
  const DuplicateKeyCode := 11000
}
