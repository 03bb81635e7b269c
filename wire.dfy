/** What the event-queue engine exchanges with the server, the database and the UI.
    The HTTP transport and the JSON parser are not modelled: a reply arrives already
    classified, either as a parsed body or as the exception the transport or the
    parser would have thrown. */
module Wire {

  datatype Option<+T> = None | Some(value: T)

  /** The exceptions `run()` tells apart, in the order of its catch clauses. */
  datatype Failure =
    | HttpError(status: int, message: Option<string>)  // HttpResponseException; its message may be null
    | SocketTimeout                                     // SocketTimeoutException
    | IOError(aborting: bool)                           // any other IOException, with `request.aborting`
    | JsonError                                         // JSONException
    | Unexpected                                        // any other exception

  /** The outcome of one `request.execute(...)` followed by `new JSONObject(...)`. */
  datatype Reply<+T> = Ok(body: T) | Fail(failure: Failure)

  datatype Message = Message(id: int, content: string)

  /** The part of an event `processEvents` reads besides its id. `Malformed` stands
      for every event on which a `getJSONObject`/`getString`/`getInt` throws. */
  datatype Payload =
    | MessagePayload(message: Message)   // type "message"
    | PointerPayload(pointer: int)       // type "pointer"
    | OtherType                          // any other type: ignored
    | Malformed

  /** An element of the `events` array; `id` is `None` when `getInt("id")` would throw. */
  datatype Event = Event(id: Option<int>, payload: Payload)

  /** The `subscriptions` and `realm_users` arrays of a registration, as opaque names. */
  datatype Roster = Roster(streams: seq<string>, people: seq<string>)

  /** The body of a `v1/register` reply; a field is `None` when reading it throws. */
  datatype Registration = Registration(
    queueId: Option<string>,
    lastEventId: Option<int>,
    pointer: Option<int>,
    maxMessageId: Option<int>,
    roster: Option<Roster>)

  /** The answers the server gives to the requests of one loop iteration: the
      registration is only asked for when there is no queue id. */
  datatype Round = Round(register: Reply<Registration>, poll: Reply<seq<Event>>)

  /** One executed HTTP request: verb, path and the request's properties at that moment. */
  datatype Request = Request(verb: string, path: string, params: map<string, string>)

  const Post := "POST"
  const Get := "GET"
  const RegisterPath := "v1/register"
  const EventsPath := "v1/events"

  /** How many messages `Message.trim` keeps on registration. */
  const KeepMessages := 5000

  /** Calls into the database and the UI, in the order the engine makes them. */
  datatype Effect =
    | Sleep(failures: int)                 // backoff(): sleeps exp(failures / 2) seconds
    | TrimMessages(keep: int)              // Message.trim
    | StoreRoster(roster: Roster)          // the streams/people transaction
    | RefreshPeople                        // activity.peopleAdapter.refresh
    | RefreshStreams                       // activity.streamsAdapter.refresh
    | StoreMessages(messages: seq<Message>) // Message.createMessages
    | UpdateRange(lastMessageId: int)      // MessageRange.updateNewMessagesRange
    | NewMessages(messages: seq<Message>)  // activity.onNewMessages
    | ReadyToDisplay(registered: bool)     // activity.onReadyToDisplay

  function IsRegisterRequest(r: Request): bool { r.verb == Post && r.path == RegisterPath }
  function IsPollRequest(r: Request): bool { r.verb == Get && r.path == EventsPath }
}
