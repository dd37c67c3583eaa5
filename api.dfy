/**
 * What each handler of the settings endpoint answers, as a value: the
 * status it writes first, the parts it writes to the body, and the store
 * afterwards.  The Plugin class in module Server performs the same steps on
 * a response writer and is proved to produce exactly these outcomes.
 */
module Api {
  import opened Wrappers
  import opened Http
  import opened Meetings

  const SETTINGS_PATH: string := "/api/v1/settings"

  /** The identity check in httpMeetingSettings. */
  const NOT_AUTHORIZED_GATE: string := "Not Authorized"
  /** The identity check in the two sub-handlers. */
  const NOT_AUTHORIZED_HANDLER: string := "Not authorized"
  const MISSING_CHANNEL_ID_TEXT: string := "Missing channelId parameter"
  const OK_TEXT: string := "{\"status\": \"OK\"}"

  function NotAllowedText(httpMethod: string): string
  {
    "Request: " + httpMethod + " is not allowed."
  }

  datatype Outcome = Outcome(status: int, body: seq<Part>, store: Store)

  /**
   * The channel a GET asks for: the first `channelId` value, when the key
   * is present and that value is not empty.
   */
  function ChannelIdParam(q: Values): (id: Option<string>)
    ensures id.Some? <==> "channelId" in q && q["channelId"][0] != ""
    ensures id.Some? ==> id.value == q["channelId"][0]
  {
    if "channelId" in q && |q["channelId"][0]| >= 1 then Some(q["channelId"][0]) else None
  }

  /** The meeting a POST body decodes to, if the body was read and decodes. */
  function Posted(codec: Codec, r: Request): Option<Meeting>
  {
    if r.body.Some? then codec.unmarshal(r.body.value) else None
  }

  /** An authenticated POST to the settings path whose body decodes and whose store write succeeds. */
  predicate SavesMeeting(codec: Codec, host: Host, r: Request)
  {
    r.path == SETTINGS_PATH && r.userId != "" && r.httpMethod == METHOD_POST
    && Posted(codec, r).Some? && !host.kvSetFails
  }

  /** httpMeetingSaveSettings. */
  function SaveSettings(kv: Store, codec: Codec, host: Host, r: Request): (o: Outcome)
    ensures r.userId == "" ==> o.status == STATUS_UNAUTHORIZED
    ensures r.userId != "" && r.body.None? ==> o.status == STATUS_BAD_REQUEST
    ensures r.userId != "" && r.body.Some? && Posted(codec, r).None? ==> o.status == STATUS_INTERNAL_SERVER_ERROR
    ensures r.userId != "" && Posted(codec, r).Some? && host.kvSetFails ==> o.status == STATUS_INTERNAL_SERVER_ERROR
    ensures o.status == STATUS_OK <==> r.userId != "" && Posted(codec, r).Some? && !host.kvSetFails
    ensures o.status == STATUS_OK ==>
      && o.body == [Payload(Ascii(OK_TEXT))]
      && var m := Posted(codec, r).value;
         o.store == kv[m.channelId := m]
    ensures o.status != STATUS_OK ==> o.store == kv && |o.body| == 1
  {
    if r.userId == "" then Outcome(STATUS_UNAUTHORIZED, [Message(NOT_AUTHORIZED_HANDLER)], kv)
    else match r.body
      case None => Outcome(STATUS_BAD_REQUEST, [ErrorText(BodyReadError)], kv)
      case Some(b) =>
        match codec.unmarshal(b)
        case None => Outcome(STATUS_INTERNAL_SERVER_ERROR, [ErrorText(UnmarshalError)], kv)
        case Some(m) =>
          match Save(kv, m, host)
          case Err(e) => Outcome(STATUS_INTERNAL_SERVER_ERROR, [ErrorText(e)], kv)
          case Ok(saved) => Outcome(STATUS_OK, [Payload(Ascii(OK_TEXT))], saved)
  }

  /** httpMeetingGetSettings. */
  function GetSettings(kv: Store, codec: Codec, host: Host, r: Request): (o: Outcome)
    ensures o.store == kv && |o.body| == 1
    ensures r.userId == "" ==> o.status == STATUS_UNAUTHORIZED
    ensures r.userId != "" && ChannelIdParam(r.query).None? ==> o.status == STATUS_BAD_REQUEST
    ensures r.userId != "" && ChannelIdParam(r.query).Some? && Lookup(kv, ChannelIdParam(r.query).value, host).Err?
            ==> o.status == STATUS_BAD_REQUEST
    ensures o.status == STATUS_OK <==>
      && r.userId != ""
      && ChannelIdParam(r.query).Some?
      && !host.kvGetFails
      && ChannelIdParam(r.query).value in kv
      && codec.marshal(kv[ChannelIdParam(r.query).value]).Some?
    ensures o.status == STATUS_OK ==> o.body == [Payload(codec.marshal(kv[ChannelIdParam(r.query).value]).value)]
    ensures o.status == STATUS_INTERNAL_SERVER_ERROR ==> o.body == [ErrorText(MarshalError)]
    ensures && r.userId != ""
            && ChannelIdParam(r.query).Some?
            && Lookup(kv, ChannelIdParam(r.query).value, host).Ok?
            && codec.marshal(Lookup(kv, ChannelIdParam(r.query).value, host).value).None?
            ==> o == Outcome(STATUS_INTERNAL_SERVER_ERROR, [ErrorText(MarshalError)], kv)
  {
    if r.userId == "" then Outcome(STATUS_UNAUTHORIZED, [Message(NOT_AUTHORIZED_HANDLER)], kv)
    else match ChannelIdParam(r.query)
      case None => Outcome(STATUS_BAD_REQUEST, [Message(MISSING_CHANNEL_ID_TEXT)], kv)
      case Some(id) =>
        match Lookup(kv, id, host)
        case Err(e) => Outcome(STATUS_BAD_REQUEST, [ErrorText(e)], kv)
        case Ok(m) =>
          match codec.marshal(m)
          case None => Outcome(STATUS_INTERNAL_SERVER_ERROR, [ErrorText(MarshalError)], kv)
          case Some(resp) => Outcome(STATUS_OK, [Payload(resp)], kv)
  }

  /**
   * httpMeetingSettings.  A missing identity writes 401 but does not
   * return, so the method switch still runs: its status is ignored (the
   * first one written stands) and its text follows the 401 text.
   */
  function MeetingSettings(kv: Store, codec: Codec, host: Host, r: Request): (o: Outcome)
    ensures r.userId == "" ==> o.status == STATUS_UNAUTHORIZED && o.store == kv
    ensures r.userId == "" ==> |o.body| == 2 && o.body[0] == Message(NOT_AUTHORIZED_GATE)
    ensures r.userId != "" && r.httpMethod == METHOD_POST ==> o == SaveSettings(kv, codec, host, r)
    ensures r.userId != "" && r.httpMethod == METHOD_GET ==> o == GetSettings(kv, codec, host, r)
    ensures r.userId != "" && r.httpMethod != METHOD_GET && r.httpMethod != METHOD_POST ==>
      o == Outcome(STATUS_METHOD_NOT_ALLOWED, [Message(NotAllowedText(r.httpMethod))], kv)
  {
    var handled :=
      if r.httpMethod == METHOD_POST then SaveSettings(kv, codec, host, r)
      else if r.httpMethod == METHOD_GET then GetSettings(kv, codec, host, r)
      else Outcome(STATUS_METHOD_NOT_ALLOWED, [Message(NotAllowedText(r.httpMethod))], kv);
    if r.userId == "" then Outcome(STATUS_UNAUTHORIZED, [Message(NOT_AUTHORIZED_GATE)] + handled.body, handled.store)
    else handled
  }

  /** ServeHTTP: only the settings path is served. */
  function Respond(kv: Store, codec: Codec, host: Host, r: Request): (o: Outcome)
    ensures r.path != SETTINGS_PATH ==> o.status == STATUS_NOT_FOUND && o.store == kv
    ensures r.path == SETTINGS_PATH && r.userId == "" ==> o.status == STATUS_UNAUTHORIZED && o.store == kv
    ensures r.path == SETTINGS_PATH && r.userId != "" && r.httpMethod != METHOD_GET && r.httpMethod != METHOD_POST ==>
      o.status == STATUS_METHOD_NOT_ALLOWED && o.store == kv
    ensures o.status in {STATUS_OK, STATUS_BAD_REQUEST, STATUS_UNAUTHORIZED, STATUS_NOT_FOUND,
                         STATUS_METHOD_NOT_ALLOWED, STATUS_INTERNAL_SERVER_ERROR}
    ensures o.store == if SavesMeeting(codec, host, r)
                       then kv[Posted(codec, r).value.channelId := Posted(codec, r).value]
                       else kv
    ensures SavesMeeting(codec, host, r) ==> o.status == STATUS_OK && o.body == [Payload(Ascii(OK_TEXT))]
    ensures KeyedByChannel(kv) ==> KeyedByChannel(o.store)
  {
    if r.path == SETTINGS_PATH then MeetingSettings(kv, codec, host, r)
    else Outcome(STATUS_NOT_FOUND, [Message(PAGE_NOT_FOUND_TEXT)], kv)
  }
}
