/**
 * The plugin object: the store it reaches through SaveMeeting/GetMeeting,
 * and its HTTP handlers, which write to a response writer step by step.
 * Each handler is proved to leave the writer and the store as the matching
 * function of module Api says.
 */
module Server {
  import opened Wrappers
  import opened Http
  import opened Meetings
  import opened Api

  class Plugin {
    /** json.Marshal / json.Unmarshal. */
    const codec: Codec
    /** The host's key-value store, keyed by channel id. */
    var kv: Store

    constructor (codec: Codec)
      ensures this.codec == codec && kv == map[]
    {
      this.codec := codec;
      kv := map[];
    }

    method SaveMeeting(m: Meeting, host: Host) returns (err: Option<Failure>)
      modifies this
      ensures match Save(old(kv), m, host)
              case Ok(saved) => err == None && kv == saved
              case Err(e) => err == Some(e) && kv == old(kv)
    {
      if host.kvSetFails {
        err := Some(KvError);
      } else {
        kv := kv[m.channelId := m];
        err := None;
      }
    }

    method GetMeeting(channelId: string, host: Host) returns (r: Result<Meeting, Failure>)
      ensures r == Lookup(kv, channelId, host)
    {
      r := Lookup(kv, channelId, host);
    }

    method ServeHTTP(w: ResponseWriter, r: Request, host: Host)
      requires w.Unwritten()
      modifies this, w
      ensures var o := Respond(old(kv), codec, host, r);
              w.Status() == o.status && w.body == o.body && kv == o.store
    {
      if r.path == SETTINGS_PATH {
        HttpMeetingSettings(w, r, host);
      } else {
        NotFound(w);
      }
    }

    method HttpMeetingSettings(w: ResponseWriter, r: Request, host: Host)
      requires w.Unwritten()
      modifies this, w
      ensures var o := MeetingSettings(old(kv), codec, host, r);
              w.Status() == o.status && w.body == o.body && kv == o.store
    {
      if r.userId == "" {
        Error(w, Message(NOT_AUTHORIZED_GATE), STATUS_UNAUTHORIZED);
      }
      if r.httpMethod == METHOD_POST {
        HttpMeetingSaveSettings(w, r, host);
      } else if r.httpMethod == METHOD_GET {
        HttpMeetingGetSettings(w, r, host);
      } else {
        Error(w, Message(NotAllowedText(r.httpMethod)), STATUS_METHOD_NOT_ALLOWED);
      }
    }

    method HttpMeetingSaveSettings(w: ResponseWriter, r: Request, host: Host)
      modifies this, w
      ensures var o := SaveSettings(old(kv), codec, host, r);
              && kv == o.store
              && w.wroteHeader
              && w.body == old(w.body) + o.body
              && w.Status() == if old(w.wroteHeader) then old(w.Status()) else o.status
    {
      if r.userId == "" {
        Error(w, Message(NOT_AUTHORIZED_HANDLER), STATUS_UNAUTHORIZED);
        return;
      }
      if r.body.None? {
        Error(w, ErrorText(BodyReadError), STATUS_BAD_REQUEST);
        return;
      }
      var meeting := codec.unmarshal(r.body.value);
      if meeting.None? {
        Error(w, ErrorText(UnmarshalError), STATUS_INTERNAL_SERVER_ERROR);
        return;
      }
      var err := SaveMeeting(meeting.value, host);
      if err.Some? {
        Error(w, ErrorText(err.value), STATUS_INTERNAL_SERVER_ERROR);
        return;
      }
      w.Write(Payload(Ascii(OK_TEXT)));
    }

    method HttpMeetingGetSettings(w: ResponseWriter, r: Request, host: Host)
      modifies w
      ensures var o := GetSettings(kv, codec, host, r);
              && w.wroteHeader
              && w.body == old(w.body) + o.body
              && w.Status() == if old(w.wroteHeader) then old(w.Status()) else o.status
    {
      if r.userId == "" {
        Error(w, Message(NOT_AUTHORIZED_HANDLER), STATUS_UNAUTHORIZED);
        return;
      }
      if "channelId" !in r.query || |r.query["channelId"][0]| < 1 {
        Error(w, Message(MISSING_CHANNEL_ID_TEXT), STATUS_BAD_REQUEST);
        return;
      }
      var channelId := r.query["channelId"][0];
      var meeting := GetMeeting(channelId, host);
      if meeting.Err? {
        Error(w, ErrorText(meeting.error), STATUS_BAD_REQUEST);
        return;
      }
      var resp := codec.marshal(meeting.value);
      if resp.None? {
        Error(w, ErrorText(MarshalError), STATUS_INTERNAL_SERVER_ERROR);
        return;
      }
      w.Write(Payload(resp.value));
    }
  }
}
