/**
 * The requests of the plugin's HTTP test, served one after another by a
 * single Plugin object, and further requests: an unknown channel, no query,
 * another path and a PUT.
 */
module Scenarios {
  import opened Wrappers
  import opened Http
  import opened Meetings
  import opened Api
  import opened Server

  const CHANNEL: string := "myChannelId"
  const USER: string := "theuserid"
  const DEFAULT_MEETING: Meeting := Meeting(CHANNEL, THURSDAY, "Jan02")
  const POSTED_MEETING: Meeting := Meeting(CHANNEL, TUESDAY, "MyMeeting-Jan-02")
  const NO_FAULTS: Host := Host(false, false)

  function ForChannel(id: string): Values
  {
    map["channelId" := [id]]
  }

  /** Serve one request on a fresh response writer. */
  method Serve(plugin: Plugin, r: Request) returns (status: int, body: seq<Part>)
    modifies plugin
    ensures var o := Respond(old(plugin.kv), plugin.codec, NO_FAULTS, r);
            status == o.status && body == o.body && plugin.kv == o.store
  {
    var w := new ResponseWriter();
    plugin.ServeHTTP(w, r, NO_FAULTS);
    status, body := w.Status(), w.body;
  }

  function GetRequest(id: string): Request
  {
    Request(SETTINGS_PATH, METHOD_GET, USER, ForChannel(id), None)
  }

  function PostRequest(body: Bytes): Request
  {
    Request(SETTINGS_PATH, METHOD_POST, USER, map[], Some(body))
  }

  /** An authenticated GET for a stored channel whose meeting encodes. */
  lemma GetStored(kv: Store, codec: Codec, id: string)
    requires id != "" && id in kv && codec.marshal(kv[id]).Some?
    ensures Respond(kv, codec, NO_FAULTS, GetRequest(id))
            == Outcome(STATUS_OK, [Payload(codec.marshal(kv[id]).value)], kv)
  {
  }

  /** An authenticated POST of a meeting's encoding, under a codec that round-trips. */
  lemma PostEncoded(kv: Store, codec: Codec, m: Meeting)
    requires RoundTrips(codec) && codec.marshal(m).Some?
    ensures Respond(kv, codec, NO_FAULTS, PostRequest(codec.marshal(m).value))
            == Outcome(STATUS_OK, [Payload(Ascii(OK_TEXT))], kv[m.channelId := m])
  {
  }

  /**
   * The two cases of the plugin's HTTP test on one plugin: a GET of the
   * stored default meeting and a POST of another one; then a GET that
   * reads the posted meeting back.
   */
  method ServeTestRequests(codec: Codec) returns (getStatus: int, getBody: seq<Part>, postStatus: int, postBody: seq<Part>,
                                               readBackStatus: int, readBack: seq<Part>)
    requires RoundTrips(codec)
    requires codec.marshal(DEFAULT_MEETING).Some? && codec.marshal(POSTED_MEETING).Some?
    ensures getStatus == STATUS_OK && getBody == [Payload(codec.marshal(DEFAULT_MEETING).value)]
    ensures postStatus == STATUS_OK && postBody == [Payload(Ascii(OK_TEXT))]
    ensures readBackStatus == STATUS_OK && readBack == [Payload(codec.marshal(POSTED_MEETING).value)]
  {
    var plugin := new Plugin(codec);
    var stored := map[CHANNEL := DEFAULT_MEETING];
    plugin.kv := stored;
    GetStored(stored, codec, CHANNEL);
    getStatus, getBody := Serve(plugin, GetRequest(CHANNEL));

    PostEncoded(stored, codec, POSTED_MEETING);
    postStatus, postBody := Serve(plugin, PostRequest(codec.marshal(POSTED_MEETING).value));
    var updated := stored[CHANNEL := POSTED_MEETING];
    assert plugin.kv == updated;

    GetStored(updated, codec, CHANNEL);
    readBackStatus, readBack := Serve(plugin, GetRequest(CHANNEL));
  }

  /** A GET for an unknown channel, a GET without a query, another path, and a PUT. */
  lemma FailingRequests(codec: Codec)
    ensures var kv := map[CHANNEL := DEFAULT_MEETING];
            && Respond(kv, codec, NO_FAULTS, Request(SETTINGS_PATH, METHOD_GET, USER, ForChannel("unknownChannel"), None)).status
               == STATUS_BAD_REQUEST
            && Respond(kv, codec, NO_FAULTS, Request(SETTINGS_PATH, METHOD_GET, USER, map[], None)).status
               == STATUS_BAD_REQUEST
            && Respond(kv, codec, NO_FAULTS, Request("/api/v1/other", METHOD_GET, USER, map[], None)).status
               == STATUS_NOT_FOUND
            && Respond(kv, codec, NO_FAULTS, Request(SETTINGS_PATH, "PUT", USER, map[], None)).status
               == STATUS_METHOD_NOT_ALLOWED
  {
  }
}
