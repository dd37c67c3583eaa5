/**
 * A plugin serves one request after another against the same store.
 * These lemmas follow the store through a whole sequence of requests.
 */
module Sessions {
  import opened Wrappers
  import opened Http
  import opened Meetings
  import opened Api

  /** One request together with how the host's key-value calls behave while serving it. */
  datatype Call = Call(host: Host, request: Request)

  /** The store after serving `calls` in order. */
  function Run(kv: Store, codec: Codec, calls: seq<Call>): Store
    decreases |calls|
  {
    if calls == [] then kv
    else Run(Respond(kv, codec, calls[0].host, calls[0].request).store, codec, calls[1..])
  }

  /** The call stores a meeting for channel `id`. */
  predicate SavesFor(codec: Codec, call: Call, id: string)
  {
    SavesMeeting(codec, call.host, call.request) && Posted(codec, call.request).value.channelId == id
  }

  lemma {:induction false} RunAppend(kv: Store, codec: Codec, a: seq<Call>, b: seq<Call>)
    ensures Run(kv, codec, a + b) == Run(Run(kv, codec, a), codec, b)
    decreases |a|
  {
    if a != [] {
      assert (a + b)[1..] == a[1..] + b;
      RunAppend(Respond(kv, codec, a[0].host, a[0].request).store, codec, a[1..], b);
    } else {
      assert a + b == b;
    }
  }

  /** Every meeting stays under its own channel id, however many requests are served. */
  lemma {:induction false} RunKeepsKeyedByChannel(kv: Store, codec: Codec, calls: seq<Call>)
    requires KeyedByChannel(kv)
    ensures KeyedByChannel(Run(kv, codec, calls))
    decreases |calls|
  {
    if calls != [] {
      RunKeepsKeyedByChannel(Respond(kv, codec, calls[0].host, calls[0].request).store, codec, calls[1..]);
    }
  }

  /** A channel that no call saves for keeps its entry, or its absence. */
  lemma {:induction false} RunLeavesOtherChannels(kv: Store, codec: Codec, calls: seq<Call>, id: string)
    requires forall i :: 0 <= i < |calls| ==> !SavesFor(codec, calls[i], id)
    ensures var after := Run(kv, codec, calls);
            (id in after <==> id in kv) && (id in kv ==> after[id] == kv[id])
    decreases |calls|
  {
    if calls != [] {
      assert !SavesFor(codec, calls[0], id);
      forall i | 0 <= i < |calls[1..]| ensures !SavesFor(codec, calls[1..][i], id) {
        assert calls[1..][i] == calls[i + 1];
      }
      RunLeavesOtherChannels(Respond(kv, codec, calls[0].host, calls[0].request).store, codec, calls[1..], id);
    }
  }

  /** Last write wins: the store holds the meeting of the latest successful POST for a channel. */
  lemma LastWriteWins(kv: Store, codec: Codec, before: seq<Call>, post: Call, after: seq<Call>)
    requires SavesMeeting(codec, post.host, post.request)
    requires forall i :: 0 <= i < |after| ==> !SavesFor(codec, after[i], Posted(codec, post.request).value.channelId)
    ensures var m := Posted(codec, post.request).value;
            var final := Run(kv, codec, before + [post] + after);
            m.channelId in final && final[m.channelId] == m
  {
    var m := Posted(codec, post.request).value;
    var mid := Run(kv, codec, before);
    RunAppend(kv, codec, before + [post], after);
    RunAppend(kv, codec, before, [post]);
    assert Run(mid, codec, [post]) == Respond(mid, codec, post.host, post.request).store;
    RunLeavesOtherChannels(Run(kv, codec, before + [post]), codec, after, m.channelId);
  }

  /**
   * Starting from an empty store, a GET for a channel that no earlier
   * request has saved for is answered 400.
   */
  lemma GetBeforeAnySaveIsBadRequest(codec: Codec, calls: seq<Call>, host: Host, get: Request, id: string)
    requires forall i :: 0 <= i < |calls| ==> !SavesFor(codec, calls[i], id)
    requires get.path == SETTINGS_PATH && get.userId != "" && get.httpMethod == METHOD_GET
    requires ChannelIdParam(get.query) == Some(id)
    ensures Respond(Run(map[], codec, calls), codec, host, get).status == STATUS_BAD_REQUEST
  {
    RunLeavesOtherChannels(map[], codec, calls, id);
  }

  /**
   * After any sequence ending in a successful POST of a meeting, followed
   * by requests that save nothing for its channel, a GET for that channel
   * answers 200 with the meeting's encoding.
   */
  lemma GetReturnsLatestSave(kv: Store, codec: Codec, before: seq<Call>, post: Call, after: seq<Call>,
                             host: Host, get: Request)
    requires SavesMeeting(codec, post.host, post.request)
    requires forall i :: 0 <= i < |after| ==> !SavesFor(codec, after[i], Posted(codec, post.request).value.channelId)
    requires get.path == SETTINGS_PATH && get.userId != "" && get.httpMethod == METHOD_GET
    requires ChannelIdParam(get.query) == Some(Posted(codec, post.request).value.channelId)
    requires !host.kvGetFails && codec.marshal(Posted(codec, post.request).value).Some?
    ensures var o := Respond(Run(kv, codec, before + [post] + after), codec, host, get);
            o.status == STATUS_OK && o.body == [Payload(codec.marshal(Posted(codec, post.request).value).value)]
  {
    LastWriteWins(kv, codec, before, post, after);
  }
}
