/**
 * Properties of the settings endpoint that relate several requests, or
 * one request under different stores, codecs and host behaviour.
 */
module Properties {
  import opened Wrappers
  import opened Http
  import opened Meetings
  import opened Api

  /** Another path is answered 404 without looking at the store, the codec or the host. */
  lemma UnknownPathReadsNothing(kv1: Store, kv2: Store, c1: Codec, c2: Codec, h1: Host, h2: Host, r: Request)
    requires r.path != SETTINGS_PATH
    ensures var o1, o2 := Respond(kv1, c1, h1, r), Respond(kv2, c2, h2, r);
            o1.status == o2.status == STATUS_NOT_FOUND && o1.body == o2.body && o1.store == kv1
  {
  }

  /**
   * Without an identity every method gets 401, whatever the store, codec
   * and host; the text the method switch writes afterwards does not change it.
   */
  lemma MissingIdentityReadsNothing(kv1: Store, kv2: Store, c1: Codec, c2: Codec, h1: Host, h2: Host, r: Request)
    requires r.path == SETTINGS_PATH && r.userId == ""
    ensures var o1, o2 := Respond(kv1, c1, h1, r), Respond(kv2, c2, h2, r);
            && o1.status == o2.status == STATUS_UNAUTHORIZED
            && o1.body == o2.body
            && o1.store == kv1
            && o1.body == [Message(NOT_AUTHORIZED_GATE),
                           if r.httpMethod == METHOD_GET || r.httpMethod == METHOD_POST
                           then Message(NOT_AUTHORIZED_HANDLER)
                           else Message(NotAllowedText(r.httpMethod))]
  {
  }

  /** A GET without a usable channelId is answered 400 before the store is consulted. */
  lemma MissingChannelIdReadsNothing(kv1: Store, kv2: Store, c1: Codec, c2: Codec, h1: Host, h2: Host, r: Request)
    requires r.path == SETTINGS_PATH && r.userId != "" && r.httpMethod == METHOD_GET
    requires "channelId" !in r.query || r.query["channelId"][0] == ""
    ensures var o1, o2 := Respond(kv1, c1, h1, r), Respond(kv2, c2, h2, r);
            && o1 == Outcome(STATUS_BAD_REQUEST, [Message(MISSING_CHANNEL_ID_TEXT)], kv1)
            && o2.status == STATUS_BAD_REQUEST && o1.body == o2.body
  {
  }

  /** A GET looks only at the first channelId value; other values and other keys do not matter. */
  lemma GetUsesFirstValueOnly(kv: Store, codec: Codec, host: Host, r1: Request, r2: Request)
    requires r1.path == r2.path && r1.httpMethod == r2.httpMethod == METHOD_GET && r1.userId == r2.userId
    requires "channelId" in r1.query <==> "channelId" in r2.query
    requires "channelId" in r1.query ==> r1.query["channelId"][0] == r2.query["channelId"][0]
    ensures Respond(kv, codec, host, r1) == Respond(kv, codec, host, r2)
  {
  }

  /** A POST stores the meeting under the channel id in its body; the query plays no part. */
  lemma PostIgnoresQuery(kv: Store, codec: Codec, host: Host, r: Request, q: Values)
    requires r.httpMethod == METHOD_POST
    ensures Respond(kv, codec, host, r) == Respond(kv, codec, host, r.(query := q))
  {
  }

  /** A successful POST changes the entry of its own channel only. */
  lemma PostTouchesOneChannel(kv: Store, codec: Codec, host: Host, r: Request, id: string)
    requires SavesMeeting(codec, host, r) && id != Posted(codec, r).value.channelId
    ensures var o := Respond(kv, codec, host, r);
            && (id in o.store <==> id in kv)
            && (id in kv ==> o.store[id] == kv[id])
            && o.store[Posted(codec, r).value.channelId] == Posted(codec, r).value
  {
  }

  /**
   * Read after write: once a POST has stored a meeting, a GET for its
   * channel answers 200 with that meeting's encoding (or 500 when the
   * codec cannot encode it), unless the host's read fails.
   */
  lemma ReadAfterWrite(kv: Store, codec: Codec, h1: Host, h2: Host, post: Request, get: Request)
    requires SavesMeeting(codec, h1, post)
    requires get.path == SETTINGS_PATH && get.userId != "" && get.httpMethod == METHOD_GET
    requires ChannelIdParam(get.query) == Some(Posted(codec, post).value.channelId)
    requires !h2.kvGetFails
    ensures var o1 := Respond(kv, codec, h1, post);
            var o2 := Respond(o1.store, codec, h2, get);
            var m := Posted(codec, post).value;
            && o1.status == STATUS_OK
            && o2.store == o1.store
            && (codec.marshal(m).Some? ==> o2.status == STATUS_OK && o2.body == [Payload(codec.marshal(m).value)])
            && (codec.marshal(m).None? ==> o2.status == STATUS_INTERNAL_SERVER_ERROR)
  {
  }

  /**
   * With a codec that round-trips, POSTing the encoding of a meeting and
   * then GETting its channel returns exactly the bytes that were posted.
   */
  lemma PostedBytesComeBack(kv: Store, codec: Codec, h1: Host, h2: Host, post: Request, get: Request, m: Meeting)
    requires RoundTrips(codec) && codec.marshal(m).Some?
    requires post.path == SETTINGS_PATH && post.userId != "" && post.httpMethod == METHOD_POST
    requires post.body == codec.marshal(m) && !h1.kvSetFails
    requires get.path == SETTINGS_PATH && get.userId != "" && get.httpMethod == METHOD_GET
    requires ChannelIdParam(get.query) == Some(m.channelId) && !h2.kvGetFails
    ensures var o1 := Respond(kv, codec, h1, post);
            var o2 := Respond(o1.store, codec, h2, get);
            && o1.status == STATUS_OK && o1.body == [Payload(Ascii(OK_TEXT))]
            && o2.status == STATUS_OK && o2.body == [Payload(post.body.value)]
  {
  }
}
