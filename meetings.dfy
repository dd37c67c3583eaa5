/**
 * Meeting settings, their JSON codec and the per-channel store that
 * SaveMeeting and GetMeeting wrap.  The codec is opaque: two functions
 * supplied from outside, either of which may fail.  The store is a map from
 * channel id to meeting, which is how the host's KVSet/KVGet are used.
 */
module Meetings {
  import opened Wrappers
  import opened Http

  /**
   * Go's time.Weekday is a 64-bit int.  Sunday is 0 and Saturday is 6, but
   * decoding accepts any integer, and such a meeting is stored as it is.
   */
  newtype Weekday = d: int | -0x8000_0000_0000_0000 <= d < 0x8000_0000_0000_0000

  const SUNDAY: Weekday := 0
  const MONDAY: Weekday := 1
  const TUESDAY: Weekday := 2
  const WEDNESDAY: Weekday := 3
  const THURSDAY: Weekday := 4
  const FRIDAY: Weekday := 5
  const SATURDAY: Weekday := 6

  datatype Meeting = Meeting(channelId: string, schedule: Weekday, hashtagFormat: string)

  /** json.Marshal and json.Unmarshal on meetings. */
  datatype Codec = Codec(marshal: Meeting -> Option<Bytes>, unmarshal: Bytes -> Option<Meeting>)

  /** Whatever the codec encodes, it decodes back to the same meeting. */
  ghost predicate RoundTrips(c: Codec)
  {
    forall m :: c.marshal(m).Some? ==> c.unmarshal(c.marshal(m).value) == Some(m)
  }

  type Store = map<string, Meeting>

  /**
   * Whether the host's key-value calls fail during one request.  Any
   * failure inside the (not shown) SaveMeeting or GetMeeting is one of these.
   */
  datatype Host = Host(kvGetFails: bool, kvSetFails: bool)

  /** Every stored meeting sits under its own channel id. */
  ghost predicate KeyedByChannel(kv: Store)
  {
    forall id :: id in kv ==> kv[id].channelId == id
  }

  /** GetMeeting: the meeting stored for a channel. */
  function Lookup(kv: Store, channelId: string, host: Host): (r: Result<Meeting, Failure>)
    ensures r.Ok? <==> !host.kvGetFails && channelId in kv
    ensures r.Ok? ==> r.value == kv[channelId]
    ensures KeyedByChannel(kv) && r.Ok? ==> r.value.channelId == channelId
    ensures r.Err? && !host.kvGetFails ==> r.error == MeetingNotFound
  {
    if host.kvGetFails then Err(KvError)
    else if channelId !in kv then Err(MeetingNotFound)
    else Ok(kv[channelId])
  }

  /** SaveMeeting: the store after writing a meeting under its own channel id. */
  function Save(kv: Store, m: Meeting, host: Host): (r: Result<Store, Failure>)
    ensures r.Ok? <==> !host.kvSetFails
    ensures r.Ok? ==> m.channelId in r.value && r.value[m.channelId] == m
    ensures r.Ok? ==> r.value.Keys == kv.Keys + {m.channelId}
    ensures r.Ok? ==> forall id :: id in kv && id != m.channelId ==> r.value[id] == kv[id]
    ensures r.Ok? && KeyedByChannel(kv) ==> KeyedByChannel(r.value)
  {
    if host.kvSetFails then Err(KvError) else Ok(kv[m.channelId := m])
  }
}
