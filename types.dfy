/** Values shared by the capture, transport, storage and options-page
    components: the captured event, the recording as saved and as stored,
    and the runtime messages exchanged between contexts. */
module Types {

  datatype Option<+T> = None | Some(value: T)

  datatype Result<+T, +E> = Ok(value: T) | Err(error: E)

  /** One captured interaction event. The capture engine's payload is opaque
      here: only its `timestamp` (epoch milliseconds) is ever looked at. */
  datatype Event = Event(kind: int, data: string, timestamp: int)

  /** A finished session as the page context sends it for storage: a
      `Recording` without its `id` (the store assigns that). */
  datatype Draft = Draft(timestamp: int, url: string, records: seq<Event>, duration: int)

  /** A stored recording: the saved draft plus the key the store gave it. */
  datatype Recording = Recording(id: int, timestamp: int, url: string, records: seq<Event>, duration: int)

  /** Runtime messages. `GET` and `SET` go to the page context; `SAVE_RECORDING`
      goes to the background context; anything else is ignored by both. */
  datatype Message = Get | Set | SaveRecording(data: Draft) | Unrecognised(action: string)

  /** The stored form of a draft under key `id`: every field is kept as sent. */
  function WithId(d: Draft, id: int): (r: Recording)
    ensures r.id == id
    ensures r.timestamp == d.timestamp && r.url == d.url
    ensures r.records == d.records && r.duration == d.duration
  {
    Recording(id, d.timestamp, d.url, d.records, d.duration)
  }

  /** The draft a stored recording was saved from. */
  function WithoutId(r: Recording): Draft
  {
    Draft(r.timestamp, r.url, r.records, r.duration)
  }

  lemma IdRoundTrip(d: Draft, id: int)
    ensures WithoutId(WithId(d, id)) == d
    ensures WithId(d, id).id == id
  {
  }

  /** Time between the first and the last event of a session, or 0 when there
      is none; never negative when the timestamps never go back. */
  function Duration(rs: seq<Event>): (r: int)
    ensures |rs| == 0 ==> r == 0
    ensures |rs| > 0 ==> rs[0].timestamp + r == rs[|rs| - 1].timestamp
    ensures NonDecreasing(rs) ==> r >= 0
  {
    if |rs| > 0 then rs[|rs| - 1].timestamp - rs[0].timestamp else 0
  }

  /** Timestamps that never go backwards, as the capture engine emits them. */
  predicate NonDecreasing(rs: seq<Event>)
  {
    forall i, j :: 0 <= i <= j < |rs| ==> rs[i].timestamp <= rs[j].timestamp
  }

  /** The duration of a session of events in emission order is never negative,
      and it is the span between its first and last event whatever lies between. */
  lemma DurationIsSpan(rs: seq<Event>)
    requires NonDecreasing(rs)
    ensures Duration(rs) >= 0
    ensures forall i :: 0 <= i < |rs| ==> rs[0].timestamp + Duration(rs) >= rs[i].timestamp
  {
  }
}
