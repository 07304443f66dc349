/** The background context's runtime message listener of src/background.ts:
    a `SAVE_RECORDING` message is stored and answered once with the outcome;
    every other message is left alone. */
module Background {
  import opened Types
  import opened Store

  /** The object passed to `sendResponse`: `{success: true}` or
      `{success: false, error: message}`. */
  datatype SaveReply = SaveReply(success: bool, error: Option<string>)

  /** The reply for a settled save. */
  function ReplyFor(res: Result<(), string>): (r: SaveReply)
    ensures r.success <==> res.Ok?
    ensures r.success ==> r.error == None
    ensures !r.success ==> r.error == Some(res.error)
  {
    match res
    case Ok(_) => SaveReply(true, None)
    case Err(message) => SaveReply(false, Some(message))
  }

  /** The listener. `reply` is the one value `sendResponse` is called with,
      if any; `keepOpen` is what the listener returns (`true` keeps the
      channel open until the save settles). `fault` is the storage error the
      save meets, if it fails. */
  method OnMessage(store: RecordingStore, msg: Message, fault: Option<string>)
    returns (reply: Option<SaveReply>, keepOpen: bool)
    requires store.Valid()
    modifies store
    ensures store.Valid()
    ensures msg.SaveRecording? ==> keepOpen && reply.Some?
    ensures msg.SaveRecording? && fault.None? ==>
      reply == Some(SaveReply(true, None)) && store.Snapshot() == Added(old(store.Snapshot()), msg.data)
    ensures msg.SaveRecording? && fault.Some? ==>
      reply == Some(SaveReply(false, fault)) && store.Snapshot() == old(store.Snapshot())
    ensures !msg.SaveRecording? ==> reply == None && !keepOpen && store.Snapshot() == old(store.Snapshot())
  {
    reply, keepOpen := None, false;
    if msg.SaveRecording? {
      var res := store.SaveRecording(msg.data, fault);
      reply := Some(ReplyFor(res));
      keepOpen := true;
    }
  }
}
