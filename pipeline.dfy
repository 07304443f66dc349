/** The hand-off from the page context to the background context: a session
    sent with `chrome.runtime.sendMessage` in src/contents/plasmo.ts is
    received by the listener of src/background.ts and stored. A send is
    modelled as a direct call of the background listener; the page context
    never looks at the reply. */
module Pipeline {
  import opened Types
  import opened Recorder
  import opened Store
  import opened Background
  import opened Options

  /** The store after the background has saved each sent session in turn. */
  function SaveAll(s: StoreState, drafts: seq<Draft>): (r: StoreState)
    requires WellFormed(s)
    ensures WellFormed(r)
    ensures r.current == s.current + |drafts|
    decreases |drafts|
  {
    if drafts == [] then s else SaveAll(Added(s, drafts[0]), drafts[1..])
  }

  /** A whole session from idle, saved without storage faults: with no event
      the store is untouched; otherwise exactly one recording is added,
      under the next key, holding exactly the captured events and their time
      span, and it is listed after every older one. */
  lemma SessionStored(s: StoreState, es: seq<Event>, start: int, startUrl: string, now: int, url: string)
    requires WellFormed(s)
    ensures var run := Execute(Initial, [Deliver(Set, start, startUrl)] + Emits(es) + [Deliver(Set, now, url)]);
      && run.state == Initial
      && (es == [] ==> SaveAll(s, run.outbox) == s)
      && (es != [] ==>
           && SaveAll(s, run.outbox) == Added(s, Draft(now, url, es, Duration(es)))
           && AllRecords(SaveAll(s, run.outbox)) ==
                AllRecords(s) + [Recording(s.current, now, url, es, es[|es| - 1].timestamp - es[0].timestamp)])
  {
    SessionCaptured(es, start, startUrl, now, url);
    if es != [] {
      var d := Draft(now, url, es, Duration(es));
      assert SaveAll(s, [d]) == Added(s, d);
      AddAppendsNewest(s, d);
    }
  }

  /** After a session is saved and the options page reloads, that session is
      the first one listed. */
  lemma NewestSessionListedFirst(s: StoreState, d: Draft)
    requires WellFormed(s)
    ensures |Reversed(AllRecords(Added(s, d)))| > 0
    ensures Reversed(AllRecords(Added(s, d)))[0] == WithId(d, s.current)
  {
    AddAppendsNewest(s, d);
  }

  /** A `SET` to the page context, and, when it stops a non-empty session,
      that session's `SAVE_RECORDING` handled by the background context.
      `fault` is the storage error the save meets, if it fails; the page's
      reply to `SET` does not depend on it. */
  method SetAndSave(page: ContentScript, store: RecordingStore, now: int, url: string, fault: Option<string>)
    returns (reply: Option<bool>)
    requires store.Valid()
    modifies page, store
    ensures Consistent(page.State()) && store.Valid()
    ensures reply == Some(page.flag) && page.flag == !old(page.flag)
    ensures page.State() == Toggled(old(page.State()), now, url).state
    ensures var sent := Toggled(old(page.State()), now, url).sent;
      && (sent.None? || fault.Some? ==> store.Snapshot() == old(store.Snapshot()))
      && (sent.Some? && fault.None? ==> store.Snapshot() == Added(old(store.Snapshot()), sent.value))
  {
    var keepOpen, sent;
    reply, keepOpen, sent := page.OnMessage(Set, now, url);
    if sent.Some? {
      var ack, _ := Background.OnMessage(store, SaveRecording(sent.value), fault);
    }
  }
}
