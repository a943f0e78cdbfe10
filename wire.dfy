/**
 * The HTTP contract between the chat page and the relay: the page posts
 * `{ messages }` with every history entry as `{ role, content }`, so the
 * relay sees no `message` property and validates `content` alone.
 */
module Wire {
  import opened Wrappers
  import Relay
  import ChatClient

  /** A history entry as the relay receives it after `JSON.stringify`. */
  function AsEntry(m: ChatClient.Message): Relay.Entry {
    Relay.Entry(Some(m.role), None, Some(m.content))
  }

  /** The request body field the page posts for a history. */
  function AsBody(history: seq<ChatClient.Message>): Relay.MessagesField {
    Relay.AnArray(seq(|history|, i requires 0 <= i < |history| => AsEntry(history[i])))
  }

  /**
   * The relay accepts a history posted by the page exactly when no entry's
   * content is empty, and then forwards each entry's role and content in order.
   */
  lemma HistoryAccepted(history: seq<ChatClient.Message>)
    ensures Relay.PrepareRequest(AsBody(history)).Success? <==>
      forall i | 0 <= i < |history| :: history[i].content != ""
    ensures Relay.PrepareRequest(AsBody(history)).Success? ==>
      var contents := Relay.PrepareRequest(AsBody(history)).value.contents;
      && |contents| == |history|
      && forall i | 0 <= i < |history| ::
        contents[i] == Relay.Content(Some(history[i].role), [Relay.Part(Some(history[i].content))])
  {
    var body := AsBody(history);
    assert forall i | 0 <= i < |history| :: Relay.Usable(body.entries[i]) <==> history[i].content != "";
  }
}
