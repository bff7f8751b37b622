/**
 * The chat transcript: messages are appended with an id rendered from the clock
 * reading, and cleared in bulk.
 */
module Chat {
  import opened Text
  import opened Entities

  /**
   * The message `addChatMessage` stores and returns: the caller's text, sender and
   * timestamp, with the id `now.toString()` for the clock reading `now`.
   */
  function NewMessage(text: string, sender: Sender, timestamp: int, now: nat): (m: ChatMessage)
    ensures m.text == text && m.sender == sender && m.timestamp == timestamp
    ensures forall i :: 0 <= i < |m.id| ==> IsDigit(m.id[i])
    ensures DecimalValue(m.id) == now
    ensures |m.id| >= 1 && (m.id[0] == '0' ==> m.id == "0")
  {
    DecimalRoundTrip(now);
    ChatMessage(DecimalString(now), text, sender, timestamp)
  }

  /** Appending keeps every earlier message where it was and puts `m` last. */
  function AddChatMessage(s: State, m: ChatMessage): (r: State)
    ensures |r.chatMessages| == |s.chatMessages| + 1
    ensures r.chatMessages[..|s.chatMessages|] == s.chatMessages && r.chatMessages[|s.chatMessages|] == m
    ensures r == s.(chatMessages := r.chatMessages)
  {
    s.(chatMessages := s.chatMessages + [m])
  }

  function ClearChatMessages(s: State): (r: State)
    ensures r.chatMessages == []
    ensures r == s.(chatMessages := r.chatMessages)
  {
    s.(chatMessages := [])
  }

  /** Messages stamped at different clock readings get different ids. */
  lemma DistinctReadingsDistinctIds(text1: string, sender1: Sender, timestamp1: int, now1: nat,
                                    text2: string, sender2: Sender, timestamp2: int, now2: nat)
    requires now1 != now2
    ensures NewMessage(text1, sender1, timestamp1, now1).id != NewMessage(text2, sender2, timestamp2, now2).id
  {
    if DecimalString(now1) == DecimalString(now2) {
      DecimalStringInjective(now1, now2);
    }
  }
}
