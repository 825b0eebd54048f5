/** Preparing a conversation for the language-model relay (src/lib/openai.ts):
    the history is cut to its last ten messages and each sender becomes a
    chat role; the request puts the persona's system message in front; the
    reply falls back to a fixed apology. The remote call itself is an
    outcome supplied from outside. */
module ChatFormat {
  import opened Wrappers
  import opened Seqs

  datatype Role = System | User | Assistant

  datatype ChatMessage = ChatMessage(role: Role, content: string)

  /** A stored message as the caller passes it: `{ senderId, content }`. */
  datatype HistoryEntry = HistoryEntry(senderId: string, content: string)

  /** `.slice(-10)`: how many recent messages are sent. */
  const HistoryLimit: nat := 10

  const Apology := "申し訳ありません、返答できませんでした。"

  const CommunicationError := "AIとの通信でエラーが発生しました"

  /** One history entry as a chat message. */
  function ToApi(m: HistoryEntry, currentUserId: string): (c: ChatMessage)
    ensures c.content == m.content
    ensures c.role == User <==> m.senderId == currentUserId
    ensures c.role != System
  {
    ChatMessage(if m.senderId == currentUserId then User else Assistant, m.content)
  }

  /** `formatMessagesForAPI`: the last ten entries, in order, as chat messages. */
  function FormatMessagesForApi(msgs: seq<HistoryEntry>, currentUserId: string): (r: seq<ChatMessage>)
    ensures |r| == Min(HistoryLimit, |msgs|)
    ensures forall j :: 0 <= j < |r| ==> r[j] == ToApi(msgs[|msgs| - |r| + j], currentUserId)
  {
    var start := |msgs| - Min(HistoryLimit, |msgs|);
    seq(|msgs| - start, j requires 0 <= j < |msgs| - start => ToApi(msgs[start + j], currentUserId))
  }

  /** A short history is sent whole: same messages, same order, same text. */
  lemma FormatShortHistory(msgs: seq<HistoryEntry>, currentUserId: string)
    requires |msgs| <= HistoryLimit
    ensures |FormatMessagesForApi(msgs, currentUserId)| == |msgs|
    ensures forall j :: 0 <= j < |msgs| ==> FormatMessagesForApi(msgs, currentUserId)[j].content == msgs[j].content
  {
    var r := FormatMessagesForApi(msgs, currentUserId);
    forall j | 0 <= j < |msgs| ensures r[j].content == msgs[j].content {
      assert r[j] == ToApi(msgs[j], currentUserId);
    }
  }

  /** Whatever came before the last ten messages has no influence. */
  lemma FormatIgnoresOlder(older: seq<HistoryEntry>, recent: seq<HistoryEntry>, currentUserId: string)
    requires |recent| == HistoryLimit
    ensures FormatMessagesForApi(older + recent, currentUserId) == FormatMessagesForApi(recent, currentUserId)
  {
    var a := FormatMessagesForApi(older + recent, currentUserId);
    var b := FormatMessagesForApi(recent, currentUserId);
    assert |a| == |b|;
    forall j | 0 <= j < |a| ensures a[j] == b[j] {
      assert (older + recent)[|older + recent| - |a| + j] == recent[j];
    }
  }

  /** The newest message always ends the formatted history. */
  lemma FormatEndsWithNewest(msgs: seq<HistoryEntry>, m: HistoryEntry, currentUserId: string)
    ensures var r := FormatMessagesForApi(msgs + [m], currentUserId);
            |r| > 0 && r[|r| - 1] == ToApi(m, currentUserId)
  {
  }

  /** The message list sent upstream: the system message, then the history. */
  function BuildRequest(systemPrompt: string, msgs: seq<ChatMessage>): (r: seq<ChatMessage>)
    ensures |r| == |msgs| + 1
    ensures r[0] == ChatMessage(System, systemPrompt)
    ensures r[1..] == msgs
  {
    [ChatMessage(System, systemPrompt)] + msgs
  }

  /** For a formatted history, the system message is the only one with that role. */
  lemma RequestHasOneSystemMessage(systemPrompt: string, msgs: seq<HistoryEntry>, currentUserId: string)
    ensures var r := BuildRequest(systemPrompt, FormatMessagesForApi(msgs, currentUserId));
            forall j :: 0 <= j < |r| ==> (r[j].role == System <==> j == 0)
  {
    var f := FormatMessagesForApi(msgs, currentUserId);
    var r := BuildRequest(systemPrompt, f);
    forall j | 0 < j < |r| ensures r[j].role != System {
      assert r[j] == f[j - 1] == ToApi(msgs[|msgs| - |f| + j - 1], currentUserId);
    }
  }

  /** What the completion service did: answered, with the first choice's
      text if any, or failed. */
  datatype Upstream = Answered(content: Option<string>) | Failed

  /** What `sendMessageToHanako` resolves to, or the error it throws. */
  datatype Outcome = Ok(text: string) | Err(message: string)

  function Reply(u: Upstream): (r: Outcome)
    ensures r.Ok? <==> u.Answered?
    ensures r.Ok? ==> r.text != ""
    ensures u.Answered? && u.content.Some? && u.content.value != "" ==> r == Ok(u.content.value)
    ensures u.Failed? ==> r == Err(CommunicationError)
  {
    match u
    case Failed => Err(CommunicationError)
    case Answered(c) =>
      if c.Some? && c.value != "" then Ok(c.value) else Ok(Apology)
  }

  /** A missing or empty completion text is replaced by the apology. */
  lemma ReplyFallsBack(u: Upstream)
    requires u.Answered? && (u.content.None? || u.content.value == "")
    ensures Reply(u) == Ok(Apology)
  {
  }
}
