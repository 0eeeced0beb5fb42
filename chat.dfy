/**
 * The chat session of the Dashboard view (components/Dashboard.tsx): the message
 * log, the blank-input guard, the history sent to the generation backend, the
 * placeholder reply that streamed chunks are folded into, and the fallback on failure.
 *
 * The backend call is not modelled: its outcome is the `Stream` input, the chunks
 * it delivers followed by either a normal end or a thrown error. A missing client
 * (the throw before any request is made) is a stream with no chunks that fails.
 */
module Chat {
  import opened Wrappers
  import opened Types
  import opened Text

  /** One `{ text }` part of a history entry. */
  datatype Part = Part(text: string)

  /** One entry of the backend's history: `{ role, parts }`. */
  datatype HistoryEntry = HistoryEntry(role: Role, parts: seq<Part>)

  /** What the send hands to the backend: the new message and the history before it. */
  datatype ChatRequest = ChatRequest(message: string, history: seq<HistoryEntry>)

  /** The chunks received in order (a chunk's `text` may be absent), then whether the stream threw. */
  datatype Stream = Stream(chunks: seq<Option<string>>, fails: bool)

  /** The clock-derived ids and timestamps of the three messages a send may create. */
  datatype SendIds = SendIds(
    userId: string, userTime: int,
    replyId: string, replyTime: int,
    fallbackId: string, fallbackTime: int)

  const FallbackText: string := "I'm having trouble connecting right now. Please check your API key setup."

  /** The greeting after the user's name. */
  const GreetingTail: string :=
    "! I'm your startup assistant. Need a business idea, a marketing strategy, or just want to chat about your goals?"

  /** The opening message of a new session. */
  function Greeting(name: string, now: int): (m: ChatMessage)
    ensures m.id == "1" && m.role == ModelRole && m.timestamp == now
  {
    ChatMessage("1", ModelRole, "Hi " + name + GreetingTail, now)
  }

  /** `messages.map(m => ({ role: m.role, parts: [{ text: m.text }] }))` */
  function History(log: seq<ChatMessage>): (h: seq<HistoryEntry>)
    ensures |h| == |log|
    ensures forall i :: 0 <= i < |log| ==> h[i].role == log[i].role && h[i].parts == [Part(log[i].text)]
  {
    if log == [] then [] else [HistoryEntry(log[0].role, [Part(log[0].text)])] + History(log[1..])
  }

  /** The text a chunk carries; an absent `text` carries none. */
  function ChunkText(c: Option<string>): string {
    c.GetOr("")
  }

  /** `fullText` after the given chunks: the concatenation of the texts they carry, in order. */
  function Accumulated(chunks: seq<Option<string>>): string {
    if chunks == [] then ""
    else Accumulated(chunks[..|chunks| - 1]) + ChunkText(chunks[|chunks| - 1])
  }

  /** The texts published to the placeholder: one per chunk with non-empty text, the full text so far. */
  function Updates(chunks: seq<Option<string>>): seq<string> {
    if chunks == [] then []
    else
      var before := chunks[..|chunks| - 1];
      Updates(before) + (if ChunkText(chunks[|chunks| - 1]) != "" then [Accumulated(chunks)] else [])
  }

  /** `prev.map(msg => msg.id === id ? { ...msg, text } : msg)`: only messages with that id change, and only their text. */
  function WithText(log: seq<ChatMessage>, id: string, text: string): (r: seq<ChatMessage>)
    ensures |r| == |log|
    ensures forall i :: 0 <= i < |log| ==> r[i] == if log[i].id == id then log[i].(text := text) else log[i]
  {
    if log == [] then [] else
      [if log[0].id == id then log[0].(text := text) else log[0]] + WithText(log[1..], id, text)
  }

  /** The log after all chunks are folded into the placeholder `id`; untouched if no chunk carried text. */
  function Streamed(log: seq<ChatMessage>, id: string, chunks: seq<Option<string>>): (r: seq<ChatMessage>)
    ensures |r| == |log|
    ensures forall i :: 0 <= i < |log| && log[i].id != id ==> r[i] == log[i]
  {
    if Accumulated(chunks) == "" then log else WithText(log, id, Accumulated(chunks))
  }

  function UserMessage(ids: SendIds, text: string): ChatMessage {
    ChatMessage(ids.userId, UserRole, text, ids.userTime)
  }

  function Placeholder(ids: SendIds): ChatMessage {
    ChatMessage(ids.replyId, ModelRole, "", ids.replyTime)
  }

  function Fallback(ids: SendIds): ChatMessage {
    ChatMessage(ids.fallbackId, ModelRole, FallbackText, ids.fallbackTime)
  }

  /** The log after one `handleSend(text)` whose backend produced `stream`. */
  function AfterSend(log: seq<ChatMessage>, text: string, ids: SendIds, stream: Stream): (r: seq<ChatMessage>)
    ensures IsBlank(text) ==> r == log
    ensures !IsBlank(text) ==> |r| == |log| + 2 + (if stream.fails then 1 else 0)
  {
    if IsBlank(text) then log else Sent(log, text, ids, stream)
  }

  /** The non-blank case: user message and placeholder appended, chunks folded in, fallback on failure. */
  function Sent(log: seq<ChatMessage>, text: string, ids: SendIds, stream: Stream): (r: seq<ChatMessage>)
    ensures |r| == |log| + 2 + (if stream.fails then 1 else 0)
    ensures forall i :: 0 <= i < |log| && log[i].id != ids.replyId ==> r[i] == log[i]
    ensures stream.fails ==> r[|r| - 1] == Fallback(ids)
  {
    var streamed := Streamed(log + [UserMessage(ids, text), Placeholder(ids)], ids.replyId, stream.chunks);
    if stream.fails then streamed + [Fallback(ids)] else streamed
  }

  // ----- the fold -----

  /** The full text grows by exactly the next chunk's text. */
  lemma AccumulatedStep(chunks: seq<Option<string>>, i: nat)
    requires i < |chunks|
    ensures Accumulated(chunks[..i + 1]) == Accumulated(chunks[..i]) + ChunkText(chunks[i])
  {
    assert chunks[..i + 1][..i] == chunks[..i];
  }

  /** One published text per chunk with non-empty text, each the full text so far. */
  lemma UpdatesStep(chunks: seq<Option<string>>, i: nat)
    requires i < |chunks|
    ensures Updates(chunks[..i + 1]) == Updates(chunks[..i]) + (if ChunkText(chunks[i]) != "" then [Accumulated(chunks[..i + 1])] else [])
  {
    assert chunks[..i + 1][..i] == chunks[..i];
  }

  /** The full text is empty exactly when no chunk carried text. */
  lemma {:induction false} AccumulatedEmpty(chunks: seq<Option<string>>)
    ensures Accumulated(chunks) == "" <==> forall i :: 0 <= i < |chunks| ==> ChunkText(chunks[i]) == ""
  {
    if chunks != [] {
      var before := chunks[..|chunks| - 1];
      AccumulatedEmpty(before);
      assert forall i :: 0 <= i < |before| ==> before[i] == chunks[i];
    }
  }

  /** Folding one more chunk: a chunk with text sets the placeholder to the new full text, any other chunk changes nothing. */
  lemma StreamedStep(log: seq<ChatMessage>, id: string, chunks: seq<Option<string>>, i: nat)
    requires i < |chunks|
    ensures Streamed(log, id, chunks[..i + 1]) ==
      if ChunkText(chunks[i]) == "" then Streamed(log, id, chunks[..i])
      else WithText(Streamed(log, id, chunks[..i]), id, Accumulated(chunks[..i + 1]))
  {
    AccumulatedStep(chunks, i);
    var a0, a1, c := Accumulated(chunks[..i]), Accumulated(chunks[..i + 1]), ChunkText(chunks[i]);
    assert a1 == a0 + c;
    if c == "" {
      assert a1 == a0;
    } else {
      assert a1 != "" by { assert |a1| == |a0| + |c|; }
      if a0 != "" {
        WithTextTwice(log, id, a0, a1);
      }
    }
  }

  /** Updating the same id twice leaves only the second text. */
  lemma {:induction false} WithTextTwice(log: seq<ChatMessage>, id: string, a: string, b: string)
    ensures WithText(WithText(log, id, a), id, b) == WithText(log, id, b)
  {
    var l1 := WithText(log, id, a);
    var l2 := WithText(l1, id, b);
    assert forall i :: 0 <= i < |log| ==> l1[i].id == log[i].id;
    assert forall i :: 0 <= i < |log| ==> l2[i] == WithText(log, id, b)[i];
  }

  /** Each published update extends the previous one, and the last one is the whole text. */
  lemma {:induction false} UpdatesGrow(chunks: seq<Option<string>>)
    ensures forall i, j :: 0 <= i < j < |Updates(chunks)| ==> Updates(chunks)[i] <= Updates(chunks)[j]
    ensures forall i :: 0 <= i < |Updates(chunks)| ==> Updates(chunks)[i] <= Accumulated(chunks)
    ensures Updates(chunks) != [] ==> Updates(chunks)[|Updates(chunks)| - 1] == Accumulated(chunks)
    ensures Updates(chunks) == [] <==> Accumulated(chunks) == ""
  {
    if chunks != [] {
      var before := chunks[..|chunks| - 1];
      UpdatesGrow(before);
      var u0 := Updates(before);
      var acc0 := Accumulated(before);
      var acc := Accumulated(chunks);
      assert acc == acc0 + ChunkText(chunks[|chunks| - 1]);
      assert acc0 <= acc;
      forall i | 0 <= i < |u0| ensures u0[i] <= acc {
        assert u0[i] <= acc0;
      }
    }
  }

  /** A worked example: chunks "Hel", "lo", " world" publish "Hel", "Hello", "Hello world". */
  lemma StreamExample()
    ensures Updates([Some("Hel"), Some("lo"), Some(" world")]) == ["Hel", "Hello", "Hello world"]
    ensures Updates([Some("Hel"), None, Some(""), Some("lo")]) == ["Hel", "Hello"]
  {
    var s := [Some("Hel"), Some("lo"), Some(" world")];
    assert s[..2] == [Some("Hel"), Some("lo")] && s[..2][..1] == [Some("Hel")];
    assert Accumulated(s[..2][..1]) == "Hel";
    assert Accumulated(s[..2]) == "Hello";
    assert Accumulated(s) == "Hello world";
    assert Updates(s[..2][..1]) == ["Hel"];
    assert Updates(s[..2]) == ["Hel", "Hello"];
    var t := [Some("Hel"), None, Some(""), Some("lo")];
    assert t[..3] == [Some("Hel"), None, Some("")] && t[..3][..2] == [Some("Hel"), None];
    assert t[..3][..2][..1] == [Some("Hel")];
    assert Accumulated(t[..3][..2][..1]) == "Hel";
    assert Accumulated(t[..3][..2]) == "Hel";
    assert Accumulated(t[..3]) == "Hel";
    assert Accumulated(t) == "Hello";
    assert Updates(t[..3][..2][..1]) == ["Hel"];
    assert Updates(t[..3][..2]) == ["Hel"];
    assert Updates(t[..3]) == ["Hel"];
  }

  /** A history of `[{user,"a"},{model,"b"}]` translates to exactly those two entries. */
  lemma HistoryExample()
    ensures var log := [ChatMessage("u", UserRole, "a", 0), ChatMessage("m", ModelRole, "b", 1)];
      History(log) == [HistoryEntry(UserRole, [Part("a")]), HistoryEntry(ModelRole, [Part("b")])]
  {
    var log := [ChatMessage("u", UserRole, "a", 0), ChatMessage("m", ModelRole, "b", 1)];
    assert log[1..][1..] == [];
  }

  // ----- what a send promises -----

  /** A blank input changes nothing. */
  lemma BlankSendIsNoOp(log: seq<ChatMessage>, text: string, ids: SendIds, stream: Stream)
    requires Trim(text) == ""
    ensures AfterSend(log, text, ids, stream) == log
  {
    TrimEmptyIffBlank(text);
  }

  /** Folding into a fresh id leaves the messages before the fresh part alone. */
  lemma StreamedFresh(log: seq<ChatMessage>, extra: seq<ChatMessage>, id: string, chunks: seq<Option<string>>)
    requires forall i :: 0 <= i < |log| ==> log[i].id != id
    ensures Streamed(log + extra, id, chunks) == log + Streamed(extra, id, chunks)
  {
    var acc := Accumulated(chunks);
    if acc != "" {
      var lhs := WithText(log + extra, id, acc);
      var rhs := log + WithText(extra, id, acc);
      assert forall i :: 0 <= i < |lhs| ==> lhs[i] == rhs[i];
    }
  }

  /** The two messages a send adds: the user message and the placeholder holding all streamed text. */
  lemma StreamedPair(ids: SendIds, text: string, chunks: seq<Option<string>>)
    requires ids.userId != ids.replyId
    ensures Streamed([UserMessage(ids, text), Placeholder(ids)], ids.replyId, chunks)
      == [UserMessage(ids, text), ChatMessage(ids.replyId, ModelRole, Accumulated(chunks), ids.replyTime)]
  {
    var acc := Accumulated(chunks);
    if acc != "" {
      var pair := [UserMessage(ids, text), Placeholder(ids)];
      var r := WithText(pair, ids.replyId, acc);
      assert r[0] == pair[0] && r[1] == pair[1].(text := acc);
    }
  }

  /**
   * With a reply id no earlier message has, a non-blank send keeps the old log as a prefix
   * and appends exactly the user message (text as given, untrimmed), the reply holding every
   * streamed text, and on failure one fallback message.
   */
  lemma SendAppends(log: seq<ChatMessage>, text: string, ids: SendIds, stream: Stream)
    requires !IsBlank(text)
    requires ids.userId != ids.replyId
    requires forall i :: 0 <= i < |log| ==> log[i].id != ids.replyId
    ensures AfterSend(log, text, ids, stream) ==
      log + [UserMessage(ids, text), ChatMessage(ids.replyId, ModelRole, Accumulated(stream.chunks), ids.replyTime)]
          + (if stream.fails then [Fallback(ids)] else [])
  {
    var pair := [UserMessage(ids, text), Placeholder(ids)];
    assert log + [UserMessage(ids, text), Placeholder(ids)] == log + pair;
    StreamedFresh(log, pair, ids.replyId, stream.chunks);
    StreamedPair(ids, text, stream.chunks);
  }

  /**
   * Whenever the user message and the reply have different ids (the reply id is taken from
   * the clock after the user id, plus one), a non-blank send adds two or three messages: the
   * user message, the reply holding every streamed text, and on failure the fallback. Old
   * messages whose id is not the reply id are unchanged; no freshness of the reply id is needed.
   */
  lemma SendShape(log: seq<ChatMessage>, text: string, ids: SendIds, stream: Stream)
    requires !IsBlank(text)
    requires ids.userId != ids.replyId
    ensures var r := AfterSend(log, text, ids, stream);
      && |r| == |log| + 2 + (if stream.fails then 1 else 0)
      && (forall i :: 0 <= i < |log| && log[i].id != ids.replyId ==> r[i] == log[i])
      && r[|log|] == UserMessage(ids, text)
      && r[|log| + 1] == ChatMessage(ids.replyId, ModelRole, Accumulated(stream.chunks), ids.replyTime)
      && (stream.fails ==> r[|log| + 2] == Fallback(ids))
  {
    var base := log + [UserMessage(ids, text), Placeholder(ids)];
    var streamed := Streamed(base, ids.replyId, stream.chunks);
    assert base[|log|] == UserMessage(ids, text) && base[|log| + 1] == Placeholder(ids);
    assert streamed[|log| + 1] == ChatMessage(ids.replyId, ModelRole, Accumulated(stream.chunks), ids.replyTime);
    var r := Sent(log, text, ids, stream);
    assert r[..|streamed|] == streamed;
    forall i | 0 <= i < |log| && log[i].id != ids.replyId ensures r[i] == log[i] {
      assert base[i] == log[i];
      assert r[i] == streamed[i];
    }
  }

  /** A failure before any chunk leaves the placeholder empty, followed by the fallback. */
  lemma EarlyFailureLeavesEmptyPlaceholder(log: seq<ChatMessage>, text: string, ids: SendIds)
    requires !IsBlank(text) && ids.userId != ids.replyId
    ensures var r := AfterSend(log, text, ids, Stream([], true));
      r[|log| + 1].text == "" && r[|log| + 2].text == FallbackText && |r| == |log| + 3
  {
    SendShape(log, text, ids, Stream([], true));
  }

  /** The Dashboard's chat state: the log, the input box and the typing indicator. */
  class ChatSession {
    var messages: seq<ChatMessage>
    var input: string
    var isTyping: bool

    /** A session opens with the greeting addressed to the signed-in user. */
    constructor (user: User, now: int)
      ensures messages == [Greeting(user.name, now)] && input == "" && !isTyping
    {
      messages := [Greeting(user.name, now)];
      input := "";
      isTyping := false;
    }

    /**
     * The `for await` loop of `handleSend`: each chunk with text extends the full text and
     * writes it to the messages with the placeholder's id; the ghost result lists the
     * texts written. The typing indicator is on for the whole loop.
     */
    method FoldStream(replyId: string, chunks: seq<Option<string>>) returns (ghost updates: seq<string>)
      requires isTyping
      modifies this
      ensures messages == Streamed(old(messages), replyId, chunks)
      ensures updates == Updates(chunks)
      ensures input == old(input) && isTyping == old(isTyping)
    {
      updates := [];
      var fullText := "";
      var i := 0;
      while i < |chunks|
        invariant 0 <= i <= |chunks|
        invariant fullText == Accumulated(chunks[..i])
        invariant messages == Streamed(old(messages), replyId, chunks[..i])
        invariant updates == Updates(chunks[..i])
        invariant input == old(input) && isTyping == old(isTyping)
      {
        AccumulatedStep(chunks, i);
        UpdatesStep(chunks, i);
        StreamedStep(old(messages), replyId, chunks, i);
        var chunk := chunks[i];
        if chunk.Some? && chunk.value != "" {
          fullText := fullText + chunk.value;
          messages := WithText(messages, replyId, fullText);
          updates := updates + [fullText];
        }
        i := i + 1;
      }
      assert chunks[..i] == chunks;
    }

    /**
     * `handleSend(text)`. Returns the request handed to the backend (none for a blank
     * input) and, as a ghost, the successive texts published to the placeholder.
     */
    method Send(text: string, ids: SendIds, stream: Stream) returns (request: Option<ChatRequest>, ghost updates: seq<string>)
      modifies this
      ensures messages == AfterSend(old(messages), text, ids, stream)
      ensures request == if IsBlank(text) then None else Some(ChatRequest(text, History(old(messages))))
      ensures updates == if IsBlank(text) then [] else Updates(stream.chunks)
      ensures input == if IsBlank(text) then old(input) else ""
      ensures isTyping == if IsBlank(text) then old(isTyping) else false
    {
      var before := messages;
      updates := [];
      if IsBlank(text) {
        request := None;
        return;
      }
      messages := messages + [UserMessage(ids, text)];
      input := "";
      isTyping := true;

      var history := History(before);
      messages := messages + [Placeholder(ids)];
      request := Some(ChatRequest(text, history));
      assert messages == before + [UserMessage(ids, text), Placeholder(ids)];

      updates := FoldStream(ids.replyId, stream.chunks);

      if stream.fails {
        messages := messages + [Fallback(ids)];
      }
      isTyping := false;
      assert messages == Sent(before, text, ids, stream);
    }

    /** `handleSend()` with no argument, as the Enter key and the send button call it: the text is the input box. */
    method SendInput(ids: SendIds, stream: Stream) returns (request: Option<ChatRequest>, ghost updates: seq<string>)
      modifies this
      ensures messages == AfterSend(old(messages), old(input), ids, stream)
      ensures request == if IsBlank(old(input)) then None else Some(ChatRequest(old(input), History(old(messages))))
      ensures updates == if IsBlank(old(input)) then [] else Updates(stream.chunks)
      ensures input == if IsBlank(old(input)) then old(input) else ""
      ensures isTyping == if IsBlank(old(input)) then old(isTyping) else false
    {
      request, updates := Send(input, ids, stream);
    }
  }
}
