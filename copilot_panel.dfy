/**
 * The copilot chat panel (client/src/components/copilot-panel.tsx): a transcript that
 * starts with a greeting, grows by one user message per send, and by one canned
 * assistant reply when the reply timer fires.
 */
module CopilotPanel {
  import opened Wrappers
  import opened Strings

  datatype Message = Message(id: string, role: string, content: string, timestamp: string, sources: Option<seq<string>>)

  const GreetingText := "¡Hola María! Soy ARIA, tu Agente de Relación Inteligente Autónoma. Estoy entrenada con todo el conocimiento del banco: políticas, productos, procedimientos y mejores prácticas. Puedo generar guiones de venta, redactar emails, responder sobre normativas y sugerir estrategias. ¿Cómo puedo asistirte hoy?"

  const Greeting := Message("1", "assistant", GreetingText, "10:30", None)

  const ReplyText := "Entiendo tu consulta. Basándome en las políticas internas, te recomiendo..."

  const ReplySources: seq<string> := ["Política de Inversión 2024", "Manual de Productos Premium"]

  /**
   * The transcript is never empty, every message is from the user or the assistant,
   * and no user message is blank.
   */
  predicate Transcript(ms: seq<Message>)
  {
    |ms| >= 1
    && (forall k :: 0 <= k < |ms| ==> ms[k].role in {"user", "assistant"})
    && (forall k :: 0 <= k < |ms| && ms[k].role == "user" ==> !IsJsBlank(ms[k].content))
  }

  /** Appending an assistant message, or a user message that is not blank, keeps a transcript one. */
  lemma TranscriptAppend(ms: seq<Message>, m: Message)
    requires Transcript(ms)
    requires m.role == "assistant" || (m.role == "user" && !IsJsBlank(m.content))
    ensures Transcript(ms + [m])
  {
    forall k | 0 <= k < |ms| + 1
      ensures (ms + [m])[k] == if k < |ms| then ms[k] else m
    {
    }
  }

  /**
   * The panel's state. `Date.now()` and the formatted time of day are not modelled; the
   * methods take them as parameters.
   */
  class Panel {
    var messages: seq<Message>
    var input: string

    /** The transcript satisfies `Transcript`; it starts with the greeting, which the constructor puts there. */
    predicate Valid()
      reads this
    {
      Transcript(messages)
    }

    /** Exactly one assistant message and an empty input box. */
    constructor()
      ensures Valid()
      ensures messages == [Greeting] && input == ""
    {
      messages := [Greeting];
      input := "";
    }

    /** Typing in the box. */
    method SetInput(text: string)
      modifies this
      ensures input == text && messages == old(messages)
    {
      input := text;
    }

    /**
     * `handleSend`: a blank input (after `trim`) changes nothing and schedules no reply;
     * otherwise the untrimmed input is appended as a user message, the box is cleared and
     * the reply is scheduled.
     */
    method HandleSend(now: nat, time: string) returns (replyScheduled: bool)
      requires Valid()
      modifies this
      ensures Valid()
      ensures replyScheduled <==> !IsJsBlank(old(input))
      ensures !replyScheduled ==> messages == old(messages) && input == old(input)
      ensures replyScheduled ==> messages == old(messages) + [Message(NatToString(now), "user", old(input), time, None)]
      ensures replyScheduled ==> input == ""
    {
      if IsJsBlank(input) {
        return false;
      }
      var newMessage := Message(NatToString(now), "user", input, time, None);
      TranscriptAppend(messages, newMessage);
      messages := messages + [newMessage];
      input := "";
      return true;
    }

    /** The timer's callback: the canned reply, with its two sources, after whatever is there now. */
    method DeliverReply(now: nat, time: string)
      requires Valid()
      modifies this
      ensures Valid()
      ensures messages == old(messages) + [Message(NatToString(now + 1), "assistant", ReplyText, time, Some(ReplySources))]
      ensures input == old(input)
    {
      TranscriptAppend(messages, Message(NatToString(now + 1), "assistant", ReplyText, time, Some(ReplySources)));
      messages := messages + [Message(NatToString(now + 1), "assistant", ReplyText, time, Some(ReplySources))];
    }
  }

  /**
   * A send followed by its reply appends exactly two messages, the user's then the
   * assistant's, and leaves the earlier ones as they were. The clock is read once when
   * the message is sent and again when the timer fires.
   */
  method SendThenReply(p: Panel, sentNow: nat, sentAt: string, repliedNow: nat, repliedAt: string)
    requires p.Valid() && !IsJsBlank(p.input)
    modifies p
    ensures p.Valid()
    ensures p.messages == old(p.messages) + [
      Message(NatToString(sentNow), "user", old(p.input), sentAt, None),
      Message(NatToString(repliedNow + 1), "assistant", ReplyText, repliedAt, Some(ReplySources))]
    ensures p.input == ""
  {
    ghost var before := p.messages;
    ghost var sent := Message(NatToString(sentNow), "user", p.input, sentAt, None);
    var scheduled := p.HandleSend(sentNow, sentAt);
    assert scheduled;
    assert p.messages == before + [sent];
    ghost var afterSend := p.messages;
    p.DeliverReply(repliedNow, repliedAt);
    ghost var reply := Message(NatToString(repliedNow + 1), "assistant", ReplyText, repliedAt, Some(ReplySources));
    assert p.messages == afterSend + [reply];
    assert p.messages == before + [sent, reply];
  }
}
