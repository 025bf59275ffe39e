/** The chat widget (components/AIAssistant.tsx): the input box, the history
    and the send handler. The model call itself is an outcome given as input. */
module AIAssistant {
  import opened Base
  import opened Strings
  import opened Api

  datatype Speaker = UserSpeaker | ModelSpeaker

  datatype Entry = Entry(role: Speaker, text: string)

  datatype Chat = Chat(history: seq<Entry>, message: string, loading: bool)

  const Greeting := "Hi! I am your GenCart Shopping Assistant. How can I help you find the perfect product today?"
  const ReplyFallback := "Sorry, I encountered an issue."
  const ConnectionApology := "I am having trouble connecting right now. Please try again later."

  function Initial(): Chat {
    Chat([Entry(ModelSpeaker, Greeting)], "", false)
  }

  /** The guard of `handleSend`: a non-blank message and no request in flight. */
  predicate CanSend(c: Chat) {
    Trim(c.message) != "" && !c.loading
  }

  /** The text of the model entry appended once the call settles: the reply, the
      fallback for an empty reply, or the apology for a failed call. */
  function ReplyText(reply: Settled<Option<string>>): (t: string)
    ensures t != ""
    ensures reply.Resolved? && StringTruthy(reply.value) ==> t == reply.value.value
    ensures reply.Resolved? && !StringTruthy(reply.value) ==> t == ReplyFallback
    ensures reply.Rejected? ==> t == ConnectionApology
  {
    match reply
    case Resolved(text) => StringOr(text, ReplyFallback)
    case Rejected(_) => ConnectionApology
  }

  /** `handleSend` from click to settled reply: a no-op behind the guard,
      otherwise the trimmed message and then the reply are appended. */
  function Send(c: Chat, reply: Settled<Option<string>>): (r: Chat)
    ensures !CanSend(c) ==> r == c
    ensures CanSend(c) ==> r.message == "" && !r.loading
    ensures CanSend(c) ==>
              r.history == c.history + [Entry(UserSpeaker, Trim(c.message)), Entry(ModelSpeaker, ReplyText(reply))]
    ensures |c.history| <= |r.history| && r.history[..|c.history|] == c.history
  {
    if !CanSend(c) then c
    else
      var userMessage := Trim(c.message);
      var sent := Chat(c.history + [Entry(UserSpeaker, userMessage)], "", true);
      var r := Chat(sent.history + [Entry(ModelSpeaker, ReplyText(reply))], sent.message, false);
      assert r.history[..|c.history|] == c.history;
      r
  }

  datatype ChatEvent = Typed(text: string) | Sent(reply: Settled<Option<string>>)

  function Apply(c: Chat, e: ChatEvent): Chat {
    match e
    case Typed(text) => c.(message := text)
    case Sent(reply) => Send(c, reply)
  }

  function Run(c: Chat, events: seq<ChatEvent>): Chat
    decreases |events|
  {
    if |events| == 0 then c else Run(Apply(c, events[0]), events[1..])
  }

  /** The shape every history has: the greeting, then user and model turns
      alternating, every user turn trimmed and non-blank, every model turn non-empty. */
  predicate WellFormed(h: seq<Entry>) {
    && |h| % 2 == 1
    && h[0] == Entry(ModelSpeaker, Greeting)
    && (forall i :: 0 <= i < |h| ==> (h[i].role == UserSpeaker <==> i % 2 == 1))
    && (forall i :: 0 <= i < |h| ==> h[i].text != "")
    && (forall i :: 0 <= i < |h| && h[i].role == UserSpeaker ==> Trimmed(h[i].text))
  }

  /** One user turn followed by one model turn keeps a history well formed. */
  lemma AppendTurnKeepsWellFormed(h: seq<Entry>, question: string, answer: string)
    requires WellFormed(h) && question != "" && Trimmed(question) && answer != ""
    ensures WellFormed(h + [Entry(UserSpeaker, question), Entry(ModelSpeaker, answer)])
  {
    var added := [Entry(UserSpeaker, question), Entry(ModelSpeaker, answer)];
    var h' := h + added;
    var n := |h|;
    assert n % 2 == 1 && (n + 1) % 2 == 0 && |h'| == n + 2 && (n + 2) % 2 == 1;
    forall i | 0 <= i < |h'|
      ensures (h'[i].role == UserSpeaker <==> i % 2 == 1) && h'[i].text != ""
      ensures h'[i].role == UserSpeaker ==> Trimmed(h'[i].text)
    {
      if i < n {
        assert h'[i] == h[i];
      } else if i == n {
        assert h'[i] == Entry(UserSpeaker, question);
      } else {
        assert h'[i] == Entry(ModelSpeaker, answer);
      }
    }
  }

  lemma SendKeepsWellFormed(c: Chat, reply: Settled<Option<string>>)
    requires WellFormed(c.history)
    ensures WellFormed(Send(c, reply).history)
  {
    if CanSend(c) {
      AppendTurnKeepsWellFormed(c.history, Trim(c.message), ReplyText(reply));
    }
  }

  /** Over any run from the initial chat the history stays well formed, only
      grows, and never alters an entry already shown. */
  lemma {:induction false} RunAppendOnly(c: Chat, events: seq<ChatEvent>)
    requires WellFormed(c.history)
    ensures WellFormed(Run(c, events).history)
    ensures |c.history| <= |Run(c, events).history|
    ensures Run(c, events).history[..|c.history|] == c.history
    decreases |events|
  {
    if |events| > 0 {
      var next := Apply(c, events[0]);
      if events[0].Sent? {
        SendKeepsWellFormed(c, events[0].reply);
      }
      RunAppendOnly(next, events[1..]);
      var h := Run(c, events).history;
      assert h[..|next.history|][..|c.history|] == h[..|c.history|];
    }
  }

  /** The chat opens on the greeting alone, a well-formed history, so every run
      from it keeps the greeting first and the history well formed. */
  lemma InitialRunWellFormed(events: seq<ChatEvent>)
    ensures WellFormed(Initial().history)
    ensures WellFormed(Run(Initial(), events).history)
    ensures Run(Initial(), events).history[0] == Entry(ModelSpeaker, Greeting)
  {
    RunAppendOnly(Initial(), events);
  }
}
