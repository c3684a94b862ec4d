/**
 The concierge's session relay (geminiService.ts). The conversational SDK is an oracle:
 each call to the relay is given what the SDK would do if asked, namely whether creating
 a chat yields a handle or throws, and whether the turn yields a response or throws. The
 relay keeps the cached session and a log of the calls it made into the SDK, in order.
 */
module Relay {

  import opened Wrappers

  /** The model the chat is created for. */
  const ModelName: string := "gemini-3-flash-preview"

  /**
   The persona the chat is created with. A chat configuration names it rather than carrying
   its text, so that comparing configurations does not compare the whole instruction.
   */
  datatype Persona = MillenniumConcierge

  /** The system instruction each persona stands for. */
  function SystemInstruction(p: Persona): string {
    match p
    case MillenniumConcierge =>
      "\n"
      + "You are the \"Millennium Concierge\", a highly sophisticated, polite, and knowledgeable AI assistant for the Cubana Millennium City real estate project in Asaba, Nigeria.\n"
      + "Your tone is luxurious, professional, and inviting. You represent the brand of Obi Cubana.\n"
      + "\n"
      + "Key Facts to Know:\n"
      + "- Project Name: Cubana Millennium City.\n"
      + "- Location: Asaba, Delta State, near the famous Witchtech Junction.\n"
      + "- Completion Date: Vision 2026.\n"
      + "- Key Features: Monstrous City Gate, 24/7 Power, Advanced Security, Commercial Hubs, International School.\n"
      + "- Vibe: \"Where Legacy Meets Luxury\". Modern, tech-enabled, secure.\n"
      + "- Pricing: Premium. Plots range from 500sqm to 1000sqm. \n"
      + "- Goal: Convert the user into a lead by answering their questions and gently encouraging them to \"Book a Virtual Tour\" or \"Request Exclusive Access\".\n"
      + "\n"
      + "Do not make up false pricing if not strictly known, give ranges or ask them to contact sales for the latest catalogue.\n"
      + "Keep responses concise (under 100 words) unless asked for details.\n"
  }

  /** The response-randomness parameter. */
  const Temperature: real := 0.7

  /** The reply when the responder's text is empty or absent. */
  const Apology: string :=
    "I apologize, I am momentarily distracted by the beauty of the estate. Could you please repeat that?"

  /** The reply when anything throws. */
  const HighVolume: string :=
    "I am currently experiencing a high volume of VIP inquiries. Please try again in a moment."

  /** The configuration passed to `ai.chats.create`. */
  datatype ChatConfig = ChatConfig(model: string, persona: Persona, temperature: real)

  const SessionConfig: ChatConfig := ChatConfig(ModelName, MillenniumConcierge, Temperature)

  /** An opaque conversation handle handed out by the SDK. */
  datatype Session = Session(id: nat)

  /** A call the relay makes into the SDK: client plus chat creation, or one turn on a chat. */
  datatype SdkCall = CreateChat(apiKey: string, config: ChatConfig) | SendTurn(session: Session, message: string)

  /** What creating the client and the chat does: yield a handle, or throw. */
  datatype CreateOutcome = Created(session: Session) | CreateThrew

  /** What `chat.sendMessage` does: resolve with a response whose `text` may be absent, or reject. */
  datatype TurnOutcome = Responded(text: Option<string>) | TurnThrew

  /** The marker for an exception caught by `sendMessageToGemini`. */
  datatype Thrown = Thrown

  /** The module state: the cached `chatSession`, and the SDK calls made so far. */
  datatype RelayState = RelayState(chatSession: Option<Session>, calls: seq<SdkCall>)

  /** The state at load: no session, no calls. */
  const Unstarted: RelayState := RelayState(None, [])

  /** `process.env.API_KEY || ''`. */
  function ApiKey(env: Option<string>): (key: string)
    ensures env.Some? ==> key == env.value
    ensures env.None? ==> key == ""
  {
    if env.Some? && env.value != "" then env.value else ""
  }

  /** The result of `initializeChat`: the new state, the session or the exception, and whether it warned. */
  datatype Init = Init(state: RelayState, session: Result<Session, Thrown>, warned: bool)

  /**
   `initializeChat`: a cached session is returned as is. Otherwise a missing key only warns,
   and the chat is created with the fixed configuration; a handle is cached, while a throw
   leaves the cache empty so that the next call tries again.
   */
  function InitializeChat(st: RelayState, env: Option<string>, created: CreateOutcome): (i: Init)
    ensures st.chatSession.Some? ==> i == Init(st, Success(st.chatSession.value), false)
    ensures st.chatSession.None? ==>
      && i.state.calls == st.calls + [CreateChat(ApiKey(env), SessionConfig)]
      && (i.warned <==> ApiKey(env) == "")
      && (created.Created? ==> i.session == Success(created.session) && i.state.chatSession == Some(created.session))
      && (created.CreateThrew? ==> i.session.Failure? && i.state.chatSession.None?)
  {
    if st.chatSession.Some? then Init(st, Success(st.chatSession.value), false)
    else
      var key := ApiKey(env);
      var warned := key == "";
      var st' := st.(calls := st.calls + [CreateChat(key, SessionConfig)]);
      match created
      case Created(h) => Init(st'.(chatSession := Some(h)), Success(h), warned)
      case CreateThrew => Init(st', Failure(Thrown), warned)
  }

  /** `result.text || apology`, and the fallback for a rejected turn. */
  function ReplyFor(turn: TurnOutcome): (reply: string)
    ensures reply != ""
    ensures turn.Responded? && turn.text.Some? && turn.text.value != "" ==> reply == turn.text.value
    ensures turn.Responded? && (turn.text.None? || turn.text.value == "") ==> reply == Apology
    ensures turn.TurnThrew? ==> reply == HighVolume
  {
    match turn
    case TurnThrew => HighVolume
    case Responded(text) => if text.Some? && text.value != "" then text.value else Apology
  }

  /** The result of `sendMessageToGemini`: the new state and the reply string. */
  datatype Sent = Sent(state: RelayState, reply: string)

  /**
   `sendMessageToGemini`: obtain the session, forward the message as the next turn, and map
   the outcome to a reply. Every failure becomes a fixed string; nothing escapes to the caller.
   */
  function SendMessage(st: RelayState, env: Option<string>, created: CreateOutcome, turn: TurnOutcome, message: string): (s: Sent)
    ensures s.reply != ""
    ensures st.chatSession.Some? ==>
      && s.state == RelayState(st.chatSession, st.calls + [SendTurn(st.chatSession.value, message)])
      && s.reply == ReplyFor(turn)
    ensures st.chatSession.None? && created.Created? ==>
      && s.state == RelayState(Some(created.session),
                               st.calls + [CreateChat(ApiKey(env), SessionConfig), SendTurn(created.session, message)])
      && s.reply == ReplyFor(turn)
    ensures st.chatSession.None? && created.CreateThrew? ==>
      && s.state == RelayState(None, st.calls + [CreateChat(ApiKey(env), SessionConfig)])
      && s.reply == HighVolume
  {
    var i := InitializeChat(st, env, created);
    match i.session
    case Failure(_) => Sent(i.state, HighVolume)
    case Success(h) => Sent(i.state.(calls := i.state.calls + [SendTurn(h, message)]), ReplyFor(turn))
  }

  /** Once a session is cached, a send creates nothing, whatever creation would have done. */
  lemma CachedSessionReused(st: RelayState, env: Option<string>, created: CreateOutcome, turn: TurnOutcome, message: string)
    requires st.chatSession.Some?
    ensures var s := SendMessage(st, env, created, turn, message);
      && s.state.chatSession == st.chatSession
      && s.state.calls == st.calls + [SendTurn(st.chatSession.value, message)]
      && s == SendMessage(st, None, CreateThrew, turn, message)
  {
  }

  /** A missing key only warns: the chat is still created, with an empty key. */
  lemma MissingKeyOnlyWarns(st: RelayState, created: CreateOutcome)
    requires st.chatSession.None?
    ensures var i := InitializeChat(st, None, created);
      && i.warned
      && i.state.calls == st.calls + [CreateChat("", SessionConfig)]
      && (created.Created? ==> i.session == Success(created.session))
  {
  }

  /** Two sends in a row: the second one reuses the handle the first one obtained. */
  lemma SecondSendReusesSession(st: RelayState, env1: Option<string>, h: Session, turn1: TurnOutcome, m1: string,
                                env2: Option<string>, created2: CreateOutcome, turn2: TurnOutcome, m2: string)
    requires st.chatSession.None?
    ensures var s1 := SendMessage(st, env1, Created(h), turn1, m1);
            var s2 := SendMessage(s1.state, env2, created2, turn2, m2);
      && s2.state.chatSession == Some(h)
      && s2.state.calls == st.calls + [CreateChat(ApiKey(env1), SessionConfig), SendTurn(h, m1), SendTurn(h, m2)]
  {
  }

  /** A rejected turn keeps the cached handle: the reply is the fallback and the next turn goes to the same session. */
  lemma FailedTurnKeepsSession(st: RelayState, env: Option<string>, created: CreateOutcome, message: string)
    requires st.chatSession.Some? || created.Created?
    ensures var s := SendMessage(st, env, created, TurnThrew, message);
      && s.reply == HighVolume
      && s.state.chatSession.Some?
      && s.state.chatSession == (if st.chatSession.Some? then st.chatSession else Some(created.session))
  {
  }

  /** A failed creation leaves nothing cached, so the next send tries again and can succeed. */
  lemma CreationRetried(st: RelayState, env1: Option<string>, m1: string, env2: Option<string>, h: Session, turn: TurnOutcome, m2: string)
    requires st.chatSession.None?
    ensures var s1 := SendMessage(st, env1, CreateThrew, turn, m1);
            var s2 := SendMessage(s1.state, env2, Created(h), turn, m2);
      && s1.reply == HighVolume
      && s2.state.chatSession == Some(h)
      && s2.reply == ReplyFor(turn)
  {
  }

  /** One call to `sendMessageToGemini`, together with what the SDK would do during it. */
  datatype Request = Request(env: Option<string>, created: CreateOutcome, turn: TurnOutcome, message: string)

  /** The outcome of a run of calls: the final state and the replies in order. */
  datatype Ran = Ran(state: RelayState, replies: seq<string>)

  /** Successive calls, each awaited before the next. */
  function Run(st: RelayState, reqs: seq<Request>): (r: Ran)
    ensures |r.replies| == |reqs|
    ensures forall k :: 0 <= k < |r.replies| ==> r.replies[k] != ""
    decreases |reqs|
  {
    if reqs == [] then Ran(st, [])
    else
      var q := reqs[0];
      var s := SendMessage(st, q.env, q.created, q.turn, q.message);
      var rest := Run(s.state, reqs[1..]);
      Ran(rest.state, [s.reply] + rest.replies)
  }

  /** The messages the relay forwarded, in the order it forwarded them. */
  function Turns(calls: seq<SdkCall>): seq<string>
  {
    if calls == [] then []
    else Turns(calls[..|calls| - 1]) + (if calls[|calls| - 1].SendTurn? then [calls[|calls| - 1].message] else [])
  }

  /** Appending one SDK call extends the forwarded messages by that call's message, if it is a turn. */
  lemma TurnsAppend(calls: seq<SdkCall>, c: SdkCall)
    ensures Turns(calls + [c]) == Turns(calls) + (if c.SendTurn? then [c.message] else [])
  {
    assert (calls + [c])[..|calls + [c]| - 1] == calls;
  }

  /** A send forwards its message exactly when a session was obtained, after every earlier message. */
  lemma SendForwardsMessage(st: RelayState, env: Option<string>, created: CreateOutcome, turn: TurnOutcome, message: string)
    ensures var s := SendMessage(st, env, created, turn, message);
      Turns(s.state.calls) == Turns(st.calls) + (if s.state.chatSession.Some? then [message] else [])
  {
    var s := SendMessage(st, env, created, turn, message);
    if st.chatSession.None? {
      var c0 := CreateChat(ApiKey(env), SessionConfig);
      TurnsAppend(st.calls, c0);
      if created.Created? {
        var c1 := SendTurn(created.session, message);
        TurnsAppend(st.calls + [c0], c1);
        assert s.state.calls == (st.calls + [c0]) + [c1];
        assert s.state.chatSession.Some?;
      } else {
        assert s.state.calls == st.calls + [c0];
        assert s.state.chatSession.None?;
      }
    } else {
      var c1 := SendTurn(st.chatSession.value, message);
      TurnsAppend(st.calls, c1);
      assert s.state.calls == st.calls + [c1];
      assert s.state.chatSession.Some?;
    }
  }


  /** The messages of a run, in order. */
  function Messages(reqs: seq<Request>): (ms: seq<string>)
    ensures |ms| == |reqs|
    ensures forall k :: 0 <= k < |reqs| ==> ms[k] == reqs[k].message
  {
    if reqs == [] then [] else [reqs[0].message] + Messages(reqs[1..])
  }

  /** With a session in place, a run forwards every message, in order, and keeps the handle. */
  lemma {:induction false} RunForwardsAll(st: RelayState, reqs: seq<Request>)
    requires st.chatSession.Some?
    ensures Run(st, reqs).state.chatSession == st.chatSession
    ensures Turns(Run(st, reqs).state.calls) == Turns(st.calls) + Messages(reqs)
    decreases |reqs|
  {
    if reqs != [] {
      var q := reqs[0];
      var s := SendMessage(st, q.env, q.created, q.turn, q.message);
      SendForwardsMessage(st, q.env, q.created, q.turn, q.message);
      RunForwardsAll(s.state, reqs[1..]);
    }
  }

  /**
   The relay's invariant: every chat it created has the fixed configuration; without a cached
   session it has made no turn; with one, every turn it made went to that session.
   */
  ghost predicate Consistent(st: RelayState) {
    && (forall k :: 0 <= k < |st.calls| && st.calls[k].CreateChat? ==> st.calls[k].config == SessionConfig)
    && (st.chatSession.None? ==> forall k :: 0 <= k < |st.calls| ==> st.calls[k].CreateChat?)
    && (st.chatSession.Some? ==> forall k :: 0 <= k < |st.calls| && st.calls[k].SendTurn? ==> st.calls[k].session == st.chatSession.value)
  }

  /** The invariant holds at module load, before any call. */
  lemma UnstartedConsistent()
    ensures Consistent(Unstarted)
  {
  }

  /** One send keeps the invariant, whatever the SDK does during it. */
  lemma SendPreservesConsistent(st: RelayState, env: Option<string>, created: CreateOutcome, turn: TurnOutcome, message: string)
    requires Consistent(st)
    ensures Consistent(SendMessage(st, env, created, turn, message).state)
  {
  }

  /** From any consistent state, any run keeps the invariant: all turns go to one session. */
  lemma {:induction false} RunPreservesConsistent(st: RelayState, reqs: seq<Request>)
    requires Consistent(st)
    ensures Consistent(Run(st, reqs).state)
    decreases |reqs|
  {
    if reqs != [] {
      var q := reqs[0];
      SendPreservesConsistent(st, q.env, q.created, q.turn, q.message);
      RunPreservesConsistent(SendMessage(st, q.env, q.created, q.turn, q.message).state, reqs[1..]);
    }
  }
}
