/**
 The concierge chat widget's transcript state machine (components/Concierge.tsx).
 An accepted send is two steps: `BeginSend` appends the user's message and sets the
 loading flag; `CompleteSend` appends the reply and clears it. The `await` on the
 relay is the boundary between the two.
 */
module Concierge {

  import opened Wrappers
  import opened Types

  /** The greeting the transcript starts with. */
  const WelcomeText: string :=
    "Welcome to Cubana Millennium City. I am your personal concierge. How may I assist you with your investment today?"

  const Welcome: ChatMessage := ChatMessage(Model, WelcomeText)

  /** The widget's state: `messages`, `inputValue` and `isLoading`. */
  datatype State = State(messages: seq<ChatMessage>, inputValue: string, isLoading: bool)

  /** The state at mount: the greeting alone, an empty input, not loading. */
  const Initial: State := State([Welcome], "", false)

  /** The characters `String.prototype.trim` removes: ECMAScript WhiteSpace and LineTerminator. */
  predicate IsTrimmable(c: char)
  {
    || c == '\t' || c == '\U{000B}' || c == '\U{000C}' || c == ' ' || c == '\U{00A0}' || c == '\U{FEFF}'
    || c == '\U{1680}' || ('\U{2000}' <= c <= '\U{200A}') || c == '\U{202F}' || c == '\U{205F}' || c == '\U{3000}'
    || c == '\n' || c == '\r' || c == '\U{2028}' || c == '\U{2029}'
  }

  /** Every character of `s` is removed by trimming. */
  predicate Blank(s: string)
  {
    forall i :: 0 <= i < |s| ==> IsTrimmable(s[i])
  }

  /** `s` without its leading trimmable characters. */
  function TrimStart(s: string): (r: string)
    ensures |r| <= |s| && r == s[|s| - |r|..]
    ensures Blank(s[..|s| - |r|])
    ensures r != [] ==> !IsTrimmable(r[0])
  {
    if s != [] && IsTrimmable(s[0]) then TrimStart(s[1..]) else s
  }

  /** `s` without its trailing trimmable characters. */
  function TrimEnd(s: string): (r: string)
    ensures |r| <= |s| && r == s[..|r|]
    ensures Blank(s[|r|..])
    ensures r != [] ==> !IsTrimmable(r[|r| - 1])
  {
    if s != [] && IsTrimmable(s[|s| - 1]) then TrimEnd(s[..|s| - 1]) else s
  }

  /** `String.prototype.trim`. */
  function Trim(s: string): string
  {
    TrimEnd(TrimStart(s))
  }

  /** `!inputValue.trim()` holds exactly for inputs made only of whitespace (the empty input included). */
  lemma TrimEmptyIffBlank(s: string)
    ensures Trim(s) == [] <==> Blank(s)
  {
    var t := TrimStart(s);
    var k := |s| - |t|;
    if Trim(s) == [] {
      forall i | 0 <= i < |s| ensures IsTrimmable(s[i]) {
        assert s[i] == s[..k][i];
      }
    }
  }

  /** The guard of `handleSend`: some non-whitespace input, and no reply outstanding. */
  predicate CanSend(s: State)
  {
    Trim(s.inputValue) != [] && !s.isLoading
  }

  /** A send goes ahead exactly when the input holds a non-whitespace character and no reply is outstanding. */
  lemma CanSendIffNotBlank(s: State)
    ensures CanSend(s) <==> !Blank(s.inputValue) && !s.isLoading
  {
    TrimEmptyIffBlank(s.inputValue);
  }

  /** The first half of a send: the new state, and the text handed to the relay if the send went ahead. */
  datatype Began = Began(state: State, outgoing: Option<string>)

  /**
   `handleSend` up to the `await`: a rejected send changes nothing; an accepted one clears the
   input, appends the untrimmed input as the user's message, and sets the loading flag.
   */
  function BeginSend(s: State): (b: Began)
    ensures !CanSend(s) ==> b == Began(s, None)
    ensures CanSend(s) ==>
      && b.outgoing == Some(s.inputValue)
      && b.state.messages == s.messages + [ChatMessage(User, s.inputValue)]
      && b.state.inputValue == []
      && b.state.isLoading
  {
    if !CanSend(s) then Began(s, None)
    else Began(State(s.messages + [ChatMessage(User, s.inputValue)], [], true), Some(s.inputValue))
  }

  /**
   `handleSend` after the `await`: the reply is appended as the model's message and the loading
   flag cleared. It runs only after an accepted `BeginSend`, so a reply is outstanding. Whatever
   was typed in the meantime stays in the input.
   */
  function CompleteSend(s: State, reply: string): (t: State)
    requires s.isLoading
    ensures t.messages == s.messages + [ChatMessage(Model, reply)]
    ensures t.inputValue == s.inputValue && !t.isLoading
  {
    State(s.messages + [ChatMessage(Model, reply)], s.inputValue, false)
  }

  /** The input's `onChange`: typing replaces the input, also while a reply is outstanding. */
  function SetInput(s: State, text: string): (t: State)
    ensures t.inputValue == text && t.messages == s.messages && t.isLoading == s.isLoading
  {
    s.(inputValue := text)
  }

  /** `handleKeyPress`: Enter runs `handleSend`; any other key does nothing. */
  function HandleKeyPress(s: State, key: string): (b: Began)
    ensures key == "Enter" ==> b == BeginSend(s)
    ensures key != "Enter" ==> b == Began(s, None)
  {
    if key == "Enter" then BeginSend(s) else Began(s, None)
  }

  /** The send button: it is disabled while loading, otherwise it runs `handleSend`. */
  function ClickSend(s: State): (b: Began)
    ensures b == BeginSend(s)
  {
    if s.isLoading then Began(s, None) else BeginSend(s)
  }

  /** The Enter key and the button drive the same guarded transition. */
  lemma EnterMatchesButton(s: State)
    ensures HandleKeyPress(s, "Enter") == ClickSend(s)
  {
  }

  /** A full accepted send appends exactly two messages, the user's then the model's, and keeps the rest. */
  lemma FullSendAppendsPair(s: State, reply: string)
    requires CanSend(s)
    ensures var t := CompleteSend(BeginSend(s).state, reply);
      && t.messages == s.messages + [ChatMessage(User, s.inputValue), ChatMessage(Model, reply)]
      && |t.messages| == |s.messages| + 2
      && t.messages[..|s.messages|] == s.messages
      && t.inputValue == [] && !t.isLoading
  {
    var t := CompleteSend(BeginSend(s).state, reply);
    assert t.messages[..|s.messages|] == s.messages;
  }

  /** While a reply is outstanding neither the key nor the button appends anything. */
  lemma AtMostOneInFlight(s: State, key: string)
    requires s.isLoading
    ensures HandleKeyPress(s, key) == Began(s, None)
    ensures ClickSend(s) == Began(s, None)
  {
  }

  /** The role the `i`-th transcript entry must have: the greeting and replies are the model's. */
  function RoleAt(i: nat): Role
  {
    if i % 2 == 1 then User else Model
  }

  /** After the greeting, user and model messages alternate. */
  predicate Alternating(messages: seq<ChatMessage>)
  {
    forall i :: 1 <= i < |messages| ==> messages[i].role == RoleAt(i)
  }

  /** Appending a message of the role due next keeps the transcript alternating. */
  lemma AppendKeepsAlternating(messages: seq<ChatMessage>, m: ChatMessage)
    requires Alternating(messages) && m.role == RoleAt(|messages|)
    ensures Alternating(messages + [m])
  {
    var t := messages + [m];
    forall i | 1 <= i < |t| ensures t[i].role == RoleAt(i) {
      if i < |messages| {
        assert t[i] == messages[i];
      }
    }
  }

  /**
   The shape of every transcript the widget can show: the greeting, then alternating user
   and model messages; a reply is outstanding exactly when the last message is the user's.
   */
  predicate WellFormed(s: State)
  {
    && |s.messages| >= 1
    && s.messages[0] == Welcome
    && Alternating(s.messages)
    && (s.isLoading <==> |s.messages| % 2 == 0)
  }

  /** An accepted send keeps the transcript well formed. */
  lemma BeginSendPreservesWellFormed(s: State)
    requires WellFormed(s)
    ensures WellFormed(BeginSend(s).state)
  {
    if CanSend(s) {
      AppendKeepsAlternating(s.messages, ChatMessage(User, s.inputValue));
    }
  }

  /** A completed send keeps the transcript well formed. */
  lemma CompleteSendPreservesWellFormed(s: State, reply: string)
    requires WellFormed(s) && s.isLoading
    ensures WellFormed(CompleteSend(s, reply))
  {
    AppendKeepsAlternating(s.messages, ChatMessage(Model, reply));
  }

  /** What can happen to the widget: typing, a key press, a click, or the outstanding reply arriving. */
  datatype Event = Type(text: string) | KeyPress(key: string) | Click | Reply(text: string)

  /** One event; `None` for a reply when no request is outstanding, which cannot happen. */
  function Step(s: State, e: Event): Option<State>
  {
    match e
    case Type(text) => Some(SetInput(s, text))
    case KeyPress(key) => Some(HandleKeyPress(s, key).state)
    case Click => Some(ClickSend(s).state)
    case Reply(text) => if s.isLoading then Some(CompleteSend(s, text)) else None
  }

  /** Runs a sequence of events from `s`, stopping at an impossible one. */
  function Run(s: State, events: seq<Event>): Option<State>
    decreases |events|
  {
    if events == [] then Some(s)
    else match Step(s, events[0])
      case None => None
      case Some(t) => Run(t, events[1..])
  }

  /** The initial transcript holds exactly the greeting, a model message. */
  lemma InitialTranscript()
    ensures |Initial.messages| == 1 && Initial.messages[0].role == Model
    ensures WellFormed(Initial)
  {
  }

  /** Each event keeps the transcript well formed. */
  lemma StepPreservesWellFormed(s: State, e: Event)
    requires WellFormed(s) && Step(s, e).Some?
    ensures WellFormed(Step(s, e).value)
  {
    match e
    case Type(_) =>
    case KeyPress(key) => BeginSendPreservesWellFormed(s);
    case Click => BeginSendPreservesWellFormed(s);
    case Reply(text) => CompleteSendPreservesWellFormed(s, text);
  }

  /** Every transcript reachable from the initial state is well formed. */
  lemma {:induction false} RunPreservesWellFormed(s: State, events: seq<Event>)
    requires WellFormed(s) && Run(s, events).Some?
    ensures WellFormed(Run(s, events).value)
    decreases |events|
  {
    if events != [] {
      StepPreservesWellFormed(s, events[0]);
      RunPreservesWellFormed(Step(s, events[0]).value, events[1..]);
    }
  }
}
