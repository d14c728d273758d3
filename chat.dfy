/** The patient app's assistant chat: a transcript of alternating user and
    assistant messages, an input box, and a send that posts the trimmed input,
    asks the language model with the whole transcript and appends exactly one
    assistant reply, a fixed apology standing in for any failure. The request
    is split in two steps, `Send` and `Complete`, with the model's outcome an
    input of the second. */
module Chat {
  import opened Common
  import opened Text

  datatype Role = User | Assistant

  datatype Message = Message(role: Role, content: string)

  /** The conversation the screen opens with. */
  function InitialTranscript(): (ms: seq<Message>)
    ensures |ms| == 7
  {
    [
      Message(Assistant,
        "Hi! I'm " + "your " + "MouthWatch " + "dental " + "assistant. " + "I can " + "answer " +
        "questions " + "about " + "oral " + "health, " + "explain " + "your scan " + "results, " +
        "or help " + "you " + "understand " + "what to " + "expect at " + "your next " +
        "dentist " + "visit. " + "What's on " + "your mind?"),
      Message(User,
        "My scan " + "came back " + "high " + "risk. " + "Should I " + "be " + "worried?"),
      Message(Assistant,
        "I " + "understand " + "that's " + "concerning " + "to see. A " + "high risk " +
        "result " + "means our " + "screening " + "detected " + "some " + "indicators " +
        "worth " + "taking " + "seriously " + "— but " + "it's " + "important " + "to " +
        "remember " + "this is a " + "screening " + "tool, not " + "a " + "diagnosis. " +
        "Many high " + "risk " + "flags " + "turn out " + "to be " + "benign " + "conditions " +
        "like " + "canker " + "sores or " + "minor " + "irritation. " + "That " + "said, I'd " +
        "strongly " + "recommend " + "booking a " + "dental " + "appointment " + "within " +
        "the next " + "1-2 weeks " + "so a " + "professional " + "can take " + "a proper " +
        "look. " + "Would you " + "like me " + "to help " + "you find " + "a clinic " + "nearby?"),
      Message(User,
        "What are " + "the main " + "signs of " + "oral " + "cancer I " + "should " +
        "watch for?"),
      Message(Assistant,
        "Great " + "question " + "to ask. " + "The key " + "warning " + "signs " + "include: " +
        "a sore or " + "ulcer " + "that " + "hasn't " + "healed " + "after 2-3 " + "weeks, a " +
        "red or " + "white " + "patch " + "inside " + "your " + "mouth, " + "unexplained " +
        "bleeding, " + "numbness " + "or pain " + "in your " + "mouth or " + "lips, and " +
        "difficulty " + "swallowing " + "or " + "chewing. " + "If you " + "notice " + "any of " +
        "these " + "persisting, " + "especially " + "alongside " + "your " + "current " + "scan " +
        "result, " + "that's a " + "strong " + "signal to " + "see a " + "dentist " +
        "promptly. " + "Early " + "detection " + "makes an " + "enormous " + "difference " +
        "in " + "outcomes."),
      Message(User,
        "I smoke " + "occasionally. " + "Does that " + "increase " + "my risk?"),
      Message(Assistant,
        "Yes — " + "tobacco " + "use is " + "one of " + "the " + "strongest " + "known " +
        "risk " + "factors " + "for oral " + "cancer, " + "even " + "occasional " + "use. " +
        "Combined " + "with your " + "current " + "scan " + "result, " + "it's " + "worth " +
        "being " + "extra " + "vigilant. " + "The good " + "news is " + "that risk " +
        "decreases " + "significantly " + "after " + "quitting. " + "In the " + "meantime, " +
        "more " + "frequent " + "oral " + "screenings " + "like the " + "ones " + "MouthWatch " +
        "provides " + "are a " + "great way " + "to stay " + "on top of " + "any " + "changes. " +
        "Is there " + "anything " + "else " + "you'd " + "like to " + "know " + "about " +
        "your " + "results?")

    ]
  }

  /** Roles alternate from each message to the next. */
  predicate Alternates(ms: seq<Message>) {
    forall i :: 0 <= i < |ms| - 1 ==> ms[i].role != ms[i + 1].role
  }

  /** Appending a message whose role differs from the last one keeps the
      roles alternating. */
  lemma AppendKeepsAlternation(ms: seq<Message>, m: Message)
    requires Alternates(ms) && ms != [] && ms[|ms| - 1].role != m.role
    ensures Alternates(ms + [m])
  {
    var r := ms + [m];
    forall i | 0 <= i < |r| - 1 ensures r[i].role != r[i + 1].role {
      if i + 1 < |ms| {
        assert r[i] == ms[i] && r[i + 1] == ms[i + 1];
      }
    }
  }

  /** The opening conversation has seven messages, alternates, and ends with
      the assistant, so the patient speaks next. */
  lemma InitialTranscriptShape()
    ensures |InitialTranscript()| == 7
    ensures Alternates(InitialTranscript())
    ensures InitialTranscript()[0].role == Assistant && InitialTranscript()[6].role == Assistant
  {
  }

  /** One turn of the conversation as the model's API takes it. */
  datatype Turn = Turn(role: string, parts: seq<string>)

  /** The API's name for a role: "model" for the assistant, "user" otherwise. */
  function ApiRole(r: Role): (name: string)
    ensures name == "model" <==> r.Assistant?
    ensures name == "user" <==> r.User?
  {
    if r.Assistant? then "model" else "user"
  }

  /** The transcript in the API's form: one turn per message, in order, each
      holding the message's text as its only part. */
  function ToApiHistory(ms: seq<Message>): (turns: seq<Turn>)
    ensures |turns| == |ms|
    ensures forall i :: 0 <= i < |ms| ==> turns[i].role == ApiRole(ms[i].role) && turns[i].parts == [ms[i].content]
  {
    seq(|ms|, i requires 0 <= i < |ms| => Turn(ApiRole(ms[i].role), [ms[i].content]))
  }

  /** Reading a turn back: "model" is the assistant, anything else the
      patient; the text is the first part. */
  function FromApiTurn(t: Turn): Message {
    Message(if t.role == "model" then Assistant else User, if t.parts == [] then "" else t.parts[0])
  }

  /** Nothing is lost on the way out: reading the history back gives the
      transcript, message by message. */
  lemma ApiHistoryRoundTrip(ms: seq<Message>)
    ensures |ToApiHistory(ms)| == |ms|
    ensures forall i :: 0 <= i < |ms| ==> FromApiTurn(ToApiHistory(ms)[i]) == ms[i]
  {
    forall i | 0 <= i < |ms| ensures FromApiTurn(ToApiHistory(ms)[i]) == ms[i] {
      var m := ms[i];
      assert ToApiHistory(ms)[i] == Turn(ApiRole(m.role), [m.content]);
    }
  }

  /** The apology shown whenever no usable reply arrives. */
  function Fallback(): (text: string)
    ensures text != [] && !IsJsWhitespace(text[0]) && !IsJsWhitespace(text[|text| - 1])
  {
    "I'm having " + "trouble " + "connecting " + "right " + "now. " + "Please " + "try again."
  }

  /** What the request produced: the text found at the reply's usual place
      (`None` when any step of that path is missing), or a failure (network
      error, unreadable response). */
  datatype Outcome = Reply(text: Option<string>) | Failure

  /** The assistant message for an outcome: the reply text when it is present
      and non-empty, the apology otherwise. */
  function ReplyText(o: Outcome): (t: string)
    ensures t != []
    ensures o.Reply? && o.text.Some? && o.text.value != [] ==> t == o.text.value
    ensures !(o.Reply? && o.text.Some? && o.text.value != []) ==> t == Fallback()
  {
    match o
    case Reply(Some(text)) => if text != [] then text else Fallback()
    case Reply(None) => Fallback()
    case Failure => Fallback()
  }

  /** The chat screen's state. */
  class ChatScreen {
    var messages: seq<Message>
    var input: string
    var loading: bool

    /** The transcript alternates, and its last message is the patient's
        exactly while a reply is awaited. */
    predicate Valid()
      reads this
    {
      && messages != []
      && Alternates(messages)
      && messages[|messages| - 1].role == (if loading then User else Assistant)
    }

    constructor()
      ensures messages == InitialTranscript() && input == [] && !loading
      ensures Valid()
    {
      InitialTranscriptShape();
      messages := InitialTranscript();
      input := [];
      loading := false;
    }

    /** Typing replaces the input box's text. */
    method Type(text: string)
      modifies this
      ensures input == text && messages == old(messages) && loading == old(loading)
      ensures Valid() == old(Valid())
    {
      input := text;
    }

    /** The first half of `send`: refused while the input is blank or a reply
        is awaited; otherwise the trimmed input is posted as the patient's
        message, the box is cleared, the reply is awaited, and the history to
        send is returned. */
    method Send() returns (request: Option<seq<Turn>>)
      modifies this
      ensures IsBlank(old(input)) || old(loading) ==>
                && request.None? && messages == old(messages) && input == old(input) && loading == old(loading)
      ensures !IsBlank(old(input)) && !old(loading) ==>
                && messages == old(messages) + [Message(User, Trim(old(input)))]
                && input == [] && loading
                && request == Some(ToApiHistory(messages))
      ensures old(Valid()) ==> Valid()
    {
      var userMessage := Trim(input);
      TrimmedEmptyIffBlank(input);
      if userMessage == [] || loading {
        return None;
      }
      if Valid() {
        AppendKeepsAlternation(messages, Message(User, userMessage));
      }
      input := [];
      messages := messages + [Message(User, userMessage)];
      loading := true;
      request := Some(ToApiHistory(messages));
    }

    /** The second half: exactly one assistant message, the reply or the
        apology, goes after the transcript, and the wait ends on both paths. */
    method Complete(outcome: Outcome)
      requires loading
      modifies this
      ensures messages == old(messages) + [Message(Assistant, ReplyText(outcome))]
      ensures !loading && input == old(input)
      ensures old(Valid()) ==> Valid()
    {
      if Valid() {
        AppendKeepsAlternation(messages, Message(Assistant, ReplyText(outcome)));
      }
      messages := messages + [Message(Assistant, ReplyText(outcome))];
      loading := false;
    }

    /** A whole exchange: when the send goes ahead, the transcript grows by
        the patient's trimmed message and then one assistant message. */
    method Exchange(outcome: Outcome) returns (sent: bool)
      modifies this
      ensures sent <==> !IsBlank(old(input)) && !old(loading)
      ensures sent ==>
                && messages == old(messages) + [Message(User, Trim(old(input))), Message(Assistant, ReplyText(outcome))]
                && !loading && input == []
      ensures !sent ==> messages == old(messages) && input == old(input) && loading == old(loading)
      ensures old(Valid()) ==> Valid()
    {
      var request := Send();
      sent := request.Some?;
      if sent {
        Complete(outcome);
      }
    }
  }
}
