/**
 The per-session state of the chat front-end and one run of its script
 (aiSearch.py:29-93): the "messages" entry of the session state is created once,
 the history is rendered, and a submitted question is handled as one turn that
 mutates the stored transcript in place.
 */
module ChatSession {
  import opened Wrappers
  import opened Transcript
  import opened ChatTurn

  /** Python truthiness of the chat input: nothing submitted, or an empty string, means no turn. */
  predicate HasInput(input: Option<string>)
  {
    input.Some? && input.value != ""
  }

  class Session {
    /** The "messages" entry of the session state; None until the first run creates it. */
    var messages: Option<seq<Message>>

    /** A stored transcript always keeps its single system message first. */
    ghost predicate Valid()
      reads this
    {
      messages.Some? ==> WellFormed(messages.value)
    }

    /** A new browser session: the session state has no transcript yet. */
    constructor ()
      ensures Valid() && messages == None
    {
      messages := None;
    }

    /** Create the transcript holding the system message, unless one is already stored (aiSearch.py:29-39). */
    method EnsureTranscript()
      requires Valid()
      modifies this
      ensures Valid() && messages.Some?
      ensures old(messages).None? ==> messages == Some([SystemMessage])
      ensures old(messages).Some? ==> messages == old(messages)
    {
      if messages.None? {
        messages := Some([SystemMessage]);
      }
    }

    /** The history display loop: the user and assistant messages, in transcript order (aiSearch.py:42-46). */
    method History() returns (shown: seq<Message>)
      requires messages.Some?
      ensures shown == Displayed(messages.value)
    {
      var t := messages.value;
      shown := [];
      for i := 0 to |t|
        invariant shown == Displayed(t[..i])
      {
        var msg := t[i];
        if msg.role == User {
          shown := shown + [msg];
        } else if msg.role == Assistant {
          shown := shown + [msg];
        }
        assert t[..i + 1] == t[..i] + [msg];
        DisplayedConcat(t[..i], [msg]);
      }
      assert t[..|t|] == t;
    }

    /**
     One user turn (aiSearch.py:51-93). The user message is appended, the primary
     request is sent with the search data source; a returned reply is appended and
     then tested for a soft miss. On a raised primary call or a soft miss the
     fallback request is sent without the data source, and its reply is appended;
     a raised fallback call is not caught and ends the turn.
     */
    method Turn(input: string, primary: Outcome, fallback: Outcome) returns (requests: seq<Request>, raised: bool)
      requires Valid() && messages.Some?
      modifies this
      ensures Valid() && messages.Some?
      ensures messages.value == old(messages.value) + Appended(input, primary, fallback)
      ensures requests == Requests(old(messages.value), input, primary)
      ensures raised == Raises(primary, fallback)
    {
      ghost var pre := messages.value;
      var t := messages.value + [Message(User, input)];
      messages := Some(t);
      requests := [Request(t, true)];
      var fallbackNeeded := false;
      match primary {
        case Fail =>
          fallbackNeeded := true;
        case Ok(reply) =>
          t := t + [Message(Assistant, reply)];
          messages := Some(t);
          if FallbackTriggered(reply) {
            fallbackNeeded := true;
          }
      }
      assert t == pre + PrimaryAppended(input, primary);
      assert fallbackNeeded == NeedsFallback(primary);
      raised := false;
      if fallbackNeeded {
        requests := requests + [Request(t, false)];
        match fallback {
          case Fail =>
            raised := true;
          case Ok(fallbackReply) =>
            t := t + [Message(Assistant, fallbackReply)];
            messages := Some(t);
        }
      }
      assert messages.value == pre + Appended(input, primary, fallback);
      TurnAppendsOnly(pre, input, primary, fallback);
    }

    /**
     One run of the script: initialise the transcript, render the history, and
     handle the chat input as a turn if there is one. Without input the transcript
     is left as initialised and no remote request is made.
     */
    method Run(input: Option<string>, primary: Outcome, fallback: Outcome)
      returns (shown: seq<Message>, requests: seq<Request>, raised: bool)
      requires Valid()
      modifies this
      ensures Valid() && messages.Some?
      ensures shown == Displayed(Initialized(old(messages)))
      ensures !HasInput(input) ==> messages == Some(Initialized(old(messages))) && requests == [] && !raised
      ensures HasInput(input) ==>
        && messages == Some(Initialized(old(messages)) + Appended(input.value, primary, fallback))
        && requests == Requests(Initialized(old(messages)), input.value, primary)
        && raised == Raises(primary, fallback)
    {
      EnsureTranscript();
      shown := History();
      requests, raised := [], false;
      if HasInput(input) {
        requests, raised := Turn(input.value, primary, fallback);
      }
    }
  }

  /**
   Initialisation is idempotent: on a new session, running it twice leaves the
   transcript of the first run, the single system message.
   */
  method InitializeTwice() returns (first: seq<Message>, second: seq<Message>)
    ensures first == second == [SystemMessage]
    ensures CountRole(second, System) == 1
  {
    var s := new Session();
    s.EnsureTranscript();
    first := s.messages.value;
    s.EnsureTranscript();
    second := s.messages.value;
    InitializedWellFormed(Some(second));
  }

  /**
   Two runs of the same browser session, the first without input: the system
   message is created once, and the second run's soft-miss turn leaves the user
   question followed by both assistant replies.
   */
  method RerunScenario(question: string, reply: string, fallbackReply: string)
    returns (final: seq<Message>)
    requires question != "" && FallbackTriggered(reply)
    ensures final == [SystemMessage, Message(User, question), Message(Assistant, reply), Message(Assistant, fallbackReply)]
    ensures CountRole(final, System) == 1
  {
    var s := new Session();
    var shown, requests, raised := s.Run(None, Fail, Fail);
    assert s.messages == Some([SystemMessage]) && requests == [];
    shown, requests, raised := s.Run(Some(question), Ok(reply), Ok(fallbackReply));
    assert shown == [] by { DisplayedWellFormed([SystemMessage]); }
    final := s.messages.value;
    WellFormedIff(final);
  }
}
