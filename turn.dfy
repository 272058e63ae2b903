/**
 One user turn of the chat front-end (aiSearch.py:49-93), stated as the effect it
 has: the messages it appends to the transcript, the remote requests it sends and
 whether it ends in an uncaught error.

 Each remote chat-completion call is an abstract Outcome: `Fail` when the call
 raises, `Ok(text)` with the reply's content otherwise. The primary outcome is what
 the endpoint answers to the first request, the fallback outcome what it answers
 to the second, if there is one.
 */
module ChatTurn {
  import opened Strings
  import opened Transcript

  datatype Outcome = Fail | Ok(text: string)

  /** A remote request: the message list sent, and whether the search-index data source was attached. */
  datatype Request = Request(messages: seq<Message>, rag: bool)

  const NotFoundMarker: string := "not found"
  const KoreanNotFoundMarker: string := "찾지 못했습니다"

  /** The soft-miss test on a successful primary reply (aiSearch.py:83). */
  predicate FallbackTriggered(reply: string)
  {
    Contains(Lower(reply), NotFoundMarker) || Contains(Lower(reply), KoreanNotFoundMarker)
  }

  /** The primary call raised, or its reply signals a soft miss: control reaches the except branch. */
  predicate NeedsFallback(primary: Outcome)
  {
    primary.Fail? || FallbackTriggered(primary.text)
  }

  /** What the try block appends: the user message, then the primary reply if the call returned. */
  function PrimaryAppended(input: string, primary: Outcome): (r: seq<Message>)
  {
    [Message(User, input)] + (if primary.Ok? then [Message(Assistant, primary.text)] else [])
  }

  /** Everything a turn appends, in order. */
  function Appended(input: string, primary: Outcome, fallback: Outcome): (r: seq<Message>)
  {
    PrimaryAppended(input, primary)
    + (if NeedsFallback(primary) && fallback.Ok? then [Message(Assistant, fallback.text)] else [])
  }

  /** The remote requests of a turn started on transcript `pre`. */
  function Requests(pre: seq<Message>, input: string, primary: Outcome): (r: seq<Request>)
  {
    [Request(pre + [Message(User, input)], true)]
    + (if NeedsFallback(primary) then [Request(pre + PrimaryAppended(input, primary), false)] else [])
  }

  /** The turn ends in an uncaught error: the fallback was needed and it raised too. */
  predicate Raises(primary: Outcome, fallback: Outcome)
  {
    NeedsFallback(primary) && fallback.Fail?
  }

  // ---- the fallback predicate ----

  /** The fallback fires exactly when the lowered reply holds one of the two markers. */
  lemma FallbackTriggeredIff(reply: string)
    ensures FallbackTriggered(reply)
        <==> Occurs(Lower(reply), NotFoundMarker) || Occurs(Lower(reply), KoreanNotFoundMarker)
  {
    ContainsIff(Lower(reply), NotFoundMarker);
    ContainsIff(Lower(reply), KoreanNotFoundMarker);
  }

  /** The English marker is matched whatever the case of its letters in the reply. */
  lemma NotFoundAnyCase(reply: string, i: int)
    requires 0 <= i && i + |NotFoundMarker| <= |reply|
    requires Lower(reply[i..i + |NotFoundMarker|]) == NotFoundMarker
    ensures FallbackTriggered(reply)
  {
    LowerSlice(reply, i, i + |NotFoundMarker|);
    assert OccursAt(Lower(reply), NotFoundMarker, i);
    FallbackTriggeredIff(reply);
  }

  /** Lowering leaves the Korean marker as it is. */
  lemma LowerKoreanMarker()
    ensures Lower(KoreanNotFoundMarker) == KoreanNotFoundMarker
  {
    var m := KoreanNotFoundMarker;
    assert |m| == 8;
    // a space and Hangul syllables, which start at U+AC00
    assert forall i :: 0 <= i < |m| ==> m[i] == ' ' || m[i] >= '\U{AC00}';
    LowerNoCapitals(m);
  }

  /** So the Korean marker anywhere in the reply itself triggers the fallback. */
  lemma KoreanMarkerTriggers(reply: string, i: int)
    requires OccursAt(reply, KoreanNotFoundMarker, i)
    ensures FallbackTriggered(reply)
  {
    LowerSlice(reply, i, i + |KoreanNotFoundMarker|);
    LowerKoreanMarker();
    assert OccursAt(Lower(reply), KoreanNotFoundMarker, i);
    FallbackTriggeredIff(reply);
  }

  // ---- the turn ----

  /**
   A turn only appends: the old transcript is a prefix of the new one, the added
   messages are user and assistant messages only, the system message stays at
   index 0 and remains the only one, and the history display of the new transcript
   is the old display followed by the added messages.
   */
  lemma TurnAppendsOnly(pre: seq<Message>, input: string, primary: Outcome, fallback: Outcome)
    requires WellFormed(pre)
    ensures var post := pre + Appended(input, primary, fallback);
      && |pre| < |post|
      && post[..|pre|] == pre
      && post[|pre|] == Message(User, input)
      && post[0] == pre[0] && post[0].role == System
      && WellFormed(post)
      && CountRole(post, System) == 1
      && Displayed(post) == Displayed(pre) + Appended(input, primary, fallback)
  {
    var a := Appended(input, primary, fallback);
    var post := pre + a;
    assert forall i :: 0 <= i < |a| ==> a[i].role != System;
    assert forall i :: 1 <= i < |post| ==> post[i].role != System by {
      forall i | 1 <= i < |post| ensures post[i].role != System {
        if i >= |pre| { assert post[i] == a[i - |pre|]; }
      }
    }
    WellFormedIff(post);
    DisplayedConcat(pre, a);
    DisplayedAllShown(a);
  }

  /**
   The number of assistant messages a turn appends is fixed by the outcomes: one
   when the primary reply is final, two on a soft miss answered by the fallback,
   one on a soft miss whose fallback raises, one when the primary call raises and
   the fallback answers, none when both raise.
   */
  lemma AssistantRepliesPerTurn(input: string, primary: Outcome, fallback: Outcome)
    ensures CountRole(Appended(input, primary, fallback), Assistant)
         == (if primary.Ok? then 1 else 0) + (if NeedsFallback(primary) && fallback.Ok? then 1 else 0)
    ensures CountRole(Appended(input, primary, fallback), User) == 1
    ensures (primary.Ok? && !FallbackTriggered(primary.text))
        ==> CountRole(Appended(input, primary, fallback), Assistant) == 1
    ensures (primary.Ok? && FallbackTriggered(primary.text) && fallback.Ok?)
        ==> CountRole(Appended(input, primary, fallback), Assistant) == 2
    ensures (primary.Ok? && FallbackTriggered(primary.text) && fallback.Fail?)
        ==> CountRole(Appended(input, primary, fallback), Assistant) == 1
    ensures primary.Fail? && fallback.Ok? ==> CountRole(Appended(input, primary, fallback), Assistant) == 1
    ensures primary.Fail? && fallback.Fail? ==> CountRole(Appended(input, primary, fallback), Assistant) == 0
  {
    var a := Appended(input, primary, fallback);
    var p := PrimaryAppended(input, primary);
    var f := if NeedsFallback(primary) && fallback.Ok? then [Message(Assistant, fallback.text)] else [];
    CountRoleConcat([Message(User, input)], if primary.Ok? then [Message(Assistant, primary.text)] else [], Assistant);
    CountRoleConcat([Message(User, input)], if primary.Ok? then [Message(Assistant, primary.text)] else [], User);
    CountRoleConcat(p, f, Assistant);
    CountRoleConcat(p, f, User);
  }

  /**
   The primary request is sent with the search data source attached, after the
   user message was appended, so its message list ends with the user message.
   A second request is made exactly when the fallback is needed; it carries no
   data source and is sent the transcript as it stands then.
   */
  lemma RequestsOfTurn(pre: seq<Message>, input: string, primary: Outcome)
    ensures var rs := Requests(pre, input, primary);
      && 1 <= |rs| <= 2
      && (|rs| == 2 <==> NeedsFallback(primary))
      && rs[0].rag
      && rs[0].messages == pre + [Message(User, input)]
      && (|rs| == 2 ==> !rs[1].rag && rs[1].messages[..|rs[0].messages|] == rs[0].messages)
  {
  }

  /** Primary reply without a marker: it is the one assistant reply, and no fallback call is made. */
  lemma PrimaryAnswers(pre: seq<Message>, input: string, reply: string, fallback: Outcome)
    requires !FallbackTriggered(reply)
    ensures Appended(input, Ok(reply), fallback) == [Message(User, input), Message(Assistant, reply)]
    ensures Requests(pre, input, Ok(reply)) == [Request(pre + [Message(User, input)], true)]
    ensures !Raises(Ok(reply), fallback)
  {
  }

  /**
   Primary reply with a marker (a soft miss): the primary reply is kept in the
   transcript, the fallback request is sent a message list ending with it, and
   the fallback reply, if any, follows it as a second assistant message.
   */
  lemma SoftMiss(pre: seq<Message>, input: string, reply: string, fallback: Outcome)
    requires FallbackTriggered(reply)
    ensures Appended(input, Ok(reply), fallback)
         == [Message(User, input), Message(Assistant, reply)]
            + (if fallback.Ok? then [Message(Assistant, fallback.text)] else [])
    ensures var rs := Requests(pre, input, Ok(reply));
      |rs| == 2 && !rs[1].rag
      && rs[1].messages == pre + [Message(User, input), Message(Assistant, reply)]
      && rs[1].messages[|rs[1].messages| - 1] == Message(Assistant, reply)
    ensures Raises(Ok(reply), fallback) <==> fallback.Fail?
  {
  }

  /**
   Primary call raises: nothing of it is appended, the fallback request is sent
   the transcript ending with the user message, and the fallback reply, if the
   call returns, is the only assistant message; if it raises too the turn fails.
   */
  lemma PrimaryFails(pre: seq<Message>, input: string, fallback: Outcome)
    ensures Appended(input, Fail, fallback)
         == [Message(User, input)] + (if fallback.Ok? then [Message(Assistant, fallback.text)] else [])
    ensures Requests(pre, input, Fail)
         == [Request(pre + [Message(User, input)], true), Request(pre + [Message(User, input)], false)]
    ensures Raises(Fail, fallback) <==> fallback.Fail?
  {
    assert PrimaryAppended(input, Fail) == [Message(User, input)];
  }
}
