/** The stock optional value, used for an entry of the session state that may be absent. */
module Wrappers {
  datatype Option<+T> = None | Some(value: T)
}

/**
 The conversation transcript kept in the session state: role-tagged messages in
 the order they were appended, re-sent in full with every remote request.
 */
module Transcript {
  import opened Wrappers

  datatype Role = System | User | Assistant

  datatype Message = Message(role: Role, content: string)

  /** The instruction the transcript is seeded with (aiSearch.py:33-37). */
  const SystemPrompt: string :=
    "당신은 테스트 케이스 전문가입니다. 사용자의 요청에 맞게 "
    + "명확하고 구조화된 테스트 케이스와 관련된 답변을 제공합니다. "
    + "필요하면 표 형식과 python 기반 테스트 코드도 생성하세요."

  const SystemMessage: Message := Message(System, SystemPrompt)

  /** The invariant of a transcript: exactly one system message, and it comes first. */
  predicate WellFormed(t: seq<Message>)
  {
    |t| >= 1 && t[0].role == System && forall i :: 1 <= i < |t| ==> t[i].role != System
  }

  /**
   The transcript after the session-state initialisation: a fresh one holding only
   the system message when none is stored, the stored one otherwise.
   */
  function Initialized(stored: Option<seq<Message>>): (t: seq<Message>)
  {
    match stored
    case None => [SystemMessage]
    case Some(kept) => kept
  }

  /** The number of messages of a given role. */
  function CountRole(t: seq<Message>, role: Role): (n: nat)
    ensures n <= |t|
    ensures n == 0 <==> forall i :: 0 <= i < |t| ==> t[i].role != role
  {
    if t == [] then 0 else (if t[0].role == role then 1 else 0) + CountRole(t[1..], role)
  }

  lemma {:induction false} CountRoleConcat(a: seq<Message>, b: seq<Message>, role: Role)
    ensures CountRole(a + b, role) == CountRole(a, role) + CountRole(b, role)
  {
    if a == [] {
      assert a + b == b;
    } else {
      assert (a + b)[1..] == a[1..] + b;
      CountRoleConcat(a[1..], b, role);
    }
  }

  /** A transcript is well formed exactly when it starts with the one and only system message. */
  lemma WellFormedIff(t: seq<Message>)
    ensures WellFormed(t) <==> |t| >= 1 && t[0].role == System && CountRole(t, System) == 1
  {
    if |t| >= 1 && t[0].role == System {
      assert CountRole(t, System) == 1 + CountRole(t[1..], System);
      assert (forall i :: 1 <= i < |t| ==> t[i].role != System)
         <==> (forall i :: 0 <= i < |t[1..]| ==> t[1..][i].role != System) by {
        forall i | 1 <= i < |t| ensures t[i] == t[1..][i - 1] { }
      }
    }
  }

  /** The initialisation yields a well-formed transcript, with exactly one system message. */
  lemma InitializedWellFormed(stored: Option<seq<Message>>)
    requires stored.Some? ==> WellFormed(stored.value)
    ensures WellFormed(Initialized(stored)) && CountRole(Initialized(stored), System) == 1
  {
    WellFormedIff(Initialized(stored));
  }

  /** The history display shows user and assistant messages only (aiSearch.py:43-46). */
  predicate Shown(m: Message)
  {
    m.role == User || m.role == Assistant
  }

  /** The messages the history display renders, in transcript order. */
  function Displayed(t: seq<Message>): (r: seq<Message>)
    ensures |r| <= |t|
    ensures forall m :: m in r <==> m in t && Shown(m)
    ensures forall i :: 0 <= i < |r| ==> r[i].role != System
  {
    if t == [] then [] else (if Shown(t[0]) then [t[0]] else []) + Displayed(t[1..])
  }

  /** Displaying a concatenation displays each part in turn: the filter keeps the order. */
  lemma {:induction false} DisplayedConcat(a: seq<Message>, b: seq<Message>)
    ensures Displayed(a + b) == Displayed(a) + Displayed(b)
  {
    if a == [] {
      assert a + b == b;
    } else {
      assert (a + b)[1..] == a[1..] + b;
      DisplayedConcat(a[1..], b);
    }
  }

  /** Messages that are all user or assistant messages are displayed as they are. */
  lemma {:induction false} DisplayedAllShown(t: seq<Message>)
    requires forall i :: 0 <= i < |t| ==> t[i].role != System
    ensures Displayed(t) == t
  {
    if t != [] {
      DisplayedAllShown(t[1..]);
    }
  }

  /** Of a well-formed transcript, everything but the leading system message is displayed. */
  lemma DisplayedWellFormed(t: seq<Message>)
    requires WellFormed(t)
    ensures Displayed(t) == t[1..]
  {
    assert !Shown(t[0]);
    DisplayedAllShown(t[1..]);
  }
}
