/**
 * The conversation transcript: its messages, the fixed system message that
 * seeds it, the invariant every exchange keeps, and the filter that hides
 * the system message from the chat page.
 */
module Transcript {

  datatype Role = System | User | Assistant

  /** One transcript entry, a `{role, content}` record. */
  datatype Message = Message(role: Role, content: string)

  /** The instruction text of the system message. */
  const SystemText: string :=
    "You are 'Sakhi', a warm, compassionate companion who is both a friend and a supportive counselor. "
    + "Listen actively and validate the user's feelings. Offer gentle guidance, encouragement, and small coping suggestions, "
    + "like breathing exercises, mindfulness tips, journaling, or comforting words. "
    + "Keep responses empathetic, friendly, and human-like\U{2014}never mechanical or overly long. "
    + "Do not give medical advice or diagnosis. "
    + "Respond in the same language the user uses, or the dominant language if mixed. "
    + "Your tone should feel like someone who genuinely cares and is right there with them."

  const SystemPrompt: Message := Message(System, SystemText)

  /** The transcript a session starts with, and returns to on reset. */
  const Seed: seq<Message> := [SystemPrompt]

  /**
   * The shape every reachable transcript has: the system message first, then
   * complete user/assistant pairs, a user message at every odd position and
   * an assistant message at every even one.
   */
  predicate Alternating(log: seq<Message>) {
    && |log| % 2 == 1
    && log[0] == SystemPrompt
    && forall i :: 1 <= i < |log| ==> log[i].role == (if i % 2 == 1 then User else Assistant)
  }

  lemma SeedAlternating()
    ensures Alternating(Seed)
  {
  }

  /** Appending one user/assistant pair keeps the shape. */
  lemma {:induction false} AppendPairAlternating(log: seq<Message>, question: string, answer: string)
    requires Alternating(log)
    ensures Alternating(log + [Message(User, question), Message(Assistant, answer)])
  {
    var next := log + [Message(User, question), Message(Assistant, answer)];
    forall i | 1 <= i < |next|
      ensures next[i].role == (if i % 2 == 1 then User else Assistant)
    {
      if i < |log| {
        assert next[i] == log[i];
      } else if i == |log| {
        assert next[i] == Message(User, question);
      } else {
        assert next[i] == Message(Assistant, answer);
      }
    }
  }

  /** The messages shown on the chat page: every non-system message, in order. */
  function Visible(log: seq<Message>): (r: seq<Message>)
    ensures |r| <= |log|
    ensures forall m :: m in r ==> m in log && m.role != System
    ensures forall m :: m in log && m.role != System ==> m in r
  {
    if log == [] then []
    else if log[0].role == System then Visible(log[1..])
    else [log[0]] + Visible(log[1..])
  }

  /** The filter works piece by piece, so it keeps the order of what it keeps. */
  lemma {:induction false} VisibleAppend(a: seq<Message>, b: seq<Message>)
    ensures Visible(a + b) == Visible(a) + Visible(b)
  {
    if a == [] {
      assert a + b == b;
    } else {
      assert (a + b)[0] == a[0];
      assert (a + b)[1..] == a[1..] + b;
      VisibleAppend(a[1..], b);
    }
  }

  /** A transcript with no system message is shown whole. */
  lemma {:induction false} VisibleWithoutSystem(log: seq<Message>)
    requires forall i :: 0 <= i < |log| ==> log[i].role != System
    ensures Visible(log) == log
  {
    if log != [] {
      VisibleWithoutSystem(log[1..]);
    }
  }

  /** The page shows a newly appended user/assistant pair after what it showed before. */
  lemma VisibleAfterPair(log: seq<Message>, question: string, answer: string)
    ensures Visible(log + [Message(User, question), Message(Assistant, answer)])
         == Visible(log) + [Message(User, question), Message(Assistant, answer)]
  {
    var pair := [Message(User, question), Message(Assistant, answer)];
    VisibleAppend(log, pair);
    VisibleWithoutSystem(pair);
  }

  /** For every reachable transcript the page shows everything but the first message. */
  lemma VisibleOfAlternating(log: seq<Message>)
    requires Alternating(log)
    ensures Visible(log) == log[1..]
  {
    assert log == [log[0]] + log[1..];
    VisibleAppend([log[0]], log[1..]);
    VisibleWithoutSystem(log[1..]);
  }

  /** After a reset the page shows nothing. */
  lemma VisibleOfSeed()
    ensures Visible(Seed) == []
  {
  }
}
