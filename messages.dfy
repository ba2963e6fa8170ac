/** Conversation turns as the converse endpoint receives them: a role and an
    ordered list of text content blocks. */
module Messages {

  datatype Role = User | Assistant

  datatype Message = Message(role: Role, content: seq<string>)

  function Last<T>(s: seq<T>): T
    requires |s| > 0
  {
    s[|s| - 1]
  }

  /** No two adjacent turns share a role. */
  predicate Alternating(ms: seq<Message>) {
    forall i :: 0 <= i < |ms| - 1 ==> ms[i].role != ms[i + 1].role
  }

  /** Every content block of a history, turn after turn. */
  function Blocks(ms: seq<Message>): seq<string> {
    if |ms| == 0 then [] else Blocks(ms[..|ms| - 1]) + Last(ms).content
  }

  /** Flattening distributes over concatenation of histories. */
  lemma {:induction false} BlocksAppend(a: seq<Message>, b: seq<Message>)
    ensures Blocks(a + b) == Blocks(a) + Blocks(b)
    decreases |b|
  {
    if |b| > 0 {
      var b' := b[..|b| - 1];
      assert (a + b)[..|a + b| - 1] == a + b';
      BlocksAppend(a, b');
    } else {
      assert a + b == a;
    }
  }
}
