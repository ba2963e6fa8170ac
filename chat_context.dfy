/** The conversation log of src/chat-context.ts: an ordered, role-tagged list
    of messages where a turn of the same role as the last message is merged
    into it, plus synchronous change observers. */
module ChatLog {
  import opened Js
  import opened Messages

  /** The merge-or-push rule: blocks of the same role as the last message are
      appended to that message's content, otherwise a new message is pushed. */
  function Merge(ms: seq<Message>, role: Role, blocks: seq<string>): (r: seq<Message>)
    ensures |r| == if |ms| > 0 && Last(ms).role == role then |ms| else |ms| + 1
    ensures forall i :: 0 <= i < |ms| - 1 ==> r[i] == ms[i]
    ensures |ms| > 0 && Last(ms).role != role ==> r[|ms| - 1] == Last(ms)
    ensures Last(r).role == role
    ensures |ms| > 0 && Last(ms).role == role ==> Last(r).content == Last(ms).content + blocks
    ensures (|ms| == 0 || Last(ms).role != role) ==> Last(r).content == blocks
    ensures Alternating(ms) ==> Alternating(r)
  {
    if |ms| > 0 && Last(ms).role == role then
      ms[..|ms| - 1] + [Message(role, Last(ms).content + blocks)]
    else
      ms + [Message(role, blocks)]
  }

  /** Whatever is merged, the flattened conversation grows by exactly the new
      blocks, at its end: no block is lost, reordered or duplicated. */
  lemma MergeBlocks(ms: seq<Message>, role: Role, blocks: seq<string>)
    ensures Blocks(Merge(ms, role, blocks)) == Blocks(ms) + blocks
  {
    var r := Merge(ms, role, blocks);
    if |ms| > 0 && Last(ms).role == role {
      assert r[..|r| - 1] == ms[..|ms| - 1];
      assert Last(r).content == Last(ms).content + blocks;
    } else {
      assert r[..|r| - 1] == ms;
    }
  }

  /** Two turns of the same role in a row are one turn holding both sets of
      blocks, in order. */
  lemma MergeTwice(ms: seq<Message>, role: Role, a: seq<string>, b: seq<string>)
    ensures Merge(Merge(ms, role, a), role, b) == Merge(ms, role, a + b)
  {
    var m1 := Merge(ms, role, a);
    if |ms| > 0 && Last(ms).role == role {
      assert m1[..|m1| - 1] == ms[..|ms| - 1];
      assert Last(ms).content + a + b == Last(ms).content + (a + b);
    } else {
      assert m1[..|m1| - 1] == ms;
    }
  }

  /** `messages.slice(-count)`. */
  function TruncatedHistory(ms: seq<Message>, count: int): (r: seq<Message>)
    ensures count >= 1 ==> |r| == Min(count, |ms|) && r == ms[|ms| - |r|..]
    ensures count == 0 ==> r == ms
    ensures count < 0 ==> r == ms[Min(-count, |ms|)..]
  {
    SliceFrom(ms, -count)
  }

  /** A registered change callback, identified by its registration. */
  type CallbackId = nat

  /** One call of a change callback with the message list it was passed. */
  datatype Delivery = Delivery(callback: CallbackId, snapshot: seq<Message>)

  /** The calls one notification makes: every callback once, in registration
      order, each passed the same current list. */
  function Notifications(callbacks: seq<CallbackId>, snapshot: seq<Message>): (ds: seq<Delivery>)
    ensures |ds| == |callbacks|
    ensures forall i :: 0 <= i < |ds| ==> ds[i] == Delivery(callbacks[i], snapshot)
  {
    seq(|callbacks|, i requires 0 <= i < |callbacks| => Delivery(callbacks[i], snapshot))
  }

  class ChatContext {
    /** The conversation, oldest first. */
    var messages: seq<Message>
    /** Registered change callbacks, in registration order. */
    var callbacks: seq<CallbackId>
    /** Every callback call made so far, oldest first. */
    var deliveries: seq<Delivery>

    constructor ()
      ensures messages == [] && callbacks == [] && deliveries == []
    {
      messages := [];
      callbacks := [];
      deliveries := [];
    }

    method OnMessagesChange(callback: CallbackId)
      modifies this`callbacks
      ensures callbacks == old(callbacks) + [callback]
    {
      callbacks := callbacks + [callback];
    }

    method NotifyMessageChange()
      modifies this`deliveries
      ensures deliveries == old(deliveries) + Notifications(callbacks, messages)
    {
      var i := 0;
      while i < |callbacks|
        invariant 0 <= i <= |callbacks|
        invariant deliveries == old(deliveries) + Notifications(callbacks[..i], messages)
      {
        deliveries := deliveries + [Delivery(callbacks[i], messages)];
        i := i + 1;
        assert Notifications(callbacks[..i], messages)
            == Notifications(callbacks[..i - 1], messages) + [Delivery(callbacks[i - 1], messages)];
      }
      assert callbacks[..i] == callbacks;
    }

    method AddUserMessage(prompt: string)
      modifies this`messages, this`deliveries
      ensures messages == Merge(old(messages), User, [prompt])
      ensures deliveries == old(deliveries) + Notifications(callbacks, messages)
    {
      if |messages| > 0 && messages[|messages| - 1].role == User {
        var lastMessage := messages[|messages| - 1];
        messages := messages[..|messages| - 1] + [lastMessage.(content := lastMessage.content + [prompt])];
      } else {
        messages := messages + [Message(User, [prompt])];
      }
      NotifyMessageChange();
    }

    method AddAssistantMessage(response: string, description: string)
      modifies this`messages, this`deliveries
      ensures messages == Merge(old(messages), Assistant, [response, description])
      ensures deliveries == old(deliveries) + Notifications(callbacks, messages)
    {
      if |messages| > 0 && messages[|messages| - 1].role == Assistant {
        var lastMessage := messages[|messages| - 1];
        messages := messages[..|messages| - 1]
                    + [lastMessage.(content := lastMessage.content + [response, description])];
      } else {
        messages := messages + [Message(Assistant, [response, description])];
      }
      NotifyMessageChange();
    }

    method GetMessages() returns (r: seq<Message>)
      ensures r == messages
    {
      r := messages;
    }

    /** The default window is the last three messages. */
    method GetTruncatedHistory(count: int := 3) returns (r: seq<Message>)
      ensures r == TruncatedHistory(messages, count)
      ensures count >= 1 ==> |r| == Min(count, |messages|) && r == messages[|messages| - |r|..]
      ensures count == 0 ==> r == messages
    {
      r := SliceFrom(messages, -count);
    }

    /** Empties the conversation without notifying anyone. */
    method ClearMessages()
      modifies this`messages
      ensures messages == []
    {
      messages := [];
    }
  }
}
