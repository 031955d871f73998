/** The community chat box: a seeded message list and the send handler. */
module Chat {
  import opened Text

  datatype Message = Message(id: int, message: string, sender: string, timestamp: string, isCurrentUser: bool)

  /** The message list and the text in the input box. */
  datatype ChatState = ChatState(messages: seq<Message>, input: string)

  /** Message ids run 1, 2, 3, ... in list order. */
  predicate SequentialIds(ms: seq<Message>) {
    forall k :: 0 <= k < |ms| ==> ms[k].id == k + 1
  }

  /** The four messages every chat starts with. */
  function Seed(communityName: string): (ms: seq<Message>)
    ensures |ms| == 4 && SequentialIds(ms)
    ensures ms[0].message == "Welcome to the " + communityName + " community chat!"
  {
    [
      Message(1, "Welcome to the " + communityName + " community chat!", "CommunityBot", "Just now", false),
      Message(2, "Hey everyone! I'm excited to join this community!", "Alex Turner", "2 minutes ago", false),
      Message(3, "Welcome Alex! Great to have you here.", "Jamie Wilson", "1 minute ago", false),
      Message(4, "Thanks for the warm welcome!", "You", "Just now", true)
    ]
  }

  function InitialChat(communityName: string): ChatState {
    ChatState(Seed(communityName), "")
  }

  /** `handleSendMessage`: blank input is ignored; otherwise the untrimmed
      text is appended as the viewer's message with id `length + 1`, and the
      input is cleared. */
  function HandleSend(s: ChatState): (r: ChatState)
    ensures Blank(s.input) ==> r == s
    ensures !Blank(s.input) ==>
      && |r.messages| == |s.messages| + 1
      && r.messages[..|s.messages|] == s.messages
      && r.messages[|s.messages|] == Message(|s.messages| + 1, s.input, "You", "Just now", true)
      && r.input == ""
    ensures SequentialIds(s.messages) ==> SequentialIds(r.messages)
  {
    TrimEmptyIffBlank(s.input);
    if Trim(s.input) != [] then
      var m := Message(|s.messages| + 1, s.input, "You", "Just now", true);
      ChatState(s.messages + [m], "")
    else s
  }

  /** Sequential ids are pairwise distinct. */
  lemma SequentialIdsDistinct(ms: seq<Message>)
    requires SequentialIds(ms)
    ensures forall i, j :: 0 <= i < j < |ms| ==> ms[i].id != ms[j].id
  {
  }

  /** The chat after sending each of `inputs` in turn. */
  function SendAll(s: ChatState, inputs: seq<string>): ChatState
    decreases |inputs|
  {
    if |inputs| == 0 then s else SendAll(HandleSend(s.(input := inputs[0])), inputs[1..])
  }

  /** The inputs that are not blank, in order. */
  function NonBlankInputs(inputs: seq<string>): seq<string> {
    if |inputs| == 0 then []
    else (if Blank(inputs[0]) then [] else [inputs[0]]) + NonBlankInputs(inputs[1..])
  }

  /** The viewer's messages for `texts`, numbered from `n + 1` on. */
  function Sent(n: int, texts: seq<string>): (ms: seq<Message>)
    ensures |ms| == |texts|
    ensures forall k :: 0 <= k < |ms| ==> ms[k] == Message(n + 1 + k, texts[k], "You", "Just now", true)
    decreases |texts|
  {
    if |texts| == 0 then [] else [Message(n + 1, texts[0], "You", "Just now", true)] + Sent(n + 1, texts[1..])
  }

  /** Sending a sequence is sending its first input, then the rest. */
  lemma SendAllStep(s: ChatState, inputs: seq<string>)
    requires |inputs| > 0
    ensures SendAll(s, inputs) == SendAll(HandleSend(s.(input := inputs[0])), inputs[1..])
  {
  }

  /** Any sequence of sends keeps every earlier message and appends exactly
      the viewer's messages for the non-blank inputs, in order, numbered on
      from the last id. */
  lemma {:induction false} SendAllAppendsInputs(s: ChatState, inputs: seq<string>)
    ensures SendAll(s, inputs).messages == s.messages + Sent(|s.messages|, NonBlankInputs(inputs))
    decreases |inputs|
  {
    if |inputs| > 0 {
      var t := HandleSend(s.(input := inputs[0]));
      SendAllAppendsInputs(t, inputs[1..]);
      SendAllStep(s, inputs);
      if Blank(inputs[0]) {
        assert NonBlankInputs(inputs) == NonBlankInputs(inputs[1..]);
      } else {
        var m := Message(|s.messages| + 1, inputs[0], "You", "Just now", true);
        assert t.messages == s.messages + [m];
        SentAfterOne(s.messages, m, inputs[0], NonBlankInputs(inputs[1..]));
        assert NonBlankInputs(inputs) == [inputs[0]] + NonBlankInputs(inputs[1..]);
      }
    }
  }

  /** The messages after one non-blank send `m`, followed by the rest's. */
  lemma SentAfterOne(ms: seq<Message>, m: Message, x: string, rest: seq<string>)
    requires m == Message(|ms| + 1, x, "You", "Just now", true)
    ensures (ms + [m]) + Sent(|ms| + 1, rest) == ms + Sent(|ms|, [x] + rest)
  {
    SentCons(|ms|, x, rest);
  }

  /** Sending `x` and then `rest` from `n` on. */
  lemma SentCons(n: int, x: string, rest: seq<string>)
    ensures Sent(n, [x] + rest) == [Message(n + 1, x, "You", "Just now", true)] + Sent(n + 1, rest)
  {
    assert ([x] + rest)[1..] == rest;
  }

  /** From the seed, any sequence of sends keeps ids sequential, hence
      distinct. */
  lemma {:induction false} SendAllKeepsHistory(s: ChatState, inputs: seq<string>)
    requires SequentialIds(s.messages)
    ensures SequentialIds(SendAll(s, inputs).messages)
    decreases |inputs|
  {
    if |inputs| > 0 {
      SendAllKeepsHistory(HandleSend(s.(input := inputs[0])), inputs[1..]);
    }
  }
}
