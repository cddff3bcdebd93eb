/**
 * The token estimates the client keeps of its conversation and of its function catalog.
 * The tokenizer is a parameter `enc` giving the token count of a text; the estimates are
 * sums of per-item costs plus a fixed overhead for the whole batch.
 */
module TokenCount {
  import opened ChatTypes

  /** The role name a message is sent with. */
  function RoleName(r: Role): string {
    match r
    case System => "system"
    case User => "user"
    case Assistant => "assistant"
    case Function => "function"
  }

  /** One message: its role and content as the tokenizer counts them, plus 4. The name is not counted. */
  function MessageTokenNum(enc: string -> nat, m: Message): nat {
    enc(RoleName(m.role)) + enc(m.content) + 4
  }

  function MessagesTokenSum(enc: string -> nat, ms: seq<Message>): (n: nat)
    ensures n >= 4 * |ms|
  {
    if ms == [] then 0 else MessageTokenNum(enc, ms[0]) + MessagesTokenSum(enc, ms[1..])
  }

  /** The conversation's estimate: the messages' costs plus 2. */
  function GetConversationTokenNum(enc: string -> nat, conversation: seq<Message>): (n: nat)
    ensures n >= 2 + 4 * |conversation|
  {
    MessagesTokenSum(enc, conversation) + 2
  }

  lemma {:induction false} MessagesTokenSumConcat(enc: string -> nat, a: seq<Message>, b: seq<Message>)
    ensures MessagesTokenSum(enc, a + b) == MessagesTokenSum(enc, a) + MessagesTokenSum(enc, b)
  {
    if a != [] {
      assert (a + b)[1..] == a[1..] + b;
      MessagesTokenSumConcat(enc, a[1..], b);
    } else {
      assert a + b == b;
    }
  }

  /** Appending a message adds exactly its cost. */
  lemma ConversationTokenNumAppend(enc: string -> nat, conversation: seq<Message>, m: Message)
    ensures GetConversationTokenNum(enc, conversation + [m])
      == GetConversationTokenNum(enc, conversation) + MessageTokenNum(enc, m)
  {
    MessagesTokenSumConcat(enc, conversation, [m]);
  }

  /** Removing any message lowers the estimate by exactly that message's cost, so by at least 4. */
  lemma ConversationTokenNumRemoveAt(enc: string -> nat, conversation: seq<Message>, i: nat)
    requires i < |conversation|
    ensures GetConversationTokenNum(enc, conversation[..i] + conversation[i + 1..])
      == GetConversationTokenNum(enc, conversation) - MessageTokenNum(enc, conversation[i])
    ensures GetConversationTokenNum(enc, conversation[..i] + conversation[i + 1..])
      <= GetConversationTokenNum(enc, conversation) - 4
  {
    var before, after := conversation[..i], conversation[i + 1..];
    assert conversation == before + ([conversation[i]] + after);
    MessagesTokenSumConcat(enc, before, [conversation[i]] + after);
    MessagesTokenSumConcat(enc, [conversation[i]], after);
    MessagesTokenSumConcat(enc, before, after);
  }

  /** One catalog entry: name, description and the parameters' JSON text, plus 6. */
  function DescriptorTokenNum(enc: string -> nat, render: JSchema -> string, d: ChatFunctionDescriptor): nat {
    enc(d.name) + enc(d.description) + enc(render(d.parameters)) + 6
  }

  function DescriptorsTokenSum(enc: string -> nat, render: JSchema -> string, ds: seq<ChatFunctionDescriptor>): (n: nat)
    ensures n >= 6 * |ds|
  {
    if ds == [] then 0 else DescriptorTokenNum(enc, render, ds[0]) + DescriptorsTokenSum(enc, render, ds[1..])
  }

  /**
   * The catalog's estimate: the entries' costs plus 2. `render` gives the JSON text the
   * serializer produces for a parameter schema.
   */
  function GetFunctionsTokenNum(enc: string -> nat, render: JSchema -> string, functions: seq<ChatFunctionDescriptor>): (n: nat)
    ensures n >= 2 + 6 * |functions|
  {
    DescriptorsTokenSum(enc, render, functions) + 2
  }

  /** The catalog of several plugins costs the sum of their catalogs, less the batch overhead counted twice. */
  lemma {:induction false} FunctionsTokenNumConcat(enc: string -> nat, render: JSchema -> string,
                                                  a: seq<ChatFunctionDescriptor>, b: seq<ChatFunctionDescriptor>)
    ensures GetFunctionsTokenNum(enc, render, a + b)
      == GetFunctionsTokenNum(enc, render, a) + GetFunctionsTokenNum(enc, render, b) - 2
  {
    if a != [] {
      assert (a + b)[1..] == a[1..] + b;
      FunctionsTokenNumConcat(enc, render, a[1..], b);
    } else {
      assert a + b == b;
    }
  }
}
