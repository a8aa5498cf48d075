/**
 * Chat-prompt assembly for Llama: a conversation of role-tagged messages becomes
 * one flat list of token ids. A default system message is prepended when the
 * conversation does not start with one, the roles after it must alternate
 * user/assistant starting with user, and each message is wrapped in its role's
 * delimiter text, encoded, and framed by its role's start and end token ids.
 */
module ChatPrompt {
  import opened Results
  import opened PyText

  /** One message of a conversation: `{"role": role, "message": text}`. */
  datatype Message = Message(role: string, text: string)

  /** A conversation whose message list is reassigned in place when the system prompt is prepended. */
  class Conversation {
    var messages: seq<Message>

    constructor (messages: seq<Message>)
      ensures this.messages == messages
    {
      this.messages := messages;
    }
  }

  /** The external encoder: `encode(text, add_special_tokens)` gives the token ids of `text`. */
  type Encoder = (string, bool) -> seq<int>

  /** The delimiter text and token ids that surround every message of one role. */
  datatype RoleFormat = RoleFormat(start: string, end: string, startToken: int, endToken: int)

  /** The three roles' formats. */
  datatype ChatFormat = ChatFormat(system: RoleFormat, user: RoleFormat, assistant: RoleFormat) {
    function For(role: string): RoleFormat
      requires KnownRole(role)
    {
      if role == "user" then user else if role == "system" then system else assistant
    }
  }

  /** The system prompt used when a conversation does not begin with one. */
  const DEFAULT_SYSTEM_PROMPT: string :=
    "You are a helpful, respectful and honest assistant. Always answer as helpfully as possible, while being safe. Your "
    + "answers should not include any harmful, unethical, racist, sexist, toxic, dangerous, or illegal content. Please ensure"
    + " that your responses are socially unbiased and positive in nature.\n\n"
    + "If a question does not make any sense, or is not factually coherent, explain why instead of answering something not "
    + "correct. If you don't know the answer to a question, please don't share false information."

  predicate KnownRole(role: string) {
    role == "system" || role == "user" || role == "assistant"
  }

  predicate StartsWithSystem(messages: seq<Message>) {
    |messages| > 0 && messages[0].role == "system"
  }

  /** The message list after preprocessing: the default system message is put in front unless one is there. */
  function WithSystemPrompt(messages: seq<Message>): (r: seq<Message>)
    ensures StartsWithSystem(r)
    ensures |messages| <= |r| <= |messages| + 1 && r[|r| - |messages|..] == messages
  {
    if StartsWithSystem(messages) then messages
    else [Message("system", DEFAULT_SYSTEM_PROMPT)] + messages
  }

  /** Preprocessing leaves a conversation alone exactly when it already starts with a system message. */
  lemma WithSystemPromptUnchangedIff(messages: seq<Message>)
    ensures WithSystemPrompt(messages) == messages <==> StartsWithSystem(messages)
    ensures !StartsWithSystem(messages) ==>
              WithSystemPrompt(messages)[0] == Message("system", DEFAULT_SYSTEM_PROMPT)
              && |WithSystemPrompt(messages)| == |messages| + 1
  {
    if !StartsWithSystem(messages) {
      assert |WithSystemPrompt(messages)| != |messages|;
    }
  }

  /** Preprocessing twice prepends no second system message. */
  lemma WithSystemPromptIdempotent(messages: seq<Message>)
    ensures WithSystemPrompt(WithSystemPrompt(messages)) == WithSystemPrompt(messages)
  {
  }

  /** Python's slice `s[start::2]`: every other element, from `start` on. */
  function EveryOther<T>(s: seq<T>, start: nat): (r: seq<T>)
    ensures |r| == if start < |s| then (|s| - start + 1) / 2 else 0
    ensures forall k :: 0 <= k < |r| ==> r[k] == s[start + 2 * k]
    decreases |s| - start
  {
    if start < |s| then [s[start]] + EveryOther(s, start + 2) else []
  }

  /** `[message["role"] for message in messages[1:]]`. */
  function RolesAfterFirst(messages: seq<Message>): seq<string> {
    if |messages| == 0 then [] else seq(|messages| - 1, k requires 0 <= k < |messages| - 1 => messages[k + 1].role)
  }

  /** The check the tokenizer makes: roles at even positions after the first are all user, at odd positions all assistant. */
  predicate RoleOrderAccepted(messages: seq<Message>) {
    var roles := RolesAfterFirst(messages);
    && (forall role :: role in EveryOther(roles, 0) ==> role == "user")
    && (forall role :: role in EveryOther(roles, 1) ==> role == "assistant")
  }

  /** The role the `j`-th message after the system message must have (from 0): user at even `j`, assistant at odd. */
  function ExpectedRole(j: nat): string {
    if j % 2 == 0 then "user" else "assistant"
  }

  /** After the first message, the roles alternate user, assistant, user, ... */
  predicate Alternates(messages: seq<Message>) {
    forall i :: 1 <= i < |messages| ==> messages[i].role == ExpectedRole(i - 1)
  }

  /** Entry `j` of the role list is the role of message `j + 1`. */
  lemma RoleAt(messages: seq<Message>, j: nat)
    requires j + 1 < |messages|
    ensures j < |RolesAfterFirst(messages)| && RolesAfterFirst(messages)[j] == messages[j + 1].role
  {
  }

  /** A list whose every entry is `v` holds nothing but `v`. */
  lemma AllEntriesAre(s: seq<string>, v: string)
    requires forall k :: 0 <= k < |s| ==> s[k] == v
    ensures forall x :: x in s ==> x == v
  {
  }

  /** A conversation the slice-based check accepts alternates. */
  lemma AcceptedAlternates(messages: seq<Message>)
    requires RoleOrderAccepted(messages)
    ensures Alternates(messages)
  {
    var roles := RolesAfterFirst(messages);
    var evens, odds := EveryOther(roles, 0), EveryOther(roles, 1);
    forall i | 1 <= i < |messages| ensures messages[i].role == ExpectedRole(i - 1) {
      var j := i - 1;
      var k, b := j / 2, j % 2;
      assert j == 2 * k + b && (b == 0 || b == 1);
      RoleAt(messages, j);
      if b == 0 {
        assert evens[k] == roles[j];
        assert evens[k] in evens;
      } else {
        assert odds[k] == roles[j];
        assert odds[k] in odds;
      }
    }
  }

  /** An alternating conversation passes the slice-based check. */
  lemma AlternatingAccepted(messages: seq<Message>)
    requires Alternates(messages)
    ensures RoleOrderAccepted(messages)
  {
    var roles := RolesAfterFirst(messages);
    var evens, odds := EveryOther(roles, 0), EveryOther(roles, 1);
    forall k | 0 <= k < |evens| ensures evens[k] == "user" {
      RoleAt(messages, 2 * k);
      assert (2 * k) % 2 == 0;
    }
    forall k | 0 <= k < |odds| ensures odds[k] == "assistant" {
      RoleAt(messages, 1 + 2 * k);
      assert (1 + 2 * k) % 2 == 1;
    }
    AllEntriesAre(evens, "user");
    AllEntriesAre(odds, "assistant");
  }

  /** The slice-based check accepts exactly the alternating conversations. */
  lemma RoleOrderAcceptedIff(messages: seq<Message>)
    ensures RoleOrderAccepted(messages) <==> Alternates(messages)
  {
    if RoleOrderAccepted(messages) { AcceptedAlternates(messages); }
    if Alternates(messages) { AlternatingAccepted(messages); }
  }

  /** A preprocessed conversation that passes the check has only the three known roles. */
  lemma AcceptedRolesAreKnown(messages: seq<Message>)
    requires StartsWithSystem(messages) && RoleOrderAccepted(messages)
    ensures AllKnown(messages)
  {
    RoleOrderAcceptedIff(messages);
  }

  predicate AllKnown(messages: seq<Message>) {
    forall i :: 0 <= i < |messages| ==> KnownRole(messages[i].role)
  }

  /** The text handed to the encoder: the role's start text, the stripped message, the role's end text. */
  function Wrap(m: Message, fmt: ChatFormat): string
    requires KnownRole(m.role)
  {
    fmt.For(m.role).start + Strip(m.text) + fmt.For(m.role).end
  }

  /** One message's ids: its role's start token, the encoded wrapped text, its role's end token. */
  function Block(m: Message, fmt: ChatFormat, encode: Encoder, addSpecialTokens: bool): seq<int>
    requires KnownRole(m.role)
  {
    [fmt.For(m.role).startToken] + encode(Wrap(m, fmt), addSpecialTokens) + [fmt.For(m.role).endToken]
  }

  /** The blocks of all messages, concatenated in message order. */
  function DialogTokens(messages: seq<Message>, fmt: ChatFormat, encode: Encoder, addSpecialTokens: bool): seq<int>
    requires AllKnown(messages)
  {
    if messages == [] then []
    else Block(messages[0], fmt, encode, addSpecialTokens) + DialogTokens(messages[1..], fmt, encode, addSpecialTokens)
  }

  /** What `_build_conversation_input_ids` returns (or raises) for a message list. */
  function ConversationInputIds(messages: seq<Message>, fmt: ChatFormat, encode: Encoder, addSpecialTokens: bool): Result<seq<int>> {
    var ms := WithSystemPrompt(messages);
    if !RoleOrderAccepted(ms) then Err(RoleOrder)
    else
      AcceptedRolesAreKnown(ms);
      Ok(DialogTokens(ms, fmt, encode, addSpecialTokens))
  }

  /** The tokens of two message lists in a row are the tokens of the first followed by those of the second. */
  lemma {:induction false} DialogTokensConcat(a: seq<Message>, b: seq<Message>, fmt: ChatFormat, encode: Encoder, addSpecialTokens: bool)
    requires AllKnown(a) && AllKnown(b)
    ensures AllKnown(a + b)
    ensures DialogTokens(a + b, fmt, encode, addSpecialTokens)
         == DialogTokens(a, fmt, encode, addSpecialTokens) + DialogTokens(b, fmt, encode, addSpecialTokens)
  {
    assert AllKnown(a + b) by {
      forall i | 0 <= i < |a + b| ensures KnownRole((a + b)[i].role) {
        if i >= |a| { assert (a + b)[i] == b[i - |a|]; }
      }
    }
    if a != [] {
      assert (a + b)[1..] == a[1..] + b;
      assert AllKnown(a[1..]);
      DialogTokensConcat(a[1..], b, fmt, encode, addSpecialTokens);
    } else {
      assert a + b == b;
    }
  }

  /** The tokens of a single message are its block. */
  lemma DialogTokensSingle(m: Message, fmt: ChatFormat, encode: Encoder, addSpecialTokens: bool)
    requires KnownRole(m.role)
    ensures AllKnown([m])
    ensures DialogTokens([m], fmt, encode, addSpecialTokens) == Block(m, fmt, encode, addSpecialTokens)
  {
    assert [m][1..] == [];
  }

  /** Extending a prefix of the messages by one message appends that message's block. */
  lemma DialogTokensExtend(messages: seq<Message>, i: nat, fmt: ChatFormat, encode: Encoder, addSpecialTokens: bool)
    requires AllKnown(messages) && i < |messages|
    ensures AllKnown(messages[..i]) && AllKnown(messages[..i + 1])
    ensures DialogTokens(messages[..i + 1], fmt, encode, addSpecialTokens)
         == DialogTokens(messages[..i], fmt, encode, addSpecialTokens) + Block(messages[i], fmt, encode, addSpecialTokens)
  {
    assert messages[..i + 1] == messages[..i] + [messages[i]];
    assert AllKnown(messages[..i]);
    DialogTokensSingle(messages[i], fmt, encode, addSpecialTokens);
    DialogTokensConcat(messages[..i], [messages[i]], fmt, encode, addSpecialTokens);
  }

  /**
   * One user turn followed by one assistant turn: the user block keeps its end token, so the
   * user's end token and the assistant's start token sit between the two encoded texts.
   */
  lemma TurnLayout(user: string, answer: string, fmt: ChatFormat, encode: Encoder, addSpecialTokens: bool)
    ensures AllKnown([Message("user", user), Message("assistant", answer)])
    ensures DialogTokens([Message("user", user), Message("assistant", answer)], fmt, encode, addSpecialTokens)
         == [fmt.user.startToken] + encode(fmt.user.start + Strip(user) + fmt.user.end, addSpecialTokens)
          + [fmt.user.endToken, fmt.assistant.startToken]
          + encode(fmt.assistant.start + Strip(answer) + fmt.assistant.end, addSpecialTokens)
          + [fmt.assistant.endToken]
  {
    var u, a := Message("user", user), Message("assistant", answer);
    assert [u, a] == [u] + [a];
    DialogTokensSingle(u, fmt, encode, addSpecialTokens);
    DialogTokensSingle(a, fmt, encode, addSpecialTokens);
    DialogTokensConcat([u], [a], fmt, encode, addSpecialTokens);
  }

  /** Sum of a list of numbers. */
  function Sum(xs: seq<int>): int {
    if xs == [] then 0 else xs[0] + Sum(xs[1..])
  }

  /** The length of each message's block: its encoded wrapped text plus the two framing tokens. */
  function BlockLengths(messages: seq<Message>, fmt: ChatFormat, encode: Encoder, addSpecialTokens: bool): (r: seq<int>)
    requires AllKnown(messages)
    ensures |r| == |messages|
  {
    seq(|messages|, i requires 0 <= i < |messages| => |encode(Wrap(messages[i], fmt), addSpecialTokens)| + 2)
  }

  /** The dialog is as long as the sum, over messages, of the encoded length plus two. */
  lemma {:induction false} DialogTokensLength(messages: seq<Message>, fmt: ChatFormat, encode: Encoder, addSpecialTokens: bool)
    requires AllKnown(messages)
    ensures |DialogTokens(messages, fmt, encode, addSpecialTokens)| == Sum(BlockLengths(messages, fmt, encode, addSpecialTokens))
  {
    if messages != [] {
      var rest := messages[1..];
      assert AllKnown(rest);
      DialogTokensLength(rest, fmt, encode, addSpecialTokens);
      assert BlockLengths(messages, fmt, encode, addSpecialTokens)[1..] == BlockLengths(rest, fmt, encode, addSpecialTokens);
    }
  }

  /**
   * Message `k`'s block sits in the dialog right after the blocks of the messages before it:
   * it starts with its role's start token and ends with its role's end token.
   */
  lemma BlockAt(messages: seq<Message>, k: nat, fmt: ChatFormat, encode: Encoder, addSpecialTokens: bool)
    requires AllKnown(messages) && k < |messages|
    ensures AllKnown(messages[..k])
    ensures var ids := DialogTokens(messages, fmt, encode, addSpecialTokens);
            var offset := |DialogTokens(messages[..k], fmt, encode, addSpecialTokens)|;
            var block := Block(messages[k], fmt, encode, addSpecialTokens);
            && offset + |block| <= |ids|
            && ids[offset..offset + |block|] == block
            && ids[offset] == fmt.For(messages[k].role).startToken
            && ids[offset + |block| - 1] == fmt.For(messages[k].role).endToken
  {
    var before, after := messages[..k], messages[k + 1..];
    assert messages == before + ([messages[k]] + after);
    assert AllKnown(before) && AllKnown(after);
    DialogTokensSingle(messages[k], fmt, encode, addSpecialTokens);
    DialogTokensConcat([messages[k]], after, fmt, encode, addSpecialTokens);
    DialogTokensConcat(before, [messages[k]] + after, fmt, encode, addSpecialTokens);
    var x, b, y := DialogTokens(before, fmt, encode, addSpecialTokens), Block(messages[k], fmt, encode, addSpecialTokens),
                   DialogTokens(after, fmt, encode, addSpecialTokens);
    assert DialogTokens(messages, fmt, encode, addSpecialTokens) == x + b + y;
    MiddleSlice(x, b, y);
  }

  /** The middle part of `x + b + y` sits at offset `|x|`. */
  lemma MiddleSlice(x: seq<int>, b: seq<int>, y: seq<int>)
    requires |b| > 0
    ensures |x| + |b| <= |x + b + y|
    ensures (x + b + y)[|x|..|x| + |b|] == b
    ensures (x + b + y)[|x|] == b[0] && (x + b + y)[|x| + |b| - 1] == b[|b| - 1]
  {
  }

  /** A conversation is rejected exactly when, after preprocessing, its roles do not alternate. */
  lemma ConversationRejectedIff(messages: seq<Message>, fmt: ChatFormat, encode: Encoder, addSpecialTokens: bool)
    ensures ConversationInputIds(messages, fmt, encode, addSpecialTokens).Err?
        <==> exists i :: 1 <= i < |WithSystemPrompt(messages)| && WithSystemPrompt(messages)[i].role != ExpectedRole(i - 1)
    ensures ConversationInputIds(messages, fmt, encode, addSpecialTokens).Err? ==>
              ConversationInputIds(messages, fmt, encode, addSpecialTokens).error == RoleOrder
  {
    RoleOrderAcceptedIff(WithSystemPrompt(messages));
  }

  /**
   * An accepted conversation's ids begin with the system block, which carries the default
   * system prompt when the conversation did not start with a system message.
   */
  lemma ConversationStartsWithSystemBlock(messages: seq<Message>, fmt: ChatFormat, encode: Encoder, addSpecialTokens: bool)
    requires ConversationInputIds(messages, fmt, encode, addSpecialTokens).Ok?
    ensures var ids := ConversationInputIds(messages, fmt, encode, addSpecialTokens).value;
            var system := WithSystemPrompt(messages)[0];
            && system.role == "system"
            && Block(system, fmt, encode, addSpecialTokens) <= ids
            && ids[0] == fmt.system.startToken
            && (!StartsWithSystem(messages) ==> system.text == DEFAULT_SYSTEM_PROMPT)
  {
    var ms := WithSystemPrompt(messages);
    AcceptedRolesAreKnown(ms);
    BlockAt(ms, 0, fmt, encode, addSpecialTokens);
    assert ms[..0] == [];
  }

  /** An accepted conversation's ids are as long as the sum of its encoded lengths plus two per message. */
  lemma ConversationLength(messages: seq<Message>, fmt: ChatFormat, encode: Encoder, addSpecialTokens: bool)
    requires ConversationInputIds(messages, fmt, encode, addSpecialTokens).Ok?
    ensures var ms := WithSystemPrompt(messages);
            && AllKnown(ms)
            && |ConversationInputIds(messages, fmt, encode, addSpecialTokens).value| == Sum(BlockLengths(ms, fmt, encode, addSpecialTokens))
  {
    var ms := WithSystemPrompt(messages);
    AcceptedRolesAreKnown(ms);
    DialogTokensLength(ms, fmt, encode, addSpecialTokens);
  }

  /** A message that is empty or only whitespace is encoded as its role's delimiters alone. */
  lemma BlankMessageWrap(m: Message, fmt: ChatFormat)
    requires KnownRole(m.role) && AllSpace(m.text)
    ensures Wrap(m, fmt) == fmt.For(m.role).start + fmt.For(m.role).end
  {
    StripAllSpace(m.text);
  }

  /** System, user, assistant, user is accepted as it is. */
  lemma AcceptsAlternatingConversation(fmt: ChatFormat, encode: Encoder, addSpecialTokens: bool)
    ensures var ms := [Message("system", "S"), Message("user", "U1"), Message("assistant", "A1"), Message("user", "U2")];
            && WithSystemPrompt(ms) == ms
            && ConversationInputIds(ms, fmt, encode, addSpecialTokens).Ok?
  {
    var ms := [Message("system", "S"), Message("user", "U1"), Message("assistant", "A1"), Message("user", "U2")];
    RoleOrderAcceptedIff(ms);
  }

  /** User, assistant gets the default system message in front and is accepted. */
  lemma PrependsDefaultSystemMessage(fmt: ChatFormat, encode: Encoder, addSpecialTokens: bool)
    ensures var ms := [Message("user", "U1"), Message("assistant", "A1")];
            && WithSystemPrompt(ms) == [Message("system", DEFAULT_SYSTEM_PROMPT)] + ms
            && ConversationInputIds(ms, fmt, encode, addSpecialTokens).Ok?
  {
    var ms := [Message("user", "U1"), Message("assistant", "A1")];
    RoleOrderAcceptedIff(WithSystemPrompt(ms));
  }

  /** System followed directly by assistant is rejected. */
  lemma RejectsAssistantFirst(fmt: ChatFormat, encode: Encoder, addSpecialTokens: bool)
    ensures ConversationInputIds([Message("system", "S"), Message("assistant", "A1")], fmt, encode, addSpecialTokens) == Err(RoleOrder)
  {
    var ms := [Message("system", "S"), Message("assistant", "A1")];
    RoleOrderAcceptedIff(ms);
    assert ms[1].role != ExpectedRole(0);
  }
}
