/**
 * `LlamaTokenizerFast`: the state the tokenizer keeps on top of its external
 * engine (the two flags, the installed post-processor template, the chat
 * delimiters, the vocabulary file) and the operations that change or use it.
 */
module LlamaTokenizer {
  import opened Results
  import opened PyText
  import opened PostProcessor
  import opened ChatPrompt

  const VOCAB_FILE_NAME: string := "tokenizer.model"

  /**
   * The start and end token ids of each role. The tokenizer reads them from
   * attributes that are set outside this class, so here they are an input.
   */
  datatype MessageTokens = MessageTokens(
    systemStart: int, systemEnd: int,
    userStart: int, userEnd: int,
    assistantStart: int, assistantEnd: int)

  /** The value of the `default_prompt_config` property. */
  datatype PromptConfig = PromptConfig(
    defaultSystemMessage: string,
    systemMessageStart: string, systemMessageEnd: string,
    userMessageStart: string, userMessageEnd: string,
    assistantMessageStart: string, assistantMessageEnd: string,
    userMessageStartToken: int, assistantMessageEndToken: int,
    tokenizeMessagesSeparately: bool, addSpecialTokens: bool)

  /** `prompt.get(key, default)`, where a missing `prompt` (None) behaves as an empty dictionary. */
  function PromptGet(prompt: Option<map<string, string>>, key: string, default: string): string {
    if prompt.Some? && key in prompt.value then prompt.value[key] else default
  }

  /** The name of the saved vocabulary file: `tokenizer.model`, behind `<prefix>-` when a non-empty prefix is given. */
  function VocabFileName(filenamePrefix: Option<string>): (r: string)
    ensures |r| >= |VOCAB_FILE_NAME| && r[|r| - |VOCAB_FILE_NAME|..] == VOCAB_FILE_NAME
    ensures filenamePrefix.Some? && filenamePrefix.value != "" ==> r == filenamePrefix.value + "-" + VOCAB_FILE_NAME
    ensures filenamePrefix.None? || filenamePrefix.value == "" ==> r == VOCAB_FILE_NAME
  {
    (if filenamePrefix.Some? && filenamePrefix.value != "" then filenamePrefix.value + "-" else "") + VOCAB_FILE_NAME
  }

  /**
   * The external engine's `encode(text, add_special_tokens)`. It runs the text through
   * the post-processor installed at the time of the call, so the template is an argument.
   */
  type Engine = (Template, string, bool) -> seq<int>

  /** The encoder the engine offers while `template` is installed. */
  function EncoderFor(engine: Engine, template: Template): Encoder {
    (text: string, addSpecialTokens: bool) => engine(template, text, addSpecialTokens)
  }

  class LlamaTokenizerFast {
    /** The external engine: token-to-id lookup of the vocabulary, and encoding of a text. */
    const tokenToId: string -> int
    const engine: Engine

    /** The special tokens, which the base class may reassign; `update_post_processor` reads them afresh. */
    var bosToken: string
    var eosToken: string

    /** `_add_bos_token` and `_add_eos_token`. */
    var addBos: bool
    var addEos: bool

    /** The post-processor installed in the engine. */
    var postProcessor: Template

    /** The chat delimiters. */
    var systemMessageStart: string
    var systemMessageEnd: string
    var userMessageStart: string
    var userMessageEnd: string
    var assistantMessageStart: string
    var assistantMessageEnd: string

    var vocabFile: Option<string>
    var canSaveSlowTokenizer: bool

    function BosTokenId(): int
      reads this
    {
      tokenToId(bosToken)
    }

    function EosTokenId(): int
      reads this
    {
      tokenToId(eosToken)
    }

    /** The `add_bos_token` property. */
    function AddBosToken(): bool
      reads this
    {
      addBos
    }

    /** The `add_eos_token` property. */
    function AddEosToken(): bool
      reads this
    {
      addEos
    }

    /** `self.encode`: the engine with the currently installed post-processor. */
    function Encode(): Encoder
      reads this
    {
      EncoderFor(engine, postProcessor)
    }

    /** The installed template is the one derived from the current tokens, ids and flags. */
    ghost predicate TemplateCurrent()
      reads this
    {
      postProcessor == Derive(bosToken, BosTokenId(), eosToken, EosTokenId(), addBos, addEos)
    }

    /** The formats the chat assembly uses: this tokenizer's delimiter texts with the given token ids. */
    function Format(tokens: MessageTokens): ChatFormat
      reads this
    {
      ChatFormat(
        RoleFormat(systemMessageStart, systemMessageEnd, tokens.systemStart, tokens.systemEnd),
        RoleFormat(userMessageStart, userMessageEnd, tokens.userStart, tokens.userEnd),
        RoleFormat(assistantMessageStart, assistantMessageEnd, tokens.assistantStart, tokens.assistantEnd))
    }

    /**
     * `__init__`: stores the tokens and flags, installs the template, takes each
     * delimiter from `prompt` or its default, and notes whether a vocabulary file
     * was given (a missing or empty path counts as none).
     */
    constructor (tokenToId: string -> int, engine: Engine,
                 vocabFile: Option<string> := None, bosToken: string := "<s>", eosToken: string := "</s>",
                 addBosToken: bool := true, addEosToken: bool := false, prompt: Option<map<string, string>> := None)
      ensures this.bosToken == bosToken && this.eosToken == eosToken
      ensures this.tokenToId == tokenToId && this.engine == engine
      ensures addBos == addBosToken && addEos == addEosToken
      ensures TemplateCurrent()
      ensures systemMessageStart == PromptGet(prompt, "system_message_start", "<<SYS>>\n")
      ensures systemMessageEnd == PromptGet(prompt, "system_message_end", "\n<</SYS>>\n\n")
      ensures userMessageStart == PromptGet(prompt, "user_message_start", "[INST] ")
      ensures userMessageEnd == PromptGet(prompt, "user_message_end", " [/INST]")
      ensures assistantMessageStart == PromptGet(prompt, "assistant_message_start", " ")
      ensures assistantMessageEnd == PromptGet(prompt, "assistant_message_end", " ")
      ensures prompt.None? ==> UsesDefaultDelimiters()
      ensures this.vocabFile == vocabFile
      ensures canSaveSlowTokenizer <==> vocabFile.Some? && vocabFile.value != ""
    {
      this.tokenToId := tokenToId;
      this.engine := engine;
      this.bosToken := bosToken;
      this.eosToken := eosToken;
      addBos := addBosToken;
      addEos := addEosToken;
      postProcessor := Template("", "", []);
      systemMessageStart := PromptGet(prompt, "system_message_start", "<<SYS>>\n");
      systemMessageEnd := PromptGet(prompt, "system_message_end", "\n<</SYS>>\n\n");
      userMessageStart := PromptGet(prompt, "user_message_start", "[INST] ");
      userMessageEnd := PromptGet(prompt, "user_message_end", " [/INST]");
      assistantMessageStart := PromptGet(prompt, "assistant_message_start", " ");
      assistantMessageEnd := PromptGet(prompt, "assistant_message_end", " ");
      this.vocabFile := vocabFile;
      canSaveSlowTokenizer := vocabFile.Some? && vocabFile.value != "";
      new;
      UpdatePostProcessor();
    }

    /**
     * `update_post_processor`: rebuilds the template from the current tokens, ids
     * and flags and installs it, changing nothing else. Running it again on
     * unchanged state installs the same template.
     */
    method UpdatePostProcessor()
      modifies this`postProcessor
      ensures TemplateCurrent()
      ensures old(TemplateCurrent()) ==> postProcessor == old(postProcessor)
    {
      var bos, bosTokenId := bosToken, BosTokenId();
      var eos, eosTokenId := eosToken, EosTokenId();
      var single := Times(bos + ":0 ", addBos) + "$A:0" + Times(" " + eos + ":0", addEos);
      var pair := single + Times(" " + bos + ":1", addBos) + " $B:1" + Times(" " + eos + ":1", addEos);
      var specialTokens: seq<SpecialToken> := [];
      if addBos {
        specialTokens := specialTokens + [SpecialToken(bos, bosTokenId)];
      }
      if addEos {
        specialTokens := specialTokens + [SpecialToken(eos, eosTokenId)];
      }
      postProcessor := Template(single, pair, specialTokens);
    }

    /** The `add_bos_token` setter: stores the flag and re-installs the template. */
    method SetAddBosToken(value: bool)
      modifies this`addBos, this`postProcessor
      ensures AddBosToken() == value && AddEosToken() == old(AddEosToken())
      ensures TemplateCurrent()
      ensures Encode() == EncoderFor(engine, Derive(bosToken, BosTokenId(), eosToken, EosTokenId(), value, AddEosToken()))
    {
      addBos := value;
      UpdatePostProcessor();
    }

    /** The `add_eos_token` setter: stores the flag and re-installs the template. */
    method SetAddEosToken(value: bool)
      modifies this`addEos, this`postProcessor
      ensures AddEosToken() == value && AddBosToken() == old(AddBosToken())
      ensures TemplateCurrent()
      ensures Encode() == EncoderFor(engine, Derive(bosToken, BosTokenId(), eosToken, EosTokenId(), AddBosToken(), value))
    {
      addEos := value;
      UpdatePostProcessor();
    }

    /**
     * `save_vocabulary`, without the file copy: fails when no vocabulary file was
     * given, returns nothing when `saveDirectory` is not a directory, and otherwise
     * names the file it writes.
     */
    method SaveVocabulary(saveDirectory: string, filenamePrefix: Option<string>, isDirectory: bool)
      returns (r: Result<Option<string>>)
      ensures r.Err? <==> !canSaveSlowTokenizer
      ensures r.Err? ==> r.error == CannotSaveSlowTokenizer
      ensures r == Ok(None) <==> canSaveSlowTokenizer && !isDirectory
      ensures r.Ok? && r.value.Some? ==> r.value.value == PathJoin(saveDirectory, VocabFileName(filenamePrefix))
    {
      if !canSaveSlowTokenizer {
        return Err(CannotSaveSlowTokenizer);
      }
      if !isDirectory {
        return Ok(None);
      }
      var outVocabFile := PathJoin(saveDirectory, VocabFileName(filenamePrefix));
      return Ok(Some(outVocabFile));
    }

    /** The delimiter texts and token ids the message loop picks for a role. */
    method RoleDelimiters(role: string, tokens: MessageTokens)
      returns (messageStart: string, messageEnd: string, messageStartToken: int, messageEndToken: int)
      requires KnownRole(role)
      ensures RoleFormat(messageStart, messageEnd, messageStartToken, messageEndToken) == Format(tokens).For(role)
    {
      if role == "user" {
        messageStart, messageEnd := userMessageStart, userMessageEnd;
        messageStartToken, messageEndToken := tokens.userStart, tokens.userEnd;
      } else if role == "system" {
        messageStart, messageEnd := systemMessageStart, systemMessageEnd;
        messageStartToken, messageEndToken := tokens.systemStart, tokens.systemEnd;
      } else {
        // a known role that is neither user nor system is assistant
        messageStart, messageEnd := assistantMessageStart, assistantMessageEnd;
        messageStartToken, messageEndToken := tokens.assistantStart, tokens.assistantEnd;
      }
    }

    /**
     * `_build_conversation_input_ids`: prepends the default system message to the
     * conversation in place when needed (this stays even when the check then fails),
     * checks the role order, and concatenates the framed encoding of every message.
     */
    method BuildConversationInputIds(conversation: Conversation, tokens: MessageTokens, addSpecialTokens: bool)
      returns (r: Result<seq<int>>)
      modifies conversation
      ensures conversation.messages == WithSystemPrompt(old(conversation.messages))
      ensures r == ConversationInputIds(old(conversation.messages), Format(tokens), Encode(), addSpecialTokens)
    {
      if |conversation.messages| == 0 || conversation.messages[0].role != "system" {
        conversation.messages := [Message("system", DEFAULT_SYSTEM_PROMPT)] + conversation.messages;
      }
      var messages := conversation.messages;
      if !RoleOrderAccepted(messages) {
        return Err(RoleOrder);
      }
      AcceptedRolesAreKnown(messages);
      var dialogTokens := EncodeDialog(messages, tokens, addSpecialTokens);
      return Ok(dialogTokens);
    }

    /**
     * The message loop of `_build_conversation_input_ids`: wraps each message's
     * stripped text in its role's delimiters, encodes it, frames the ids with the
     * role's start and end tokens and appends them to the result.
     */
    method EncodeDialog(messages: seq<Message>, tokens: MessageTokens, addSpecialTokens: bool) returns (dialogTokens: seq<int>)
      requires AllKnown(messages)
      ensures dialogTokens == DialogTokens(messages, Format(tokens), Encode(), addSpecialTokens)
    {
      ghost var fmt := Format(tokens);
      var encode := Encode();
      dialogTokens := [];
      var i := 0;
      while i < |messages|
        invariant 0 <= i <= |messages|
        invariant dialogTokens == DialogTokens(messages[..i], fmt, encode, addSpecialTokens)
      {
        var message := messages[i];
        var messageStart, messageEnd, messageStartToken, messageEndToken := RoleDelimiters(message.role, tokens);
        var text := messageStart + Strip(message.text) + messageEnd;
        var tokenized := encode(text, addSpecialTokens);
        tokenized := [messageStartToken] + tokenized + [messageEndToken];
        DialogTokensExtend(messages, i, fmt, encode, addSpecialTokens);
        dialogTokens := dialogTokens + tokenized;
        i := i + 1;
      }
      assert messages[..i] == messages;
    }

    /** The `default_prompt_config` property. */
    function DefaultPromptConfig(): PromptConfig
      reads this
    {
      PromptConfig(
        DEFAULT_SYSTEM_PROMPT,
        "<<SYS>>\n", "\n<</SYS>>\n\n",
        "[INST] ", " [/INST]",
        " ", " ",
        BosTokenId(), EosTokenId(),
        true, false)
    }

    /** Without a prompt configuration, the delimiters are exactly those of `default_prompt_config`. */
    predicate UsesDefaultDelimiters()
      reads this
    {
      var c := DefaultPromptConfig();
      && systemMessageStart == c.systemMessageStart && systemMessageEnd == c.systemMessageEnd
      && userMessageStart == c.userMessageStart && userMessageEnd == c.userMessageEnd
      && assistantMessageStart == c.assistantMessageStart && assistantMessageEnd == c.assistantMessageEnd
    }
  
    /**
     * With the default delimiters and the default configuration's token ids, a user
     * message's block starts with the BOS id and its text is `[INST] text [/INST]`, and an
     * assistant message's block ends with the EOS id and its text is ` answer `.
     */
    lemma DefaultPromptFraming(messages: seq<Message>, k: nat, tokens: MessageTokens, addSpecialTokens: bool)
      requires UsesDefaultDelimiters()
      requires tokens.userStart == DefaultPromptConfig().userMessageStartToken
      requires tokens.assistantEnd == DefaultPromptConfig().assistantMessageEndToken
      requires AllKnown(messages) && k < |messages|
      ensures AllKnown(messages[..k])
      ensures var ids := DialogTokens(messages, Format(tokens), Encode(), addSpecialTokens);
              var offset := |DialogTokens(messages[..k], Format(tokens), Encode(), addSpecialTokens)|;
              var block := Block(messages[k], Format(tokens), Encode(), addSpecialTokens);
              && offset + |block| <= |ids|
              && (messages[k].role == "user" ==>
                    ids[offset] == BosTokenId()
                    && Wrap(messages[k], Format(tokens)) == "[INST] " + Strip(messages[k].text) + " [/INST]")
              && (messages[k].role == "assistant" ==>
                    ids[offset + |block| - 1] == EosTokenId()
                    && Wrap(messages[k], Format(tokens)) == " " + Strip(messages[k].text) + " ")
    {
      BlockAt(messages, k, Format(tokens), Encode(), addSpecialTokens);
    }

    /**
     * One exchange under the default delimiters and token ids. The user's end id and the
     * assistant's start id stay between `[/INST]` and the answer, and the system message,
     * when present, is a block of its own in front rather than part of the first `[INST]`.
     */
    lemma DefaultTurnLayout(user: string, answer: string, tokens: MessageTokens, addSpecialTokens: bool)
      requires UsesDefaultDelimiters()
      requires tokens.userStart == DefaultPromptConfig().userMessageStartToken
      requires tokens.assistantEnd == DefaultPromptConfig().assistantMessageEndToken
      ensures AllKnown([Message("user", user), Message("assistant", answer)])
      ensures DialogTokens([Message("user", user), Message("assistant", answer)], Format(tokens), Encode(), addSpecialTokens)
           == [BosTokenId()] + Encode()("[INST] " + Strip(user) + " [/INST]", addSpecialTokens)
            + [tokens.userEnd, tokens.assistantStart]
            + Encode()(" " + Strip(answer) + " ", addSpecialTokens)
            + [EosTokenId()]
    {
      TurnLayout(user, answer, Format(tokens), Encode(), addSpecialTokens);
    }
  }
}
