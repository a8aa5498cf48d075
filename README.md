# Llama fast tokenizer: post-processor template and chat-prompt assembly

This project models the logic of `LlamaTokenizerFast`
(`src/transformers/models/llama/tokenization_llama_fast.py`). The class runs on top of an
external tokenization engine and does two things itself:

* **Post-processor template.** `update_post_processor` builds three things from the BOS and
  EOS tokens, their ids and the flags `add_bos_token` / `add_eos_token`: a single-sequence
  pattern (`"<s>:0 $A:0"`), a pair-sequence pattern, and an ordered list of special tokens. It
  installs them in the engine as one value. Each flag setter stores the new flag and installs
  the template again.
* **Chat-prompt assembly.** `_build_conversation_input_ids` does four things:
  * it puts the default system message in front of a conversation that does not start with
    one;
  * it checks that the roles after it alternate user/assistant, starting with user;
  * it wraps each message's stripped text in its role's delimiter strings and encodes it;
  * it frames each message's ids with the role's start and end token ids and concatenates the
    results.

Files:

* `results.dfy`, module `Results`: `Option`, `Result`, and the two `ValueError`s the class
  raises (`RoleOrder`, `CannotSaveSlowTokenizer`).
* `py_text.dfy`, module `PyText`: Python text operations. The class calls `str.strip()`,
  which uses Python's whitespace set, and `os.path.join`. The class never calls
  `str.split(" ")` or `" ".join`. They describe how the installed patterns are read: as
  pieces separated by single spaces. `SinglePieces`, `PairPieces` and
  `PatternsUseDeclaredTokens` are statements about that input to the template processor.
* `post_processor.dfy`, module `PostProcessor`: the template derivation as pure functions
  (`SinglePattern`, `PairPattern`, `SpecialTokens`, `Derive`) and lemmas about them. Python's
  `string * bool` is `Times`.
* `chat_prompt.dfy`, module `ChatPrompt`: the conversation as pure functions and lemmas.
  * `WithSystemPrompt` prepends the default system message.
  * `RoleOrderAccepted` is the slice-based role check. `Alternates` is an independent
    definition of the same rule.
  * `Block` and `DialogTokens` give the framed encoding.
  * `ConversationInputIds` is the whole result or the error.
  * The `Conversation` class holds the message list that the tokenizer reassigns.
* `llama_tokenizer.dfy`, module `LlamaTokenizer`: the `LlamaTokenizerFast` class.
  * Its fields: the two flags, the installed `postProcessor`, the six delimiter strings, the
    vocabulary file and `canSaveSlowTokenizer`.
  * Its methods: the constructor, `UpdatePostProcessor`, the two setters, `SaveVocabulary`,
    and `BuildConversationInputIds` with its message loop `EncodeDialog`.
  * Each method is proved against the pure functions above.
  * The getters of the two flags are the functions `AddBosToken` and `AddEosToken`.

The engine is represented by two values given to the constructor. `tokenToId` is the
vocabulary lookup behind `bos_token_id` and `eos_token_id`. `engine` is
`encode(text, add_special_tokens)` as run with a given post-processor template.
`self.encode` (`Encode`) is the engine with the template currently installed, so a flag
setter changes what later encodings see. Neither value is interpreted, so every property
holds for every vocabulary and every engine.

## Model

| member | source | states |
|---|---|---|
| `PostProcessor.SinglePattern` | src/transformers/models/llama/tokenization_llama_fast.py:148 | Defines the single-sequence pattern. `SinglePieces`, `FlagsRoundTrip` and `PatternsUseDeclaredTokens` state its meaning. |
| `PostProcessor.PairPattern` | src/transformers/models/llama/tokenization_llama_fast.py:149 | Defines the pair-sequence pattern. `PairExtendsSingle`, `PairIsJoin`, `PairPieces` and `DeclaredTokensAreUsed` state its meaning. |
| `PostProcessor.Derive` | src/transformers/models/llama/tokenization_llama_fast.py:148-155 | Defines the installed template: both patterns and the special-token list, as a function of the tokens, ids and flags alone. `NoFlagsTemplate`, `BothFlagsTemplate`, `PatternsUseDeclaredTokens` and `DeclaredTokensAreUsed` describe it. |
| `PostProcessor.SpecialTokens` | src/transformers/models/llama/tokenization_llama_fast.py:151-155 | The special-token list has one entry per set flag. The BOS entry is first when add_bos is set and the EOS entry is last when add_eos is set. Every entry is the BOS or EOS pair of a set flag. |
| `PostProcessor.NoFlagsTemplate` | src/transformers/models/llama/tokenization_llama_fast.py:148-155 | With both flags off, the template is `"$A:0"`, `"$A:0 $B:1"` and an empty special-token list. |
| `PostProcessor.BothFlagsTemplate` | src/transformers/models/llama/tokenization_llama_fast.py:148-155 | With both flags on and `<s>`/`</s>`, single is `"<s>:0 $A:0 </s>:0"` and pair is `"<s>:0 $A:0 </s>:0 <s>:1 $B:1 </s>:1"`. The list is BOS then EOS. |
| `PostProcessor.PairExtendsSingle` | src/transformers/models/llama/tokenization_llama_fast.py:149 | The pair pattern starts with the single pattern. It continues with the optional ` bos:1`, then ` $B:1`, then the optional ` eos:1`. |
| `PostProcessor.SinglePieces` | src/transformers/models/llama/tokenization_llama_fast.py:148 | The single pattern is the pieces `bos:0`? `$A:0` `eos:0`? joined by spaces. When the tokens hold no space, splitting the pattern on spaces gives exactly these pieces. |
| `PostProcessor.PairIsJoin` | src/transformers/models/llama/tokenization_llama_fast.py:149 | The pair pattern is the single pattern's pieces followed by `bos:1`? `$B:1` `eos:1`?, joined by spaces. |
| `PostProcessor.PairPieces` | src/transformers/models/llama/tokenization_llama_fast.py:149 | When the tokens hold no space, splitting the pair pattern on spaces gives exactly those pieces. |
| `PostProcessor.PatternsUseDeclaredTokens` | src/transformers/models/llama/tokenization_llama_fast.py:148-157 | Every piece of both patterns is `$A:0`, `$B:1` or a token of the installed special-token list with its segment tag. |
| `PostProcessor.DeclaredTokensAreUsed` | src/transformers/models/llama/tokenization_llama_fast.py:148-157 | Every token of the special-token list is used in the single pattern (`:0`) and in the pair pattern (`:0` and `:1`). |
| `PostProcessor.FlagsRoundTrip` | src/transformers/models/llama/tokenization_llama_fast.py:148 | The single pattern records both flags: `FlagsOf` reads back `(add_bos, add_eos)` from it. This holds for tokens without spaces other than `$A`. |
| `PyText.Strip` | src/transformers/models/llama/tokenization_llama_fast.py:255 | Defines `str.strip()` over Python's whitespace set. `StripIsTrimmedSlice`, `StripIdempotent` and `StripAllSpace` state its meaning. |
| `PyText.TrimStartSpec` | src/transformers/models/llama/tokenization_llama_fast.py:255 | Leading-whitespace removal keeps a suffix, drops only whitespace and leaves no whitespace in front. |
| `PyText.TrimEndSpec` | src/transformers/models/llama/tokenization_llama_fast.py:255 | Trailing-whitespace removal keeps a prefix, drops only whitespace and leaves no whitespace at the end. |
| `PyText.StripIsTrimmedSlice` | src/transformers/models/llama/tokenization_llama_fast.py:255 | `strip()` returns one contiguous slice of the text that neither starts nor ends with whitespace. Only whitespace lies outside it. |
| `PyText.StripIdempotent` | src/transformers/models/llama/tokenization_llama_fast.py:255 | Stripping a message text twice gives the same as stripping it once. |
| `PyText.StripAllSpace` | src/transformers/models/llama/tokenization_llama_fast.py:255 | A text made only of whitespace strips to the empty string. |
| `PyText.PathJoin` | src/transformers/models/llama/tokenization_llama_fast.py:188-190 | `os.path.join` of two components. An absolute second component replaces the first. The result always ends with the second component. Otherwise the two are joined with a `/` unless the first is empty or already ends with one. |
| `ChatPrompt.Conversation.constructor` | src/transformers/models/llama/tokenization_llama_fast.py:224 | A conversation holds its message list in a field, which `_build_conversation_input_ids` reassigns. The constructor stores the given list. |
| `ChatPrompt.WithSystemPrompt` | src/transformers/models/llama/tokenization_llama_fast.py:222-224 | After preprocessing, the first message has role `system`. The original messages are the suffix, and at most one message is added. |
| `ChatPrompt.WithSystemPromptUnchangedIff` | src/transformers/models/llama/tokenization_llama_fast.py:222-224 | The message list is unchanged exactly when it already starts with a system message. Otherwise the default system prompt is put in front and the length grows by one. |
| `ChatPrompt.WithSystemPromptIdempotent` | src/transformers/models/llama/tokenization_llama_fast.py:222-224 | Preprocessing an already preprocessed list adds no second system message. |
| `ChatPrompt.EveryOther` | src/transformers/models/llama/tokenization_llama_fast.py:228-229 | The slice `s[start::2]` has `(|s| - start + 1) / 2` elements, and its `k`-th element is `s[start + 2k]`. |
| `ChatPrompt.RoleOrderAccepted` | src/transformers/models/llama/tokenization_llama_fast.py:226-230 | Defines the role check as written: every entry of `roles[::2]` is user and every entry of `roles[1::2]` is assistant. `RoleOrderAcceptedIff` states its meaning. |
| `ChatPrompt.AcceptedAlternates` | src/transformers/models/llama/tokenization_llama_fast.py:226-234 | If the slice-based check passes, the `j`-th message after the first is user for even `j` and assistant for odd `j`. |
| `ChatPrompt.AlternatingAccepted` | src/transformers/models/llama/tokenization_llama_fast.py:226-234 | If the roles alternate user/assistant after the first message, the slice-based check passes. |
| `ChatPrompt.RoleOrderAcceptedIff` | src/transformers/models/llama/tokenization_llama_fast.py:226-234 | The role check passes if and only if the roles after the first message alternate user, assistant, user, and so on. |
| `ChatPrompt.AcceptedRolesAreKnown` | src/transformers/models/llama/tokenization_llama_fast.py:226-254 | A preprocessed conversation that passes the check has only the roles system, user and assistant. So one of the loop's three branches always applies. |
| `ChatPrompt.Wrap` | src/transformers/models/llama/tokenization_llama_fast.py:255 | Defines the text handed to the encoder: the role's start string, the stripped message and the role's end string. `BlankMessageWrap` and `DefaultPromptFraming` describe it. |
| `ChatPrompt.Block` | src/transformers/models/llama/tokenization_llama_fast.py:256-257 | Defines one message's ids: `[start_token] + encode(wrapped) + [end_token]`. `BlockAt` places each block in the result. |
| `ChatPrompt.DialogTokens` | src/transformers/models/llama/tokenization_llama_fast.py:236-259 | Defines the loop's result: the blocks of all messages in order. `DialogTokensConcat`, `DialogTokensExtend`, `DialogTokensLength` and `BlockAt` state its meaning, and `EncodeDialog` is proved equal to it. |
| `ChatPrompt.ConversationInputIds` | src/transformers/models/llama/tokenization_llama_fast.py:222-259 | Defines the whole outcome: the role-order error, or the blocks of the preprocessed list. `ConversationRejectedIff`, `ConversationStartsWithSystemBlock` and `ConversationLength` state its meaning. |
| `ChatPrompt.DialogTokensConcat` | src/transformers/models/llama/tokenization_llama_fast.py:236-259 | The ids of two message lists in a row are the ids of the first list followed by those of the second. |
| `ChatPrompt.DialogTokensExtend` | src/transformers/models/llama/tokenization_llama_fast.py:236-258 | Handling one more message appends exactly that message's framed block. |
| `ChatPrompt.DialogTokensLength` | src/transformers/models/llama/tokenization_llama_fast.py:236-259 | The result's length is the sum, over messages, of the encoded wrapped text's length plus 2. |
| `ChatPrompt.BlockAt` | src/transformers/models/llama/tokenization_llama_fast.py:255-258 | Message `k`'s block sits right after the blocks of the earlier messages. It starts with its role's start token and ends with its role's end token. |
| `ChatPrompt.TurnLayout` | src/transformers/models/llama/tokenization_llama_fast.py:236-258 | A user message followed by an assistant message encodes to: the user start token, the encoded user text, the user end token, the assistant start token, the encoded answer, and the assistant end token. Both end tokens stay in place between turns. |
| `ChatPrompt.ConversationRejectedIff` | src/transformers/models/llama/tokenization_llama_fast.py:222-234 | A conversation is rejected with the role-order error exactly when some message after the system message has the wrong role. This is checked after preprocessing. |
| `ChatPrompt.ConversationStartsWithSystemBlock` | src/transformers/models/llama/tokenization_llama_fast.py:222-259 | An accepted result starts with the system message's block, so its first id is the system start token. Without a leading system message, that block carries the default system prompt. |
| `ChatPrompt.ConversationLength` | src/transformers/models/llama/tokenization_llama_fast.py:236-259 | An accepted result's length is the sum of the encoded lengths plus 2 per message. |
| `ChatPrompt.BlankMessageWrap` | src/transformers/models/llama/tokenization_llama_fast.py:255 | An empty or whitespace-only message is encoded as its role's start and end strings alone. |
| `ChatPrompt.AcceptsAlternatingConversation` | src/transformers/models/llama/tokenization_llama_fast.py:222-234 | System, user, assistant, user is kept as it is and accepted. |
| `ChatPrompt.PrependsDefaultSystemMessage` | src/transformers/models/llama/tokenization_llama_fast.py:222-224 | User, assistant gets the default system message in front and is then accepted. |
| `ChatPrompt.RejectsAssistantFirst` | src/transformers/models/llama/tokenization_llama_fast.py:226-234 | System followed directly by assistant fails with the role-order error. |
| `LlamaTokenizer.VocabFileName` | src/transformers/models/llama/tokenization_llama_fast.py:188-190 | The saved file name always ends with `tokenizer.model`. It is `<prefix>-tokenizer.model` for a non-empty prefix, and `tokenizer.model` for none or an empty one. |
| `LlamaTokenizer.LlamaTokenizerFast.AddBosToken` | src/transformers/models/llama/tokenization_llama_fast.py:164-166 | The `add_bos_token` getter. `SetAddBosToken` proves that it reads back the value just set. |
| `LlamaTokenizer.LlamaTokenizerFast.AddEosToken` | src/transformers/models/llama/tokenization_llama_fast.py:160-162 | The `add_eos_token` getter. `SetAddEosToken` proves that it reads back the value just set. |
| `LlamaTokenizer.LlamaTokenizerFast.Encode` | src/transformers/models/llama/tokenization_llama_fast.py:256 | Defines `self.encode`: the engine running with the post-processor installed at that moment. The setters and `BuildConversationInputIds` state which template that is. |
| `LlamaTokenizer.LlamaTokenizerFast.constructor` | src/transformers/models/llama/tokenization_llama_fast.py:100-136 | Stores the tokens and flags (defaults `<s>`, `</s>`, true, false) and installs the current template. Each of the six delimiters is `prompt.get(key, default)`: the configured value when the key is present, else its default. With no configuration, the six delimiters equal those of `default_prompt_config`. `canSaveSlowTokenizer` holds exactly when a non-empty vocabulary path was given. |
| `LlamaTokenizer.LlamaTokenizerFast.UpdatePostProcessor` | src/transformers/models/llama/tokenization_llama_fast.py:138-158 | Changes only the installed template, which becomes the template derived from the current tokens, ids and flags. Calling it again on unchanged state installs an identical template. |
| `LlamaTokenizer.LlamaTokenizerFast.SetAddBosToken` | src/transformers/models/llama/tokenization_llama_fast.py:173-176 | The getter reads back the new add_bos flag and add_eos is unchanged. The installed template is the one derived with the new flag, so later encodings use it. |
| `LlamaTokenizer.LlamaTokenizerFast.SetAddEosToken` | src/transformers/models/llama/tokenization_llama_fast.py:168-171 | The getter reads back the new add_eos flag and add_bos is unchanged. The installed template is the one derived with the new flag, so later encodings use it. |
| `LlamaTokenizer.LlamaTokenizerFast.SaveVocabulary` | src/transformers/models/llama/tokenization_llama_fast.py:178-195 | Fails with `CannotSaveSlowTokenizer` exactly when no vocabulary file was given. It returns nothing exactly when the target is not a directory. Otherwise it returns the joined output path. |
| `LlamaTokenizer.LlamaTokenizerFast.RoleDelimiters` | src/transformers/models/llama/tokenization_llama_fast.py:240-254 | The loop's if/elif chain picks exactly the role's start and end strings and start and end token ids. |
| `LlamaTokenizer.LlamaTokenizerFast.EncodeDialog` | src/transformers/models/llama/tokenization_llama_fast.py:236-259 | The loop's accumulated ids equal `DialogTokens`. That is the in-order concatenation over messages of `[start_token] + encode(start + strip(text) + end) + [end_token]`. |
| `LlamaTokenizer.LlamaTokenizerFast.BuildConversationInputIds` | src/transformers/models/llama/tokenization_llama_fast.py:197-259 | Reassigns the conversation's messages to the preprocessed list. This stays even when the role check then fails. The result is `ConversationInputIds` of the original messages: the role-order error, or the framed encoding of every message. The encoding uses the engine with the currently installed template. |
| `LlamaTokenizer.LlamaTokenizerFast.DefaultPromptFraming` | src/transformers/models/llama/tokenization_llama_fast.py:261-275 | Uses the default delimiters and `default_prompt_config`'s token ids, where the user start token is the BOS id and the assistant end token is the EOS id. Under these, a user message's block starts with the BOS id around `[INST] text [/INST]`, and an assistant message's block ends with the EOS id after ` answer `. |
| `LlamaTokenizer.LlamaTokenizerFast.DefaultTurnLayout` | src/transformers/models/llama/tokenization_llama_fast.py:236-275 | With the default delimiters and token ids, one exchange is `[bos] + encode("[INST] " + strip(u) + " [/INST]") + [user_end, assistant_start] + encode(" " + strip(a) + " ") + [eos]`. |

## Left out

- `update_post_processor` does not check that the BOS and EOS ids resolve, and neither does
  the model: the ids come from the total lookup `tokenToId`. An unknown token's id, a `None`
  token and what the engine does with either are not part of this model.
- The byte-pair-encoding engine is not part of this model. It is the uninterpreted `engine`,
  which receives the installed template with every call. `bos_token_id` / `eos_token_id`
  come from the uninterpreted `tokenToId`.
- `processors.TemplateProcessing` is not part of this model. Installing a template is an
  assignment to the `postProcessor` field, and the engine receives that template. How the
  engine applies the patterns is left out. So the model does not say, for example, which ids
  the BOS token adds to an encoding.
- The per-role `*_message_start_token` / `*_message_end_token` attributes and
  `add_special_tokens` are set outside this class. They are inputs (`MessageTokens` and a
  flag).
- The docstring at lines 202-204 shows `<bos>[INST] B_SYS SytemPrompt E_SYS Prompt [/INST] Answer <eos>`. The model
  follows the code at lines 239-258 instead. The system message is a block of its own, with
  its own start and end ids, in front of the first `[INST]`. The user's end id and the
  assistant's start id stay between `[/INST]` and the answer (`DefaultTurnLayout`).
- The message loop at line 239 iterates `conversation` itself. The model takes this to
  yield the conversation's (possibly prepended) messages.
- `LlamaTokenizer.LlamaTokenizerFast.SaveVocabulary`: the file system is left out.
  `os.path.isdir` is the parameter `isDirectory`, the "should be a directory" log line is
  not modelled, and the copy (with its `abspath` comparison) is not performed.
- The flags are modelled as booleans. A non-boolean truthy value multiplied into the f-string
  (for example `2`) would repeat a segment, which is not modelled.
- Keyword arguments passed through to the base class (`vocab_file`, `tokenizer_file`,
  `unk_token`, `clean_up_tokenization_spaces` and the rest) are not modelled. The
  `require_version` and sentencepiece import switches, `slow_tokenizer_class`, `padding_side`
  and `model_input_names` are not modelled either.
- The base class can reassign `bos_token` / `eos_token`. This model has no setter for them,
  but `UpdatePostProcessor` is specified for any current value of both fields.
- Thread safety is not modelled. The source is not synchronised, and the model is sequential.
