# AI Vocal Studio: store and request logic, modelled in Dafny

The server of AI Vocal Studio keeps its records in memory. `MemStorage` holds five maps:

- vocal sessions;
- processing chains;
- effects;
- A/B snapshots;
- chat messages.

Three request handlers read and write that store:

- **`/api/chat`** stores the user's message, builds a prompt and asks a provider. The prompt has a system text, the session's analysis and the last ten messages. The provider is OpenAI or Anthropic, chosen by the model id, with a canned reply as fallback. Then it stores the answer.
- **`/api/chains/generate`** gets a list of effects, either from OpenAI or a fixed default list. It stores them as a new active chain.
- **`/api/export`** renders a chain's effects in one of three ways: as a plain text sheet, as a step-by-step recipe for a DAW, or as the raw effects.

This project models the store as a class over maps, and the three handlers without their HTTP layer.

Modules:

- `Schema` (`schema.dfy`): the record types, `Option` and the JSON values that payloads carry.
- `Ordering` (`ordering.dfy`): how a JavaScript `Map` lists its values and how `filter` and a stable `sort` order them.
  - Ids come from one counter, so a map's insertion order is ascending id order.
  - A stable sort by a key is then the strict sort by the pair (key, id). Every listing is unique (`AscendingUnique`).
- `Storage` (`storage.dfy`): class `MemStorage` with all sixteen storage operations. Also the pure rules behind them: chain activation, effect patches, the active-chain search and what each create does to each listing.
- `Text` (`text.dfy`): `repeat`, `toUpperCase`, the decimal rendering of a number and line counting.
- `Chat` (`chat.dfy`): the system prompt, the ten-message window, the provider choice and the `PostChat` handler.
- `Generate` (`generate.dfy`): the default effect list and the `GenerateChain` handler, with its loop of `createEffect` calls.
- `Export` (`export.dfy`): the text sheet and the recipe, each specified by a function and built by a method with loops, as the handler builds them. Also the `ExportChain` dispatch.

How the environment is modelled:

- **Ids:** `randomUUID` is replaced by the counter `nextId`.
- **Time:** `new Date()` is replaced by the counter `clock`. `Date.now()` in file names is the parameter `now`.
- **AI clients:** each is an `Option` of a function. `None` is a client that is not configured.
- **Serialisation:** `JSON.stringify` and the `${value}` rendering of a parameter value are function parameters.

Three places where the code behaves otherwise than one might expect, modelled as the code does:

- **The user message is stored before the history is read** (`server/routes.ts:187-198`). So the new message is the last entry of the ten-message window and is then appended once more. With fifteen earlier messages, the window holds the nine most recent of them plus the new one, not ten (`Chat.FifteenEarlierMessages`).
- **A provider call that throws gives a 500.** This happens after the user message has already been stored. It does not fall back to the canned reply (`Chat.PostChat`).
- **Generation creates its chain with `isActive: true` without switching the session's other chains off.** A session can then have two active chains (`Generate.GenerateBreaksOneActive`). `getActiveChain` keeps returning the older one (`Generate.NewChainDefers`).

## Model

| member | source | states |
|---|---|---|
| Ordering.Keys | server/storage.ts:70 | the keys below the id bound, each once, in increasing order |
| Ordering.Values | server/storage.ts:70 | (definition) `Array.from(map.values())`: the record under each key below the id bound, in increasing key order; the same form serves every listing at storage.ts:97, 103, 112, 136, 166 and 184 |
| Ordering.ValuesOfKeyed | server/storage.ts:70 | `Array.from(map.values())` holds exactly the stored records, in increasing id (insertion) order |
| Ordering.Filter | server/storage.ts:98 | the filter keeps exactly the records of the given parent and never lengthens the list |
| Ordering.FilterIncreasing | server/storage.ts:97-98 | filtering keeps the records' insertion order |
| Ordering.Insert | server/storage.ts:99 | one insertion step adds the one record and keeps the length plus one |
| Ordering.InsertPermutes | server/storage.ts:99 | insertion adds the record once and keeps every other record with its multiplicity |
| Ordering.InsertAscending | server/storage.ts:99 | inserting into a sorted list keeps it sorted by (key, id) |
| Ordering.SortBy | server/storage.ts:99 | the sort keeps the length and the set of records |
| Ordering.SortByPermutes | server/storage.ts:99 | the sort is a permutation: the same multiset of records |
| Ordering.SortByAscending | server/storage.ts:99 | sorting records in insertion order gives them ascending by (key, id): a stable sort by the key |
| Ordering.Ranked | server/storage.ts:69-73 | `getAllVocalSessions`'s listing holds every record, sorted |
| Ordering.Listing | server/storage.ts:96-100 | a by-parent listing holds exactly the records of that parent, sorted |
| Ordering.AscendingUnique | server/storage.ts:96-100 | two sorted lists with the same records are equal, so each listing is determined by the map |
| Ordering.AddedValues | server/storage.ts:61 | storing under a fresh key adds exactly that record to the values |
| Ordering.ListingAddLast | server/storage.ts:165-187 | a new record stamped later than its siblings is appended to its parent's listing; other listings are unchanged |
| Ordering.ListingAddFirst | server/storage.ts:96-100 | a new record ranked before all others goes to the front of its parent's listing; other listings are unchanged |
| Ordering.RankedAddFirst | server/storage.ts:69-73 | a new newest record goes to the front of the full listing |
| Ordering.Replace | server/storage.ts:145-146 | replacement changes exactly the occurrences of one record |
| Ordering.ListingReplace | server/storage.ts:141-148 | overwriting a record without changing its parent or sort key leaves it in its place in every listing |
| Ordering.Without | server/storage.ts:151 | removal drops exactly one record |
| Ordering.WithoutAscending | server/storage.ts:151 | removal keeps the rest sorted |
| Ordering.ListingRemove | server/storage.ts:150-152 | deleting a record drops exactly it from every listing, with no renumbering of the rest |
| Ordering.StampedAdd | server/storage.ts:59 | a record stamped with the current clock is later than every stored one |
| Storage.SessionMessages | server/storage.ts:183-187 | (definition) the value `getChatMessagesBySession` returns: the session's messages by `createdAt`, ties in insertion order |
| Storage.ChainEffects | server/storage.ts:135-139 | (definition) the value `getEffectsByChain` returns: the chain's effects by `order`, ties in insertion order |
| Storage.Activated | server/storage.ts:111-120 | (definition) the chains after `updateChainActiveStatus`: the target gets the new flag; when it is switched on, every other chain of its session is switched off |
| Storage.ActivateSwitchesSiblingsOff | server/storage.ts:111-120 | activating makes the target active and every other chain of its session inactive. Other sessions' chains and every field but `isActive` are untouched |
| Storage.DeactivateChangesOnlyTarget | server/storage.ts:111-121 | deactivating changes the target chain alone |
| Storage.ActivateIdempotent | server/storage.ts:107-122 | activating the same chain twice equals activating it once |
| Storage.ActivateKeepsOneActive | server/storage.ts:107-122 | after activation the target is its session's only active chain; at most one active chain per session is preserved |
| Storage.DeactivateKeepsOneActive | server/storage.ts:119-121 | deactivation preserves at most one active chain per session |
| Storage.ActivateTwoInTurn | server/storage.ts:107-122 | activating two chains of one session in turn leaves the second active and the first not |
| Storage.Patched | server/storage.ts:145 | `{ ...effect, ...updates }` keeps the id |
| Storage.PatchTouchesOnlySuppliedFields | server/storage.ts:141-148 | a patch supplying only `bypassed` changes only `bypassed`; an empty patch changes nothing |
| Storage.PatchIdempotent | server/storage.ts:145 | applying a patch twice equals applying it once |
| Storage.Siblings | server/storage.ts:112-113 | exactly the other chains of the same session |
| Storage.SiblingsOfKeyed | server/storage.ts:112-116 | the siblings are stored chains, and a stored chain is a sibling exactly when it is another chain of the session |
| Storage.SelectedOffIsActivated | server/storage.ts:111-120 | switching off exactly the session's other chains and then setting the target gives `Activated` |
| Storage.SwitchedOffIsActivated | server/storage.ts:111-120 | switching every sibling off and then setting the target gives `Activated` |
| Storage.ActivatedKeeps | server/storage.ts:107-122 | activation keeps every chain under its own id with its own stamp |
| Storage.FirstActive | server/storage.ts:103-104 | `find` returns an active chain of the session, or none exactly when there is none |
| Storage.FirstActiveLowest | server/storage.ts:102-105 | over chains in insertion order, the found chain is the first inserted active one |
| Storage.ActiveChain | server/storage.ts:102-105 | the session's active chain with the lowest id, or none exactly when the session has no active chain |
| Storage.SessionAdded | server/storage.ts:53-73 | a new session keeps ids and stamps in order and heads the newest-first listing |
| Storage.ChainAdded | server/storage.ts:84-100 | a new chain heads its session's newest-first listing; other sessions' listings are unchanged |
| Storage.SnapshotAdded | server/storage.ts:154-169 | a new snapshot ends its session's oldest-first listing; other listings are unchanged |
| Storage.MessageAdded | server/storage.ts:171-187 | a new chat message ends its session's oldest-first listing; other listings are unchanged |
| Storage.MemStorage.constructor | server/storage.ts:45-51 | five empty maps |
| Storage.MemStorage.CreateVocalSession | server/storage.ts:53-63 | stores and returns the input under a fresh id, with `analysis ?? null` and the current time. Nothing else changes, and the session heads `getAllVocalSessions` |
| Storage.MemStorage.GetVocalSession | server/storage.ts:65-67 | the stored session, or none exactly when the id is unknown |
| Storage.MemStorage.GetAllVocalSessions | server/storage.ts:69-73 | every session exactly once, newest `createdAt` first, ties by insertion order |
| Storage.MemStorage.UpdateVocalSessionAnalysis | server/storage.ts:75-82 | an unknown id returns none and changes nothing; otherwise only that session's `analysis` is replaced |
| Storage.MemStorage.CreateProcessingChain | server/storage.ts:84-94 | a fresh chain with `isActive ?? false` and the current time. No other chain changes, and it heads its session's listing |
| Storage.MemStorage.GetProcessingChainsBySession | server/storage.ts:96-100 | exactly the session's chains, each once, newest first, ties by insertion order |
| Storage.MemStorage.GetActiveChain | server/storage.ts:102-105 | an active chain of the session (the first inserted), or none exactly when it has none |
| Storage.MemStorage.UpdateChainActiveStatus | server/storage.ts:107-122 | an unknown id returns none and changes nothing; otherwise the chains become `Activated(...)` and the updated target is returned |
| Storage.MemStorage.SwitchOff | server/storage.ts:112-116 | the `forEach` stores each sibling with `isActive` false and leaves every other chain as it was |
| Storage.MemStorage.CreateEffect | server/storage.ts:124-133 | a fresh effect with `bypassed ?? false`; nothing else changes |
| Storage.MemStorage.GetEffectsByChain | server/storage.ts:135-139 | exactly the chain's effects, ascending by `order` |
| Storage.MemStorage.UpdateEffect | server/storage.ts:141-148 | an unknown id returns none and changes nothing. Otherwise the supplied fields overwrite, the id stays, and the effect keeps its place in every listing when neither chain nor order is patched |
| Storage.MemStorage.DeleteEffect | server/storage.ts:150-152 | returns whether the id existed and removes exactly that effect from the map and from every listing |
| Storage.MemStorage.CreateSnapshot | server/storage.ts:154-163 | a fresh snapshot stamped now, appended to its session's listing; nothing else changes |
| Storage.MemStorage.GetSnapshotsBySession | server/storage.ts:165-169 | exactly the session's snapshots, each once, oldest first, ties by insertion order |
| Storage.MemStorage.CreateChatMessage | server/storage.ts:171-181 | a fresh message with `model ?? null` and the current time; nothing else changes |
| Storage.MemStorage.GetChatMessagesBySession | server/storage.ts:183-187 | exactly the session's messages, each once, oldest first, ties by insertion order |
| Text.StartsWith | server/routes.ts:196 | (definition) `startsWith`: the string's first characters are the prefix |
| Text.Repeat | server/routes.ts:382 | `"=".repeat(n)` is n copies of the character |
| Text.NatToString | server/routes.ts:385 | `${index + 1}` is a non-empty string of digits without a leading zero |
| Text.ParseNatToString | server/routes.ts:385 | reading the digits back gives the number |
| Text.NatToStringInjective | server/routes.ts:396 | distinct numbers render distinctly |
| Text.UpperChar | server/routes.ts:398 | a lower-case ASCII letter becomes its upper-case letter; anything else is kept |
| Text.ToUpper | server/routes.ts:398 | `toUpperCase` maps every character and keeps the length |
| Text.ToUpperIdempotent | server/routes.ts:398 | the result has no lower-case letter, and upper-casing twice equals once |
| Text.LinesAppend | server/routes.ts:380-412 | the line breaks of a concatenation add up |
| Text.NoLinesOneLine | server/routes.ts:380-412 | a string has no line break exactly when it is a single line |
| Text.LineLines | server/routes.ts:380-412 | a single line followed by `\n` is one line |
| Chat.Truthy | server/routes.ts:202 | (definition) JavaScript truthiness of the analysis: null, false, 0 and the empty string are falsy |
| Chat.SystemPrompt | server/routes.ts:200-202 | (definition) the system prompt template, the same at routes.ts:223-225: the persona, a blank line, then `Current vocal analysis: ` and the serialised analysis when it is truthy |
| Chat.SystemPromptShape | server/routes.ts:200-202 | the persona and a blank line always come first. The analysis follows exactly when `session?.analysis` is truthy, and then the prompt ends with its serialisation |
| Chat.Turn | server/routes.ts:208-211 | (definition) a stored message as the role and content sent to a provider |
| Chat.Window | server/routes.ts:208-211 | the last min(10, n) stored messages, in order, each as role and content |
| Chat.OpenAIMessages | server/routes.ts:206-213 | the system message first, then the window, then the new message |
| Chat.AnthropicMessages | server/routes.ts:231-237 | the window, then the new message |
| Chat.NewMessageSentTwice | server/routes.ts:187-213 | because the message is stored before history is read, it is sent as the last two entries |
| Chat.FifteenEarlierMessages | server/routes.ts:198-211 | with fifteen earlier messages, the window is the nine most recent of them and the new one |
| Chat.ChooseRoute | server/routes.ts:196-243 | OpenAI exactly for a `gpt` prefix with a client; Anthropic exactly for a `claude` prefix with a client; otherwise the fallback |
| Chat.OpenAIAnswer | server/routes.ts:218 | a throw is an error. No choice, no content or empty content becomes the trouble text; other text is kept |
| Chat.AnthropicAnswer | server/routes.ts:240 | a throw is an error, and so is an empty `content`, whose `content[0].type` throws. A first text block is kept; a first block of another type becomes the trouble text |
| Chat.AssistantText | server/routes.ts:194-243 | the fallback route yields the canned text, and only a provider route can fail |
| Chat.NoProviderCanned | server/routes.ts:241-243 | with no client configured every model gets the canned reply, not an error |
| Chat.ReplyFollowsQuestion | server/routes.ts:187-250 | the two stored messages end the session's history, the question before the answer |
| Chat.Ask | server/routes.ts:187-243 | stores the user message (role user, model null) under the next id and clock time; the answer is the one for the session as stored and for its history read after that message was stored, which therefore ends with it |
| Chat.StoreAnswer | server/routes.ts:245-256 | after a provider throw nothing more is stored and the reply is a 500; otherwise the answer is stored under the next id as an assistant message with the requested model |
| Chat.PostChat | server/routes.ts:183-257 | stores the user message (role user, model null), then the assistant message (role assistant, the requested model) in the same session. A provider throw is a 500 with only the user message stored. The id and clock counters advance by one per stored message |
| Generate.DefaultDrafts | server/routes.ts:304-325 | (definition) the four fixed drafts with their parameters |
| Generate.AsksGenerator | server/routes.ts:279 | (definition) `mode.startsWith("gpt") && openai` |
| Generate.Drafts | server/routes.ts:279-326 | only an asked generator can fail; without one the drafts are the defaults |
| Generate.DefaultsWithoutGenerator | server/routes.ts:303-325 | without a client or a `gpt` mode the drafts are the four defaults, High-Pass Filter first and Parametric EQ last, all of type EQ or Dynamics |
| Generate.Made | server/routes.ts:336-344 | the i-th effect has the next id, the new chain, `order` i, `bypassed` false and its draft's name, type and parameters |
| Generate.MadeFromUnique | server/routes.ts:336-344 | those conditions fix the created effects |
| Generate.MadeFromNext | server/routes.ts:336-344 | each created effect extends the made list with the next id and `order` equal to its index |
| Generate.ExtendedNext | server/routes.ts:335-346 | each created effect extends the map under the next id |
| Generate.ExtendedListed | server/routes.ts:335-346 | `getEffectsByChain` on the new chain lists exactly the generated effects in draft order, when no earlier effect named that chain |
| Generate.AddEffects | server/routes.ts:335-346 | the i-th draft is stored under the next id, in the given chain, with `order` i and `bypassed` false; only the effects map and `nextId` change |
| Generate.NewChainDefers | server/routes.ts:328-333 | after generation `getActiveChain` still returns an older active chain; it returns the new chain only when the session had none |
| Generate.GenerateBreaksOneActive | server/routes.ts:328-333 | when the session already had an active chain, generation leaves two active chains |
| Generate.StoreDrafts | server/routes.ts:279-353 | a failed generator call is an error that stores nothing. Otherwise one active "AI Generated Chain" in mode "auto" is stored, then one effect per draft, and a reply that makes `chain.map` throw is an error after those are stored |
| Generate.GenerateChain | server/routes.ts:268-353 | a missing session is not-found and a failed generator call an error, both storing nothing. Otherwise it stores one active "AI Generated Chain" in mode "auto", then one effect per draft. An `effects` value that makes `chain.map` throw is an error after the chain and the effects before the break are stored |
| Export.TextSheet | server/routes.ts:380-394 | (definition) the title, 50 `=` and a blank line, then one block per effect numbered from 1 |
| Export.Recipe | server/routes.ts:397-412 | (definition) the upper-cased DAW title, 50 `=` and the follow line, then one block per step numbered from 1 |
| Export.TextSheetNext | server/routes.ts:384-394 | each loop pass appends the next effect's block to the sheet |
| Export.RecipeNext | server/routes.ts:402-412 | each loop pass appends the next step's block to the recipe |
| Export.AppendParams | server/routes.ts:390-392 | the inner `forEach` appends one `prefix key: value` line per parameter, in entry order |
| Export.RenderText | server/routes.ts:380-396 | the built string is the text sheet: the title, 50 `=`, a blank line. Then per effect k from 1: `k. name (type)`, the bypass status, `Parameters:`, one line per parameter and a blank line |
| Export.RenderRecipe | server/routes.ts:397-414 | the built string is the recipe: the upper-cased DAW title, 50 `=`, the follow line. Then per effect: `Step k: Add name`, the plugin line, `Settings:`, one bullet line per parameter and a blank line |
| Export.ParamLinesCount | server/routes.ts:390-392 | one line per parameter |
| Export.BlockCount | server/routes.ts:384-394 | an effect block has four lines plus its parameters |
| Export.TextBlockLines | server/routes.ts:384-394 | a text block has four lines plus one per parameter |
| Export.RecipeBlockLines | server/routes.ts:402-412 | a recipe block has four lines plus one per parameter |
| Export.TextTitleLines | server/routes.ts:381-382 | the sheet's title is three lines |
| Export.TextSheetLines | server/routes.ts:380-394 | the sheet has three title lines, then four per effect and one per parameter |
| Export.ToUpperOneLine | server/routes.ts:398 | upper-casing keeps a single line single |
| Export.RecipeLines | server/routes.ts:397-412 | the recipe has five title lines, then four per effect and one per parameter |
| Export.OneLineAppend | server/routes.ts:384-408 | two single lines joined are a single line |
| Export.TextFileNamesDiffer | server/routes.ts:396 | exports at different times get different text file names |
| Export.RecipeFileNamesDiffer | server/routes.ts:414 | exports at different times get different recipe file names |
| Export.RecipeOpensWithDaw | server/routes.ts:398 | the recipe starts with the upper-cased DAW name |
| Export.WantsRecipe | server/routes.ts:397 | (definition) `format === "daw" && daw`, with `daw` a present, non-empty string |
| Export.TextFileName | server/routes.ts:396 | (definition) `vocal_chain_<now>.txt` |
| Export.RecipeFileName | server/routes.ts:414 | (definition) `<daw>_recipe_<now>.txt` |
| Export.ExportChain | server/routes.ts:374-422 | lists the chain's effects by `order`. Format "text" gives the sheet named `vocal_chain_<now>.txt`. Format "daw" with a non-empty DAW gives the recipe named `<daw>_recipe_<now>.txt`. Anything else gives the effects themselves |

## Left out

- The HTTP layer: Express routing, status codes, `res.json`, request-body validation with zod, multer uploads and `parseFloat(duration)`. Not-found and server errors are `Outcome` values.
- The OpenAI and Anthropic SDK calls are uninterpreted function parameters. So are the prompt text of chain generation, `temperature`, `max_tokens` and `response_format`. The `JSON.parse` of the generated content is folded into the generator's result: `GenThrew` for a throw, else the `effects` list or `[]` (`GenEffects`), or `GenBroken` for an `effects` value on which `chain.map` throws after the chain is stored.
- `JSON.stringify` of the analysis and the `${value}` rendering of parameter values are function parameters. Floating-point analysis values are opaque JSON numbers.
- `randomUUID` is the counter `nextId`. `new Date()` is the counter `clock`. `Date.now()` is the parameter `now`.
- `Promise.all` in generation: the store's calls have no awaits inside, so the creates run in index order. Concurrency itself is not modelled.
- `console.error` logging.
- Effect parameters are an ordered list of entries, as `Object.entries` yields them for an object. Non-object parameters are not modelled.
- Generate.GenerateChain: drafts whose fields are missing or not strings are not modelled (drafts always have a name, a type and parameters). A list element that is a primitive other than `null` or `undefined` is one of those drafts, and is therefore not modelled either.
- Generate.GenerateChain: a request whose `mode` is null or not a string would throw in `startsWith`; the model takes `mode` as an optional string.
- Chat.PostChat: a request whose `model` is null or not a string would throw in `startsWith`; the model takes `model` as an optional string.
- Chat.PostChat: `/api/chat` validates nothing. A non-string `message` or a missing `sessionId` is stored as it comes; the model takes `message` as a string and `sessionId` as an id.
- Chat.PostChat: the provider call is awaited between the two `createChatMessage` calls, so another request's writes can land in between. The assistant message's id `u.id + 1`, its stamp one after the question's, and `Chat.ReplyFollowsQuestion` (the two messages end the session's history) hold for a request that runs alone; interleaved requests are not modelled.
- Chat.PostChat: the session is read on every route; the source reads it only on the two provider routes. The read has no effect.
- Storage.Patched: the patch has the six typed fields of an effect. The route passes the unvalidated request body, and the spread copies it as is. There, an `id` key would overwrite the record's `id` while the map key stays, a `null` would overwrite a field with null, and unknown keys would be added. None of that is modelled, so "keeps the id" holds for typed patches only.
- Storage.MemStorage.CreateVocalSession: `new Date()` has millisecond resolution, so two records created in the same millisecond tie, and the stable sort then keeps insertion order. The model's `clock` is strictly increasing and rules out such ties. So "the new record heads the newest-first listing" (here, in `CreateProcessingChain`, `Storage.SessionAdded` and `Storage.ChainAdded`) holds for distinct creation times only; a tied newer record would be listed after the older one.
- Text.ToUpper: upper-cases only the ASCII letters, not the rest of Unicode.
- Generate.ExtendedListed: states the listing of the new chain only when no stored effect already named its id. `createEffect` accepts any chain id, and in the model ids are counter values rather than random UUIDs, so an earlier effect could name the id a new chain gets.
- Generate.GenerateChain: its contract states the stored effects through `Made` and `Extended`; what `getEffectsByChain` then lists is stated by `Generate.ExtendedListed` about that post-state.
- Export.ExportChain: the truthiness of `daw` is modelled as a present, non-empty string; `daw` values of other JSON types are not modelled.
- The analysis fixture used by the upload route and the other routes outside the three handlers are not part of this model.
