/** The `/api/chat` handler (server/routes.ts): the user message is stored, a prompt
    is assembled from the session's analysis and recent history, a provider chosen by
    the model id answers (or a canned reply stands in), and the answer is stored. */
module Chat {
  import opened Schema
  import opened Text
  import Storage
  import Ordering

  /** Used when the request names no model. */
  const DefaultModel: string := "gpt-4"

  const Persona: string :=
    "You are an expert audio mixing engineer specializing in "
    + "vocal production. You provide detailed, actionable advice "
    + "on EQ, compression, reverb, de-essing, and all aspects of "
    + "vocal mixing. Be specific with frequencies, ratios, "
    + "attack/release times, and explain the \"why\" behind each "
    + "recommendation."

  const AnalysisLead: string := "Current vocal analysis: "

  /** The reply when a provider answers with nothing usable. */
  const Trouble: string := "I'm having trouble responding. Please try again."

  /** The reply when no provider serves the requested model. */
  const Canned: string :=
    "I've analyzed your request. For this vocal recording, I "
    + "recommend starting with a high-pass filter at 80Hz to clean "
    + "up low-end rumble, followed by a de-esser targeting 6-8kHz "
    + "where I detected sibilance. Then apply gentle compression "
    + "(4:1 ratio, -18dB threshold) to even out the dynamics."

  /** JavaScript truthiness of a JSON value. */
  predicate Truthy(j: Json) {
    match j
    case JNull => false
    case JBool(b) => b
    case JNum(n) => n != 0.0
    case JStr(s) => s != ""
    case JArray(_) => true
    case JObject(_) => true
  }

  /** The system prompt: the persona, a blank line, then the analysis when `session?.analysis` is truthy. */
  function SystemPrompt(session: Option<VocalSession>, stringify: Json -> string): string {
    var head := Persona + "\n\n";
    if session.Some? && Truthy(session.value.analysis) then head + (AnalysisLead + stringify(session.value.analysis))
    else head
  }

  /** The prompt opens with the persona and a blank line, is nothing more when there is no
      truthy analysis, and otherwise ends with the analysis line. */
  lemma SystemPromptShape(session: Option<VocalSession>, stringify: Json -> string)
    ensures var r := SystemPrompt(session, stringify);
      && StartsWith(r, Persona + "\n\n")
      && (|r| == |Persona| + 2 <==> !(session.Some? && Truthy(session.value.analysis)))
      && (session.Some? && Truthy(session.value.analysis) ==> EndsWith(r, AnalysisLead + stringify(session.value.analysis)))
  {
    var head := Persona + "\n\n";
    if session.Some? && Truthy(session.value.analysis) {
      Concatenated(head, AnalysisLead + stringify(session.value.analysis));
    } else {
      Concatenated(head, []);
      assert head + [] == head;
    }
  }

  datatype PromptRole = SystemRole | UserRole | AssistantRole

  /** One entry of the message list sent to a provider. */
  datatype PromptMessage = PromptMessage(role: PromptRole, content: string)

  function Turn(m: ChatMessage): PromptMessage {
    PromptMessage(if m.role == User then UserRole else AssistantRole, m.content)
  }

  function Min(a: int, b: int): int { if a <= b then a else b }

  /** `history.slice(-10).map(...)`: the last ten stored messages (all when fewer), oldest first. */
  function Window(history: seq<ChatMessage>): (r: seq<PromptMessage>)
    ensures |r| == Min(10, |history|)
    ensures forall i :: 0 <= i < |r| ==> r[i] == Turn(history[|history| - |r| + i])
  {
    var start := if |history| <= 10 then 0 else |history| - 10;
    seq(|history| - start, i requires 0 <= i < |history| - start => Turn(history[start + i]))
  }

  /** The OpenAI message list: system prompt, the window, then the new message. */
  function OpenAIMessages(system: string, history: seq<ChatMessage>, message: string): (r: seq<PromptMessage>)
    ensures |r| == Min(10, |history|) + 2
    ensures r[0] == PromptMessage(SystemRole, system)
    ensures r[1..|r| - 1] == Window(history)
    ensures r[|r| - 1] == PromptMessage(UserRole, message)
  {
    [PromptMessage(SystemRole, system)] + Window(history) + [PromptMessage(UserRole, message)]
  }

  /** The Anthropic message list: the window, then the new message (the system prompt travels apart). */
  function AnthropicMessages(history: seq<ChatMessage>, message: string): (r: seq<PromptMessage>)
    ensures |r| == Min(10, |history|) + 1
    ensures r[..|r| - 1] == Window(history)
    ensures r[|r| - 1] == PromptMessage(UserRole, message)
  {
    Window(history) + [PromptMessage(UserRole, message)]
  }

  /** Because the new message is stored before the history is read, it ends both lists twice. */
  lemma NewMessageSentTwice(system: string, prior: seq<ChatMessage>, u: ChatMessage)
    requires u.role == User
    ensures var ms := OpenAIMessages(system, prior + [u], u.content);
      ms[|ms| - 2] == ms[|ms| - 1] == PromptMessage(UserRole, u.content)
    ensures var ms := AnthropicMessages(prior + [u], u.content);
      |ms| >= 2 && ms[|ms| - 2] == ms[|ms| - 1] == PromptMessage(UserRole, u.content)
  {
    var h := prior + [u];
    assert h[|h| - 1] == u;
    var w := Window(h);
    assert w[|w| - 1] == Turn(u);
  }

  /** With fifteen earlier messages the window holds the nine most recent of them and the new one. */
  lemma FifteenEarlierMessages(prior: seq<ChatMessage>, u: ChatMessage)
    requires |prior| == 15
    ensures Window(prior + [u]) == Window(prior[6..]) + [Turn(u)]
  {
    var h := prior + [u];
    var a := Window(h);
    var b := Window(prior[6..]) + [Turn(u)];
    assert |a| == |b| == 10;
    forall i | 0 <= i < 10 ensures a[i] == b[i] {
      if i < 9 {
        assert h[6 + i] == prior[6..][i];
      }
    }
  }

  datatype Route = ToOpenAI | ToAnthropic | Fallback

  /** The provider branch: a "gpt" model with OpenAI configured, else a "claude" model
      with Anthropic configured, else the canned reply. */
  function ChooseRoute(model: string, openaiReady: bool, anthropicReady: bool): (r: Route)
    ensures r == ToOpenAI <==> StartsWith(model, "gpt") && openaiReady
    ensures r == ToAnthropic <==> StartsWith(model, "claude") && anthropicReady
    ensures r == Fallback <==>
      !(StartsWith(model, "gpt") && openaiReady) && !(StartsWith(model, "claude") && anthropicReady)
  {
    assert StartsWith(model, "gpt") ==> model[0] == 'g';
    assert StartsWith(model, "claude") ==> model[0] == 'c';
    if StartsWith(model, "gpt") && openaiReady then ToOpenAI
    else if StartsWith(model, "claude") && anthropicReady then ToAnthropic
    else Fallback
  }

  /** What a provider call yields: it throws; it answers with no choice or content block at
      all; its first choice or block carries no text; or it carries text. */
  datatype ProviderReply = Threw | NoContent | NoText | Answered(text: string)

  /** `choices[0]?.message?.content || Trouble`; `None` is a thrown call. The optional
      chaining makes a reply without choices the trouble text, not a throw. */
  function OpenAIAnswer(reply: ProviderReply): (r: Option<string>)
    ensures r.None? <==> reply.Threw?
    ensures r.Some? ==> r.value != ""
    ensures reply.Answered? && reply.text != "" ==> r == Some(reply.text)
    ensures reply.NoContent? || reply.NoText? || reply == Answered("") ==> r == Some(Trouble)
  {
    match reply
    case Threw => None
    case NoContent => Some(Trouble)
    case NoText => Some(Trouble)
    case Answered(s) => Some(if s == "" then Trouble else s)
  }

  /** `content[0].type === 'text' ? content[0].text : Trouble`; `None` is a thrown call.
      Reading `content[0].type` of an empty `content` throws as well. */
  function AnthropicAnswer(reply: ProviderReply): (r: Option<string>)
    ensures r.None? <==> reply.Threw? || reply.NoContent?
    ensures reply.Answered? ==> r == Some(reply.text)
    ensures reply.NoText? ==> r == Some(Trouble)
  {
    match reply
    case Threw => None
    case NoContent => None
    case NoText => Some(Trouble)
    case Answered(s) => Some(s)
  }

  /** The providers as the handler sees them: each client is configured or absent. */
  datatype Providers = Providers(
    openai: Option<(string, seq<PromptMessage>) -> ProviderReply>,
    anthropic: Option<(string, string, seq<PromptMessage>) -> ProviderReply>,
    stringify: Json -> string)

  /** The assistant's text for `message`, given the history read after storing it; `None` when a provider throws. */
  function AssistantText(model: string, p: Providers, session: Option<VocalSession>,
                         history: seq<ChatMessage>, message: string): (r: Option<string>)
    ensures ChooseRoute(model, p.openai.Some?, p.anthropic.Some?) == Fallback ==> r == Some(Canned)
    ensures r.None? ==> ChooseRoute(model, p.openai.Some?, p.anthropic.Some?) != Fallback
  {
    match ChooseRoute(model, p.openai.Some?, p.anthropic.Some?)
    case ToOpenAI =>
      OpenAIAnswer(p.openai.value(model, OpenAIMessages(SystemPrompt(session, p.stringify), history, message)))
    case ToAnthropic =>
      AnthropicAnswer(p.anthropic.value(model, SystemPrompt(session, p.stringify), AnthropicMessages(history, message)))
    case Fallback =>
      Some(Canned)
  }

  /** With no provider configured, every model gets the canned reply, which is not an error. */
  lemma NoProviderCanned(model: string, stringify: Json -> string, session: Option<VocalSession>,
                         history: seq<ChatMessage>, message: string)
    ensures AssistantText(model, Providers(None, None, stringify), session, history, message) == Some(Canned)
  {
  }

  /** The two messages a chat stores are listed last in the session's history,
      the question before the reply. */
  lemma ReplyFollowsQuestion(m: map<Id, ChatMessage>, n: nat, clock: int, u: ChatMessage, a: ChatMessage)
    requires Ordering.Keyed(m, n, Storage.MessageIdent) && Ordering.Stamped(m, Storage.MessageOldestFirst, clock)
    requires u.id == n && u.createdAt == clock && a.id == n + 1 && a.createdAt == clock + 1
    requires u.sessionId == a.sessionId
    ensures Ordering.Keyed(m[n := u][n + 1 := a], n + 2, Storage.MessageIdent)
    ensures Ordering.Listing(m[n := u][n + 1 := a], n + 2, Storage.MessageSession, u.sessionId,
                             Storage.MessageOldestFirst, Storage.MessageIdent)
         == Ordering.Listing(m, n, Storage.MessageSession, u.sessionId,
                             Storage.MessageOldestFirst, Storage.MessageIdent) + [u, a]
  {
    Storage.MessageAdded(m, n, clock, u);
    Storage.MessageAdded(m[n := u], n + 1, clock + 1, a);
  }

  /** The first half of `/api/chat`: store the user message, read the session and its
      history back (the history now ends with that message) and ask for the answer. */
  method Ask(store: Storage.MemStorage, sessionId: Id, message: string, m: string, p: Providers)
    returns (u: ChatMessage, answer: Option<string>)
    requires store.Valid()
    modifies store
    ensures store.Valid()
    ensures u == ChatMessage(old(store.nextId), sessionId, User, message, None, old(store.clock))
    ensures answer == AssistantText(m, p, Lookup(old(store.vocalSessions), sessionId),
                                    Storage.SessionMessages(old(store.chatMessages), old(store.nextId), sessionId) + [u], message)
    ensures store.chatMessages == old(store.chatMessages)[u.id := u]
    ensures store.nextId == old(store.nextId) + 1 && store.clock == old(store.clock) + 1
    ensures store.vocalSessions == old(store.vocalSessions) && store.processingChains == old(store.processingChains)
    ensures store.effects == old(store.effects) && store.snapshots == old(store.snapshots)
  {
    ghost var before := Storage.SessionMessages(store.chatMessages, store.nextId, sessionId);
    u := store.CreateChatMessage(NewChatMessage(sessionId, User, message, None));
    var session := store.GetVocalSession(sessionId);
    var history := store.GetChatMessagesBySession(sessionId);
    assert history == before + [u] by {
      Storage.MessageAdded(old(store.chatMessages), old(store.nextId), old(store.clock), u);
    }
    answer := AssistantText(m, p, session, history, message);
  }

  /** The second half of `/api/chat`: when the provider threw nothing more is stored and the
      reply is a 500; otherwise the answer is stored as an assistant message. */
  method StoreAnswer(store: Storage.MemStorage, sessionId: Id, u: ChatMessage, answer: Option<string>, m: string)
    returns (r: Outcome<(ChatMessage, ChatMessage)>)
    requires store.Valid()
    modifies store
    ensures store.Valid()
    ensures r.Done? <==> answer.Some?
    ensures answer.None? ==> r == InternalError && store.chatMessages == old(store.chatMessages)
    ensures answer.Some? ==>
      var a := ChatMessage(old(store.nextId), sessionId, Assistant, answer.value, Some(m), old(store.clock));
      r == Done((u, a)) && store.chatMessages == old(store.chatMessages)[a.id := a]
    ensures var stored := if r.Done? then 1 else 0;
      store.nextId == old(store.nextId) + stored && store.clock == old(store.clock) + stored
    ensures store.vocalSessions == old(store.vocalSessions) && store.processingChains == old(store.processingChains)
    ensures store.effects == old(store.effects) && store.snapshots == old(store.snapshots)
  {
    if answer.Some? {
      var a := store.CreateChatMessage(NewChatMessage(sessionId, Assistant, answer.value, Some(m)));
      r := Done((u, a));
    } else {
      r := InternalError;
    }
  }

  /** `POST /api/chat`: store the user message, answer it, store the answer. */
  method PostChat(store: Storage.MemStorage, sessionId: Id, message: string, model: Option<string>, p: Providers)
    returns (r: Outcome<(ChatMessage, ChatMessage)>)
    requires store.Valid()
    modifies store
    ensures store.Valid()
    ensures !r.NotFound?
    ensures var m := model.GetOr(DefaultModel);
      var u := ChatMessage(old(store.nextId), sessionId, User, message, None, old(store.clock));
      var answer := AssistantText(m, p, Lookup(old(store.vocalSessions), sessionId),
                                  Storage.SessionMessages(old(store.chatMessages), old(store.nextId), sessionId) + [u], message);
      && (r.Done? <==> answer.Some?)
      && (answer.None? ==> r == InternalError && store.chatMessages == old(store.chatMessages)[u.id := u])
      && (answer.Some? ==>
            var a := ChatMessage(u.id + 1, sessionId, Assistant, answer.value, Some(m), u.createdAt + 1);
            && r == Done((u, a))
            && store.chatMessages == old(store.chatMessages)[u.id := u][a.id := a])
    ensures var stored := if r.Done? then 2 else 1;
      store.nextId == old(store.nextId) + stored && store.clock == old(store.clock) + stored
    ensures store.vocalSessions == old(store.vocalSessions) && store.processingChains == old(store.processingChains)
    ensures store.effects == old(store.effects) && store.snapshots == old(store.snapshots)
  {
    var m := model.GetOr(DefaultModel);
    var userMessage, answer := Ask(store, sessionId, message, m, p);
    r := StoreAnswer(store, sessionId, userMessage, answer, m);
  }
}
