/** `POST /api/chains/generate` (server/routes.ts): draft an effect list for a
    session, then store it as a new active chain with one effect per draft. */
module Generate {
  import opened Schema
  import opened Text
  import Storage
  import Ordering

  /** One effect as a generator proposes it: `{ name, type, parameters }`. */
  datatype EffectDraft = EffectDraft(name: string, effectType: string, parameters: Params)

  /** The OpenAI call once its content is parsed.
      - `GenThrew`: the call fails or `JSON.parse` rejects the content; nothing is stored yet.
      - `GenEffects(drafts)`: the `effects` list (`[]` when the content or the field is missing).
      - `GenBroken(drafts)`: an `effects` value on which `chain.map` throws once the chain is
        stored and the callbacks for `drafts` have stored their effects. That is a truthy
        value that is not an array (`drafts` empty), or a list whose element after `drafts`
        is `null` or `undefined`, so that reading its `name` throws. */
  datatype GenReply = GenThrew | GenEffects(drafts: seq<EffectDraft>) | GenBroken(drafts: seq<EffectDraft>)

  /** The configured OpenAI client, asked with the mode, the session's analysis and
      the user's goals. */
  type Generator = (string, Json, string) -> GenReply

  /** `mode = "gpt-4"` when the request leaves it out. */
  const DefaultMode := "gpt-4"
  const ChainName := "AI Generated Chain"
  const ChainMode := "auto"

  /** The fixed chain used when no generator is asked. */
  function DefaultDrafts(): seq<EffectDraft> {
    [ EffectDraft("High-Pass Filter", "EQ",
                  [("frequency", JNum(80.0)), ("slope", JNum(12.0))]),
      EffectDraft("De-esser", "Dynamics",
                  [("frequency", JNum(6500.0)), ("threshold", JNum(-24.0)), ("reduction", JNum(6.0))]),
      EffectDraft("VCA Compressor", "Dynamics",
                  [("threshold", JNum(-18.0)), ("ratio", JNum(4.0)), ("attack", JNum(10.0)), ("release", JNum(100.0))]),
      EffectDraft("Parametric EQ", "EQ",
                  [("band1_freq", JNum(250.0)), ("band1_gain", JNum(-2.0)),
                   ("band2_freq", JNum(2500.0)), ("band2_gain", JNum(3.0))]) ]
  }

  /** `mode.startsWith("gpt") && openai`: whether the generator is asked. */
  predicate AsksGenerator(mode: string, openai: Option<Generator>) {
    StartsWith(mode, "gpt") && openai.Some?
  }

  /** The drafts for a request. Only an asked generator can fail. */
  function Drafts(mode: string, openai: Option<Generator>, analysis: Json, goals: string): (r: GenReply)
    ensures !r.GenEffects? ==> AsksGenerator(mode, openai)
    ensures !AsksGenerator(mode, openai) ==> r == GenEffects(DefaultDrafts())
  {
    if AsksGenerator(mode, openai) then openai.value(mode, analysis, goals) else GenEffects(DefaultDrafts())
  }

  /** Without a client, or for a mode that is not a `gpt` one, every request gets the
      same four drafts: a high-pass filter, a de-esser, a compressor and an EQ. */
  lemma DefaultsWithoutGenerator(mode: string, openai: Option<Generator>, analysis: Json, goals: string)
    requires openai.None? || !StartsWith(mode, "gpt")
    ensures Drafts(mode, openai, analysis, goals) == GenEffects(DefaultDrafts())
    ensures |DefaultDrafts()| == 4
    ensures forall d :: d in DefaultDrafts() ==> d.effectType == "EQ" || d.effectType == "Dynamics"
    ensures DefaultDrafts()[0].name == "High-Pass Filter" && DefaultDrafts()[3].name == "Parametric EQ"
  {
  }

  /** `es` are the effects stored for `drafts` in chain `chainId`, the first under id
      `firstId`: the i-th has the next id, order i, is not bypassed and keeps its
      draft's name, type and parameters. */
  predicate MadeFrom(es: seq<Effect>, drafts: seq<EffectDraft>, chainId: Id, firstId: Id) {
    && |es| == |drafts|
    && forall i :: 0 <= i < |es| ==>
         es[i] == Effect(firstId + i, chainId, drafts[i].name, drafts[i].effectType, i, false, drafts[i].parameters)
  }

  /** The effects stored for `drafts` in chain `chainId`, the first under id `firstId`. */
  function Made(drafts: seq<EffectDraft>, chainId: Id, firstId: Id): (es: seq<Effect>)
    ensures MadeFrom(es, drafts, chainId, firstId)
  {
    seq(|drafts|, i requires 0 <= i < |drafts| =>
      Effect(firstId + i, chainId, drafts[i].name, drafts[i].effectType, i, false, drafts[i].parameters))
  }

  /** `MadeFrom` fixes the effects: they are `Made`. */
  lemma MadeFromUnique(es: seq<Effect>, drafts: seq<EffectDraft>, chainId: Id, firstId: Id)
    requires MadeFrom(es, drafts, chainId, firstId)
    ensures es == Made(drafts, chainId, firstId)
  {
  }

  /** `after` is `before` with `es` stored under the consecutive ids from `first`. */
  ghost predicate Extended(after: map<Id, Effect>, before: map<Id, Effect>, first: Id, es: seq<Effect>) {
    && (forall k :: k in after <==> k in before || first <= k < first + |es|)
    && (forall k :: k in before && k < first ==> after[k] == before[k])
    && (forall j :: 0 <= j < |es| ==> after[first + j] == es[j])
  }

  /** No stored effect belongs to chain `chainId`. */
  predicate Unreferenced(effects: map<Id, Effect>, chainId: Id) {
    forall k :: k in effects ==> effects[k].chainId != chainId
  }

  /** Storing the effect for the next draft extends what has been made so far. */
  lemma MadeFromNext(es: seq<Effect>, drafts: seq<EffectDraft>, i: nat, chainId: Id, firstId: Id, e: Effect)
    requires i < |drafts| && MadeFrom(es, drafts[..i], chainId, firstId)
    requires e == Effect(firstId + i, chainId, drafts[i].name, drafts[i].effectType, i, false, drafts[i].parameters)
    ensures MadeFrom(es + [e], drafts[..i + 1], chainId, firstId)
    ensures forall y :: y in es ==> y.order < e.order
  {
    var t := es + [e];
    forall j | 0 <= j < |t|
      ensures t[j] == Effect(firstId + j, chainId, drafts[j].name, drafts[j].effectType, j, false, drafts[j].parameters)
    {
      if j < |es| {
        assert t[j] == es[j] && drafts[..i][j] == drafts[j];
      }
    }
  }

  /** Storing one more effect under the next id extends what was stored by it. */
  lemma ExtendedNext(after: map<Id, Effect>, before: map<Id, Effect>, first: Id, es: seq<Effect>, e: Effect)
    requires Extended(after, before, first, es)
    requires forall k :: k in before ==> k < first
    ensures Extended(after[first + |es| := e], before, first, es + [e])
  {
    var t := es + [e];
    forall j | 0 <= j < |t| ensures after[first + |es| := e][first + j] == t[j] {
      if j < |es| {
        assert t[j] == es[j];
      }
    }
  }

  /** After generation, `getEffectsByChain` on the new chain lists exactly the generated
      effects in draft order, provided no effect referred to that chain id before. */
  lemma ExtendedListed(after: map<Id, Effect>, before: map<Id, Effect>, n: nat, es: seq<Effect>,
                       drafts: seq<EffectDraft>, chainId: Id)
    requires Ordering.Keyed(before, n, Storage.EffectIdent) && Unreferenced(before, chainId)
    requires Extended(after, before, n, es) && MadeFrom(es, drafts, chainId, n)
    ensures Ordering.Keyed(after, n + |es|, Storage.EffectIdent)
    ensures Storage.ChainEffects(after, n + |es|, chainId) == es
  {
    assert Ordering.Keyed(after, n + |es|, Storage.EffectIdent) by {
      forall k | k in after ensures k < n + |es| && after[k].id == k {
        if k !in before {
          assert after[n + (k - n)] == es[k - n];
        }
      }
    }
    var listed := Storage.ChainEffects(after, n + |es|, chainId);
    forall x ensures x in listed <==> x in es {
      if x in listed {
        var k :| k in after && after[k] == x;
        if k !in before {
          assert after[n + (k - n)] == es[k - n];
        }
      }
      if x in es {
        var j :| 0 <= j < |es| && es[j] == x;
        assert after[n + j] == x;
      }
    }
    Ordering.AscendingUnique(listed, es, Storage.EffectOrder, Storage.EffectIdent);
  }

  /** `Promise.all(chain.map((effect, index) => storage.createEffect(...)))`: each call
      stores its effect before the next one starts, so they are stored in index order. */
  method AddEffects(store: Storage.MemStorage, chainId: Id, drafts: seq<EffectDraft>) returns (es: seq<Effect>)
    requires store.Valid()
    modifies store
    ensures store.Valid()
    ensures es == Made(drafts, chainId, old(store.nextId))
    ensures Extended(store.effects, old(store.effects), old(store.nextId), es)
    ensures store.nextId == old(store.nextId) + |drafts| && store.clock == old(store.clock)
    ensures store.vocalSessions == old(store.vocalSessions) && store.processingChains == old(store.processingChains)
    ensures store.snapshots == old(store.snapshots) && store.chatMessages == old(store.chatMessages)
  {
    es := [];
    var i := 0;
    while i < |drafts|
      invariant 0 <= i <= |drafts|
      invariant store.Valid()
      invariant MadeFrom(es, drafts[..i], chainId, old(store.nextId))
      invariant Extended(store.effects, old(store.effects), old(store.nextId), es)
      invariant store.nextId == old(store.nextId) + i && store.clock == old(store.clock)
      invariant store.vocalSessions == old(store.vocalSessions) && store.processingChains == old(store.processingChains)
      invariant store.snapshots == old(store.snapshots) && store.chatMessages == old(store.chatMessages)
    {
      ghost var before := store.effects;
      var d := drafts[i];
      var e := store.CreateEffect(NewEffect(chainId, d.name, d.effectType, i, Some(false), d.parameters));
      MadeFromNext(es, drafts, i, chainId, old(store.nextId), e);
      ExtendedNext(before, old(store.effects), old(store.nextId), es, e);
      es := es + [e];
      i := i + 1;
    }
    assert drafts[..i] == drafts;
    MadeFromUnique(es, drafts, chainId, old(store.nextId));
  }

  /** A new active chain does not displace an older active chain of its session as
      `getActiveChain` sees it; it is found only when it is the session's first. */
  lemma NewChainDefers(chains: map<Id, ProcessingChain>, n: nat, c: ProcessingChain, bound: nat)
    requires Ordering.Keyed(chains, n, Storage.ChainIdent)
    requires c.id == n && c.isActive && n < bound
    ensures Ordering.Keyed(chains[n := c], bound, Storage.ChainIdent)
    ensures var before := Storage.ActiveChain(chains, n, c.sessionId);
      Storage.ActiveChain(chains[n := c], bound, c.sessionId) == if before.Some? then before else Some(c)
  {
    var after := chains[n := c];
    assert Ordering.Keyed(after, bound, Storage.ChainIdent);
    var before := Storage.ActiveChain(chains, n, c.sessionId);
    var now := Storage.ActiveChain(after, bound, c.sessionId);
    Ordering.AddedValues(chains, n, c);
    assert c in after.Values;
    var j :| j in after && after[j] == now.value;
    if before.Some? {
      var i :| i in chains && chains[i] == before.value;
      assert after[i] == before.value;
      assert before.value in after.Values;
      assert now.value.id <= before.value.id;
      assert now.value != c;
      assert now.value in chains.Values;
      assert before.value.id <= now.value.id;
      assert i == before.value.id && j == now.value.id;
    } else {
      assert now.value !in chains.Values;
    }
  }

  /** When the session already had an active chain, generating leaves two active
      chains in it: the at-most-one-active rule of activation is not kept. */
  lemma GenerateBreaksOneActive(chains: map<Id, ProcessingChain>, n: nat, c: ProcessingChain)
    requires Ordering.Keyed(chains, n, Storage.ChainIdent)
    requires c.id == n && c.isActive
    requires Storage.ActiveChain(chains, n, c.sessionId).Some?
    ensures !Storage.AtMostOneActive(chains[n := c])
  {
    var a := Storage.ActiveChain(chains, n, c.sessionId).value;
    var i :| i in chains && chains[i] == a;
    var after := chains[n := c];
    assert after[i] == a && after[n] == c && i != n;
  }

  /** What `/api/chains/generate` does with the generator's reply: a thrown call is a 500
      before anything is stored; otherwise the new chain is stored active, then one effect
      per draft, and a broken `effects` value is a 500 after that. */
  method StoreDrafts(store: Storage.MemStorage, sessionId: Id, reply: GenReply)
    returns (r: Outcome<(ProcessingChain, seq<Effect>)>)
    requires store.Valid()
    modifies store
    ensures store.Valid()
    ensures r.Done? <==> reply.GenEffects?
    ensures r.InternalError? <==> !reply.GenEffects?
    ensures reply.GenThrew? ==>
      && store.processingChains == old(store.processingChains) && store.effects == old(store.effects)
      && store.nextId == old(store.nextId) && store.clock == old(store.clock)
    ensures !reply.GenThrew? ==>
      var c := ProcessingChain(old(store.nextId), sessionId, ChainName, ChainMode, true, old(store.clock));
      var es := Made(reply.drafts, c.id, c.id + 1);
      && (r.Done? ==> r.value == (c, es))
      && store.processingChains == old(store.processingChains)[c.id := c]
      && Extended(store.effects, old(store.effects), c.id + 1, es)
      && store.nextId == c.id + 1 + |reply.drafts| && store.clock == old(store.clock) + 1
    ensures store.vocalSessions == old(store.vocalSessions)
    ensures store.snapshots == old(store.snapshots) && store.chatMessages == old(store.chatMessages)
  {
    if reply.GenThrew? {
      r := InternalError;
    } else {
      var chain := store.CreateProcessingChain(NewProcessingChain(sessionId, ChainName, ChainMode, Some(true)));
      var effects := AddEffects(store, chain.id, reply.drafts);
      r := if reply.GenBroken? then InternalError else Done((chain, effects));
    }
  }

  /** `POST /api/chains/generate`. A missing session is a 404 before anything is stored;
      otherwise the generator's reply, or the default drafts, are stored as `StoreDrafts` says. */
  method GenerateChain(store: Storage.MemStorage, sessionId: Id, goals: string, mode: Option<string>,
                       openai: Option<Generator>)
    returns (r: Outcome<(ProcessingChain, seq<Effect>)>)
    requires store.Valid()
    modifies store
    ensures store.Valid()
    ensures r.NotFound? <==> sessionId !in old(store.vocalSessions)
    ensures sessionId in old(store.vocalSessions) ==>
      var reply := Drafts(mode.GetOr(DefaultMode), openai, old(store.vocalSessions)[sessionId].analysis, goals);
      && (r.Done? <==> reply.GenEffects?)
      && (r.InternalError? <==> !reply.GenEffects?)
      && (reply.GenThrew? ==>
            && store.processingChains == old(store.processingChains) && store.effects == old(store.effects)
            && store.nextId == old(store.nextId) && store.clock == old(store.clock))
      && (!reply.GenThrew? ==>
            var c := ProcessingChain(old(store.nextId), sessionId, ChainName, ChainMode, true, old(store.clock));
            var es := Made(reply.drafts, c.id, c.id + 1);
            && (r.Done? ==> r.value == (c, es))
            && store.processingChains == old(store.processingChains)[c.id := c]
            && Extended(store.effects, old(store.effects), c.id + 1, es)
            && store.nextId == c.id + 1 + |reply.drafts| && store.clock == old(store.clock) + 1)
    ensures r.NotFound? ==>
      && store.processingChains == old(store.processingChains) && store.effects == old(store.effects)
      && store.nextId == old(store.nextId) && store.clock == old(store.clock)
    ensures store.vocalSessions == old(store.vocalSessions)
    ensures store.snapshots == old(store.snapshots) && store.chatMessages == old(store.chatMessages)
  {
    var m := mode.GetOr(DefaultMode);
    var session := store.GetVocalSession(sessionId);
    if session.None? {
      return NotFound;
    }
    var reply := Drafts(m, openai, session.value.analysis, goals);
    r := StoreDrafts(store, sessionId, reply);
  }
}
