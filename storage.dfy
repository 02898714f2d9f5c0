/** The in-memory entity store `MemStorage` (server/storage.ts) and the pure
    rules its updates follow. */
module Storage {
  import opened Schema
  import Ordering

  // How each record kind is keyed, grouped and sorted by the list queries.

  function SessionIdent(s: VocalSession): nat { s.id }
  /** `getAllVocalSessions` sorts by `b.createdAt - a.createdAt`: newest first. */
  function SessionNewestFirst(s: VocalSession): int { -(s.createdAt as int) }

  function ChainIdent(c: ProcessingChain): nat { c.id }
  function ChainSession(c: ProcessingChain): nat { c.sessionId }
  function ChainNewestFirst(c: ProcessingChain): int { -(c.createdAt as int) }

  function EffectIdent(e: Effect): nat { e.id }
  function EffectChain(e: Effect): nat { e.chainId }
  function EffectOrder(e: Effect): int { e.order }

  function SessionStamp(s: VocalSession): int { s.createdAt }
  function ChainStamp(c: ProcessingChain): int { c.createdAt }

  function SnapshotIdent(s: Snapshot): nat { s.id }
  function SnapshotSession(s: Snapshot): nat { s.sessionId }
  function SnapshotOldestFirst(s: Snapshot): int { s.createdAt }

  function MessageIdent(m: ChatMessage): nat { m.id }
  function MessageSession(m: ChatMessage): nat { m.sessionId }
  function MessageOldestFirst(m: ChatMessage): int { m.createdAt }

  /** The messages of one session, oldest first, as `getChatMessagesBySession` lists them. */
  function SessionMessages(messages: map<Id, ChatMessage>, n: nat, sessionId: Id): seq<ChatMessage>
    requires Ordering.Keyed(messages, n, MessageIdent)
  {
    Ordering.Listing(messages, n, MessageSession, sessionId, MessageOldestFirst, MessageIdent)
  }

  /** The effects of one chain, by `order`, as `getEffectsByChain` lists them. */
  function ChainEffects(effects: map<Id, Effect>, n: nat, chainId: Id): seq<Effect>
    requires Ordering.Keyed(effects, n, EffectIdent)
  {
    Ordering.Listing(effects, n, EffectChain, chainId, EffectOrder, EffectIdent)
  }

  /** The chains map after `updateChainActiveStatus(chainId, isActive)`. */
  function Activated(chains: map<Id, ProcessingChain>, chainId: Id, isActive: bool): map<Id, ProcessingChain>
    requires chainId in chains
  {
    map k | k in chains ::
      if k == chainId then chains[k].(isActive := isActive)
      else if isActive && chains[k].sessionId == chains[chainId].sessionId then chains[k].(isActive := false)
      else chains[k]
  }

  /** No session has two active chains. */
  ghost predicate AtMostOneActive(chains: map<Id, ProcessingChain>) {
    forall a, b :: (a in chains && b in chains && chains[a].isActive && chains[b].isActive
      && chains[a].sessionId == chains[b].sessionId) ==> a == b
  }

  /** Activating a chain switches it on, switches off every other chain of its session,
      touches no other session's chains and no field but `isActive`. */
  lemma ActivateSwitchesSiblingsOff(chains: map<Id, ProcessingChain>, chainId: Id)
    requires chainId in chains
    ensures var after := Activated(chains, chainId, true);
      && after.Keys == chains.Keys
      && after[chainId].isActive
      && (forall k :: k in chains && k != chainId && chains[k].sessionId == chains[chainId].sessionId
            ==> !after[k].isActive)
      && (forall k :: k in chains && chains[k].sessionId != chains[chainId].sessionId
            ==> after[k] == chains[k])
      && (forall k :: k in chains ==> after[k] == chains[k].(isActive := after[k].isActive))
  {
  }

  /** Switching a chain off changes that chain alone. */
  lemma DeactivateChangesOnlyTarget(chains: map<Id, ProcessingChain>, chainId: Id)
    requires chainId in chains
    ensures Activated(chains, chainId, false) == chains[chainId := chains[chainId].(isActive := false)]
  {
  }

  /** Activating the same chain twice is the same as activating it once. */
  lemma ActivateIdempotent(chains: map<Id, ProcessingChain>, chainId: Id)
    requires chainId in chains
    ensures chainId in Activated(chains, chainId, true)
    ensures Activated(Activated(chains, chainId, true), chainId, true) == Activated(chains, chainId, true)
  {
    var once := Activated(chains, chainId, true);
    var twice := Activated(once, chainId, true);
    assert once[chainId].sessionId == chains[chainId].sessionId;
    forall k | k in chains ensures twice[k] == once[k] {
    }
  }

  /** After activating `c`, `c` is the one active chain of its session; and activation
      keeps "at most one active chain per session" for every session. */
  lemma ActivateKeepsOneActive(chains: map<Id, ProcessingChain>, chainId: Id)
    requires chainId in chains
    ensures var after := Activated(chains, chainId, true);
      forall k :: k in after && after[k].sessionId == chains[chainId].sessionId && after[k].isActive
        ==> k == chainId
    ensures AtMostOneActive(chains) ==> AtMostOneActive(Activated(chains, chainId, true))
  {
    var after := Activated(chains, chainId, true);
    if AtMostOneActive(chains) {
      forall a, b | a in after && b in after && after[a].isActive && after[b].isActive
        && after[a].sessionId == after[b].sessionId
        ensures a == b
      {
        assert after[a].sessionId == chains[a].sessionId && after[b].sessionId == chains[b].sessionId;
        if chains[a].sessionId != chains[chainId].sessionId {
          assert chains[a].isActive && chains[b].isActive;
        }
      }
    }
  }

  /** Switching a chain off keeps "at most one active chain per session". */
  lemma DeactivateKeepsOneActive(chains: map<Id, ProcessingChain>, chainId: Id)
    requires chainId in chains && AtMostOneActive(chains)
    ensures AtMostOneActive(Activated(chains, chainId, false))
  {
    var after := Activated(chains, chainId, false);
    forall a, b | a in after && b in after && after[a].isActive && after[b].isActive
      && after[a].sessionId == after[b].sessionId
      ensures a == b
    {
      assert chains[a].isActive && chains[b].isActive;
    }
  }

  /** Activating `c1` and then `c2` of the same session leaves `c2` active and `c1` not. */
  lemma ActivateTwoInTurn(chains: map<Id, ProcessingChain>, c1: Id, c2: Id)
    requires c1 in chains && c2 in chains && c1 != c2
    requires chains[c1].sessionId == chains[c2].sessionId
    ensures c2 in Activated(chains, c1, true)
    ensures var after := Activated(Activated(chains, c1, true), c2, true);
      after[c2].isActive && !after[c1].isActive
  {
    var mid := Activated(chains, c1, true);
    assert mid[c2].sessionId == mid[c1].sessionId;
  }

  /** `{ ...effect, ...updates }`: every supplied field overwrites, the id stays. */
  function Patched(e: Effect, p: EffectPatch): (r: Effect)
    ensures r.id == e.id
  {
    Effect(
      e.id,
      p.chainId.GetOr(e.chainId),
      p.name.GetOr(e.name),
      p.effectType.GetOr(e.effectType),
      p.order.GetOr(e.order),
      p.bypassed.GetOr(e.bypassed),
      p.parameters.GetOr(e.parameters))
  }

  /** The patch that supplies no field. */
  const NoChange := EffectPatch(None, None, None, None, None, None)

  /** Supplying only `bypassed` changes `bypassed` and nothing else; an empty patch changes nothing. */
  lemma PatchTouchesOnlySuppliedFields(e: Effect, b: bool)
    ensures Patched(e, NoChange.(bypassed := Some(b))) == e.(bypassed := b)
    ensures Patched(e, NoChange) == e
  {
  }

  /** Applying the same patch twice is applying it once. */
  lemma PatchIdempotent(e: Effect, p: EffectPatch)
    ensures Patched(Patched(e, p), p) == Patched(e, p)
  {
  }

  /** The other chains of `chain`'s session: the filter in `updateChainActiveStatus`. */
  function Siblings(cs: seq<ProcessingChain>, chain: ProcessingChain): (r: seq<ProcessingChain>)
    ensures forall c :: c in r <==> c in cs && c.sessionId == chain.sessionId && c.id != chain.id
  {
    if cs == [] then []
    else (if cs[0].sessionId == chain.sessionId && cs[0].id != chain.id then [cs[0]] else [])
         + Siblings(cs[1..], chain)
  }

  /** `.find(chain => chain.sessionId === sessionId && chain.isActive)`. */
  function FirstActive(cs: seq<ProcessingChain>, sessionId: Id): (r: Option<ProcessingChain>)
    ensures r.None? <==> forall c :: c in cs ==> !(c.sessionId == sessionId && c.isActive)
    ensures r.Some? ==> r.value in cs && r.value.sessionId == sessionId && r.value.isActive
  {
    if cs == [] then None
    else if cs[0].sessionId == sessionId && cs[0].isActive then Some(cs[0])
    else FirstActive(cs[1..], sessionId)
  }


  /** Switching `isActive` flags keeps every chain under its own id with its own stamp. */
  lemma ActivatedKeeps(chains: map<Id, ProcessingChain>, n: nat, clock: int, chainId: Id, isActive: bool)
    requires chainId in chains
    requires Ordering.Keyed(chains, n, ChainIdent) && Ordering.Stamped(chains, ChainStamp, clock)
    ensures Ordering.Keyed(Activated(chains, chainId, isActive), n, ChainIdent)
    ensures Ordering.Stamped(Activated(chains, chainId, isActive), ChainStamp, clock)
  {
    var after := Activated(chains, chainId, isActive);
    forall c | c in after.Values ensures ChainStamp(c) < clock {
      var k :| k in after && after[k] == c;
      assert chains[k] in chains.Values;
    }
  }

  /** The siblings of a stored chain are stored chains, and they are exactly the other
      chains of its session. */
  lemma SiblingsOfKeyed(chains: map<Id, ProcessingChain>, n: nat, chainId: Id)
    requires chainId in chains && Ordering.Keyed(chains, n, ChainIdent)
    ensures var siblings := Siblings(Ordering.Values(chains, n), chains[chainId]);
      && (forall j :: 0 <= j < |siblings| ==> siblings[j].id in chains && chains[siblings[j].id] == siblings[j])
      && (forall k :: k in chains ==>
            (chains[k] in siblings <==> k != chainId && chains[k].sessionId == chains[chainId].sessionId))
  {
    var siblings := Siblings(Ordering.Values(chains, n), chains[chainId]);
    Ordering.ValuesOfKeyed(chains, n, ChainIdent);
    forall j | 0 <= j < |siblings|
      ensures siblings[j].id in chains && chains[siblings[j].id] == siblings[j]
    {
      assert siblings[j] in siblings;
    }
    forall k | k in chains
      ensures chains[k] in siblings <==> k != chainId && chains[k].sessionId == chains[chainId].sessionId
    {
      assert chains[k] in chains.Values;
    }
  }

  /** Switching off exactly the chains `off` selects, when it selects the other chains of
      the session, and then setting the chain itself is `Activated`. */
  lemma SelectedOffIsActivated(chains: map<Id, ProcessingChain>, chainId: Id, switched: map<Id, ProcessingChain>, off: Id -> bool)
    requires chainId in chains && switched.Keys == chains.Keys
    requires forall k :: k in chains ==> (off(k) <==> k != chainId && chains[k].sessionId == chains[chainId].sessionId)
    requires forall k :: k in chains ==> switched[k] == if off(k) then chains[k].(isActive := false) else chains[k]
    ensures switched[chainId := chains[chainId].(isActive := true)] == Activated(chains, chainId, true)
  {
    var got := switched[chainId := chains[chainId].(isActive := true)];
    var want := Activated(chains, chainId, true);
    assert got.Keys == want.Keys;
    assert forall k :: k in want ==> got[k] == want[k];
  }

  /** Switching every sibling off and then setting the chain itself is `Activated`. */
  lemma SwitchedOffIsActivated(chains: map<Id, ProcessingChain>, n: nat, chainId: Id, switched: map<Id, ProcessingChain>)
    requires chainId in chains && Ordering.Keyed(chains, n, ChainIdent)
    requires switched.Keys == chains.Keys
    requires forall k :: k in chains ==>
               switched[k] == if chains[k] in Siblings(Ordering.Values(chains, n), chains[chainId])
                              then chains[k].(isActive := false)
                              else chains[k]
    ensures switched[chainId := chains[chainId].(isActive := true)] == Activated(chains, chainId, true)
  {
    SiblingsOfKeyed(chains, n, chainId);
    var siblings := Siblings(Ordering.Values(chains, n), chains[chainId]);
    SelectedOffIsActivated(chains, chainId, switched, k => k in chains && chains[k] in siblings);
  }

  /** Over chains in increasing id order, `FirstActive` finds the active chain of the
      session with the lowest id. */
  lemma {:induction false} FirstActiveLowest(cs: seq<ProcessingChain>, sessionId: Id)
    requires Ordering.Increasing(cs, ChainIdent)
    ensures var r := FirstActive(cs, sessionId);
      r.Some? ==> forall c :: c in cs && c.sessionId == sessionId && c.isActive ==> r.value.id <= c.id
  {
    if cs != [] {
      var tail := cs[1..];
      assert forall c :: c in cs && c != cs[0] ==> c in tail;
      if cs[0].sessionId == sessionId && cs[0].isActive {
        forall c | c in tail ensures cs[0].id < c.id {
          var j :| 0 <= j < |tail| && tail[j] == c;
          assert ChainIdent(cs[0]) < ChainIdent(cs[j + 1]);
        }
      } else {
        assert Ordering.Increasing(tail, ChainIdent) by {
          forall i, j | 0 <= i < j < |tail| ensures ChainIdent(tail[i]) < ChainIdent(tail[j]) {
            assert tail[i] == cs[i + 1] && tail[j] == cs[j + 1];
          }
        }
        FirstActiveLowest(tail, sessionId);
      }
    }
  }

  /** Over the stored chains in id order, `FirstActive` finds the active chain of the session
      with the lowest id, and finds none exactly when the session has no active chain. */
  function ActiveChain(chains: map<Id, ProcessingChain>, n: nat, sessionId: Id): (r: Option<ProcessingChain>)
    requires Ordering.Keyed(chains, n, ChainIdent)
    ensures r.None? <==> forall c :: c in chains.Values ==> !(c.sessionId == sessionId && c.isActive)
    ensures r.Some? ==> && r.value in chains.Values
                        && r.value.sessionId == sessionId && r.value.isActive
                        && forall c :: c in chains.Values && c.sessionId == sessionId && c.isActive
                             ==> r.value.id <= c.id
  {
    Ordering.ValuesOfKeyed(chains, n, ChainIdent);
    FirstActiveLowest(Ordering.Values(chains, n), sessionId);
    FirstActive(Ordering.Values(chains, n), sessionId)
  }

  // What storing one fresh record does to its map and to the listings over it.

  lemma SessionAdded(m: map<Id, VocalSession>, n: nat, clock: int, x: VocalSession)
    requires Ordering.Keyed(m, n, SessionIdent) && Ordering.Stamped(m, SessionStamp, clock)
    requires x.id == n && x.createdAt == clock
    ensures Ordering.Keyed(m[n := x], n + 1, SessionIdent)
    ensures Ordering.Stamped(m[n := x], SessionStamp, clock + 1)
    ensures Ordering.Ranked(m[n := x], n + 1, SessionNewestFirst, SessionIdent)
         == [x] + Ordering.Ranked(m, n, SessionNewestFirst, SessionIdent)
  {
    assert n !in m;
    Ordering.StampedAdd(m, n, x, SessionStamp, clock);
    assert forall y :: y in m.Values ==> SessionStamp(y) < clock;
    Ordering.RankedAddFirst(m, n, x, SessionNewestFirst, SessionIdent);
  }

  lemma ChainAdded(m: map<Id, ProcessingChain>, n: nat, clock: int, x: ProcessingChain)
    requires Ordering.Keyed(m, n, ChainIdent) && Ordering.Stamped(m, ChainStamp, clock)
    requires x.id == n && x.createdAt == clock
    ensures Ordering.Keyed(m[n := x], n + 1, ChainIdent)
    ensures Ordering.Stamped(m[n := x], ChainStamp, clock + 1)
    ensures forall sid :: Ordering.Listing(m[n := x], n + 1, ChainSession, sid, ChainNewestFirst, ChainIdent)
                           == (if sid == x.sessionId then [x] else []) + Ordering.Listing(m, n, ChainSession, sid, ChainNewestFirst, ChainIdent)
  {
    assert n !in m;
    Ordering.StampedAdd(m, n, x, ChainStamp, clock);
    assert forall y :: y in m.Values ==> ChainStamp(y) < clock;
    forall sid
      ensures Ordering.Listing(m[n := x], n + 1, ChainSession, sid, ChainNewestFirst, ChainIdent)
           == (if sid == x.sessionId then [x] else []) + Ordering.Listing(m, n, ChainSession, sid, ChainNewestFirst, ChainIdent)
    {
      Ordering.ListingAddFirst(m, n, x, ChainSession, sid, ChainNewestFirst, ChainIdent);
    }
  }

  lemma SnapshotAdded(m: map<Id, Snapshot>, n: nat, clock: int, x: Snapshot)
    requires Ordering.Keyed(m, n, SnapshotIdent) && Ordering.Stamped(m, SnapshotOldestFirst, clock)
    requires x.id == n && x.createdAt == clock
    ensures Ordering.Keyed(m[n := x], n + 1, SnapshotIdent)
    ensures Ordering.Stamped(m[n := x], SnapshotOldestFirst, clock + 1)
    ensures forall sid :: Ordering.Listing(m[n := x], n + 1, SnapshotSession, sid, SnapshotOldestFirst, SnapshotIdent)
                           == Ordering.Listing(m, n, SnapshotSession, sid, SnapshotOldestFirst, SnapshotIdent) + (if sid == x.sessionId then [x] else [])
  {
    assert n !in m;
    Ordering.StampedAdd(m, n, x, SnapshotOldestFirst, clock);
    forall sid
      ensures Ordering.Listing(m[n := x], n + 1, SnapshotSession, sid, SnapshotOldestFirst, SnapshotIdent)
           == Ordering.Listing(m, n, SnapshotSession, sid, SnapshotOldestFirst, SnapshotIdent) + (if sid == x.sessionId then [x] else [])
    {
      Ordering.ListingAddLast(m, n, x, SnapshotSession, sid, SnapshotOldestFirst, SnapshotIdent);
    }
  }

  lemma MessageAdded(m: map<Id, ChatMessage>, n: nat, clock: int, x: ChatMessage)
    requires Ordering.Keyed(m, n, MessageIdent) && Ordering.Stamped(m, MessageOldestFirst, clock)
    requires x.id == n && x.createdAt == clock
    ensures Ordering.Keyed(m[n := x], n + 1, MessageIdent)
    ensures Ordering.Stamped(m[n := x], MessageOldestFirst, clock + 1)
    ensures forall sid :: Ordering.Listing(m[n := x], n + 1, MessageSession, sid, MessageOldestFirst, MessageIdent)
                           == Ordering.Listing(m, n, MessageSession, sid, MessageOldestFirst, MessageIdent) + (if sid == x.sessionId then [x] else [])
  {
    assert n !in m;
    Ordering.StampedAdd(m, n, x, MessageOldestFirst, clock);
    forall sid
      ensures Ordering.Listing(m[n := x], n + 1, MessageSession, sid, MessageOldestFirst, MessageIdent)
           == Ordering.Listing(m, n, MessageSession, sid, MessageOldestFirst, MessageIdent) + (if sid == x.sessionId then [x] else [])
    {
      Ordering.ListingAddLast(m, n, x, MessageSession, sid, MessageOldestFirst, MessageIdent);
    }
  }

  class MemStorage {
    var vocalSessions: map<Id, VocalSession>
    var processingChains: map<Id, ProcessingChain>
    var effects: map<Id, Effect>
    var snapshots: map<Id, Snapshot>
    var chatMessages: map<Id, ChatMessage>
    /** The fresh-id supply that stands for `randomUUID`: every id handed out is below it. */
    var nextId: nat
    /** The clock that stands for `new Date()`: every stamp handed out is below it. */
    var clock: nat

    ghost predicate Valid()
      reads this
    {
      && Ordering.Keyed(vocalSessions, nextId, SessionIdent)
      && Ordering.Keyed(processingChains, nextId, ChainIdent)
      && Ordering.Keyed(effects, nextId, EffectIdent)
      && Ordering.Keyed(snapshots, nextId, SnapshotIdent)
      && Ordering.Keyed(chatMessages, nextId, MessageIdent)
      && Ordering.Stamped(vocalSessions, SessionStamp, clock)
      && Ordering.Stamped(processingChains, ChainStamp, clock)
      && Ordering.Stamped(snapshots, SnapshotOldestFirst, clock)
      && Ordering.Stamped(chatMessages, MessageOldestFirst, clock)
    }

    constructor ()
      ensures Valid()
      ensures vocalSessions == map[] && processingChains == map[] && effects == map[]
      ensures snapshots == map[] && chatMessages == map[]
    {
      vocalSessions, processingChains, effects, snapshots, chatMessages := map[], map[], map[], map[], map[];
      nextId, clock := 0, 0;
    }

    // ---- sessions ----

    method CreateVocalSession(input: NewVocalSession) returns (session: VocalSession)
      requires Valid()
      modifies this
      ensures Valid()
      ensures session.id == old(nextId) && session.id !in old(vocalSessions) && nextId == old(nextId) + 1
      ensures session == VocalSession(session.id, input.fileName, input.filePath, input.duration,
        input.sampleRate, input.bitDepth, input.analysis.GetOr(JNull), old(clock))
      ensures clock == old(clock) + 1
      ensures vocalSessions == old(vocalSessions)[session.id := session]
      ensures processingChains == old(processingChains) && effects == old(effects)
      ensures snapshots == old(snapshots) && chatMessages == old(chatMessages)
      ensures GetAllVocalSessions() == [session] + old(GetAllVocalSessions())
    {
      session := VocalSession(nextId, input.fileName, input.filePath, input.duration,
        input.sampleRate, input.bitDepth, input.analysis.GetOr(JNull), clock);
      SessionAdded(vocalSessions, nextId, clock, session);
      Ordering.KeyedGrow(processingChains, nextId, ChainIdent);
      Ordering.KeyedGrow(effects, nextId, EffectIdent);
      Ordering.KeyedGrow(snapshots, nextId, SnapshotIdent);
      Ordering.KeyedGrow(chatMessages, nextId, MessageIdent);
      Ordering.StampedLater(processingChains, ChainStamp, clock);
      Ordering.StampedLater(snapshots, SnapshotOldestFirst, clock);
      Ordering.StampedLater(chatMessages, MessageOldestFirst, clock);
      vocalSessions := vocalSessions[nextId := session];
      nextId, clock := nextId + 1, clock + 1;
    }

    function GetVocalSession(id: Id): (r: Option<VocalSession>)
      reads this
      ensures r.Some? <==> id in vocalSessions
      ensures r.Some? ==> r.value == vocalSessions[id]
    {
      Lookup(vocalSessions, id)
    }

    function GetAllVocalSessions(): (r: seq<VocalSession>)
      reads this
      requires Valid()
      ensures forall s :: s in r <==> s in vocalSessions.Values
      ensures forall i, j :: 0 <= i < j < |r| ==> r[i].createdAt >= r[j].createdAt
      ensures Ordering.Ascending(r, SessionNewestFirst, SessionIdent)
    {
      Ordering.Ranked(vocalSessions, nextId, SessionNewestFirst, SessionIdent)
    }

    method UpdateVocalSessionAnalysis(id: Id, analysis: Json) returns (r: Option<VocalSession>)
      requires Valid()
      modifies this
      ensures Valid()
      ensures id !in old(vocalSessions) ==> r == None && vocalSessions == old(vocalSessions)
      ensures id in old(vocalSessions) ==>
        && r == Some(old(vocalSessions)[id].(analysis := analysis))
        && vocalSessions == old(vocalSessions)[id := r.value]
      ensures processingChains == old(processingChains) && effects == old(effects)
      ensures snapshots == old(snapshots) && chatMessages == old(chatMessages)
      ensures nextId == old(nextId) && clock == old(clock)
    {
      if id !in vocalSessions {
        return None;
      }
      var updated := vocalSessions[id].(analysis := analysis);
      Ordering.ReplacedKeeps(vocalSessions, nextId, id, updated, SessionIdent, SessionStamp, clock);
      vocalSessions := vocalSessions[id := updated];
      r := Some(updated);
    }

    // ---- chains ----

    method CreateProcessingChain(input: NewProcessingChain) returns (chain: ProcessingChain)
      requires Valid()
      modifies this
      ensures Valid()
      ensures chain.id == old(nextId) && chain.id !in old(processingChains) && nextId == old(nextId) + 1
      ensures chain == ProcessingChain(chain.id, input.sessionId, input.name, input.mode,
        input.isActive.GetOr(false), old(clock))
      ensures clock == old(clock) + 1
      ensures processingChains == old(processingChains)[chain.id := chain]
      ensures vocalSessions == old(vocalSessions) && effects == old(effects)
      ensures snapshots == old(snapshots) && chatMessages == old(chatMessages)
      ensures forall sid {:trigger GetProcessingChainsBySession(sid)} :: GetProcessingChainsBySession(sid)
                         == (if sid == chain.sessionId then [chain] else []) + old(GetProcessingChainsBySession(sid))
    {
      chain := ProcessingChain(nextId, input.sessionId, input.name, input.mode,
        input.isActive.GetOr(false), clock);
      ChainAdded(processingChains, nextId, clock, chain);
      Ordering.KeyedGrow(vocalSessions, nextId, SessionIdent);
      Ordering.KeyedGrow(effects, nextId, EffectIdent);
      Ordering.KeyedGrow(snapshots, nextId, SnapshotIdent);
      Ordering.KeyedGrow(chatMessages, nextId, MessageIdent);
      Ordering.StampedLater(vocalSessions, SessionStamp, clock);
      Ordering.StampedLater(snapshots, SnapshotOldestFirst, clock);
      Ordering.StampedLater(chatMessages, MessageOldestFirst, clock);
      processingChains := processingChains[nextId := chain];
      nextId, clock := nextId + 1, clock + 1;
    }

    function GetProcessingChainsBySession(sessionId: Id): (r: seq<ProcessingChain>)
      reads this
      requires Valid()
      ensures forall c :: c in r <==> c in processingChains.Values && c.sessionId == sessionId
      ensures forall i, j :: 0 <= i < j < |r| ==> r[i].createdAt >= r[j].createdAt
      ensures Ordering.Ascending(r, ChainNewestFirst, ChainIdent)
    {
      Ordering.Listing(processingChains, nextId, ChainSession, sessionId, ChainNewestFirst, ChainIdent)
    }

    function GetActiveChain(sessionId: Id): (r: Option<ProcessingChain>)
      reads this
      requires Valid()
      ensures r.None? <==> forall c :: c in processingChains.Values ==> !(c.sessionId == sessionId && c.isActive)
      ensures r.Some? ==> && r.value in processingChains.Values
                          && r.value.sessionId == sessionId && r.value.isActive
                          && forall c :: c in processingChains.Values && c.sessionId == sessionId && c.isActive
                               ==> r.value.id <= c.id
    {
      ActiveChain(processingChains, nextId, sessionId)
    }

    method UpdateChainActiveStatus(chainId: Id, isActive: bool) returns (r: Option<ProcessingChain>)
      requires Valid()
      modifies this
      ensures Valid()
      ensures chainId !in old(processingChains) ==> r == None && processingChains == old(processingChains)
      ensures chainId in old(processingChains) ==>
        && r == Some(old(processingChains)[chainId].(isActive := isActive))
        && processingChains == Activated(old(processingChains), chainId, isActive)
      ensures vocalSessions == old(vocalSessions) && effects == old(effects)
      ensures snapshots == old(snapshots) && chatMessages == old(chatMessages)
      ensures nextId == old(nextId) && clock == old(clock)
    {
      if chainId !in processingChains {
        return None;
      }
      ghost var before := processingChains;
      var chain := processingChains[chainId];
      if isActive {
        var siblings := Siblings(Ordering.Values(processingChains, nextId), chain);
        SiblingsOfKeyed(processingChains, nextId, chainId);
        SwitchOff(siblings);
        SwitchedOffIsActivated(before, nextId, chainId, processingChains);
      } else {
        DeactivateChangesOnlyTarget(before, chainId);
      }
      var updated := chain.(isActive := isActive);
      processingChains := processingChains[chainId := updated];
      r := Some(updated);
      ActivatedKeeps(before, nextId, clock, chainId, isActive);
    }

    /** The `forEach` of `updateChainActiveStatus`: stores each given chain with `isActive` false. */
    method SwitchOff(siblings: seq<ProcessingChain>)
      requires Ordering.Keyed(processingChains, nextId, ChainIdent)
      requires forall j :: 0 <= j < |siblings| ==>
                 siblings[j].id in processingChains && processingChains[siblings[j].id] == siblings[j]
      modifies this
      ensures processingChains.Keys == old(processingChains).Keys
      ensures forall k :: k in old(processingChains) ==>
                processingChains[k] == if old(processingChains)[k] in siblings
                                       then old(processingChains)[k].(isActive := false)
                                       else old(processingChains)[k]
      ensures vocalSessions == old(vocalSessions) && effects == old(effects)
      ensures snapshots == old(snapshots) && chatMessages == old(chatMessages)
      ensures nextId == old(nextId) && clock == old(clock)
    {
      var i := 0;
      while i < |siblings|
        invariant 0 <= i <= |siblings|
        invariant processingChains.Keys == old(processingChains).Keys
        invariant forall k :: k in old(processingChains) ==>
                    processingChains[k] == if old(processingChains)[k] in siblings[..i]
                                           then old(processingChains)[k].(isActive := false)
                                           else old(processingChains)[k]
        invariant vocalSessions == old(vocalSessions) && effects == old(effects)
        invariant snapshots == old(snapshots) && chatMessages == old(chatMessages)
        invariant nextId == old(nextId) && clock == old(clock)
      {
        var c := siblings[i];
        assert siblings[..i + 1] == siblings[..i] + [c];
        assert forall k :: k in old(processingChains) && old(processingChains)[k] == c ==> k == c.id;
        processingChains := processingChains[c.id := c.(isActive := false)];
        i := i + 1;
      }
      assert siblings[..i] == siblings;
    }

    // ---- effects ----

    method CreateEffect(input: NewEffect) returns (effect: Effect)
      requires Valid()
      modifies this
      ensures Valid()
      ensures effect.id == old(nextId) && effect.id !in old(effects) && nextId == old(nextId) + 1
      ensures effect == Effect(effect.id, input.chainId, input.name, input.effectType, input.order,
        input.bypassed.GetOr(false), input.parameters)
      ensures effects == old(effects)[effect.id := effect]
      ensures vocalSessions == old(vocalSessions) && processingChains == old(processingChains)
      ensures snapshots == old(snapshots) && chatMessages == old(chatMessages)
      ensures clock == old(clock)
    {
      effect := Effect(nextId, input.chainId, input.name, input.effectType, input.order,
        input.bypassed.GetOr(false), input.parameters);
      assert nextId !in effects;
      assert Ordering.Keyed(effects[nextId := effect], nextId + 1, EffectIdent);
      Ordering.KeyedGrow(vocalSessions, nextId, SessionIdent);
      Ordering.KeyedGrow(processingChains, nextId, ChainIdent);
      Ordering.KeyedGrow(snapshots, nextId, SnapshotIdent);
      Ordering.KeyedGrow(chatMessages, nextId, MessageIdent);
      effects := effects[nextId := effect];
      nextId := nextId + 1;
    }

    function GetEffectsByChain(chainId: Id): (r: seq<Effect>)
      reads this
      requires Valid()
      ensures forall e :: e in r <==> e in effects.Values && e.chainId == chainId
      ensures forall i, j :: 0 <= i < j < |r| ==> r[i].order <= r[j].order
      ensures Ordering.Ascending(r, EffectOrder, EffectIdent)
    {
      ChainEffects(effects, nextId, chainId)
    }

    method UpdateEffect(id: Id, updates: EffectPatch) returns (r: Option<Effect>)
      requires Valid()
      modifies this
      ensures Valid()
      ensures id !in old(effects) ==> r == None && effects == old(effects)
      ensures id in old(effects) ==>
        && r == Some(Patched(old(effects)[id], updates))
        && effects == old(effects)[id := r.value]
      ensures updates.chainId.None? && updates.order.None? && id in old(effects) ==>
        forall cid {:trigger GetEffectsByChain(cid)} :: GetEffectsByChain(cid) == Ordering.Replace(old(GetEffectsByChain(cid)), old(effects)[id], r.value)
      ensures vocalSessions == old(vocalSessions) && processingChains == old(processingChains)
      ensures snapshots == old(snapshots) && chatMessages == old(chatMessages)
      ensures nextId == old(nextId) && clock == old(clock)
    {
      if id !in effects {
        return None;
      }
      var updated := Patched(effects[id], updates);
      if updates.chainId.None? && updates.order.None? {
        forall cid ensures Ordering.Listing(effects[id := updated], nextId, EffectChain, cid, EffectOrder, EffectIdent)
          == Ordering.Replace(Ordering.Listing(effects, nextId, EffectChain, cid, EffectOrder, EffectIdent), effects[id], updated)
        {
          Ordering.ListingReplace(effects, nextId, id, updated, EffectChain, cid, EffectOrder, EffectIdent);
        }
      }
      effects := effects[id := updated];
      r := Some(updated);
    }

    method DeleteEffect(id: Id) returns (existed: bool)
      requires Valid()
      modifies this
      ensures Valid()
      ensures existed == (id in old(effects))
      ensures effects == old(effects) - {id}
      ensures existed ==> forall cid {:trigger GetEffectsByChain(cid)} :: GetEffectsByChain(cid) == Ordering.Without(old(GetEffectsByChain(cid)), old(effects)[id])
      ensures vocalSessions == old(vocalSessions) && processingChains == old(processingChains)
      ensures snapshots == old(snapshots) && chatMessages == old(chatMessages)
      ensures nextId == old(nextId) && clock == old(clock)
    {
      existed := id in effects;
      if existed {
        forall cid ensures Ordering.Listing(effects - {id}, nextId, EffectChain, cid, EffectOrder, EffectIdent)
          == Ordering.Without(Ordering.Listing(effects, nextId, EffectChain, cid, EffectOrder, EffectIdent), effects[id])
        {
          Ordering.ListingRemove(effects, nextId, id, EffectChain, cid, EffectOrder, EffectIdent);
        }
      }
      effects := effects - {id};
    }

    // ---- snapshots ----

    method CreateSnapshot(input: NewSnapshot) returns (snapshot: Snapshot)
      requires Valid()
      modifies this
      ensures Valid()
      ensures snapshot.id == old(nextId) && snapshot.id !in old(snapshots) && nextId == old(nextId) + 1
      ensures snapshot == Snapshot(snapshot.id, input.sessionId, input.labelText, input.chainData, old(clock))
      ensures clock == old(clock) + 1
      ensures snapshots == old(snapshots)[snapshot.id := snapshot]
      ensures vocalSessions == old(vocalSessions) && processingChains == old(processingChains)
      ensures effects == old(effects) && chatMessages == old(chatMessages)
      ensures forall sid {:trigger GetSnapshotsBySession(sid)} :: GetSnapshotsBySession(sid)
                         == old(GetSnapshotsBySession(sid)) + (if sid == snapshot.sessionId then [snapshot] else [])
    {
      snapshot := Snapshot(nextId, input.sessionId, input.labelText, input.chainData, clock);
      SnapshotAdded(snapshots, nextId, clock, snapshot);
      Ordering.KeyedGrow(vocalSessions, nextId, SessionIdent);
      Ordering.KeyedGrow(processingChains, nextId, ChainIdent);
      Ordering.KeyedGrow(effects, nextId, EffectIdent);
      Ordering.KeyedGrow(chatMessages, nextId, MessageIdent);
      Ordering.StampedLater(vocalSessions, SessionStamp, clock);
      Ordering.StampedLater(processingChains, ChainStamp, clock);
      Ordering.StampedLater(chatMessages, MessageOldestFirst, clock);
      snapshots := snapshots[nextId := snapshot];
      nextId, clock := nextId + 1, clock + 1;
    }

    function GetSnapshotsBySession(sessionId: Id): (r: seq<Snapshot>)
      reads this
      requires Valid()
      ensures forall s :: s in r <==> s in snapshots.Values && s.sessionId == sessionId
      ensures forall i, j :: 0 <= i < j < |r| ==> r[i].createdAt <= r[j].createdAt
      ensures Ordering.Ascending(r, SnapshotOldestFirst, SnapshotIdent)
    {
      Ordering.Listing(snapshots, nextId, SnapshotSession, sessionId, SnapshotOldestFirst, SnapshotIdent)
    }

    // ---- chat messages ----

    method CreateChatMessage(input: NewChatMessage) returns (message: ChatMessage)
      requires Valid()
      modifies this
      ensures Valid()
      ensures message.id == old(nextId) && message.id !in old(chatMessages) && nextId == old(nextId) + 1
      ensures message == ChatMessage(message.id, input.sessionId, input.role, input.content, input.model, old(clock))
      ensures clock == old(clock) + 1
      ensures chatMessages == old(chatMessages)[message.id := message]
      ensures vocalSessions == old(vocalSessions) && processingChains == old(processingChains)
      ensures effects == old(effects) && snapshots == old(snapshots)
    {
      message := ChatMessage(nextId, input.sessionId, input.role, input.content, input.model, clock);
      MessageAdded(chatMessages, nextId, clock, message);
      Ordering.KeyedGrow(vocalSessions, nextId, SessionIdent);
      Ordering.KeyedGrow(processingChains, nextId, ChainIdent);
      Ordering.KeyedGrow(effects, nextId, EffectIdent);
      Ordering.KeyedGrow(snapshots, nextId, SnapshotIdent);
      Ordering.StampedLater(vocalSessions, SessionStamp, clock);
      Ordering.StampedLater(processingChains, ChainStamp, clock);
      Ordering.StampedLater(snapshots, SnapshotOldestFirst, clock);
      chatMessages := chatMessages[nextId := message];
      nextId, clock := nextId + 1, clock + 1;
    }

    function GetChatMessagesBySession(sessionId: Id): (r: seq<ChatMessage>)
      reads this
      requires Valid()
      ensures forall m :: m in r <==> m in chatMessages.Values && m.sessionId == sessionId
      ensures forall i, j :: 0 <= i < j < |r| ==> r[i].createdAt <= r[j].createdAt
      ensures Ordering.Ascending(r, MessageOldestFirst, MessageIdent)
    {
      SessionMessages(chatMessages, nextId, sessionId)
    }
  }
}
