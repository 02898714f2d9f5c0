/** Record shapes of the five stored entity kinds and of their insert inputs
    (server/storage.ts over shared/schema.ts). */
module Schema {

  /** Identity of a stored record; the store hands them out from a counter. */
  type Id = nat

  /** A value that may be absent: a JavaScript `undefined`, or an omitted optional field. */
  datatype Option<T> = None | Some(value: T) {
    /** The `x ?? default` of the source. */
    function GetOr(default: T): T {
      if Some? then value else default
    }
  }

  /** `Map.get`: the value under `k`, or `None`. */
  function Lookup<T>(m: map<Id, T>, k: Id): (r: Option<T>)
    ensures r.Some? <==> k in m
    ensures r.Some? ==> r.value == m[k]
  {
    if k in m then Some(m[k]) else None
  }

  /** An opaque JSON payload (a `jsonb` column). `JNull` is JSON `null`. */
  datatype Json =
    | JNull
    | JBool(b: bool)
    | JNum(n: real)
    | JStr(s: string)
    | JArray(items: seq<Json>)
    | JObject(fields: seq<(string, Json)>)

  /** Effect parameters: the entries of a JSON object, in `Object.entries` order. */
  type Params = seq<(string, Json)>

  datatype VocalSession = VocalSession(
    id: Id,
    fileName: string,
    filePath: string,
    duration: real,
    sampleRate: int,
    bitDepth: int,
    analysis: Json,
    createdAt: nat)

  /** `InsertVocalSession`: `analysis` may be omitted. */
  datatype NewVocalSession = NewVocalSession(
    fileName: string,
    filePath: string,
    duration: real,
    sampleRate: int,
    bitDepth: int,
    analysis: Option<Json>)

  datatype ProcessingChain = ProcessingChain(
    id: Id,
    sessionId: Id,
    name: string,
    mode: string,
    isActive: bool,
    createdAt: nat)

  /** `InsertProcessingChain`: `isActive` may be omitted. */
  datatype NewProcessingChain = NewProcessingChain(
    sessionId: Id,
    name: string,
    mode: string,
    isActive: Option<bool>)

  /** An effect of a chain; `effectType` is the source's `type` field. */
  datatype Effect = Effect(
    id: Id,
    chainId: Id,
    name: string,
    effectType: string,
    order: int,
    bypassed: bool,
    parameters: Params)

  /** `InsertEffect`: `bypassed` may be omitted. */
  datatype NewEffect = NewEffect(
    chainId: Id,
    name: string,
    effectType: string,
    order: int,
    bypassed: Option<bool>,
    parameters: Params)

  /** `Partial<InsertEffect>`: every field may be omitted. */
  datatype EffectPatch = EffectPatch(
    chainId: Option<Id>,
    name: Option<string>,
    effectType: Option<string>,
    order: Option<int>,
    bypassed: Option<bool>,
    parameters: Option<Params>)

  datatype Snapshot = Snapshot(
    id: Id,
    sessionId: Id,
    labelText: string,
    chainData: Json,
    createdAt: nat)

  datatype NewSnapshot = NewSnapshot(
    sessionId: Id,
    labelText: string,
    chainData: Json)

  datatype Role = User | Assistant

  /** `model` is nullable: `None` stands for `null`. */
  datatype ChatMessage = ChatMessage(
    id: Id,
    sessionId: Id,
    role: Role,
    content: string,
    model: Option<string>,
    createdAt: nat)

  /** `InsertChatMessage`: `model` may be omitted or null, both `None`. */
  datatype NewChatMessage = NewChatMessage(
    sessionId: Id,
    role: Role,
    content: string,
    model: Option<string>)

  /** How a request handler ends once the HTTP layer is stripped. */
  datatype Outcome<T> = Done(value: T) | NotFound | InternalError
}
