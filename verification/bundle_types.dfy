// The campaign bundle document (internal/bundle/types.go) and the database rows it is
// written from and read into. Rows owned by exactly one parent are kept inside it: grants in
// their agent, aspects and tags in their node, pins in their map, messages in their planning
// thread, and lines, appearances and chunks in their voice session.
module BundleTypes {
  import opened Common

  // A stored row id. Export writes it as text through a rendering that is injective and never
  // empty (a UUID's canonical string); import mints ids that were never used before.
  type Id = nat
  type Render = Id -> string

  ghost predicate Faithful(render: Render) {
    && (forall i: Id :: render(i) != "")
    && (forall i: Id, j: Id :: render(i) == render(j) ==> i == j)
  }

  // ---- Voice JSON -------------------------------------------------------------------

  datatype Voice = Voice(providerId: string, voiceId: string, name: string, language: string,
                         settings: string, metadata: map<string, string>)

  const ZERO_VOICE := Voice("", "", "", "", "", map[])

  // The voice column: empty, a JSON object, or bytes that do not parse.
  datatype VoiceJson = Absent | Json(v: Voice) | Garbage

  function VoiceFromJson(raw: VoiceJson): Option<Voice> {
    match raw
    case Absent => Some(ZERO_VOICE)
    case Json(v) => Some(if v.settings == "null" then v.(settings := "") else v)
    case Garbage => None
  }

  // A nil Settings serialises as the JSON literal null.
  function VoiceToJson(v: Voice): VoiceJson {
    Json(if v.settings == "" then v.(settings := "null") else v)
  }

  // ---- The document -----------------------------------------------------------------

  datatype Grant = Grant(toolName: string, config: Option<string>)

  datatype Agent = Agent(id: string, role: string, name: string, title: string, persona: string,
                         voice: VoiceJson, addressOnly: bool, aliases: seq<string>, grants: seq<Grant>)

  datatype Aspect = Aspect(key: string, value: string, gmPrivate: bool)

  datatype Node = Node(id: string, kind: string, name: string, body: string, gmPrivate: bool,
                       agentId: string, aspects: seq<Aspect>, tags: seq<string>)

  datatype Edge = Edge(from: string, to: string, kind: string, note: string, disposition: int)

  datatype Character = Character(name: string, aliases: seq<string>, discordUserId: string)

  type Bytes = seq<bv8>

  // ImageBase64: empty, text that decodes to the given bytes, or text that does not decode.
  datatype Base64 = Empty | Encoded(data: Bytes) | Corrupt

  function EncodeBase64(data: Bytes): Base64 {
    if data == [] then Empty else Encoded(data)
  }

  function DecodeBase64(text: Base64): Option<Bytes> {
    match text
    case Empty => Some([])
    case Encoded(data) => Some(data)
    case Corrupt => None
  }

  datatype Pin = Pin(nodeId: string, x: real, y: real, labelOverride: string, gmPrivate: bool)

  datatype Map = Map(id: string, name: string, widthPx: int, heightPx: int, gmPrivate: bool,
                     parentMapId: string, anchorNodeId: string,
                     contentType: string, image: Base64, pins: seq<Pin>)

  datatype Board = Board(name: string, nodeIds: seq<string>)

  datatype Message = Message(role: string, content: string)

  datatype Thread = Thread(title: string, messages: seq<Message>)

  datatype Line = Line(lineId: string, seqNo: int, who: string, tag: string, kind: string,
                       ts: Time, text: string, speaker: string)

  datatype Chunk = Chunk(content: string, speakers: seq<string>, participants: seq<string>, startedAt: Time)

  datatype Appearance = Appearance(nodeId: string, lineId: string, at: Time)

  datatype Session = Session(id: string, startedAt: Time, endedAt: Option<Time>, status: string,
                             lineCount: int, endReason: Option<string>, lines: seq<Line>,
                             chunks: seq<Chunk>, appearances: seq<Appearance>)

  datatype Bundle = Bundle(formatVersion: int, name: string, system: string, language: string,
                           agents: seq<Agent>, nodes: seq<Node>, edges: seq<Edge>,
                           characters: seq<Character>, maps: seq<Map>, boards: seq<Board>,
                           threads: seq<Thread>, history: Option<seq<Session>>)

  const FORMAT_VERSION := 3
  const MIN_SUPPORTED_VERSION := 1

  // ---- Rows -------------------------------------------------------------------------

  datatype Role = Butler | NonPlayer

  function RoleText(r: Role): string {
    match r
    case Butler => "butler"
    case NonPlayer => "character"
  }

  datatype CampaignRow = CampaignRow(name: string, system: string, language: string)

  datatype AgentRow = AgentRow(role: Role, name: string, title: string, persona: string,
                               voice: VoiceJson, addressOnly: bool, aliases: seq<string>,
                               grants: map<string, Option<string>>)

  datatype NodeRow = NodeRow(kind: string, name: string, body: string, gmPrivate: bool,
                             agent: Option<Id>, aspects: seq<Aspect>, tags: seq<string>)

  datatype EdgeRow = EdgeRow(from: Id, to: Id, kind: string, note: string, disposition: int)

  datatype PinRow = PinRow(node: Id, x: real, y: real, labelOverride: string, gmPrivate: bool)

  // blobKey None is the empty key; Some(u) is the key minted around the id u.
  datatype MapRow = MapRow(name: string, blobKey: Option<Id>, widthPx: int, heightPx: int,
                           parent: Option<Id>, anchor: Option<Id>, gmPrivate: bool, pins: seq<PinRow>)

  datatype BoardRow = BoardRow(name: string, nodes: seq<Id>)

  datatype Status = Running | Ended | Failed

  function StatusText(s: Status): string {
    match s
    case Running => "running"
    case Ended => "ended"
    case Failed => "failed"
  }

  datatype ChunkRow = ChunkRow(content: string, speakers: seq<string>, participants: seq<Id>, startedAt: Time)

  // lines is keyed by the replay key within the session, appearances by (node, line).
  datatype SessionRow = SessionRow(startedAt: Time, endedAt: Option<Time>, status: Status,
                                   lineCount: int, endReason: Option<string>,
                                   lines: map<string, Line>, chunks: seq<ChunkRow>,
                                   appearances: map<(Id, string), Time>)

  datatype Image = Image(contentType: string, data: Bytes)

  // A row together with the campaign it belongs to.
  datatype Owned<+R> = Owned(campaign: Id, row: R)

  type Table<R> = map<Id, Owned<R>>

  // Every id in use, and every campaign a row belongs to, is below bound.
  ghost predicate Fresh<R>(t: Table<R>, bound: Id) {
    forall i :: i in t ==> i < bound && t[i].campaign < bound
  }

  ghost predicate Below<R>(t: map<Id, R>, bound: Id) {
    forall i :: i in t ==> i < bound
  }

  // A database state. Minting is next++, so it is fresh in a valid state.
  datatype Db = Db(next: Id, campaigns: map<Id, CampaignRow>, agents: Table<AgentRow>,
                   nodes: Table<NodeRow>, edges: Table<EdgeRow>, characters: Table<Character>,
                   maps: Table<MapRow>, boards: Table<BoardRow>, threads: Table<Thread>,
                   sessions: Table<SessionRow>)
  {
    ghost predicate Valid() {
      && Below(campaigns, next) && Fresh(agents, next) && Fresh(nodes, next) && Fresh(edges, next)
      && Fresh(characters, next) && Fresh(maps, next) && Fresh(boards, next)
      && Fresh(threads, next) && Fresh(sessions, next)
    }
  }
}
