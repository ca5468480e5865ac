/** The session manager's state and steps (internal/session/session.go). Session
    ids, resume tokens and clock readings are parameters, and so is the outcome of
    a durable write. */
module Sessions {
  import opened Labels
  import opened Options
  import opened Protocol
  import opened RoutingIndexes

  datatype Connection = Idle | Connected | Disconnected
  datatype Status = ReadyStatus | ConnectedStatus | DisconnectedStatus

  datatype Session = Session(
    id: string, userID: string, tokenID: string, subdomain: string, protocol: string, localPort: int,
    publicURL: PublicURL, status: Status, connection: Connection, inFlight: int,
    lastSeen: Option<nat>, lastHeartbeat: Option<nat>)

  datatype Record = Record(
    session: Session, tunnelStatus: Status, tunnelSeen: Option<nat>, live: bool,
    userID: string, tokenID: string, resumeToken: string)

  datatype Manager = Manager(publicHost: string, sessions: map<string, Record>, routes: Routes)

  /** What the random generators hand out for one new session. */
  datatype Issue = Issue(id: string, resumeToken: string, subdomain: string)

  /** A session about to be stored, by Create (idle) or RegisterTunnel (connected). */
  datatype Params = Params(
    issue: Issue, protocol: string, localPort: int, userID: string, tokenID: string, connected: bool, now: nat)

  /** A register request, as received; the last two fields are empty unless it
      asks to resume. */
  datatype Registration = Registration(
    protocol: string, localPort: int, userID: string, tokenID: string, tunnelID: string, token: string)

  datatype Failure = HostConnected | NotPersisted | InvalidResume | UnsupportedProtocol | BadPort
  datatype Result<T> = Ok(value: T) | Err(failure: Failure)

  function NewManager(publicHost: string): Manager {
    Manager(publicHost, map[], NO_ROUTES)
  }

  /** hostFromPublicURL, for a URL whose host part needs no parsing. */
  function HostFromPublicURL(url: PublicURL): string {
    NormalizeHost(url.host)
  }

  function HostOf(r: Record): string {
    HostFromPublicURL(r.session.publicURL)
  }

  function KeysOf(r: Record): Keys {
    Keys(HostOf(r), r.session.subdomain, r.resumeToken, r.session.connection == Connected)
  }

  /** removeSessionLocked. */
  function RemoveSession(m: Manager, id: string): Manager
    requires id in m.sessions
  {
    m.(routes := Remove(m.routes, KeysOf(m.sessions[id]), id), sessions := m.sessions - {id})
  }

  function NewRecord(publicHost: string, p: Params): Record {
    var d := Prepare(publicHost, p.issue.id, p.issue.subdomain, p.protocol);
    var status := if p.connected then ConnectedStatus else ReadyStatus;
    var seen := if p.connected then Some(p.now) else None;
    Record(
      Session(p.issue.id, p.userID, p.tokenID, d.subdomain, p.protocol, p.localPort, d.publicURL,
              status, if p.connected then Connected else Idle, 0, seen, seen),
      status, seen, p.connected, p.userID, p.tokenID, p.issue.resumeToken)
  }

  /** The inserting part of storeSession. */
  function InsertSession(m: Manager, r: Record): Manager {
    m.(routes := Insert(m.routes, KeysOf(r), r.session.id), sessions := m.sessions[r.session.id := r])
  }

  /** Does a session own the host? */
  predicate Occupied(m: Manager, host: string) {
    host in m.routes.byHost && m.routes.byHost[host] in m.sessions
  }

  /** The owner of the host, if any, is removed. */
  function Cleared(m: Manager, host: string): Manager {
    if Occupied(m, host) then RemoveSession(m, m.routes.byHost[host]) else m
  }

  /** The locked part of storeSession. */
  function StoreRecord(m: Manager, r: Record, host: string, persisted: bool): (Manager, Result<Session>) {
    if Occupied(m, host) && m.sessions[m.routes.byHost[host]].session.connection == Connected then
      (m, Err(HostConnected))
    else
      var inserted := InsertSession(Cleared(m, host), r);
      if persisted then (inserted, Ok(r.session)) else (RemoveSession(inserted, r.session.id), Err(NotPersisted))
  }

  function StoreSession(m: Manager, p: Params, persisted: bool): (Manager, Result<Session>) {
    var r := NewRecord(m.publicHost, p);
    StoreRecord(m, r, HostOf(r), persisted)
  }

  // Sections that change one record.

  function Attach(r: Record, now: nat): Record {
    r.(session := r.session.(status := ConnectedStatus, connection := Connected,
                             lastSeen := Some(now), lastHeartbeat := Some(now)),
       tunnelStatus := ConnectedStatus, tunnelSeen := Some(now))
  }

  function Own(r: Record, userID: string, tokenID: string): Record {
    r.(live := true, userID := userID, tokenID := tokenID,
       session := r.session.(userID := userID, tokenID := tokenID))
  }

  function Detach(r: Record, at: nat): Record {
    r.(live := false,
       session := r.session.(status := DisconnectedStatus, connection := Disconnected,
                             lastSeen := Some(at), inFlight := 0),
       tunnelStatus := DisconnectedStatus, tunnelSeen := Some(at))
  }

  /** The checks resumeTunnel makes on the record it finds. */
  predicate MayResume(r: Record, req: Registration) {
    && r.resumeToken != "" && r.resumeToken == req.token
    && r.session.protocol == req.protocol && r.session.localPort == req.localPort
    && (r.tokenID != "" || req.tokenID != "" || r.userID != "" || req.userID != "" ==>
          r.tokenID == req.tokenID && r.userID == req.userID)
  }

  /** A record replaced and its routing activated. */
  function Activated(m: Manager, id: string, r: Record): Manager {
    m.(sessions := m.sessions[id := r], routes := Activate(m.routes, KeysOf(r), r.session.id))
  }

  function ResumeTunnel(m: Manager, req: Registration, now: nat): (Manager, Result<Session>) {
    if req.tunnelID !in m.sessions || !MayResume(m.sessions[req.tunnelID], req) then (m, Err(InvalidResume)) else
    var r := Attach(Own(m.sessions[req.tunnelID], req.userID, req.tokenID), now);
    (Activated(m, req.tunnelID, r), Ok(r.session))
  }

  predicate IsPort(n: int) {
    1 <= n <= 65535
  }

  /** What RegisterTunnel stores for a new tunnel: the protocol in normal form. */
  function NewTunnel(req: Registration, protocol: string, issue: Issue, now: nat): Params {
    Params(issue, protocol, req.localPort, req.userID, req.tokenID, true, now)
  }

  /** RegisterTunnel. The protocol is normalised for a new tunnel, but a resume
      compares it as received. */
  function RegisterTunnel(m: Manager, req: Registration, issue: Issue, now: nat, persisted: bool)
    : (Manager, Result<Session>)
  {
    var protocol := NormalizeTunnelProtocol(req.protocol);
    if protocol.None? then (m, Err(UnsupportedProtocol))
    else if req.tunnelID != "" || req.token != "" then ResumeTunnel(m, req, now)
    else if !IsPort(req.localPort) then (m, Err(BadPort))
    else StoreSession(m, NewTunnel(req, protocol.value, issue, now), persisted)
  }

  function DetachConnection(m: Manager, id: string, at: nat): Manager {
    if id !in m.sessions then m else
    var r := Detach(m.sessions[id], at);
    m.(sessions := m.sessions[id := r], routes := Deactivate(m.routes, KeysOf(r), r.session.id))
  }

  function TouchHeartbeat(m: Manager, id: string, at: nat): (Manager, bool) {
    if id !in m.sessions then (m, false) else (Activated(m, id, Attach(m.sessions[id], at)), true)
  }

  function SetInFlight(m: Manager, id: string, count: int): Manager {
    if id !in m.sessions then m else
    var r := m.sessions[id];
    m.(sessions := m.sessions[id := r.(session := r.session.(inFlight := count))])
  }

  function LookupBy(m: Manager, host: string, subdomain: string): Option<Session> {
    match FindID(m.routes, host, subdomain)
    case None => None
    case Some(id) => if id in m.sessions then Some(m.sessions[id].session) else None
  }

  function LookupByHost(m: Manager, host: string): Option<Session> {
    LookupBy(m, host, ExtractSubdomain(host, m.publicHost))
  }

  // Runs.

  /** `ids` and `tokens` were handed out by the random generators so far. */
  datatype World = World(manager: Manager, ids: set<string>, tokens: set<string>)

  datatype Step =
    | Create(params: Params, persisted: bool)
    | Register(req: Registration, issue: Issue, now: nat, persisted: bool)
    | Disconnect(id: string, now: nat)
    | Heartbeat(id: string, now: nat)
    | Count(id: string, count: int)

  /** Generated ids and tokens are new, and ids are hexadecimal, hence labels. */
  predicate IsNew(w: World, issue: Issue) {
    && issue.id !in w.ids && IsLabel(issue.id) && issue.id != ""
    && issue.resumeToken !in w.tokens && issue.resumeToken != ""
  }

  predicate Enabled(w: World, step: Step) {
    match step
    case Create(params, _) =>
      IsNew(w, params.issue) && !params.connected && NormalizeTunnelProtocol(params.protocol) == Some(params.protocol)
    case Register(_, issue, _, _) => IsNew(w, issue)
    case _ => true
  }

  function Apply(w: World, step: Step): World {
    var m := w.manager;
    match step
    case Create(p, persisted) =>
      World(StoreSession(m, p, persisted).0, w.ids + {p.issue.id}, w.tokens + {p.issue.resumeToken})
    case Register(req, issue, now, persisted) =>
      World(RegisterTunnel(m, req, issue, now, persisted).0, w.ids + {issue.id}, w.tokens + {issue.resumeToken})
    case Disconnect(id, now) => w.(manager := DetachConnection(m, id, now))
    case Heartbeat(id, now) => w.(manager := TouchHeartbeat(m, id, now).0)
    case Count(id, count) => w.(manager := SetInFlight(m, id, count))
  }

  predicate Feasible(w: World, steps: seq<Step>)
    decreases |steps|
  {
    steps == [] || (Enabled(w, steps[0]) && Feasible(Apply(w, steps[0]), steps[1..]))
  }

  function Run(w: World, steps: seq<Step>): World
    decreases |steps|
  {
    if steps == [] then w else Run(Apply(w, steps[0]), steps[1..])
  }

  function Init(publicHost: string): World {
    World(NewManager(publicHost), {}, {})
  }
}
