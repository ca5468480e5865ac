/** What every run of the session manager keeps: its five indexes are the plain
    scan of its sessions, connected hosts are never taken over, and a session's
    identity never changes (internal/session/session.go). */
module SessionRouting {
  import opened Labels
  import opened Options
  import opened Protocol
  import opened Text
  import opened RoutingIndexes
  import opened Sessions

  predicate WellFormed(publicHost: string, id: string, r: Record) {
    && r.session.id == id
    && IsLabel(r.session.subdomain) && r.session.subdomain != ""
    && r.session.publicURL.host == HostForSubdomain(publicHost, r.session.subdomain)
    && HostOf(r) != ""
    && r.resumeToken != ""
    && r.session.userID == r.userID && r.session.tokenID == r.tokenID
    && Mirrored(r)
  }

  /** The record to be stored says what the session says, and status and connection
      tell one story. */
  predicate Mirrored(r: Record) {
    && r.tunnelStatus == r.session.status && r.tunnelSeen == r.session.lastSeen
    && (match r.session.connection
        case Idle => r.session.status.ReadyStatus?
        case Connected => r.session.status.ConnectedStatus? && r.session.lastSeen.Some?
        case Disconnected => r.session.status.DisconnectedStatus? && r.session.lastSeen.Some? && !r.live)
  }

  ghost predicate AllWellFormed(publicHost: string, sessions: map<string, Record>) {
    forall id <- sessions :: WellFormed(publicHost, id, sessions[id])
  }

  /** The table a scan of the sessions would give. */
  function Table(sessions: map<string, Record>): map<string, Keys> {
    map id <- sessions :: KeysOf(sessions[id])
  }

  ghost predicate Good(m: Manager) {
    AllWellFormed(m.publicHost, m.sessions) && Indexed(m.routes, Table(m.sessions))
  }

  ghost predicate Inv(w: World) {
    && Good(w.manager)
    && (forall id <- w.manager.sessions :: id in w.ids && w.manager.sessions[id].resumeToken in w.tokens)
  }

  lemma TableWith(sessions: map<string, Record>, id: string, r: Record)
    ensures Table(sessions[id := r]) == Table(sessions)[id := KeysOf(r)]
  {
  }

  lemma TableWithout(sessions: map<string, Record>, id: string)
    ensures Table(sessions - {id}) == Table(sessions) - {id}
  {
  }

  lemma RemoveGood(m: Manager, id: string)
    requires Good(m) && id in m.sessions
    ensures Good(RemoveSession(m, id))
  {
    assert WellFormed(m.publicHost, id, m.sessions[id]);
    TableWithout(m.sessions, id);
    RemoveIndexed(m.routes, Table(m.sessions), id);
  }

  /** The generated values are usable and not in use. */
  ghost predicate IsFresh(m: Manager, issue: Issue) {
    && issue.id !in m.sessions && IsLabel(issue.id) && issue.id != ""
    && issue.resumeToken !in m.routes.byResume && issue.resumeToken != ""
  }

  lemma NewWellFormed(publicHost: string, p: Params)
    requires IsLabel(p.issue.id) && p.issue.id != "" && p.issue.resumeToken != ""
    ensures WellFormed(publicHost, p.issue.id, NewRecord(publicHost, p))
  {
    SanitizeJoinsWords(p.issue.subdomain);
    LabelledWellFormed(publicHost, p, NewRecord(publicHost, p).session.subdomain);
  }

  lemma LabelledWellFormed(publicHost: string, p: Params, tag: string)
    requires IsLabel(tag) && tag != "" && p.issue.resumeToken != "" && tag == NewRecord(publicHost, p).session.subdomain
    ensures WellFormed(publicHost, p.issue.id, NewRecord(publicHost, p))
  {
    LookupHost(publicHost, tag);
  }

  /** A subdomain in use means that its host is in use. */
  lemma UsedSubdomainUsedHost(m: Manager, r: Record)
    requires Good(m) && WellFormed(m.publicHost, r.session.id, r)
    ensures r.session.subdomain in m.routes.bySubdomain ==> HostOf(r) in m.routes.byHost
  {
    Find(m.routes, Table(m.sessions), r.session.subdomain);
    if r.session.subdomain in m.routes.bySubdomain {
      var id := m.routes.bySubdomain[r.session.subdomain];
      assert WellFormed(m.publicHost, id, m.sessions[id]);
      Found(m.routes, Table(m.sessions), id);
    }
  }

  lemma InsertGood(m: Manager, r: Record)
    requires Good(m) && WellFormed(m.publicHost, r.session.id, r)
    requires r.session.id !in m.sessions && HostOf(r) !in m.routes.byHost && r.resumeToken !in m.routes.byResume
    ensures Good(InsertSession(m, r))
  {
    TableWith(m.sessions, r.session.id, r);
    UsedSubdomainUsedHost(m, r);
    InsertIndexed(m.routes, Table(m.sessions), r.session.id, KeysOf(r));
  }

  /** What is left after a conflicting session is removed. */
  ghost predicate Leaves(m: Manager, m': Manager, host: string) {
    && m'.publicHost == m.publicHost
    && (forall id <- m'.sessions :: id in m.sessions && m'.sessions[id] == m.sessions[id])
    && (forall id <- m.sessions :: id in m'.sessions || (Occupied(m, host) && id == m.routes.byHost[host]))
  }

  lemma ClearedLeaves(m: Manager, host: string)
    ensures Leaves(m, Cleared(m, host), host)
  {
  }

  lemma ClearedGood(m: Manager, host: string)
    requires Good(m)
    ensures Good(Cleared(m, host)) && host !in Cleared(m, host).routes.byHost
  {
    Find(m.routes, Table(m.sessions), host);
    if Occupied(m, host) {
      RemoveGood(m, m.routes.byHost[host]);
    }
  }

  lemma ClearedTokens(m: Manager, host: string, token: string)
    requires token !in m.routes.byResume
    ensures token !in Cleared(m, host).routes.byResume
  {
  }

  lemma StoreRecordGood(m: Manager, r: Record, persisted: bool)
    requires Good(m) && WellFormed(m.publicHost, r.session.id, r)
    requires r.session.id !in m.sessions && r.resumeToken !in m.routes.byResume
    ensures Good(StoreRecord(m, r, HostOf(r), persisted).0)
  {
    ClearedGood(m, HostOf(r));
    ClearedLeaves(m, HostOf(r));
    ClearedTokens(m, HostOf(r), r.resumeToken);
    InsertGood(Cleared(m, HostOf(r)), r);
    RemoveGood(InsertSession(Cleared(m, HostOf(r)), r), r.session.id);
  }

  lemma StoreGood(m: Manager, p: Params, persisted: bool)
    requires Good(m) && IsFresh(m, p.issue)
    ensures Good(StoreSession(m, p, persisted).0)
  {
    NewWellFormed(m.publicHost, p);
    StoreRecordGood(m, NewRecord(m.publicHost, p), persisted);
  }

  // Changing one record.

  /** What sections that change one record leave alone. */
  predicate SameKeys(r: Record, r': Record) {
    && r'.session.id == r.session.id && r'.session.subdomain == r.session.subdomain
    && r'.session.publicURL == r.session.publicURL && r'.resumeToken == r.resumeToken
    && r'.session.userID == r'.userID && r'.session.tokenID == r'.tokenID
    && Mirrored(r')
  }

  predicate IsConnected(r: Record) {
    r.session.connection == Connected
  }

  lemma ConnectGood(m: Manager, id: string, r: Record)
    requires Good(m) && id in m.sessions && SameKeys(m.sessions[id], r) && IsConnected(r)
    ensures Good(Activated(m, id, r))
  {
    assert WellFormed(m.publicHost, id, m.sessions[id]);
    TableWith(m.sessions, id, r);
    ConnectIndexed(m.routes, Table(m.sessions), id);
    assert KeysOf(r) == KeysOf(m.sessions[id]).(connected := true);
  }

  lemma DeactivateGood(m: Manager, id: string, r: Record)
    requires Good(m) && id in m.sessions && SameKeys(m.sessions[id], r) && !IsConnected(r)
    ensures Good(m.(sessions := m.sessions[id := r], routes := Deactivate(m.routes, KeysOf(r), id)))
  {
    assert WellFormed(m.publicHost, id, m.sessions[id]);
    TableWith(m.sessions, id, r);
    DisconnectIndexed(m.routes, Table(m.sessions), id);
    assert KeysOf(r) == KeysOf(m.sessions[id]).(connected := false);
  }

  lemma DisconnectGood(m: Manager, id: string, at: nat)
    requires Good(m)
    ensures Good(DetachConnection(m, id, at))
  {
    if id in m.sessions {
      assert WellFormed(m.publicHost, id, m.sessions[id]);
      DeactivateGood(m, id, Detach(m.sessions[id], at));
    }
  }

  lemma CountGood(m: Manager, id: string, count: int)
    requires Good(m)
    ensures Good(SetInFlight(m, id, count))
  {
    if id in m.sessions {
      var r := SetInFlight(m, id, count).sessions[id];
      TableWith(m.sessions, id, r);
      assert KeysOf(r) == KeysOf(m.sessions[id]);
      assert Table(m.sessions)[id := KeysOf(r)] == Table(m.sessions);
      assert WellFormed(m.publicHost, id, m.sessions[id]);
    }
  }

  lemma TouchGood(m: Manager, id: string, at: nat)
    requires Good(m)
    ensures Good(TouchHeartbeat(m, id, at).0)
  {
    if id in m.sessions {
      assert WellFormed(m.publicHost, id, m.sessions[id]);
      ConnectGood(m, id, Attach(m.sessions[id], at));
    }
  }

  lemma ResumeGood(m: Manager, req: Registration, now: nat)
    requires Good(m)
    ensures Good(ResumeTunnel(m, req, now).0)
  {
    var id := req.tunnelID;
    if id in m.sessions && MayResume(m.sessions[id], req) {
      ConnectGood(m, id, Attach(Own(m.sessions[id], req.userID, req.tokenID), now));
    }
  }

  lemma RegisterGood(m: Manager, req: Registration, issue: Issue, now: nat, persisted: bool)
    requires Good(m) && IsFresh(m, issue)
    ensures Good(RegisterTunnel(m, req, issue, now, persisted).0)
  {
    var protocol := NormalizeTunnelProtocol(req.protocol);
    if protocol.None? {
    } else if req.tunnelID != "" || req.token != "" {
      ResumeGood(m, req, now);
    } else if IsPort(req.localPort) {
      StoreGood(m, NewTunnel(req, protocol.value, issue, now), persisted);
    }
  }

  /** New values of the generators are not in use. */
  lemma NewIsFresh(w: World, issue: Issue)
    requires Inv(w) && IsNew(w, issue)
    ensures IsFresh(w.manager, issue)
  {
    Find(w.manager.routes, Table(w.manager.sessions), issue.resumeToken);
  }

  lemma GoodStep(w: World, step: Step)
    requires Inv(w) && Enabled(w, step)
    ensures Good(Apply(w, step).manager)
  {
    var m := w.manager;
    match step {
      case Create(p, persisted) =>
        NewIsFresh(w, p.issue);
        StoreGood(m, p, persisted);
      case Register(req, issue, now, persisted) =>
        NewIsFresh(w, issue);
        RegisterGood(m, req, issue, now, persisted);
      case Disconnect(id, now) => DisconnectGood(m, id, now);
      case Heartbeat(id, now) => TouchGood(m, id, now);
      case Count(id, count) => CountGood(m, id, count);
    }
  }

  // Sessions over time.

  /** What a client and its visitors know a session by. */
  function Identity(r: Record): (string, string, string, string, string, int, PublicURL, string) {
    (r.session.id, r.userID, r.tokenID, r.session.subdomain, r.session.protocol, r.session.localPort,
     r.session.publicURL, r.resumeToken)
  }

  /** How one step may treat the session of an id handed out before. */
  predicate Kept(s: map<string, Record>, s': map<string, Record>, id: string, detached: bool, removable: bool) {
    && (id in s' ==> id in s && Identity(s'[id]) == Identity(s[id]))
    && (id in s && IsConnected(s[id]) && !detached ==> id in s' && IsConnected(s'[id]))
    && (id in s && !removable ==> id in s')
  }

  lemma StoreKeeps(m: Manager, r: Record, host: string, persisted: bool, id: string)
    requires id != r.session.id
    ensures Kept(m.sessions, StoreRecord(m, r, host, persisted).0.sessions, id, false, true)
  {
    ClearedLeaves(m, host);
  }

  /** A resume that passes the checks changes neither owner nor anything else of
      the identity. */
  lemma ResumeKeeps(m: Manager, req: Registration, now: nat, id: string)
    requires Good(m)
    ensures Kept(m.sessions, ResumeTunnel(m, req, now).0.sessions, id, false, false)
  {
    if id in m.sessions {
      assert WellFormed(m.publicHost, id, m.sessions[id]);
    }
  }

  lemma DetachKeeps(m: Manager, target: string, at: nat, id: string)
    ensures Kept(m.sessions, DetachConnection(m, target, at).sessions, id, id == target, false)
  {
  }

  lemma TouchKeeps(m: Manager, target: string, at: nat, id: string)
    ensures Kept(m.sessions, TouchHeartbeat(m, target, at).0.sessions, id, false, false)
  {
  }

  lemma CountKeeps(m: Manager, target: string, count: int, id: string)
    ensures Kept(m.sessions, SetInFlight(m, target, count).sessions, id, false, false)
  {
  }

  lemma StoreSessionKeeps(m: Manager, p: Params, persisted: bool, id: string)
    requires id != p.issue.id
    ensures Kept(m.sessions, StoreSession(m, p, persisted).0.sessions, id, false, true)
  {
    var r := NewRecord(m.publicHost, p);
    StoreKeeps(m, r, HostOf(r), persisted, id);
  }

  lemma RegisterKeeps(m: Manager, req: Registration, issue: Issue, now: nat, persisted: bool, id: string)
    requires Good(m) && id != issue.id
    ensures Kept(m.sessions, RegisterTunnel(m, req, issue, now, persisted).0.sessions, id, false, true)
  {
    var protocol := NormalizeTunnelProtocol(req.protocol);
    if protocol.None? {
    } else if req.tunnelID != "" || req.token != "" {
      ResumeKeeps(m, req, now, id);
    } else if IsPort(req.localPort) {
      StoreSessionKeeps(m, NewTunnel(req, protocol.value, issue, now), persisted, id);
    }
  }

  lemma StepKeepsSession(w: World, step: Step, id: string)
    requires Inv(w) && Enabled(w, step) && id in w.ids
    ensures Kept(w.manager.sessions, Apply(w, step).manager.sessions, id,
                 step.Disconnect? && step.id == id, step.Create? || step.Register?)
  {
    var m := w.manager;
    match step {
      case Create(p, persisted) => StoreSessionKeeps(m, p, persisted, id);
      case Register(req, issue, now, persisted) => RegisterKeeps(m, req, issue, now, persisted, id);
      case Disconnect(target, now) => DetachKeeps(m, target, now, id);
      case Heartbeat(target, now) => TouchKeeps(m, target, now, id);
      case Count(target, count) => CountKeeps(m, target, count, id);
    }
  }

  /** Sessions and their tokens carry generated values only. */
  predicate Issued(s: map<string, Record>, s': map<string, Record>, issue: Issue, id: string) {
    id in s' ==>
      && (id == issue.id || id in s)
      && (s'[id].resumeToken == issue.resumeToken || (id in s && s'[id].resumeToken == s[id].resumeToken))
  }

  lemma StoreIssues(m: Manager, r: Record, host: string, persisted: bool, issue: Issue, id: string)
    requires r.session.id == issue.id && r.resumeToken == issue.resumeToken
    ensures Issued(m.sessions, StoreRecord(m, r, host, persisted).0.sessions, issue, id)
  {
    ClearedLeaves(m, host);
  }

  lemma StoreSessionIssues(m: Manager, p: Params, persisted: bool, id: string)
    ensures Issued(m.sessions, StoreSession(m, p, persisted).0.sessions, p.issue, id)
  {
    var r := NewRecord(m.publicHost, p);
    StoreIssues(m, r, HostOf(r), persisted, p.issue, id);
  }

  lemma RegisterIssues(m: Manager, req: Registration, issue: Issue, now: nat, persisted: bool, id: string)
    ensures Issued(m.sessions, RegisterTunnel(m, req, issue, now, persisted).0.sessions, issue, id)
  {
    var protocol := NormalizeTunnelProtocol(req.protocol);
    if protocol.None? {
    } else if req.tunnelID != "" || req.token != "" {
    } else if IsPort(req.localPort) {
      StoreSessionIssues(m, NewTunnel(req, protocol.value, issue, now), persisted, id);
    }
  }

  lemma IssuedStep(w: World, step: Step, id: string)
    requires Inv(w) && Enabled(w, step) && id in Apply(w, step).manager.sessions
    ensures id in Apply(w, step).ids
    ensures Apply(w, step).manager.sessions[id].resumeToken in Apply(w, step).tokens
  {
    match step {
      case Create(p, persisted) => StoreSessionIssues(w.manager, p, persisted, id);
      case Register(req, issue, now, persisted) => RegisterIssues(w.manager, req, issue, now, persisted, id);
      case _ =>
    }
  }

  lemma HostStays(w: World, step: Step)
    ensures Apply(w, step).manager.publicHost == w.manager.publicHost && w.ids <= Apply(w, step).ids
  {
  }

  lemma InvStep(w: World, step: Step)
    requires Inv(w) && Enabled(w, step)
    ensures Inv(Apply(w, step)) && w.ids <= Apply(w, step).ids
    ensures Apply(w, step).manager.publicHost == w.manager.publicHost
  {
    GoodStep(w, step);
    HostStays(w, step);
    var w' := Apply(w, step);
    forall id | id in w'.manager.sessions
      ensures id in w'.ids && w'.manager.sessions[id].resumeToken in w'.tokens
    {
      IssuedStep(w, step, id);
    }
  }

  lemma {:induction false} InvRun(w: World, steps: seq<Step>)
    requires Inv(w) && Feasible(w, steps)
    ensures Inv(Run(w, steps)) && w.ids <= Run(w, steps).ids
    ensures Run(w, steps).manager.publicHost == w.manager.publicHost
    decreases |steps|
  {
    if steps != [] {
      InvStep(w, steps[0]);
      InvRun(Apply(w, steps[0]), steps[1..]);
    }
  }

  lemma InvInit(publicHost: string)
    ensures Inv(Init(publicHost))
  {
  }

  // The main results.

  /** What a session's lookup host extracts to, if anything, is its subdomain. */
  lemma HostExtracts(publicHost: string, r: Record)
    requires WellFormed(publicHost, r.session.id, r)
    ensures ExtractSubdomain(HostOf(r), publicHost) in {"", r.session.subdomain}
  {
    var host := HostForSubdomain(publicHost, r.session.subdomain);
    NormalIdempotent(host);
    assert ExtractSubdomain(NormalizeHost(host), publicHost) == ExtractSubdomain(host, publicHost);
    if publicHost != "" {
      ExtractLabel(publicHost, r.session.subdomain);
    }
  }

  lemma HostsFitSubdomains(m: Manager, host: string)
    requires Good(m)
    ensures Fits(Table(m.sessions), host, ExtractSubdomain(host, m.publicHost))
  {
    forall id | id in m.sessions && HostOf(m.sessions[id]) == host
      ensures ExtractSubdomain(host, m.publicHost) in {"", m.sessions[id].session.subdomain}
    {
      assert WellFormed(m.publicHost, id, m.sessions[id]);
      HostExtracts(m.publicHost, m.sessions[id]);
    }
  }

  /** What a scan of all sessions accepts for a host: the host of the session's public
      URL, trimmed and in lower case, or a host that is the public host behind the
      session's subdomain. */
  ghost predicate AnswersFor(publicHost: string, r: Record, host: string) {
    NormalizeHost(r.session.publicURL.host) == host || IsSubdomainOf(publicHost, host, r.session.subdomain)
  }

  /** The scan finds one session, the only one it accepts, or none. */
  ghost predicate IsScanResult(m: Manager, host: string, result: Option<Session>) {
    match result
    case Some(session) =>
      && session.id in m.sessions && session == m.sessions[session.id].session
      && (forall id <- m.sessions :: AnswersFor(m.publicHost, m.sessions[id], host) <==> id == session.id)
    case None => forall id <- m.sessions :: !AnswersFor(m.publicHost, m.sessions[id], host)
  }

  lemma AnswersAgree(publicHost: string, r: Record, host: string)
    requires r.session.subdomain != ""
    ensures AnswersFor(publicHost, r, host) <==> Answers(KeysOf(r), host, ExtractSubdomain(host, publicHost))
  {
    ExtractExactly(publicHost, host, r.session.subdomain);
  }

  /** The routing index refines a scan: after any run, and for every host, the four
      stages of LookupByHost find the session that a scan over all sessions finds,
      which is the only one, and nothing when there is none. */
  lemma LookupIsScan(publicHost: string, steps: seq<Step>, host: string)
    requires Feasible(Init(publicHost), steps)
    ensures var m := Run(Init(publicHost), steps).manager;
      m.publicHost == publicHost &&
      IsScanResult(m, host, LookupByHost(m, host))
  {
    InvInit(publicHost);
    InvRun(Init(publicHost), steps);
    LookupScans(Run(Init(publicHost), steps).manager, host);
  }

  /** Whatever owner the host has, it has the subdomain, if there is one. */
  ghost predicate Fits(table: map<string, Keys>, host: string, subdomain: string) {
    forall id <- table :: table[id].host == host ==> subdomain == "" || subdomain == table[id].subdomain
  }

  /** The same scan in terms of the keys and of the subdomain that was extracted. */
  ghost predicate OnlyAnswer(table: map<string, Keys>, host: string, subdomain: string, id: string) {
    && id in table
    && (forall other <- table :: Answers(table[other], host, subdomain) <==> other == id)
  }

  ghost predicate ScansKeys(m: Manager, host: string, subdomain: string, result: Option<Session>) {
    match result
    case Some(session) =>
      session.id in m.sessions && session == m.sessions[session.id].session
      && OnlyAnswer(Table(m.sessions), host, subdomain, session.id)
    case None => forall id <- m.sessions :: !Answers(KeysOf(m.sessions[id]), host, subdomain)
  }

  lemma LookupByScans(m: Manager, host: string, subdomain: string)
    requires Good(m) && Fits(Table(m.sessions), host, subdomain)
    ensures ScansKeys(m, host, subdomain, LookupBy(m, host, subdomain))
  {
    FindIDAnswers(m.routes, Table(m.sessions), host, subdomain);
    if FindID(m.routes, host, subdomain).Some? {
      OnlyOneAnswers(m, host, subdomain, FindID(m.routes, host, subdomain).value);
    } else {
      forall id | id in m.sessions ensures !Answers(KeysOf(m.sessions[id]), host, subdomain) {
        assert Table(m.sessions)[id] == KeysOf(m.sessions[id]);
      }
    }
  }

  lemma OnlyOneAnswers(m: Manager, host: string, subdomain: string, id: string)
    requires Good(m) && id in m.sessions && Answers(Table(m.sessions)[id], host, subdomain)
    requires Fits(Table(m.sessions), host, subdomain)
    ensures OnlyAnswer(Table(m.sessions), host, subdomain, id) && m.sessions[id].session.id == id
  {
    var table := Table(m.sessions);
    forall other | other in table && Answers(table[other], host, subdomain) ensures other == id {
      AnswerIsUnique(m.routes, table, host, subdomain, other, id);
    }
    assert WellFormed(m.publicHost, id, m.sessions[id]);
  }

  lemma KeysScanIsScan(m: Manager, host: string, subdomain: string, result: Option<Session>)
    requires ScansKeys(m, host, subdomain, result)
    requires forall id <- m.sessions ::
               AnswersFor(m.publicHost, m.sessions[id], host) <==> Answers(KeysOf(m.sessions[id]), host, subdomain)
    ensures IsScanResult(m, host, result)
  {
    if result.Some? {
      forall id | id in m.sessions
        ensures Answers(KeysOf(m.sessions[id]), host, subdomain) <==> id == result.value.id
      {
        assert Table(m.sessions)[id] == KeysOf(m.sessions[id]);
      }
    }
  }

  lemma LookupScans(m: Manager, host: string)
    requires Good(m)
    ensures IsScanResult(m, host, LookupByHost(m, host))
  {
    var subdomain := ExtractSubdomain(host, m.publicHost);
    HostsFitSubdomains(m, host);
    LookupByScans(m, host, subdomain);
    forall id | id in m.sessions
      ensures AnswersFor(m.publicHost, m.sessions[id], host) <==> Answers(KeysOf(m.sessions[id]), host, subdomain)
    {
      assert WellFormed(m.publicHost, id, m.sessions[id]);
      AnswersAgree(m.publicHost, m.sessions[id], host);
    }
    KeysScanIsScan(m, host, subdomain, LookupByHost(m, host));
  }

  lemma OwnHostFinds(m: Manager, id: string)
    requires Good(m) && id in m.sessions
    ensures LookupByHost(m, HostOf(m.sessions[id])) == Some(m.sessions[id].session)
  {
    LookupScans(m, HostOf(m.sessions[id]));
    assert AnswersFor(m.publicHost, m.sessions[id], HostOf(m.sessions[id]));
  }

  /** Active routing means connected: after any run a host, or a subdomain, is
      actively routed to an id exactly when the session of that id has it and is
      connected. */
  lemma ActiveIsConnected(publicHost: string, steps: seq<Step>, key: string, id: string)
    requires Feasible(Init(publicHost), steps)
    ensures var m := Run(Init(publicHost), steps).manager;
      var x := m.routes;
      && (key in x.activeByHost && x.activeByHost[key] == id <==>
            id in m.sessions && IsConnected(m.sessions[id]) && HostOf(m.sessions[id]) == key)
      && (key in x.activeBySubdomain && x.activeBySubdomain[key] == id <==>
            id in m.sessions && IsConnected(m.sessions[id]) && m.sessions[id].session.subdomain == key)
  {
    InvInit(publicHost);
    InvRun(Init(publicHost), steps);
    var m := Run(Init(publicHost), steps).manager;
    Find(m.routes, Table(m.sessions), key);
    if id in m.sessions {
      Found(m.routes, Table(m.sessions), id);
    }
  }

  /** Whatever happened, what a session's stored record would say is what the
      session says. */
  lemma RecordsMirrored(publicHost: string, steps: seq<Step>, id: string)
    requires Feasible(Init(publicHost), steps) && id in Run(Init(publicHost), steps).manager.sessions
    ensures Mirrored(Run(Init(publicHost), steps).manager.sessions[id])
  {
    InvInit(publicHost);
    InvRun(Init(publicHost), steps);
    assert WellFormed(publicHost, id, Run(Init(publicHost), steps).manager.sessions[id]);
  }

  /** A session's identity never changes, and a removed session never returns. */
  lemma {:induction false} IdentityIsForever(w: World, steps: seq<Step>, id: string)
    requires Inv(w) && Feasible(w, steps) && id in w.ids && id in Run(w, steps).manager.sessions
    ensures id in w.manager.sessions
    ensures Identity(Run(w, steps).manager.sessions[id]) == Identity(w.manager.sessions[id])
    decreases |steps|
  {
    if steps != [] {
      InvStep(w, steps[0]);
      IdentityIsForever(Apply(w, steps[0]), steps[1..], id);
      StepKeepsSession(w, steps[0], id);
    }
  }

  /** Hosts are never stolen: while nobody detaches a connected session, no run of
      registrations, failed writes, resumes and heartbeats removes or rebinds it;
      its host still finds it at the end. */
  lemma {:induction false} HostsNeverStolen(w: World, steps: seq<Step>, id: string)
    requires Inv(w) && Feasible(w, steps) && id in w.manager.sessions && IsConnected(w.manager.sessions[id])
    requires forall i | 0 <= i < |steps| :: !(steps[i].Disconnect? && steps[i].id == id)
    ensures var m := Run(w, steps).manager;
      && id in m.sessions && IsConnected(m.sessions[id])
      && Identity(m.sessions[id]) == Identity(w.manager.sessions[id])
      && LookupByHost(m, HostOf(w.manager.sessions[id])) == Some(m.sessions[id].session)
    decreases |steps|
  {
    if steps == [] {
      OwnHostFinds(w.manager, id);
    } else {
      StepKeepsSession(w, steps[0], id);
      InvStep(w, steps[0]);
      HostsNeverStolen(Apply(w, steps[0]), steps[1..], id);
    }
  }

  // Storing.

  /** Some connected session has the host. */
  ghost predicate HostTaken(m: Manager, host: string) {
    exists id <- m.sessions :: HostOf(m.sessions[id]) == host && IsConnected(m.sessions[id])
  }

  function HostsOf(sessions: map<string, Record>): map<string, string> {
    map id <- sessions :: HostOf(sessions[id])
  }

  /** The sessions of other hosts. */
  function Others(sessions: map<string, Record>, hosts: map<string, string>, host: string): map<string, Record> {
    map id <- sessions | !(id in hosts && hosts[id] == host) :: sessions[id]
  }

  function OtherHosts(m: Manager, host: string): map<string, Record> {
    Others(m.sessions, HostsOf(m.sessions), host)
  }

  lemma OthersWithoutOwner(sessions: map<string, Record>, hosts: map<string, string>, host: string, owner: string)
    requires owner in sessions && owner in hosts && hosts[owner] == host
    requires forall id <- hosts :: hosts[id] == host ==> id == owner
    ensures sessions - {owner} == Others(sessions, hosts, host)
  {
  }

  lemma OthersAll(sessions: map<string, Record>, hosts: map<string, string>, host: string)
    requires forall id <- hosts :: hosts[id] != host
    ensures sessions == Others(sessions, hosts, host)
  {
  }

  lemma OwnerOfHost(m: Manager, host: string)
    requires Good(m)
    ensures Occupied(m, host) ==> HostOf(m.sessions[m.routes.byHost[host]]) == host
    ensures forall id <- m.sessions ::
              HostOf(m.sessions[id]) == host ==> Occupied(m, host) && m.routes.byHost[host] == id
  {
    Find(m.routes, Table(m.sessions), host);
    forall id | id in m.sessions && HostOf(m.sessions[id]) == host
      ensures Occupied(m, host) && m.routes.byHost[host] == id
    {
      Found(m.routes, Table(m.sessions), id);
    }
  }

  lemma ClearedIsOthers(m: Manager, host: string)
    requires Good(m)
    ensures Cleared(m, host).sessions == OtherHosts(m, host)
  {
    OwnerOfHost(m, host);
    if Occupied(m, host) {
      OthersWithoutOwner(m.sessions, HostsOf(m.sessions), host, m.routes.byHost[host]);
    } else {
      OthersAll(m.sessions, HostsOf(m.sessions), host);
    }
  }

  lemma TakenIsOccupied(m: Manager, host: string)
    requires Good(m)
    ensures HostTaken(m, host) <==> Occupied(m, host) && IsConnected(m.sessions[m.routes.byHost[host]])
  {
    OwnerOfHost(m, host);
  }

  /** Storing a record is refused exactly when a connected session has its host, and
      then changes nothing; otherwise it replaces whatever session had the host, by
      the new one if the write succeeds and by none if it fails. */
  lemma StoreExactly(m: Manager, r: Record, persisted: bool)
    requires Good(m) && WellFormed(m.publicHost, r.session.id, r) && r.session.id !in m.sessions
    ensures var (m', result) := StoreRecord(m, r, HostOf(r), persisted);
      var others := OtherHosts(m, HostOf(r));
      if HostTaken(m, HostOf(r)) then m' == m && result == Err(HostConnected)
      else if persisted then m'.sessions == others[r.session.id := r] && result == Ok(r.session)
      else m'.sessions == others && result == Err(NotPersisted)
  {
    ClearedIsOthers(m, HostOf(r));
    TakenIsOccupied(m, HostOf(r));
    var others := OtherHosts(m, HostOf(r));
    assert r.session.id !in others;
    assert others[r.session.id := r] - {r.session.id} == others;
  }

  /** A failed write leaves no session behind: its host and subdomain lead nowhere. */
  lemma FailedWriteLeavesNothing(m: Manager, p: Params)
    requires Good(m) && IsFresh(m, p.issue) && StoreSession(m, p, false).1 == Err(NotPersisted)
    ensures p.issue.id !in StoreSession(m, p, false).0.sessions
    ensures LookupByHost(StoreSession(m, p, false).0, HostOf(NewRecord(m.publicHost, p))) == None
  {
    var r := NewRecord(m.publicHost, p);
    NewWellFormed(m.publicHost, p);
    StoreExactly(m, r, false);
    StoreGood(m, p, false);
    NoHostNoAnswer(StoreSession(m, p, false).0, r);
  }

  /** A session's own host finds nothing when nobody has it. */
  lemma NoHostNoAnswer(m: Manager, r: Record)
    requires Good(m) && WellFormed(m.publicHost, r.session.id, r)
    requires forall id <- m.sessions :: HostOf(m.sessions[id]) != HostOf(r)
    ensures LookupByHost(m, HostOf(r)) == None
  {
    var subdomain := ExtractSubdomain(HostOf(r), m.publicHost);
    HostExtracts(m.publicHost, r);
    LookupByNone(m, r, subdomain);
  }

  lemma LookupByNone(m: Manager, r: Record, subdomain: string)
    requires Good(m) && WellFormed(m.publicHost, r.session.id, r) && subdomain in {"", r.session.subdomain}
    requires forall id <- m.sessions :: HostOf(m.sessions[id]) != HostOf(r)
    ensures LookupBy(m, HostOf(r), subdomain) == None
  {
    Find(m.routes, Table(m.sessions), HostOf(r));
    Find(m.routes, Table(m.sessions), subdomain);
    UsedSubdomainUsedHost(m, r);
  }

  /** What a new tunnel's session says. */
  predicate SaysRegistered(s: Session, req: Registration, issue: Issue, now: nat) {
    && s.id == issue.id && s.userID == req.userID && s.tokenID == req.tokenID && s.localPort == req.localPort
    && s.protocol == ToLower(TrimSpace(req.protocol)) == s.publicURL.scheme
    && s.subdomain == (var words := Join(Words(ToLower(issue.subdomain))); if words == "" then issue.id else words)
    && s.status.ConnectedStatus? && s.connection.Connected? && s.inFlight == 0
    && s.lastSeen == s.lastHeartbeat == Some(now)
  }

  /** A registration that asks for no resume succeeds exactly when its protocol is
      one of three names, up to case and outer spaces, its port is a port, nobody
      connected has the allocated host, and the write succeeds; and it fails for the
      first of these that does not hold. */
  lemma RegisterExactly(m: Manager, req: Registration, issue: Issue, now: nat, persisted: bool)
    requires Good(m) && IsFresh(m, issue) && req.tunnelID == "" && req.token == ""
    ensures var r := NewRecord(m.publicHost, NewTunnel(req, ToLower(TrimSpace(req.protocol)), issue, now));
      RegisterTunnel(m, req, issue, now, persisted).1.Ok? <==>
        && ToLower(TrimSpace(req.protocol)) in {"http", "https", "tcp"} && 1 <= req.localPort < 65536
        && !HostTaken(m, HostOf(r)) && persisted
    ensures var r := NewRecord(m.publicHost, NewTunnel(req, ToLower(TrimSpace(req.protocol)), issue, now));
      match RegisterTunnel(m, req, issue, now, persisted).1
      case Ok(session) => SaysRegistered(session, req, issue, now)
      case Err(failure) =>
        failure == if ToLower(TrimSpace(req.protocol)) !in {"http", "https", "tcp"} then UnsupportedProtocol
                   else if !(1 <= req.localPort < 65536) then BadPort
                   else if HostTaken(m, HostOf(r)) then HostConnected else NotPersisted
  {
    var p := NewTunnel(req, ToLower(TrimSpace(req.protocol)), issue, now);
    NewWellFormed(m.publicHost, p);
    StoreExactly(m, NewRecord(m.publicHost, p), persisted);
    SanitizeJoinsWords(issue.subdomain);
  }

  // Counts and times.

  /** What a step makes of a session's count. */
  function CountAfter(count: int, step: Step, id: string): int {
    match step
    case Count(target, n) => if target == id then n else count
    case Disconnect(target, _) => if target == id then 0 else count
    case _ => count
  }

  /** The last count set for the session, or zero since it was last detached. */
  function LastCount(count: int, steps: seq<Step>, id: string): int
    decreases |steps|
  {
    if steps == [] then count else LastCount(CountAfter(count, steps[0], id), steps[1..], id)
  }

  predicate CountIs(s: map<string, Record>, id: string, count: int) {
    id in s ==> s[id].session.inFlight == count
  }

  lemma StoreKeepsCount(m: Manager, p: Params, persisted: bool, id: string)
    requires id != p.issue.id && id in m.sessions
    ensures CountIs(StoreSession(m, p, persisted).0.sessions, id, m.sessions[id].session.inFlight)
  {
    StoreKeepsRecord(m, p, persisted, id);
  }

  lemma RegisterKeepsCount(m: Manager, req: Registration, issue: Issue, now: nat, persisted: bool, id: string)
    requires id != issue.id && id in m.sessions
    ensures CountIs(RegisterTunnel(m, req, issue, now, persisted).0.sessions, id, m.sessions[id].session.inFlight)
  {
    var protocol := NormalizeTunnelProtocol(req.protocol);
    if protocol.None? {
    } else if req.tunnelID != "" || req.token != "" {
    } else if IsPort(req.localPort) {
      StoreKeepsCount(m, NewTunnel(req, protocol.value, issue, now), persisted, id);
    }
  }

  lemma SectionCounts(m: Manager, target: string, n: int, now: nat, id: string)
    requires id in m.sessions
    ensures CountIs(SetInFlight(m, target, n).sessions, id, if target == id then n else m.sessions[id].session.inFlight)
    ensures CountIs(DetachConnection(m, target, now).sessions, id,
                    if target == id then 0 else m.sessions[id].session.inFlight)
    ensures CountIs(TouchHeartbeat(m, target, now).0.sessions, id, m.sessions[id].session.inFlight)
  {
  }

  lemma CountStep(w: World, step: Step, id: string)
    requires Inv(w) && Enabled(w, step) && id in w.manager.sessions
    ensures CountIs(Apply(w, step).manager.sessions, id, CountAfter(w.manager.sessions[id].session.inFlight, step, id))
  {
    match step {
      case Create(p, persisted) => StoreKeepsCount(w.manager, p, persisted, id);
      case Register(req, issue, now, persisted) => RegisterKeepsCount(w.manager, req, issue, now, persisted, id);
      case Disconnect(target, now) => SectionCounts(w.manager, target, 0, now, id);
      case Heartbeat(target, now) => SectionCounts(w.manager, target, 0, now, id);
      case Count(target, n) => SectionCounts(w.manager, target, n, 0, id);
    }
  }

  lemma StoreKeepsRecord(m: Manager, p: Params, persisted: bool, id: string)
    requires id in m.sessions && id != p.issue.id
    ensures id in StoreSession(m, p, persisted).0.sessions ==>
              StoreSession(m, p, persisted).0.sessions[id] == m.sessions[id]
  {
    var r := NewRecord(m.publicHost, p);
    RecordKept(m, r, HostOf(r), persisted, id);
  }

  lemma RecordKept(m: Manager, r: Record, host: string, persisted: bool, id: string)
    requires id in m.sessions && id != r.session.id
    ensures id in StoreRecord(m, r, host, persisted).0.sessions ==>
              StoreRecord(m, r, host, persisted).0.sessions[id] == m.sessions[id]
  {
    ClearedLeaves(m, host);
  }

  /** Over every run a session shows the last in-flight count that was set for it
      since it was last detached, and zero otherwise. */
  lemma {:induction false} InFlightIsLast(w: World, steps: seq<Step>, id: string)
    requires Inv(w) && Feasible(w, steps) && id in w.manager.sessions && id in Run(w, steps).manager.sessions
    ensures Run(w, steps).manager.sessions[id].session.inFlight ==
            LastCount(w.manager.sessions[id].session.inFlight, steps, id)
    decreases |steps|
  {
    if steps != [] {
      InvStep(w, steps[0]);
      IdentityIsForever(Apply(w, steps[0]), steps[1..], id);
      CountStep(w, steps[0], id);
      InFlightIsLast(Apply(w, steps[0]), steps[1..], id);
    }
  }

  /** A heartbeat or a resume is seen and is a heartbeat; a detach is seen, and is
      none. */
  lemma TimesAreRecorded(m: Manager, id: string, req: Registration, now: nat)
    requires id in m.sessions
    ensures var s := TouchHeartbeat(m, id, now).0.sessions[id].session;
      s.lastSeen == s.lastHeartbeat == Some(now) && IsConnected(TouchHeartbeat(m, id, now).0.sessions[id])
    ensures req.tunnelID == id && ResumeTunnel(m, req, now).1.Ok? ==>
              var s := ResumeTunnel(m, req, now).0.sessions[id].session; s.lastSeen == s.lastHeartbeat == Some(now)
    ensures var s := DetachConnection(m, id, now).sessions[id].session;
      s.lastSeen == Some(now) && s.lastHeartbeat == m.sessions[id].session.lastHeartbeat && s.connection.Disconnected?
  {
  }

  // Resuming.

  /** What resumes a session: its token, and the rest as the session records it. */
  function Credentials(id: string, r: Record): Registration {
    Registration(r.session.protocol, r.session.localPort, r.userID, r.tokenID, id, r.resumeToken)
  }

  function Resumed(r: Record, now: nat): Record {
    Attach(Own(r, r.userID, r.tokenID), now)
  }

  /** The resume succeeds, keeps the identity of `r`, and its host leads there again. */
  predicate ResumeSucceeds(m: Manager, id: string, now: nat, r: Record) {
    var (m', result) := ResumeTunnel(m, Credentials(id, r), now);
    && result.Ok? && id in m'.sessions && IsConnected(m'.sessions[id])
    && Identity(m'.sessions[id]) == Identity(r)
    && LookupByHost(m', HostOf(r)) == Some(result.value)
  }

  /** A stored session stays resumable with the credentials it records, exactly as
      long as it exists, whatever happened since: connected or not, the resume
      succeeds, changes nothing of its identity, and its host leads to it again. */
  lemma ResumeAttaches(w: World, steps: seq<Step>, id: string, now: nat)
    requires Inv(w) && Feasible(w, steps) && id in w.manager.sessions
    ensures var r, m := w.manager.sessions[id], Run(w, steps).manager;
      if id in m.sessions then ResumeSucceeds(m, id, now, r)
      else ResumeTunnel(m, Credentials(id, r), now) == (m, Err(InvalidResume))
  {
    InvRun(w, steps);
    var m := Run(w, steps).manager;
    if id in m.sessions {
      IdentityIsForever(w, steps, id);
      OwnResume(m, id, now);
      SameCredentials(m, id, now, w.manager.sessions[id]);
    }
  }

  lemma SameCredentials(m: Manager, id: string, now: nat, r: Record)
    requires id in m.sessions && ResumeSucceeds(m, id, now, m.sessions[id])
    requires Identity(r) == Identity(m.sessions[id])
    ensures ResumeSucceeds(m, id, now, r)
  {
    assert Credentials(id, r) == Credentials(id, m.sessions[id]);
    assert HostOf(r) == HostOf(m.sessions[id]);
  }

  lemma CredentialsResume(m: Manager, id: string, now: nat)
    requires id in m.sessions && m.sessions[id].resumeToken != ""
    ensures var r := Resumed(m.sessions[id], now);
      ResumeTunnel(m, Credentials(id, m.sessions[id]), now) == (Activated(m, id, r), Ok(r.session))
  {
  }

  lemma ResumedFinds(m: Manager, id: string, now: nat)
    requires Good(m) && id in m.sessions
    ensures var r, r' := m.sessions[id], Resumed(m.sessions[id], now);
      HostOf(r') == HostOf(r) && LookupByHost(Activated(m, id, r'), HostOf(r')) == Some(r'.session)
  {
    var r' := Resumed(m.sessions[id], now);
    assert WellFormed(m.publicHost, id, m.sessions[id]);
    ConnectGood(m, id, r');
    OwnHostFinds(Activated(m, id, r'), id);
  }

  lemma OwnResume(m: Manager, id: string, now: nat)
    requires Good(m) && id in m.sessions
    ensures ResumeSucceeds(m, id, now, m.sessions[id])
  {
    assert WellFormed(m.publicHost, id, m.sessions[id]);
    CredentialsResume(m, id, now);
    ResumedFinds(m, id, now);
  }

  /** A registration's own request, sent again with what the server returned. */
  function Again(req: Registration, issue: Issue): Registration {
    req.(tunnelID := issue.id, token := issue.resumeToken)
  }

  lemma Registered(m: Manager, req: Registration, issue: Issue, now: nat, persisted: bool)
    requires req.tunnelID == "" && req.token == "" && RegisterTunnel(m, req, issue, now, persisted).1.Ok?
    ensures NormalizeTunnelProtocol(req.protocol).Some?
    ensures var m' := RegisterTunnel(m, req, issue, now, persisted).0;
      var p := NewTunnel(req, NormalizeTunnelProtocol(req.protocol).value, issue, now);
      issue.id in m'.sessions && m'.sessions[issue.id] == NewRecord(m.publicHost, p)
  {
  }

  /** What resumeTunnel compares for a request sent again. */
  lemma AgainMayResume(r: Record, req: Registration, issue: Issue, publicHost: string, protocol: string, now: nat)
    requires issue.resumeToken != ""
    requires Identity(r) == Identity(NewRecord(publicHost, NewTunnel(req, protocol, issue, now)))
    ensures MayResume(r, Again(req, issue)) <==> req.protocol == protocol
    ensures req.protocol == protocol ==> Credentials(issue.id, r) == Again(req, issue)
  {
  }

  /** The code keeps that promise towards a registration's own request only in
      part: as long as the session exists, sending the request again with the
      returned id and token resumes it exactly when the request had its protocol in
      normal form, since registering normalises it and resuming does not. */
  lemma RegistrationResumesExactly(
    w: World, req: Registration, issue: Issue, now: nat, persisted: bool, steps: seq<Step>,
    other: Issue, later: nat, persistedLater: bool)
    requires Inv(w) && Enabled(w, Register(req, issue, now, persisted))
    requires req.tunnelID == "" && req.token == ""
    requires RegisterTunnel(w.manager, req, issue, now, persisted).1.Ok?
    requires Feasible(Apply(w, Register(req, issue, now, persisted)), steps)
    ensures var m := Run(Apply(w, Register(req, issue, now, persisted)), steps).manager;
      RegisterTunnel(m, Again(req, issue), other, later, persistedLater).1.Ok?
      <==> issue.id in m.sessions && NormalizeTunnelProtocol(req.protocol) == Some(req.protocol)
  {
    var step := Register(req, issue, now, persisted);
    var w' := Apply(w, step);
    var m := Run(w', steps).manager;
    InvStep(w, step);
    Registered(w.manager, req, issue, now, persisted);
    if issue.id in m.sessions {
      IdentityIsForever(w', steps, issue.id);
      AgainMayResume(m.sessions[issue.id], req, issue, w.manager.publicHost,
                     NormalizeTunnelProtocol(req.protocol).value, now);
    }
  }

  /** For instance, a tunnel registered as "HTTP" is stored and connected, and the
      request sent again, with the right id and token, is refused at once. */
  lemma UpperCaseNeverResumes(publicHost: string, port: int, now: nat, other: Issue)
    requires IsPort(port)
    ensures var req, issue := Registration("HTTP", port, "", "", "", ""), Issue("a", "t", "s");
      var (m, first) := RegisterTunnel(NewManager(publicHost), req, issue, now, true);
      && Enabled(Init(publicHost), Register(req, issue, now, true))
      && first.Ok? && issue.id in m.sessions && IsConnected(m.sessions[issue.id])
      && RegisterTunnel(m, Again(req, issue), other, now, true) == (m, Err(InvalidResume))
  {
    var req, issue := Registration("HTTP", port, "", "", "", ""), Issue("a", "t", "s");
    TrimSpaceTrims("HTTP");
    assert ToLower("HTTP") == "http";
    var m := RegisterTunnel(NewManager(publicHost), req, issue, now, true).0;
    Registered(NewManager(publicHost), req, issue, now, true);
    AgainMayResume(m.sessions["a"], req, issue, publicHost, "http", now);
  }

  /** Nobody else resumes a session: a resume succeeds only with its token, its
      protocol and port, and its owner's user and auth token. */
  lemma ResumeNeedsCredentials(w: World, req: Registration, now: nat)
    requires Inv(w) && ResumeTunnel(w.manager, req, now).1.Ok?
    ensures req.tunnelID in w.manager.sessions
    ensures var r := w.manager.sessions[req.tunnelID];
      Identity(r) == (req.tunnelID, req.userID, req.tokenID, r.session.subdomain,
                      req.protocol, req.localPort, r.session.publicURL, req.token)
  {
    assert WellFormed(w.manager.publicHost, req.tunnelID, w.manager.sessions[req.tunnelID]);
  }
}
