/** The session manager as an object whose methods update its records and its six
    maps in place and keep them in agreement (internal/session/session.go). */
module SessionManagers {
  import opened Labels
  import opened Options
  import opened Protocol
  import opened RoutingIndexes
  import opened Sessions
  import opened SessionRouting

  class SessionManager {
    const publicHost: string
    var sessions: map<string, Record>
    var byHost: map<string, string>
    var bySubdomain: map<string, string>
    var activeByHost: map<string, string>
    var activeBySubdomain: map<string, string>
    var byResume: map<string, string>

    ghost function Indexes(): Routes
      reads this
    {
      Routes(byHost, bySubdomain, activeByHost, activeBySubdomain, byResume)
    }

    ghost function View(): Manager
      reads this
    {
      Manager(publicHost, sessions, Indexes())
    }

    /** The indexes are the scan of the records, and every record is well formed. */
    ghost predicate Valid()
      reads this
    {
      Good(View())
    }

    constructor (publicHost: string)
      ensures Valid() && View() == NewManager(publicHost)
    {
      this.publicHost := publicHost;
      sessions, byHost, bySubdomain := map[], map[], map[];
      activeByHost, activeBySubdomain, byResume := map[], map[], map[];
      new;
      InvInit(publicHost);
    }

    method ActivateRoutingLocked(publicURL: PublicURL, subdomain: string, id: string, ghost k: Keys)
      requires k.host == HostFromPublicURL(publicURL) && k.subdomain == subdomain
      modifies this`activeByHost, this`activeBySubdomain
      ensures Indexes() == Activate(old(Indexes()), k, id)
    {
      var host := HostFromPublicURL(publicURL);
      if host != "" {
        activeByHost := activeByHost[host := id];
      }
      if subdomain != "" {
        activeBySubdomain := activeBySubdomain[subdomain := id];
      }
    }

    method DeactivateRoutingLocked(publicURL: PublicURL, subdomain: string, id: string, ghost k: Keys)
      requires k.host == HostFromPublicURL(publicURL) && k.subdomain == subdomain
      modifies this`activeByHost, this`activeBySubdomain
      ensures Indexes() == Deactivate(old(Indexes()), k, id)
    {
      var host := HostFromPublicURL(publicURL);
      if host != "" {
        if host in activeByHost && activeByHost[host] == id {
          activeByHost := activeByHost - {host};
        }
      }
      if subdomain != "" {
        if subdomain in activeBySubdomain && activeBySubdomain[subdomain] == id {
          activeBySubdomain := activeBySubdomain - {subdomain};
        }
      }
    }

    method RemoveSessionLocked(id: string, record: Record)
      requires id in sessions && sessions[id] == record
      modifies this
      ensures View() == RemoveSession(old(View()), id)
    {
      byResume := byResume - {record.resumeToken};
      byHost := byHost - {HostFromPublicURL(record.session.publicURL)};
      bySubdomain := bySubdomain - {record.session.subdomain};
      DeactivateRoutingLocked(record.session.publicURL, record.session.subdomain, id, KeysOf(record));
      sessions := sessions - {id};
    }

    /** The assignments of storeSession between the conflict check and the write. */
    method InsertSessionLocked(record: Record, host: string)
      requires host == HostOf(record)
      modifies this
      ensures View() == InsertSession(old(View()), record)
    {
      var session := record.session;
      sessions := sessions[session.id := record];
      if host != "" {
        byHost := byHost[host := session.id];
      }
      if session.subdomain != "" {
        bySubdomain := bySubdomain[session.subdomain := session.id];
      }
      if session.connection == Connected {
        ActivateRoutingLocked(session.publicURL, session.subdomain, session.id, KeysOf(record));
      }
      byResume := byResume[record.resumeToken := session.id];
    }

    /** The locked part of storeSession. */
    method StoreRecordLocked(record: Record, host: string, persisted: bool) returns (result: Result<Session>)
      requires host == HostOf(record)
      modifies this
      ensures (View(), result) == StoreRecord(old(View()), record, host, persisted)
    {
      if host in byHost {
        var existingID := byHost[host];
        if existingID in sessions {
          var existing := sessions[existingID];
          if existing.session.connection == Connected {
            return Err(HostConnected);
          }
          RemoveSessionLocked(existingID, existing);
        }
      }
      InsertSessionLocked(record, host);
      if !persisted {
        RemoveSessionLocked(record.session.id, record);
        return Err(NotPersisted);
      }
      return Ok(record.session);
    }

    method StoreSession(p: Params, persisted: bool) returns (result: Result<Session>)
      requires Valid() && IsFresh(View(), p.issue)
      modifies this
      ensures Valid() && (View(), result) == Sessions.StoreSession(old(View()), p, persisted)
    {
      StoreGood(View(), p, persisted);
      var tag := SanitizeLabel(p.issue.subdomain);
      var subdomain := if tag == "" then p.issue.id else tag;
      var scheme := if p.protocol == "https" || p.protocol == "tcp" then p.protocol else "http";
      var publicURL := PublicURL(scheme, HostForSubdomain(publicHost, subdomain));
      var status, connection, seen := ReadyStatus, Idle, None;
      if p.connected {
        status, connection, seen := ConnectedStatus, Connected, Some(p.now);
      }
      var session := Session(
        p.issue.id, p.userID, p.tokenID, subdomain, p.protocol, p.localPort, publicURL, status, connection, 0, seen, seen);
      var record := Record(session, status, seen, p.connected, p.userID, p.tokenID, p.issue.resumeToken);
      assert record == NewRecord(publicHost, p);
      result := StoreRecordLocked(record, HostFromPublicURL(publicURL), persisted);
    }

    method RegisterTunnel(req: Registration, issue: Issue, now: nat, persisted: bool) returns (result: Result<Session>)
      requires Valid() && IsFresh(View(), issue)
      modifies this
      ensures Valid() && (View(), result) == Sessions.RegisterTunnel(old(View()), req, issue, now, persisted)
    {
      var protocol := NormalizeTunnelProtocol(req.protocol);
      if protocol.None? {
        return Err(UnsupportedProtocol);
      }
      if req.tunnelID != "" || req.token != "" {
        result := ResumeTunnel(req, now);
        return;
      }
      if !IsPort(req.localPort) {
        return Err(BadPort);
      }
      result := StoreSession(NewTunnel(req, protocol.value, issue, now), persisted);
    }

    method ResumeTunnel(req: Registration, now: nat) returns (result: Result<Session>)
      requires Valid()
      modifies this
      ensures Valid() && (View(), result) == Sessions.ResumeTunnel(old(View()), req, now)
    {
      if req.tunnelID !in sessions {
        return Err(InvalidResume);
      }
      var record := sessions[req.tunnelID];
      if record.resumeToken == "" || record.resumeToken != req.token {
        return Err(InvalidResume);
      }
      if record.session.protocol != req.protocol || record.session.localPort != req.localPort {
        return Err(InvalidResume);
      }
      if record.tokenID != "" || req.tokenID != "" || record.userID != "" || req.userID != "" {
        if record.tokenID != req.tokenID || record.userID != req.userID {
          return Err(InvalidResume);
        }
      }
      ResumeGood(View(), req, now);
      var session := record.session.(
        status := ConnectedStatus, connection := Connected, userID := req.userID, tokenID := req.tokenID,
        lastSeen := Some(now), lastHeartbeat := Some(now));
      record := record.(
        live := true, userID := req.userID, tokenID := req.tokenID, session := session,
        tunnelStatus := ConnectedStatus, tunnelSeen := Some(now));
      sessions := sessions[req.tunnelID := record];
      ActivateRoutingLocked(session.publicURL, session.subdomain, session.id, KeysOf(record));
      return Ok(session);
    }

    method DetachConnection(id: string, at: nat)
      requires Valid()
      modifies this
      ensures Valid() && View() == Sessions.DetachConnection(old(View()), id, at)
    {
      if id !in sessions {
        return;
      }
      DisconnectGood(View(), id, at);
      var record := sessions[id];
      var session := record.session.(
        status := DisconnectedStatus, connection := Disconnected, lastSeen := Some(at), inFlight := 0);
      record := record.(live := false, session := session, tunnelStatus := DisconnectedStatus, tunnelSeen := Some(at));
      sessions := sessions[id := record];
      DeactivateRoutingLocked(session.publicURL, session.subdomain, session.id, KeysOf(record));
    }

    method TouchHeartbeat(id: string, at: nat) returns (found: bool)
      requires Valid()
      modifies this
      ensures Valid() && (View(), found) == Sessions.TouchHeartbeat(old(View()), id, at)
    {
      if id !in sessions {
        return false;
      }
      TouchGood(View(), id, at);
      var record := sessions[id];
      var session := record.session.(
        status := ConnectedStatus, connection := Connected, lastSeen := Some(at), lastHeartbeat := Some(at));
      record := record.(session := session, tunnelStatus := ConnectedStatus, tunnelSeen := Some(at));
      sessions := sessions[id := record];
      ActivateRoutingLocked(session.publicURL, session.subdomain, session.id, KeysOf(record));
      return true;
    }

    method SetInFlight(id: string, count: int)
      requires Valid()
      modifies this`sessions
      ensures Valid() && View() == Sessions.SetInFlight(old(View()), id, count)
    {
      CountGood(View(), id, count);
      if id in sessions {
        var record := sessions[id];
        sessions := sessions[id := record.(session := record.session.(inFlight := count))];
      }
    }

    /** The four stages, extracting the subdomain where a stage needs it. */
    method FindStages(host: string) returns (session: Option<Session>)
      ensures session == Sessions.LookupByHost(View(), host)
    {
      var id, ok := "", host in activeByHost;
      if ok {
        id := activeByHost[host];
      } else {
        var subdomain := ExtractSubdomain(host, publicHost);
        if subdomain != "" && subdomain in activeBySubdomain {
          id, ok := activeBySubdomain[subdomain], true;
        }
      }
      if !ok && host in byHost {
        id, ok := byHost[host], true;
      }
      if !ok {
        var subdomain := ExtractSubdomain(host, publicHost);
        if subdomain != "" && subdomain in bySubdomain {
          id, ok := bySubdomain[subdomain], true;
        }
      }
      return if ok && id in sessions then Some(sessions[id].session) else None;
    }

    /** LookupByHost finds what a scan of all sessions finds. */
    method LookupByHost(host: string) returns (session: Option<Session>)
      requires Valid()
      ensures IsScanResult(View(), host, session)
    {
      LookupScans(View(), host);
      session := FindStages(host);
    }
  }
}
