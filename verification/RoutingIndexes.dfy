/** The session manager's five indexes, and what makes them a plain table of the
    sessions' keys read backwards (internal/session/session.go). */
module RoutingIndexes {
  import opened Options

  /** What one session is found by. */
  datatype Keys = Keys(host: string, subdomain: string, token: string, connected: bool)

  datatype Routes = Routes(
    byHost: map<string, string>,
    bySubdomain: map<string, string>,
    activeByHost: map<string, string>,
    activeBySubdomain: map<string, string>,
    byResume: map<string, string>)

  const NO_ROUTES := Routes(map[], map[], map[], map[], map[])

  function With(index: map<string, string>, key: string, id: string): map<string, string> {
    if key == "" then index else index[key := id]
  }

  function Without(index: map<string, string>, key: string, id: string): map<string, string> {
    if key != "" && key in index && index[key] == id then index - {key} else index
  }

  /** activateRoutingLocked. */
  function Activate(x: Routes, k: Keys, id: string): Routes {
    x.(activeByHost := With(x.activeByHost, k.host, id),
       activeBySubdomain := With(x.activeBySubdomain, k.subdomain, id))
  }

  /** deactivateRoutingLocked. */
  function Deactivate(x: Routes, k: Keys, id: string): Routes {
    x.(activeByHost := Without(x.activeByHost, k.host, id),
       activeBySubdomain := Without(x.activeBySubdomain, k.subdomain, id))
  }

  /** The index part of removeSessionLocked. */
  function Remove(x: Routes, k: Keys, id: string): Routes {
    Deactivate(x.(byResume := x.byResume - {k.token}, byHost := x.byHost - {k.host},
                  bySubdomain := x.bySubdomain - {k.subdomain}), k, id)
  }

  /** The index part of storeSession. */
  function Insert(x: Routes, k: Keys, id: string): Routes {
    var x' := x.(byHost := With(x.byHost, k.host, id), bySubdomain := With(x.bySubdomain, k.subdomain, id));
    var x'' := if k.connected then Activate(x', k, id) else x';
    x''.(byResume := x''.byResume[k.token := id])
  }

  // One index against one column of the table.

  /** The index is the column read backwards; so no two ids share a key. */
  ghost predicate Inverse(index: map<string, string>, column: map<string, string>) {
    && (forall id <- column :: column[id] in index && index[column[id]] == id)
    && (forall key <- index :: index[key] in column && column[index[key]] == key)
  }

  lemma Injective(index: map<string, string>, column: map<string, string>, a: string, b: string)
    requires Inverse(index, column) && a in column && b in column && column[a] == column[b]
    ensures a == b
  {
    assert index[column[a]] == a;
  }

  lemma AddKeeps(index: map<string, string>, column: map<string, string>, id: string, key: string)
    requires Inverse(index, column)
    requires id in column ==> column[id] == key
    requires key in index ==> index[key] == id
    ensures Inverse(index[key := id], column[id := key])
  {
  }

  lemma DropKeeps(index: map<string, string>, column: map<string, string>, id: string)
    requires Inverse(index, column) && id in column
    ensures Inverse(index - {column[id]}, column - {id})
  {
  }

  /** The rows of `part` are rows of `column`. */
  ghost predicate Within(part: map<string, string>, column: map<string, string>) {
    forall id <- part :: id in column && column[id] == part[id]
  }

  /** Deactivating touches an active index only where the session is. */
  lemma WithoutKeeps(active: map<string, string>, part: map<string, string>,
                     index: map<string, string>, column: map<string, string>, id: string)
    requires Inverse(active, part) && Inverse(index, column) && Within(part, column)
    requires id in column && column[id] != ""
    ensures Inverse(Without(active, column[id], id), part - {id})
  {
    if column[id] in active && active[column[id]] == id {
      DropKeeps(active, part, id);
    } else {
      assert part - {id} == part;
    }
  }

  /** Activating is safe: nobody else is active under a session's key. */
  lemma WithKeeps(active: map<string, string>, part: map<string, string>,
                  index: map<string, string>, column: map<string, string>, id: string)
    requires Inverse(active, part) && Inverse(index, column) && Within(part, column)
    requires id in column && column[id] != ""
    ensures Inverse(With(active, column[id], id), part[id := column[id]])
  {
    if column[id] in active {
      Injective(index, column, id, active[column[id]]);
    }
    AddKeeps(active, part, id, column[id]);
  }

  // All five.

  function Hosts(table: map<string, Keys>): map<string, string> {
    map id <- table :: table[id].host
  }

  function Subdomains(table: map<string, Keys>): map<string, string> {
    map id <- table :: table[id].subdomain
  }

  function Tokens(table: map<string, Keys>): map<string, string> {
    map id <- table :: table[id].token
  }

  function ConnectedRows(table: map<string, Keys>): map<string, Keys> {
    map id <- table | table[id].connected :: table[id]
  }

  ghost predicate Indexed(x: Routes, table: map<string, Keys>) {
    && Inverse(x.byHost, Hosts(table))
    && Inverse(x.bySubdomain, Subdomains(table))
    && Inverse(x.byResume, Tokens(table))
    && ActiveIndexed(x, ConnectedRows(table))
  }

  ghost predicate ActiveIndexed(x: Routes, rows: map<string, Keys>) {
    Inverse(x.activeByHost, Hosts(rows)) && Inverse(x.activeBySubdomain, Subdomains(rows))
  }

  lemma HostsChange(table: map<string, Keys>, id: string, k: Keys)
    ensures Hosts(table - {id}) == Hosts(table) - {id}
    ensures Hosts(table[id := k]) == Hosts(table)[id := k.host]
  {
  }

  lemma SubdomainsChange(table: map<string, Keys>, id: string, k: Keys)
    ensures Subdomains(table - {id}) == Subdomains(table) - {id}
    ensures Subdomains(table[id := k]) == Subdomains(table)[id := k.subdomain]
  {
  }

  lemma TokensChange(table: map<string, Keys>, id: string, k: Keys)
    ensures Tokens(table - {id}) == Tokens(table) - {id}
    ensures Tokens(table[id := k]) == Tokens(table)[id := k.token]
  {
  }

  lemma ConnectedChange(table: map<string, Keys>, id: string, k: Keys)
    ensures ConnectedRows(table - {id}) == ConnectedRows(table) - {id}
    ensures ConnectedRows(table[id := k]) ==
            if k.connected then ConnectedRows(table)[id := k] else ConnectedRows(table) - {id}
  {
  }

  lemma RowsWithin(table: map<string, Keys>)
    ensures Within(Hosts(ConnectedRows(table)), Hosts(table))
    ensures Within(Subdomains(ConnectedRows(table)), Subdomains(table))
  {
  }

  predicate Named(table: map<string, Keys>, id: string) {
    id in table && table[id].host != "" && table[id].subdomain != ""
  }

  lemma DeactivateIndexed(x: Routes, table: map<string, Keys>, id: string)
    requires Indexed(x, table) && Named(table, id)
    ensures ActiveIndexed(Deactivate(x, table[id], id), ConnectedRows(table) - {id})
  {
    var rows := ConnectedRows(table);
    RowsWithin(table);
    HostsChange(rows, id, table[id]);
    SubdomainsChange(rows, id, table[id]);
    WithoutKeeps(x.activeByHost, Hosts(rows), x.byHost, Hosts(table), id);
    WithoutKeeps(x.activeBySubdomain, Subdomains(rows), x.bySubdomain, Subdomains(table), id);
  }

  lemma ActivateIndexed(x: Routes, table: map<string, Keys>, id: string, k: Keys)
    requires Indexed(x, table) && Named(table, id) && k.host == table[id].host && k.subdomain == table[id].subdomain
    ensures ActiveIndexed(Activate(x, k, id), ConnectedRows(table)[id := k])
  {
    var rows := ConnectedRows(table);
    RowsWithin(table);
    HostsChange(rows, id, k);
    SubdomainsChange(rows, id, k);
    WithKeeps(x.activeByHost, Hosts(rows), x.byHost, Hosts(table), id);
    WithKeeps(x.activeBySubdomain, Subdomains(rows), x.bySubdomain, Subdomains(table), id);
  }

  lemma RemoveIndexed(x: Routes, table: map<string, Keys>, id: string)
    requires Indexed(x, table) && Named(table, id)
    ensures Indexed(Remove(x, table[id], id), table - {id})
  {
    HostsChange(table, id, table[id]);
    SubdomainsChange(table, id, table[id]);
    TokensChange(table, id, table[id]);
    ConnectedChange(table, id, table[id]);
    DropKeeps(x.byHost, Hosts(table), id);
    DropKeeps(x.bySubdomain, Subdomains(table), id);
    DropKeeps(x.byResume, Tokens(table), id);
    DeactivateIndexed(x, table, id);
  }

  /** Rewriting a row with the keys it has changes none of the full columns. */
  lemma SameColumns(table: map<string, Keys>, id: string, k: Keys)
    requires id in table && k == table[id].(connected := k.connected)
    ensures Hosts(table[id := k]) == Hosts(table)
    ensures Subdomains(table[id := k]) == Subdomains(table)
    ensures Tokens(table[id := k]) == Tokens(table)
  {
    HostsChange(table, id, k);
    SubdomainsChange(table, id, k);
    TokensChange(table, id, k);
  }

  lemma DisconnectIndexed(x: Routes, table: map<string, Keys>, id: string)
    requires Indexed(x, table) && Named(table, id)
    ensures Indexed(Deactivate(x, table[id], id), table[id := table[id].(connected := false)])
  {
    var k := table[id].(connected := false);
    SameColumns(table, id, k);
    ConnectedChange(table, id, k);
    DeactivateIndexed(x, table, id);
  }

  lemma ConnectIndexed(x: Routes, table: map<string, Keys>, id: string)
    requires Indexed(x, table) && Named(table, id)
    ensures Indexed(Activate(x, table[id], id), table[id := table[id].(connected := true)])
  {
    var k := table[id].(connected := true);
    SameColumns(table, id, k);
    ConnectedChange(table, id, k);
    ActivateIndexed(x, table, id, k);
  }

  lemma InsertIdle(x: Routes, table: map<string, Keys>, id: string, k: Keys)
    requires Indexed(x, table) && id !in table && k.host != "" && k.subdomain != "" && !k.connected
    requires k.host !in x.byHost && k.subdomain !in x.bySubdomain && k.token !in x.byResume
    ensures Indexed(Insert(x, k, id), table[id := k])
  {
    HostsChange(table, id, k);
    SubdomainsChange(table, id, k);
    TokensChange(table, id, k);
    ConnectedChange(table, id, k);
    AddKeeps(x.byHost, Hosts(table), id, k.host);
    AddKeeps(x.bySubdomain, Subdomains(table), id, k.subdomain);
    AddKeeps(x.byResume, Tokens(table), id, k.token);
    assert ConnectedRows(table) - {id} == ConnectedRows(table);
  }

  /** Inserting a connected session is inserting it idle and activating it. */
  lemma InsertActivates(x: Routes, id: string, k: Keys)
    requires k.connected
    ensures Insert(x, k, id) == Activate(Insert(x, k.(connected := false), id), k, id)
  {
  }

  lemma InsertIndexed(x: Routes, table: map<string, Keys>, id: string, k: Keys)
    requires Indexed(x, table) && id !in table && k.host != "" && k.subdomain != ""
    requires k.host !in x.byHost && k.subdomain !in x.bySubdomain && k.token !in x.byResume
    ensures Indexed(Insert(x, k, id), table[id := k])
  {
    InsertIdle(x, table, id, k.(connected := false));
    if k.connected {
      InsertActivates(x, id, k);
      ConnectNew(Insert(x, k.(connected := false), id), table, id, k);
    }
  }

  lemma ConnectNew(x: Routes, table: map<string, Keys>, id: string, k: Keys)
    requires Indexed(x, table[id := k.(connected := false)]) && k.host != "" && k.subdomain != "" && k.connected
    ensures Indexed(Activate(x, k, id), table[id := k])
  {
    RowTwice(table, id, k.(connected := false), k);
    ConnectRow(x, table[id := k.(connected := false)], id, k);
  }

  lemma RowTwice(table: map<string, Keys>, id: string, a: Keys, b: Keys)
    ensures table[id := a][id := b] == table[id := b]
  {
  }

  lemma ConnectRow(x: Routes, table: map<string, Keys>, id: string, k: Keys)
    requires Indexed(x, table) && Named(table, id) && k.connected && table[id] == k.(connected := false)
    ensures Indexed(Activate(x, k, id), table[id := k])
  {
    ConnectIndexed(x, table, id);
  }

  // What lookups learn.

  lemma Find(x: Routes, table: map<string, Keys>, key: string)
    requires Indexed(x, table)
    ensures key in x.byHost ==> x.byHost[key] in table && table[x.byHost[key]].host == key
    ensures key in x.bySubdomain ==> x.bySubdomain[key] in table && table[x.bySubdomain[key]].subdomain == key
    ensures key in x.byResume ==> x.byResume[key] in table && table[x.byResume[key]].token == key
    ensures key in x.activeByHost ==>
              x.activeByHost[key] in table && table[x.activeByHost[key]].host == key
              && table[x.activeByHost[key]].connected
    ensures key in x.activeBySubdomain ==>
              x.activeBySubdomain[key] in table && table[x.activeBySubdomain[key]].subdomain == key
              && table[x.activeBySubdomain[key]].connected
  {
  }

  lemma Found(x: Routes, table: map<string, Keys>, id: string)
    requires Indexed(x, table) && id in table
    ensures table[id].host in x.byHost && x.byHost[table[id].host] == id
    ensures table[id].subdomain in x.bySubdomain && x.bySubdomain[table[id].subdomain] == id
    ensures table[id].connected ==>
              && table[id].host in x.activeByHost && x.activeByHost[table[id].host] == id
              && table[id].subdomain in x.activeBySubdomain && x.activeBySubdomain[table[id].subdomain] == id
  {
    assert Hosts(table)[id] == table[id].host && Subdomains(table)[id] == table[id].subdomain;
    if table[id].connected {
      var rows := ConnectedRows(table);
      assert Hosts(rows)[id] == table[id].host && Subdomains(rows)[id] == table[id].subdomain;
    }
  }

  /** The four stages of LookupByHost, in order; `subdomain` is what the host
      extracts to. */
  function FindID(x: Routes, host: string, subdomain: string): Option<string> {
    if host in x.activeByHost then Some(x.activeByHost[host])
    else if subdomain != "" && subdomain in x.activeBySubdomain then Some(x.activeBySubdomain[subdomain])
    else if host in x.byHost then Some(x.byHost[host])
    else if subdomain != "" && subdomain in x.bySubdomain then Some(x.bySubdomain[subdomain])
    else None
  }

  /** What a scan would accept. */
  predicate Answers(k: Keys, host: string, subdomain: string) {
    k.host == host || (subdomain != "" && k.subdomain == subdomain)
  }

  lemma FindIDAnswers(x: Routes, table: map<string, Keys>, host: string, subdomain: string)
    requires Indexed(x, table)
    ensures match FindID(x, host, subdomain)
      case Some(id) => id in table && Answers(table[id], host, subdomain)
      case None => forall id <- table :: !Answers(table[id], host, subdomain)
  {
    Find(x, table, host);
    Find(x, table, subdomain);
    if FindID(x, host, subdomain).None? {
      forall id | id in table ensures !Answers(table[id], host, subdomain) {
        Found(x, table, id);
      }
    }
  }

  /** Two sessions never answer for one host whose subdomain fits its owner. */
  lemma AnswerIsUnique(x: Routes, table: map<string, Keys>, host: string, subdomain: string, a: string, b: string)
    requires Indexed(x, table) && a in table && b in table
    requires Answers(table[a], host, subdomain) && Answers(table[b], host, subdomain)
    requires forall id <- table :: table[id].host == host ==> subdomain == "" || subdomain == table[id].subdomain
    ensures a == b
  {
    Found(x, table, a);
    Found(x, table, b);
  }
}
