/** The CLI side of the assistant (`ubik.py`): the capability tables, its own
    model-backed selector's parse fallback, the connection checks and listings,
    and `create_dynamic_team`, which turns the selection into agents, adds the
    filesystem agent when asked and forwards the team's streamed content.
    Composio, the agent library, the MCP handshake and the models are oracles:
    their answers are parameters. */
module Ubik {
  import opened Text

  datatype Option<T> = None | Some(value: T)

  /** `TOOL_ACTIONS`: app name to the action list imported for it (named by
      the list's variable; the lists themselves are not part of this model). */
  const ToolActions: map<string, string> := map[
    "gmail" := "gmail_tools_actions",
    "googlecalendar" := "calendar_tools_actions",
    "googledrive" := "googledrive_tools_actions",
    "slack" := "slack_tools_actions",
    "weathermap" := "weather_tools_actions",
    "composio_search" := "websearch_tools_actions",
    "google_maps" := "google_maps_tools_actions"
  ]

  /** `OAUTH_APPS` and `NO_AUTH_APPS`. */
  const OAuthApps: seq<string> := ["gmail", "googlecalendar", "googledrive", "slack", "google_maps"]
  const NoAuthApps: seq<string> := ["weathermap", "composio_search"]

  /** The `agent_to_app` table of `create_dynamic_team`. */
  const AgentToAppTable: map<string, string> := map[
    "gmail" := "gmail",
    "googlecalendar" := "googlecalendar",
    "googledrive" := "googledrive",
    "slack" := "slack",
    "weather" := "weathermap",
    "composio_search" := "composio_search"
  ]

  /** `agent_to_app.get(tag, tag)`. */
  function AgentToApp(tag: string): (app: string)
    ensures tag == "weather" ==> app == "weathermap"
    ensures tag != "weather" ==> app == tag
  {
    if tag in AgentToAppTable then AgentToAppTable[tag] else tag
  }

  /** A tag yields an agent only when its app has tool actions. */
  predicate HasTools(tag: string) {
    AgentToApp(tag) in ToolActions
  }

  /** Exactly these tags can yield an agent; "search" and unknown tags cannot. */
  lemma ToolTags(tag: string)
    ensures HasTools(tag) <==> tag in {"gmail", "googlecalendar", "googledrive", "slack", "weather",
                                       "weathermap", "composio_search", "google_maps"}
    ensures !HasTools("search")
  {
  }

  // ---------------------------------------------------------------------
  // The selector of ubik.py

  /** The selector model's answer as `json.loads` sees it: not JSON, or an
      object whose "agents" key, when present, holds a list of strings and
      whose "needs_filesystem" key, when present, holds a boolean. */
  datatype SelectorReply = NotJson | JsonObject(agents: Option<seq<string>>, needsFs: Option<bool>)

  /** `smart_agent_selector` of ubik.py: the parsed reply as is, or
      `{"agents": ["search"], "needs_filesystem": False}` when it does not parse. */
  function UbikSelector(reply: SelectorReply): (sel: SelectorReply)
    ensures sel.JsonObject?
    ensures reply.JsonObject? ==> sel == reply
    ensures reply.NotJson? ==> sel == JsonObject(Some(["search"]), Some(false))
  {
    match reply
    case NotJson => JsonObject(Some(["search"]), Some(false))
    case JsonObject(_, _) => reply
  }

  /** `selection.get("agents", [])`. */
  function NeededAgents(sel: SelectorReply): seq<string> {
    if sel.JsonObject? && sel.agents.Some? then sel.agents.value else []
  }

  /** `selection.get("needs_filesystem", False)`. */
  predicate NeedsFilesystem(sel: SelectorReply) {
    sel.JsonObject? && sel.needsFs.Some? && sel.needsFs.value
  }

  // ---------------------------------------------------------------------
  // Connections

  /** A connection record as Composio reports it. Each field is what the
      `getattr` that reads it gives: None when the attribute is present and
      None, and for a missing attribute that call's default ("" for the three
      app-name fields and the status, None for the two IDs). `appNameAlt` is
      `app_name`. */
  datatype Connection = Connection(appName: Option<string>, appNameAlt: Option<string>, app: Option<string>,
                                   status: Option<string>, id: Option<string>, connectedAccountId: Option<string>)

  /** Python truthiness of an optional string: present and non-empty. */
  predicate Truthy(v: Option<string>) {
    v.Some? && v.value != ""
  }

  /** `status.lower() in ['active', 'connected']`. */
  predicate IsActiveStatus(status: string) {
    Lower(status) == "active" || Lower(status) == "connected"
  }

  /** How one record answers a question about an app: it names the app and is
      active, it does not (or is not active), or reading it raises. */
  datatype Verdict = Matches | Differs | Raises

  /** One record in the `any(...)` of `check_connections`: `.lower()` on a None
      `appName` raises, and so does `.lower()` on the None status of a record
      whose `appName` names the app. */
  function CheckRecord(c: Connection, app: string): Verdict {
    if c.appName.None? then Raises
    else if Lower(c.appName.value) != Lower(app) then Differs
    else if c.status.None? then Raises
    else if IsActiveStatus(c.status.value) then Matches
    else Differs
  }

  /** Every record before position `i` differs. */
  predicate DifferBefore(conns: seq<Connection>, app: string, i: int)
    requires 0 <= i <= |conns|
  {
    forall j | 0 <= j < i :: CheckRecord(conns[j], app) == Differs
  }

  /** The `any(...)` of `check_connections`: true at the first matching record,
      an exception (None) at the first raising one, false when every record
      differs. */
  function AnyActive(conns: seq<Connection>, app: string): (r: Option<bool>)
    ensures r == Some(true) <==> exists i | 0 <= i < |conns| ::
      CheckRecord(conns[i], app) == Matches && DifferBefore(conns, app, i)
    ensures r.None? <==> exists i | 0 <= i < |conns| ::
      CheckRecord(conns[i], app) == Raises && DifferBefore(conns, app, i)
    ensures r == Some(false) <==> forall i | 0 <= i < |conns| :: CheckRecord(conns[i], app) == Differs
  {
    if conns == [] then Some(false)
    else
      var init := conns[..|conns| - 1];
      assert forall i | 0 <= i < |init| :: init[i] == conns[i];
      var r := AnyActive(init, app);
      if r != Some(false) then r
      else
        match CheckRecord(conns[|conns| - 1], app)
        case Matches => Some(true)
        case Raises => None
        case Differs => Some(false)
  }

  /** The record's `appName` names the app, ignoring case, and its status is active. */
  predicate ActiveRecordFor(c: Connection, app: string) {
    c.appName.Some? && c.status.Some? && Lower(c.appName.value) == Lower(app) && IsActiveStatus(c.status.value)
  }

  /** On records whose `appName` and status are all present, the `any(...)`
      never raises and holds iff some record names the app and is active. */
  lemma {:induction false} AnyActiveOnCompleteRecords(conns: seq<Connection>, app: string)
    requires forall i | 0 <= i < |conns| :: conns[i].appName.Some? && conns[i].status.Some?
    ensures AnyActive(conns, app) == Some(true) || AnyActive(conns, app) == Some(false)
    ensures AnyActive(conns, app) == Some(true) <==> exists i | 0 <= i < |conns| :: ActiveRecordFor(conns[i], app)
  {
    if conns != [] {
      var init := conns[..|conns| - 1];
      var c := conns[|conns| - 1];
      assert forall i | 0 <= i < |init| :: init[i] == conns[i];
      AnyActiveOnCompleteRecords(init, app);
      assert CheckRecord(c, app) == (if ActiveRecordFor(c, app) then Matches else Differs);
      if i :| 0 <= i < |init| && ActiveRecordFor(init[i], app) {
        assert ActiveRecordFor(conns[i], app);
      }
      if i :| 0 <= i < |conns| && ActiveRecordFor(conns[i], app) {
        if i < |init| {
          assert ActiveRecordFor(init[i], app);
        }
      }
    }
  }

  /** `check_connections`: an entry for every requested tag; tags that need no
      OAuth are authorized; an OAuth tag is authorized iff the records were
      fetched and the `any(...)` over them reaches a matching record before any
      record raises. `fetched` is None when fetching the entity or its
      connections raises. */
  method CheckConnections(needed: seq<string>, fetched: Option<seq<Connection>>) returns (status: map<string, bool>)
    ensures status.Keys == set t | t in needed
    ensures forall t | t in needed && t !in OAuthApps :: status[t]
    ensures forall t | t in needed && t in OAuthApps ::
      status[t] <==> fetched.Some? && exists i | 0 <= i < |fetched.value| ::
        CheckRecord(fetched.value[i], t) == Matches
        && DifferBefore(fetched.value, t, i)
  {
    status := map[];
    for k := 0 to |needed|
      invariant status.Keys == set t | t in needed[..k]
      invariant forall t | t in status && t !in OAuthApps :: status[t]
      invariant forall t | t in status && t in OAuthApps ::
        status[t] <==> fetched.Some? && AnyActive(fetched.value, t) == Some(true)
    {
      assert needed[..k + 1] == needed[..k] + [needed[k]];
      var tag := needed[k];
      if tag in OAuthApps {
        match fetched {
          case None => status := status[tag := false];
          case Some(conns) =>
            var isConnected := AnyActive(conns, tag);
            status := status[tag := isConnected == Some(true)];
        }
      } else {
        status := status[tag := true];
      }
    }
    assert needed[..|needed|] == needed;
  }

  /** `getattr(conn, 'appName', '') or getattr(conn, 'app_name', '') or getattr(conn, 'app', '')`,
      with "" standing for every falsy outcome. */
  function ConnApp(c: Connection): (name: string)
    ensures name != "" <==> Truthy(c.appName) || Truthy(c.appNameAlt) || Truthy(c.app)
    ensures Truthy(c.appName) ==> name == c.appName.value
    ensures !Truthy(c.appName) && Truthy(c.appNameAlt) ==> name == c.appNameAlt.value
    ensures !Truthy(c.appName) && !Truthy(c.appNameAlt) ==> name == (if Truthy(c.app) then c.app.value else "")
  {
    if Truthy(c.appName) then c.appName.value
    else if Truthy(c.appNameAlt) then c.appNameAlt.value
    else if Truthy(c.app) then c.app.value
    else ""
  }

  /** `getattr(conn, 'id', None) or getattr(conn, 'connectedAccountId', None)`,
      with "" standing for every falsy outcome (no ID is printed then). */
  function ConnId(c: Connection): (connectionId: string)
    ensures connectionId != "" <==> Truthy(c.id) || Truthy(c.connectedAccountId)
    ensures Truthy(c.id) ==> connectionId == c.id.value
    ensures !Truthy(c.id) ==> connectionId == (if Truthy(c.connectedAccountId) then c.connectedAccountId.value else "")
  {
    if Truthy(c.id) then c.id.value
    else if Truthy(c.connectedAccountId) then c.connectedAccountId.value
    else ""
  }

  /** One record in the loop of `connect_app`: a record that names the app is
      active or not, and `.lower()` on its None status raises. */
  function ConnectRecord(c: Connection, app: string): Verdict {
    if ConnApp(c) == "" || Lower(ConnApp(c)) != Lower(app) then Differs
    else if c.status.None? then Raises
    else if IsActiveStatus(c.status.value) then Matches
    else Differs
  }

  /** The record at `i` is the first one that does not differ. */
  predicate FirstDecided(conns: seq<Connection>, app: string, i: int) {
    0 <= i < |conns| && forall j | 0 <= j < i :: ConnectRecord(conns[j], app) == Differs
  }

  /** What the loop of `connect_app` finds. */
  datatype Scan = NotFound | Found(conn: Connection) | ScanRaised

  /** The loop of `connect_app` over the existing records: the first record
      that names the app and is active, or the exception of the first record
      whose status cannot be read, whichever comes first. */
  method FindActiveConnection(conns: seq<Connection>, app: string) returns (r: Scan)
    ensures r.NotFound? <==> forall i | 0 <= i < |conns| :: ConnectRecord(conns[i], app) == Differs
    ensures r.Found? ==> exists i :: FirstDecided(conns, app, i) && ConnectRecord(conns[i], app) == Matches && r.conn == conns[i]
    ensures r.ScanRaised? ==> exists i :: FirstDecided(conns, app, i) && ConnectRecord(conns[i], app) == Raises
  {
    for i := 0 to |conns|
      invariant forall j | 0 <= j < i :: ConnectRecord(conns[j], app) == Differs
    {
      var verdict := ConnectRecord(conns[i], app);
      if verdict == Matches {
        assert FirstDecided(conns, app, i);
        return Found(conns[i]);
      } else if verdict == Raises {
        assert FirstDecided(conns, app, i);
        return ScanRaised;
      }
    }
    return NotFound;
  }

  /** Only one record is the first to decide. */
  lemma FirstDecidedUnique(conns: seq<Connection>, app: string, i: int, k: int)
    requires FirstDecided(conns, app, i) && ConnectRecord(conns[i], app) != Differs
    requires FirstDecided(conns, app, k) && ConnectRecord(conns[k], app) != Differs
    ensures i == k
  {
  }

  /** What `connect_app` reports. */
  datatype ConnectResult = NeedsNoAuth | AlreadyConnected(connectionId: string) | AuthUrl(url: string)
                         | NoAuthUrl | ConnectFailed

  /** `connect_app`: an app outside `OAUTH_APPS` is turned away before anything
      is contacted; an existing active connection ends the call before a new
      one is initiated, and so does an error while reading the records.
      `fetched` is None when fetching the records raises; `redirect` is what
      initiating gives: None when it raises, otherwise its `redirectUrl`
      (empty when missing). */
  method ConnectApp(app: string, fetched: Option<seq<Connection>>, redirect: Option<string>)
    returns (result: ConnectResult, initiated: bool)
    ensures app !in OAuthApps ==> result == NeedsNoAuth && !initiated
    ensures app in OAuthApps && fetched.None? ==> result == ConnectFailed && !initiated
    ensures app in OAuthApps && fetched.Some? ==> forall i | FirstDecided(fetched.value, app, i) ::
      ConnectRecord(fetched.value[i], app) == Matches ==> result == AlreadyConnected(ConnId(fetched.value[i])) && !initiated
    ensures app in OAuthApps && fetched.Some? ==> forall i | FirstDecided(fetched.value, app, i) ::
      ConnectRecord(fetched.value[i], app) == Raises ==> result == ConnectFailed && !initiated
    ensures app in OAuthApps && fetched.Some? && (forall i | 0 <= i < |fetched.value| :: ConnectRecord(fetched.value[i], app) == Differs) ==>
      initiated && result == (match redirect
                              case None => ConnectFailed
                              case Some(url) => if url != "" then AuthUrl(url) else NoAuthUrl)
  {
    if app !in OAuthApps {
      return NeedsNoAuth, false;
    }
    if fetched.None? {
      return ConnectFailed, false;
    }
    var scan := FindActiveConnection(fetched.value, app);
    match scan {
      case Found(conn) =>
        var i :| FirstDecided(fetched.value, app, i) && ConnectRecord(fetched.value[i], app) == Matches && conn == fetched.value[i];
        forall k | FirstDecided(fetched.value, app, k) && ConnectRecord(fetched.value[k], app) == Matches
          ensures k == i
        {
          FirstDecidedUnique(fetched.value, app, i, k);
        }
        return AlreadyConnected(ConnId(conn)), false;
      case ScanRaised =>
        var i :| FirstDecided(fetched.value, app, i) && ConnectRecord(fetched.value[i], app) == Raises;
        forall k | FirstDecided(fetched.value, app, k) && ConnectRecord(fetched.value[k], app) == Matches
          ensures false
        {
          FirstDecidedUnique(fetched.value, app, i, k);
        }
        return ConnectFailed, false;
      case NotFound =>
    }
    initiated := true;
    match redirect {
      case None => result := ConnectFailed;
      case Some(url) => result := if url != "" then AuthUrl(url) else NoAuthUrl;
    }
  }

  /** The entry `list_connected_apps` keeps per app name. */
  datatype AppInfo = AppInfo(status: Option<string>, connectionId: string, isActive: bool)

  function InfoOf(c: Connection): AppInfo {
    AppInfo(c.status, ConnId(c), c.status.Some? && IsActiveStatus(c.status.value))
  }

  /** The record is filed under `key` (its lower-cased, non-empty app name). */
  predicate FiledUnder(c: Connection, key: string) {
    ConnApp(c) != "" && Lower(ConnApp(c)) == key
  }

  /** A record that is filed under some name but whose status is None: `.lower()`
      on that status raises. */
  predicate Unreadable(c: Connection) {
    ConnApp(c) != "" && c.status.None?
  }

  /** The `connected_apps` dict after the loop over the records, or None when
      the loop raises. */
  function ConnectedApps(conns: seq<Connection>): Option<map<string, AppInfo>>
  {
    if conns == [] then Some(map[])
    else
      var c := conns[|conns| - 1];
      match ConnectedApps(conns[..|conns| - 1])
      case None => None
      case Some(m) =>
        if ConnApp(c) == "" then Some(m)
        else if c.status.None? then None
        else Some(m[Lower(ConnApp(c)) := InfoOf(c)])
  }

  /** The loop raises iff some filed record's status is None; otherwise the
      dict holds a key iff some record is filed under it, and its entry is that
      of the LAST such record. */
  lemma {:induction false} ConnectedAppsLastWins(conns: seq<Connection>, key: string)
    ensures ConnectedApps(conns).None? <==> exists i | 0 <= i < |conns| :: Unreadable(conns[i])
    ensures ConnectedApps(conns).Some? ==>
      (key in ConnectedApps(conns).value <==> exists i | 0 <= i < |conns| :: FiledUnder(conns[i], key))
    ensures ConnectedApps(conns).Some? && key in ConnectedApps(conns).value ==> exists i | 0 <= i < |conns| ::
      && FiledUnder(conns[i], key)
      && ConnectedApps(conns).value[key] == InfoOf(conns[i])
      && forall j | i < j < |conns| :: !FiledUnder(conns[j], key)
  {
    if conns != [] {
      var init := conns[..|conns| - 1];
      var c := conns[|conns| - 1];
      ConnectedAppsLastWins(init, key);
      assert forall i | 0 <= i < |init| :: init[i] == conns[i];
      if Unreadable(c) {
        assert Unreadable(conns[|conns| - 1]);
      }
      if ConnectedApps(conns).Some? {
        var m := ConnectedApps(init).value;
        if !FiledUnder(c, key) && key in m {
          var i :| 0 <= i < |init| && FiledUnder(init[i], key) && m[key] == InfoOf(init[i])
            && forall j | i < j < |init| :: !FiledUnder(init[j], key);
          assert forall j | i < j < |conns| :: !FiledUnder(conns[j], key);
        }
        if FiledUnder(c, key) {
          assert FiledUnder(conns[|conns| - 1], key);
        }
      }
    }
  }

  /** The first loop of `list_connected_apps`. */
  method CollectConnectedApps(conns: seq<Connection>) returns (m: Option<map<string, AppInfo>>)
    ensures m == ConnectedApps(conns)
  {
    var apps: map<string, AppInfo> := map[];
    for k := 0 to |conns|
      invariant ConnectedApps(conns[..k]) == Some(apps)
    {
      assert conns[..k + 1][..k] == conns[..k];
      var conn := conns[k];
      var connApp := ConnApp(conn);
      if connApp != "" {
        if conn.status.None? {
          assert ConnectedApps(conns[..k + 1]).None?;
          ConnectedAppsPrefix(conns, k + 1);
          return None;
        }
        apps := apps[Lower(connApp) := InfoOf(conn)];
      }
    }
    assert conns[..|conns|] == conns;
    return Some(apps);
  }

  /** Once the loop has raised on a prefix, it raises on the whole list. */
  lemma {:induction false} ConnectedAppsPrefix(conns: seq<Connection>, k: nat)
    requires k <= |conns| && ConnectedApps(conns[..k]).None?
    ensures ConnectedApps(conns).None?
    decreases |conns| - k
  {
    if k == |conns| {
      assert conns[..k] == conns;
    } else {
      assert conns[..k + 1][..k] == conns[..k];
      ConnectedAppsPrefix(conns, k + 1);
    }
  }

  /** One printed line of `list_connected_apps`; `shownId` is empty when no ID is printed. */
  datatype AppRow = AppRow(number: nat, app: string, connected: bool, shownId: string)

  /** `OAUTH_APPS + NO_AUTH_APPS`. */
  const AllApps: seq<string> := OAuthApps + NoAuthApps

  /** `list_connected_apps`: every app of `OAUTH_APPS + NO_AUTH_APPS`, numbered
      from 1 in order; a no-auth app is always connected, an OAuth app iff the
      last record filed under its name is active. Nothing is listed when
      fetching raises or a filed record's status is None. */
  method ListConnectedApps(fetched: Option<seq<Connection>>) returns (rows: Option<seq<AppRow>>)
    ensures rows.None? <==> fetched.None? || exists i | 0 <= i < |fetched.value| :: Unreadable(fetched.value[i])
    ensures rows.Some? ==> |rows.value| == |AllApps|
    ensures rows.Some? ==> forall i | 0 <= i < |rows.value| ::
      && rows.value[i].number == i + 1
      && rows.value[i].app == AllApps[i]
      && (AllApps[i] in NoAuthApps ==> rows.value[i].connected && rows.value[i].shownId == "")
      && (AllApps[i] in OAuthApps ==>
           && (rows.value[i].connected <==> exists j | 0 <= j < |fetched.value| ::
                 && FiledUnder(fetched.value[j], AllApps[i])
                 && InfoOf(fetched.value[j]).isActive
                 && forall k | j < k < |fetched.value| :: !FiledUnder(fetched.value[k], AllApps[i]))
           && (rows.value[i].connected ==>
                 ConnectedApps(fetched.value).Some? && AllApps[i] in ConnectedApps(fetched.value).value
                 && rows.value[i].shownId == ConnectedApps(fetched.value).value[AllApps[i]].connectionId)
           && (!rows.value[i].connected ==> rows.value[i].shownId == ""))
  {
    if fetched.None? {
      return None;
    }
    var conns := fetched.value;
    ConnectedAppsLastWins(conns, "");
    var collected := CollectConnectedApps(conns);
    if collected.None? {
      return None;
    }
    var connected := collected.value;
    var table: seq<AppRow> := [];
    for i := 0 to |AllApps|
      invariant |table| == i
      invariant forall j | 0 <= j < i :: table[j] == RowFor(j, connected)
    {
      table := table + [RowFor(i, connected)];
    }
    rows := Some(table);
    forall i | 0 <= i < |AllApps| && AllApps[i] in OAuthApps
      ensures RowFor(i, connected).connected <==> exists j | 0 <= j < |conns| ::
        && FiledUnder(conns[j], AllApps[i])
        && InfoOf(conns[j]).isActive
        && forall k | j < k < |conns| :: !FiledUnder(conns[k], AllApps[i])
    {
      ConnectedAppsLastWins(conns, AllApps[i]);
      if j :| 0 <= j < |conns| && FiledUnder(conns[j], AllApps[i]) && InfoOf(conns[j]).isActive
             && forall k | j < k < |conns| :: !FiledUnder(conns[k], AllApps[i]) {
        var j' :| 0 <= j' < |conns| && FiledUnder(conns[j'], AllApps[i])
          && connected[AllApps[i]] == InfoOf(conns[j'])
          && forall k | j' < k < |conns| :: !FiledUnder(conns[k], AllApps[i]);
        assert j == j';
      }
    }
  }

  /** The line printed for the app at position `i` (zero-based) of `AllApps`. */
  function RowFor(i: nat, connected: map<string, AppInfo>): AppRow
    requires i < |AllApps|
  {
    var app := AllApps[i];
    if app in OAuthApps then
      var isConnected := app in connected && connected[app].isActive;
      AppRow(i + 1, app, isConnected, if isConnected then connected[app].connectionId else "")
    else
      AppRow(i + 1, app, true, "")
  }

  // ---------------------------------------------------------------------
  // Building the team

  /** One capability agent: the tag it was built for, its app, the app's
      action list, and whether its tools were fetched with
      `check_connected_accounts=True` (the OAuth apps). */
  datatype Handler = Handler(tag: string, app: string, actions: string, checksConnectedAccounts: bool)

  function HandlerFor(tag: string): Handler
    requires HasTools(tag)
  {
    var app := AgentToApp(tag);
    Handler(tag, app, ToolActions[app], app in OAuthApps)
  }

  /** The agents the loop of `create_dynamic_team` builds, in the order of the
      tags; `builds(tag)` is false when fetching the tools or constructing the
      agent raises for that tag. */
  function Built(needed: seq<string>, builds: string -> bool): seq<Handler>
  {
    if needed == [] then []
    else
      var tag := needed[|needed| - 1];
      Built(needed[..|needed| - 1], builds) + (if HasTools(tag) && builds(tag) then [HandlerFor(tag)] else [])
  }

  /** The agent-building loop, with its per-tag try/except. */
  method BuildAgents(needed: seq<string>, builds: string -> bool) returns (agents: seq<Handler>)
    ensures agents == Built(needed, builds)
  {
    agents := [];
    for k := 0 to |needed|
      invariant agents == Built(needed[..k], builds)
    {
      assert needed[..k + 1][..k] == needed[..k];
      var name := needed[k];
      var app := AgentToApp(name);
      if app in ToolActions {
        if builds(name) {
          agents := agents + [Handler(name, app, ToolActions[app], app in OAuthApps)];
        }
      }
    }
    assert needed[..|needed|] == needed;
  }

  /** Building is per tag and in order: the agents for `a + b` are those for
      `a` followed by those for `b`. */
  lemma {:induction false} BuiltSplit(a: seq<string>, b: seq<string>, builds: string -> bool)
    ensures Built(a + b, builds) == Built(a, builds) + Built(b, builds)
    decreases |b|
  {
    if b == [] {
      assert a + b == a;
    } else {
      var b' := b[..|b| - 1];
      assert (a + b)[..|a + b| - 1] == a + b';
      assert (a + b)[|a + b| - 1] == b[|b| - 1];
      BuiltSplit(a, b', builds);
    }
  }

  /** An agent is built for a tag iff the tag has tool actions and building it
      does not raise. */
  lemma {:induction false} BuiltMembers(needed: seq<string>, builds: string -> bool, h: Handler)
    ensures h in Built(needed, builds) <==>
      exists i | 0 <= i < |needed| :: HasTools(needed[i]) && builds(needed[i]) && h == HandlerFor(needed[i])
  {
    if needed != [] {
      var init := needed[..|needed| - 1];
      BuiltMembers(init, builds, h);
      assert forall i | 0 <= i < |init| :: init[i] == needed[i];
    }
  }

  /** `needed` without the occurrences of `tag`. */
  function Without(needed: seq<string>, tag: string): seq<string> {
    if needed == [] then []
    else Without(needed[..|needed| - 1], tag) + (if needed[|needed| - 1] == tag then [] else [needed[|needed| - 1]])
  }

  /** A tag whose agent cannot be built costs that agent and nothing else: the
      result is the team built as if the tag had not been requested. */
  lemma {:induction false} FailureIsIsolated(needed: seq<string>, builds: string -> bool, builds': string -> bool, tag: string)
    requires !builds'(tag)
    requires forall t :: t != tag ==> builds'(t) == builds(t)
    ensures Built(needed, builds') == Built(Without(needed, tag), builds)
  {
    if needed != [] {
      var init := needed[..|needed| - 1];
      var last := needed[|needed| - 1];
      FailureIsIsolated(init, builds, builds', tag);
      if last == tag {
        assert Without(needed, tag) == Without(init, tag);
      } else {
        BuiltSplit(Without(init, tag), [last], builds);
        assert [last][..0] == [];
      }
    }
  }

  /** When no tag can be built (every OAuth tag unauthorized, say), no agent is. */
  lemma {:induction false} NothingBuilds(needed: seq<string>, builds: string -> bool)
    requires forall t :: !builds(t)
    ensures Built(needed, builds) == []
  {
    if needed != [] {
      NothingBuilds(needed[..|needed| - 1], builds);
    }
  }

  // ---------------------------------------------------------------------
  // Streaming

  /** The events of a streamed team run, by their `event.event` name. */
  datatype Event = TeamRunResponseContent(content: string) | TeamToolCallStarted(tool: string) | OtherEvent(name: string)

  /** The text a stream contributes: the contents of its content events, in order. */
  function ContentOf(events: seq<Event>): string {
    if events == [] then ""
    else
      ContentOf(events[..|events| - 1])
      + (match events[|events| - 1]
         case TeamRunResponseContent(text) => text
         case _ => "")
  }

  /** Forwarding commutes with splitting the stream: what is already printed
      stands and later events only append. */
  lemma {:induction false} ContentOfSplit(a: seq<Event>, b: seq<Event>)
    ensures ContentOf(a + b) == ContentOf(a) + ContentOf(b)
    decreases |b|
  {
    if b == [] {
      assert a + b == a;
    } else {
      var b' := b[..|b| - 1];
      assert (a + b)[..|a + b| - 1] == a + b';
      assert (a + b)[|a + b| - 1] == b[|b| - 1];
      ContentOfSplit(a, b');
    }
  }

  /** Tool-call and other events print nothing; a content event prints its text. */
  lemma ContentOfOne(e: Event)
    ensures ContentOf([e]) == (if e.TeamRunResponseContent? then e.content else "")
  {
    assert [e][..0] == [];
  }

  /** Standard output, as far as the team's answer goes. */
  class Sink {
    var written: string

    constructor ()
      ensures written == ""
    {
      written := "";
    }

    /** `print(text, end="", flush=True)`. */
    method Write(text: string)
      modifies this
      ensures written == old(written) + text
    {
      written := written + text;
    }
  }

  /** The `async for` over the team's stream: content events are printed at
      once and in order; tool-call-started and other events print nothing. */
  method ForwardContent(events: seq<Event>, sink: Sink)
    modifies sink
    ensures sink.written == old(sink.written) + ContentOf(events)
  {
    for k := 0 to |events|
      invariant sink.written == old(sink.written) + ContentOf(events[..k])
    {
      assert events[..k + 1][..k] == events[..k];
      match events[k] {
        case TeamRunResponseContent(text) => sink.Write(text);
        case TeamToolCallStarted(_) =>
        case OtherEvent(_) =>
      }
    }
    assert events[..|events|] == events;
  }

  /** The team that ends up answering: its capability agents and whether the
      filesystem agent is among its members. */
  datatype Team = Team(members: seq<Handler>, withFilesystem: bool)

  /** The member count `create_dynamic_team` reports. */
  function Size(team: Team): nat {
    |team.members| + if team.withFilesystem then 1 else 0
  }

  /** How a team's run went: the events its team streamed before it finished
      (`completed`) or raised. A run that raises before streaming (a failed
      filesystem handshake, a team that cannot be constructed, a failing
      `arun`) is `Run([], false)`. */
  datatype Run = Run(events: seq<Event>, completed: bool)

  /** The team of `create_dynamic_team`, from the selector's answer. */
  function ComposedTeam(reply: SelectorReply, builds: string -> bool, fsRun: Run): Team {
    var sel := UbikSelector(reply);
    var agents := Built(NeededAgents(sel), builds);
    Team(agents, NeedsFilesystem(sel) && fsRun.completed)
  }

  /** The plain team runs when no filesystem was requested, or when the
      filesystem branch raised. */
  predicate PlainTeamRuns(reply: SelectorReply, fsRun: Run) {
    !NeedsFilesystem(UbikSelector(reply)) || !fsRun.completed
  }

  /** What `create_dynamic_team` prints of the answer: the filesystem team's
      stream when it ran, and the plain team's stream when that ran. A run
      that raised has printed what it streamed before. */
  function TeamOutput(reply: SelectorReply, fsRun: Run, plainRun: Run): string {
    var sel := UbikSelector(reply);
    if !NeedsFilesystem(sel) then ContentOf(plainRun.events)
    else if fsRun.completed then ContentOf(fsRun.events)
    else ContentOf(fsRun.events) + ContentOf(plainRun.events)
  }

  /** The plain path has no handler of its own: when the plain team ran and
      raised, the exception leaves `create_dynamic_team` (for `process_query`
      to report). */
  predicate CallRaises(reply: SelectorReply, fsRun: Run, plainRun: Run) {
    PlainTeamRuns(reply, fsRun) && !plainRun.completed
  }

  /** `create_dynamic_team`: select, build the agents, try the team with the
      filesystem agent, and fall back to the plain team if that raises; an
      exception from the plain team propagates (`raised`). `team` is the team
      that answered last. */
  method CreateDynamicTeam(reply: SelectorReply, builds: string -> bool, fsRun: Run,
                           plainRun: Run, sink: Sink) returns (team: Team, raised: bool)
    modifies sink
    ensures team == ComposedTeam(reply, builds, fsRun)
    ensures raised == CallRaises(reply, fsRun, plainRun)
    ensures sink.written == old(sink.written) + TeamOutput(reply, fsRun, plainRun)
  {
    var selection := UbikSelector(reply);
    var needed := NeededAgents(selection);
    var needsFilesystem := NeedsFilesystem(selection);
    var agents := BuildAgents(needed, builds);
    if needsFilesystem {
      ForwardContent(fsRun.events, sink);
      if fsRun.completed {
        team := Team(agents, true);
      } else {
        needsFilesystem := false;
      }
    }
    raised := false;
    if !needsFilesystem {
      team := Team(agents, false);
      ForwardContent(plainRun.events, sink);
      raised := !plainRun.completed;
    }
  }

  /** At most one agent is built per selected tag, and one per tag exactly
      when every selected tag has tool actions and builds. */
  lemma {:induction false} BuiltLength(needed: seq<string>, builds: string -> bool)
    ensures |Built(needed, builds)| <= |needed|
    ensures |Built(needed, builds)| == |needed| <==>
      forall i | 0 <= i < |needed| :: HasTools(needed[i]) && builds(needed[i])
  {
    if needed != [] {
      var init := needed[..|needed| - 1];
      BuiltLength(init, builds);
      assert forall i | 0 <= i < |init| :: init[i] == needed[i];
    }
  }

  /** The team never has more members than the selection asks for (its tags,
      plus the filesystem agent), and has exactly that many iff every selected
      tag has tool actions and builds and a requested filesystem team runs to
      the end. */
  lemma TeamSize(reply: SelectorReply, builds: string -> bool, fsRun: Run)
    ensures var sel := UbikSelector(reply);
      Size(ComposedTeam(reply, builds, fsRun)) <= |NeededAgents(sel)| + if NeedsFilesystem(sel) then 1 else 0
    ensures var sel := UbikSelector(reply);
      Size(ComposedTeam(reply, builds, fsRun)) == |NeededAgents(sel)| + (if NeedsFilesystem(sel) then 1 else 0) <==>
        && (forall i | 0 <= i < |NeededAgents(sel)| :: HasTools(NeededAgents(sel)[i]) && builds(NeededAgents(sel)[i]))
        && (NeedsFilesystem(sel) ==> fsRun.completed)
  {
    BuiltLength(NeededAgents(UbikSelector(reply)), builds);
  }

  /** When the filesystem branch raises, its exception is caught: the call
      raises only if the plain team's run does, the team is exactly the built
      agents, and the output is what the filesystem team printed before it
      raised followed by the plain team's answer. */
  lemma FilesystemFailureDegrades(reply: SelectorReply, builds: string -> bool, fsRun: Run, plainRun: Run)
    requires NeedsFilesystem(UbikSelector(reply)) && !fsRun.completed
    ensures ComposedTeam(reply, builds, fsRun) == Team(Built(NeededAgents(UbikSelector(reply)), builds), false)
    ensures CallRaises(reply, fsRun, plainRun) <==> !plainRun.completed
    ensures TeamOutput(reply, fsRun, plainRun) == ContentOf(fsRun.events + plainRun.events)
  {
    ContentOfSplit(fsRun.events, plainRun.events);
  }

  /** Without a filesystem request the filesystem branch is never entered:
      nothing about it affects the team, the output or whether the call raises. */
  lemma NoFilesystemIgnoresBranch(reply: SelectorReply, builds: string -> bool, fs1: Run, fs2: Run, plainRun: Run)
    requires !NeedsFilesystem(UbikSelector(reply))
    ensures ComposedTeam(reply, builds, fs1) == ComposedTeam(reply, builds, fs2)
    ensures !ComposedTeam(reply, builds, fs1).withFilesystem
    ensures TeamOutput(reply, fs1, plainRun) == TeamOutput(reply, fs2, plainRun)
    ensures CallRaises(reply, fs1, plainRun) == CallRaises(reply, fs2, plainRun)
  {
  }

  /** A selector reply that is not JSON falls back to the tag "search", which
      has no tool actions: the team has no members at all. */
  lemma ParseFailureBuildsNoAgents(builds: string -> bool, fsRun: Run, plainRun: Run)
    ensures ComposedTeam(NotJson, builds, fsRun) == Team([], false)
    ensures TeamOutput(NotJson, fsRun, plainRun) == ContentOf(plainRun.events)
  {
    assert ["search"][..0] == [];
    assert !HasTools("search");
  }

  /** A team run that completes ends the call normally, whatever the other
      run would have done: a completed filesystem run (the plain team never
      runs), or a completed plain run. */
  lemma CompletedRunDoesNotRaise(reply: SelectorReply, fsRun: Run, plainRun: Run, other: Run)
    requires plainRun.completed || (NeedsFilesystem(UbikSelector(reply)) && fsRun.completed)
    ensures !CallRaises(reply, fsRun, plainRun)
    ensures NeedsFilesystem(UbikSelector(reply)) && fsRun.completed ==>
      !CallRaises(reply, fsRun, other) && TeamOutput(reply, fsRun, other) == TeamOutput(reply, fsRun, plainRun)
  {
  }

  /** When the plain team runs and raises, the call raises, the filesystem
      agent is not in the team, and what was printed before stands: the
      filesystem team's stream (when it ran) and then the plain team's. */
  lemma PlainFailurePropagates(reply: SelectorReply, builds: string -> bool, fsRun: Run, plainRun: Run)
    requires PlainTeamRuns(reply, fsRun) && !plainRun.completed
    ensures CallRaises(reply, fsRun, plainRun)
    ensures !ComposedTeam(reply, builds, fsRun).withFilesystem
    ensures TeamOutput(reply, fsRun, plainRun) ==
      ContentOf(if NeedsFilesystem(UbikSelector(reply)) then fsRun.events + plainRun.events else plainRun.events)
  {
    ContentOfSplit(fsRun.events, plainRun.events);
  }
}
