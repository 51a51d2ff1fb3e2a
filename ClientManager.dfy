/** The manager plugin: a registry of client sites (the `client_sites` table) and the
    `admin_init` action handler that edits the registry and pushes status changes to the
    clients. A status change is committed to the registry only when the client answered
    HTTP 200. */
module ClientManager {
  import opened PhpStrings

  const PluginPage := "wp-client-manager"
  const Active := "active"
  const Maintenance := "maintenance"
  /** The `status` column's default. */
  const DefaultStatus := Active
  /** The path appended to the site URL to reach the client's webhook. */
  const WebhookPath := "/wp-json/client-controller/v1/update-status"
  /** `random_bytes(16)`. */
  const KeyBytes := 16
  /** How much of a rejecting client's response body is echoed to the operator. */
  const MaxEchoedBody := 300
  const ConnectionErrorPrefix := "Connection Error: "
  const HttpCodePrefix := "Client site responded with HTTP code: "
  const ResponseBodyPrefix := ". Response Body: "

  /** One row of `client_sites`. The maintenance columns are nullable with no default:
      None until the site is first edited. */
  datatype SiteRecord = SiteRecord(
    siteName: string,
    siteUrl: string,
    activationKey: string,
    status: string,
    activationDate: int,
    maintenanceTitle: Option<string>,
    maintenanceLogoUrl: Option<string>,
    maintenanceText: Option<string>)

  /** The columns the edit form writes, already sanitized. */
  datatype SiteDetails = SiteDetails(
    siteName: string,
    siteUrl: string,
    maintenanceTitle: string,
    maintenanceLogoUrl: string,
    maintenanceText: string)

  /** The row an insert of name, URL and key creates: every other column takes its default. */
  function NewRecord(name: string, url: string, key: string, now: int): SiteRecord {
    SiteRecord(name, url, key, DefaultStatus, now, None, None, None)
  }

  /** The row after the edit form's update: name, URL and the maintenance columns replaced. */
  function WithDetails(r: SiteRecord, d: SiteDetails): SiteRecord {
    r.(siteName := d.siteName, siteUrl := d.siteUrl,
       maintenanceTitle := Some(d.maintenanceTitle),
       maintenanceLogoUrl := Some(d.maintenanceLogoUrl),
       maintenanceText := Some(d.maintenanceText))
  }

  predicate KeyTaken(rows: map<int, SiteRecord>, key: string) {
    exists id :: id in rows && rows[id].activationKey == key
  }

  /** The table's constraints: ids come from the auto-increment counter, and
      `activation_key` is UNIQUE. */
  ghost predicate TableValid(rows: map<int, SiteRecord>, autoIncrement: int) {
    && autoIncrement >= 1
    && (forall id :: id in rows ==> 1 <= id < autoIncrement)
    && (forall i, j :: i in rows && j in rows && rows[i].activationKey == rows[j].activationKey ==> i == j)
  }

  /** The `client_sites` table, changed in place by `$wpdb` inserts, updates and deletes. */
  class Registry {
    var rows: map<int, SiteRecord>
    var autoIncrement: int

    ghost predicate Valid()
      reads this
    {
      TableValid(rows, autoIncrement)
    }

    /** The table as `wpcm_activate` creates it: empty. */
    constructor ()
      ensures Valid() && rows == map[] && autoIncrement == 1
    {
      rows := map[];
      autoIncrement := 1;
    }

    /** `get_row(... WHERE id = %d)`. */
    method Find(id: int) returns (site: Option<SiteRecord>)
      ensures site.Some? <==> id in rows
      ensures site.Some? ==> site.value == rows[id]
    {
      if id in rows {
        site := Some(rows[id]);
      } else {
        site := None;
      }
    }

    /** `$wpdb->insert` of name, URL and key; refused when the key is already taken. */
    method Insert(name: string, url: string, key: string, now: int) returns (inserted: bool)
      requires Valid()
      modifies this
      ensures Valid()
      ensures inserted <==> !KeyTaken(old(rows), key)
      ensures inserted ==> rows == old(rows)[old(autoIncrement) := NewRecord(name, url, key, now)]
                           && autoIncrement == old(autoIncrement) + 1
      ensures !inserted ==> rows == old(rows) && autoIncrement == old(autoIncrement)
    {
      inserted := !KeyTaken(rows, key);
      if inserted {
        rows := rows[autoIncrement := NewRecord(name, url, key, now)];
        autoIncrement := autoIncrement + 1;
      }
    }

    /** `$wpdb->update` of the edit form's columns; no row matches an unknown id. */
    method UpdateDetails(id: int, d: SiteDetails)
      requires Valid()
      modifies this
      ensures Valid() && autoIncrement == old(autoIncrement)
      ensures rows == if id in old(rows) then old(rows)[id := WithDetails(old(rows)[id], d)] else old(rows)
    {
      if id in rows {
        rows := rows[id := WithDetails(rows[id], d)];
      }
    }

    /** `$wpdb->update` of the status column alone. */
    method UpdateStatus(id: int, status: string)
      requires Valid()
      modifies this
      ensures Valid() && autoIncrement == old(autoIncrement)
      ensures rows == if id in old(rows) then old(rows)[id := old(rows)[id].(status := status)] else old(rows)
    {
      if id in rows {
        rows := rows[id := rows[id].(status := status)];
      }
    }

    /** `$wpdb->delete` by id. */
    method Delete(id: int)
      requires Valid()
      modifies this
      ensures Valid() && autoIncrement == old(autoIncrement)
      ensures rows == old(rows) - {id}
    {
      rows := rows - {id};
    }
  }

  // ---- The outbound webhook call ----

  datatype Json = JString(s: string) | JNull

  function JsonOf(v: Option<string>): Json {
    match v
    case Some(s) => JString(s)
    case None => JNull
  }

  /** One POST to a client: the URL and the JSON object sent as its body, fields in order. */
  datatype WebhookCall = WebhookCall(url: string, body: seq<(string, Json)>)

  /** What `wp_remote_post` gave back: a `WP_Error`, or a response with its code and body. */
  datatype HttpOutcome = TransportError(message: string) | HttpResponse(code: nat, body: string)

  /** `rtrim($site_url, '/')` followed by the webhook path: the path is appended to the site
      URL with every trailing slash removed, and nothing else of the URL changes. */
  function WebhookUrl(siteUrl: string): (url: string)
    ensures |url| >= |WebhookPath| && url[|url| - |WebhookPath|..] == WebhookPath
    ensures var base := url[..|url| - |WebhookPath|];
      && |base| <= |siteUrl| && base == siteUrl[..|base|]
      && (base == [] || base[|base| - 1] != '/')
      && forall i :: |base| <= i < |siteUrl| ==> siteUrl[i] == '/'
  {
    var base := TrimTrailing(siteUrl, '/');
    assert (base + WebhookPath)[..|base|] == base;
    base + WebhookPath
  }

  /** Trailing slashes on the stored URL do not change where the call goes. */
  lemma WebhookUrlIgnoresTrailingSlash(siteUrl: string)
    ensures WebhookUrl(siteUrl + "/") == WebhookUrl(siteUrl)
  {
    assert (siteUrl + "/")[..|siteUrl|] == siteUrl;
  }

  /** The JSON body: the key, the target status, and the three stored maintenance columns
      (null when never set), whatever the target status is. */
  function WebhookBody(site: SiteRecord, newStatus: string): (b: seq<(string, Json)>)
    ensures |b| == 5 && forall i, j :: 0 <= i < j < |b| ==> b[i].0 != b[j].0
    ensures b[0] == ("key", JString(site.activationKey)) && b[1] == ("status", JString(newStatus))
    ensures b[2].0 == "maintenance_title" && (b[2].1.JNull? <==> site.maintenanceTitle.None?)
    ensures b[3].0 == "maintenance_logo_url" && (b[3].1.JNull? <==> site.maintenanceLogoUrl.None?)
    ensures b[4].0 == "maintenance_text" && (b[4].1.JNull? <==> site.maintenanceText.None?)
    ensures site.maintenanceTitle.Some? ==> b[2].1 == JString(site.maintenanceTitle.value)
    ensures site.maintenanceLogoUrl.Some? ==> b[3].1 == JString(site.maintenanceLogoUrl.value)
    ensures site.maintenanceText.Some? ==> b[4].1 == JString(site.maintenanceText.value)
  {
    [("key", JString(site.activationKey)),
     ("status", JString(newStatus)),
     ("maintenance_title", JsonOf(site.maintenanceTitle)),
     ("maintenance_logo_url", JsonOf(site.maintenanceLogoUrl)),
     ("maintenance_text", JsonOf(site.maintenanceText))]
  }

  /** The call for a status change: to the site's own webhook URL, carrying the site's own
      key, the target status and its maintenance copy. */
  function StatusCall(site: SiteRecord, newStatus: string): (c: WebhookCall)
    ensures c.url == WebhookUrl(site.siteUrl) && c.body == WebhookBody(site, newStatus)
    ensures |c.url| >= |WebhookPath| && c.url[|c.url| - |WebhookPath|..] == WebhookPath
    ensures |c.body| == 5 && c.body[0].1 == JString(site.activationKey) && c.body[1].1 == JString(newStatus)
  {
    WebhookCall(WebhookUrl(site.siteUrl), WebhookBody(site, newStatus))
  }

  /** The manager's only success test: no transport error and code exactly 200. */
  predicate Confirmed(o: HttpOutcome) {
    o.HttpResponse? && o.code == 200
  }

  /** The operator-facing reason for a failed push. A transport error is reported after
      "Connection Error: "; a rejection names the response code, readable back as the
      digits that follow the fixed prefix, and ends with at most 300 characters of the
      response body passed through `esc_html`. */
  function FailureReason(o: HttpOutcome, escHtml: string -> string): (msg: string)
    requires !Confirmed(o)
    ensures o.TransportError? ==>
      |msg| >= |ConnectionErrorPrefix| && msg[..|ConnectionErrorPrefix|] == ConnectionErrorPrefix
      && msg[|ConnectionErrorPrefix|..] == o.message
    ensures o.HttpResponse? ==>
      && |msg| >= |HttpCodePrefix| && msg[..|HttpCodePrefix|] == HttpCodePrefix
      && var digits := LeadingDigits(msg[|HttpCodePrefix|..]);
         (forall i :: 0 <= i < |digits| ==> IsDigit(digits[i])) && DecimalValue(digits) == o.code
    ensures o.HttpResponse? ==>
      var echoed := escHtml(Prefix(o.body, MaxEchoedBody));
      |msg| >= |echoed| && msg[|msg| - |echoed|..] == echoed
  {
    match o
    case TransportError(m) =>
      assert (ConnectionErrorPrefix + m)[..|ConnectionErrorPrefix|] == ConnectionErrorPrefix;
      ConnectionErrorPrefix + m
    case HttpResponse(code, body) =>
      var digits := NatToString(code);
      var tail := ResponseBodyPrefix + escHtml(Prefix(body, MaxEchoedBody));
      var msg := HttpCodePrefix + digits + tail;
      assert msg[..|HttpCodePrefix|] == HttpCodePrefix;
      assert msg[|HttpCodePrefix|..] == digits + tail;
      LeadingDigitsOfConcat(digits, tail);
      DecimalRoundTrip(code);
      msg
  }

  // ---- Routing an admin request ----

  /** The external helpers the handler calls, taken as parameters: the sanitizers,
      `intval`, `esc_html`, nonce verification (nonce, action), the 16 random bytes of
      a new key, the insert time, and the HTTP transport. */
  datatype Env = Env(
    sanitizeText: string -> string,
    escUrlRaw: string -> string,
    ksesPost: string -> string,
    sanitizeKey: string -> string,
    intval: string -> int,
    escHtml: string -> string,
    verifyNonce: (string, string) -> bool,
    randomBytes: seq<byte>,
    now: int,
    transport: WebhookCall -> HttpOutcome)

  /** The request's `$_GET` and `$_POST` fields that are set. */
  datatype AdminRequest = AdminRequest(get: map<string, string>, post: map<string, string>)

  /** A POST field, with a missing one read as "". */
  function Field(fields: map<string, string>, name: string): string {
    if name in fields then fields[name] else ""
  }

  /** Which branch of the handler a request takes. */
  datatype Command =
    | Ignore
    | EditSite(id: int, details: SiteDetails)
    | AddSite(name: string, url: string)
    | DeleteSite(id: int)
    | ChangeStatus(id: int, newStatus: string)

  predicate OnPluginPage(req: AdminRequest) {
    "page" in req.get && req.get["page"] == PluginPage
  }

  predicate UpdateFormPosted(req: AdminRequest, env: Env) {
    && "action" in req.post && req.post["action"] == "wpcm_update_site"
    && "wpcm_update_nonce" in req.post && env.verifyNonce(req.post["wpcm_update_nonce"], "wpcm_update_action")
  }

  predicate AddFormPosted(req: AdminRequest, env: Env) {
    "wpcm_add_nonce" in req.post && env.verifyNonce(req.post["wpcm_add_nonce"], "wpcm_add_action")
  }

  predicate ActionLink(req: AdminRequest) {
    "action" in req.get && "id" in req.get && "_wpnonce" in req.get
  }

  /** The add and edit forms' site name and URL, sanitized. */
  function PostedName(req: AdminRequest, env: Env): string {
    env.sanitizeText(Field(req.post, "site_name"))
  }

  function PostedUrl(req: AdminRequest, env: Env): string {
    env.escUrlRaw(Field(req.post, "site_url"))
  }

  /** The add form is acted on: its nonce is valid and neither name nor URL is PHP-empty. */
  predicate AddAccepted(req: AdminRequest, env: Env) {
    AddFormPosted(req, env) && !IsEmpty(PostedName(req, env)) && !IsEmpty(PostedUrl(req, env))
  }

  /** The request gets as far as the action links: on the plugin page, neither form is acted
      on, and the link carries an action, an id and a nonce. */
  predicate ReachesLinks(req: AdminRequest, env: Env) {
    OnPluginPage(req) && !UpdateFormPosted(req, env) && !AddAccepted(req, env) && ActionLink(req)
  }

  function PostedDetails(req: AdminRequest, env: Env): SiteDetails {
    SiteDetails(
      PostedName(req, env),
      PostedUrl(req, env),
      env.sanitizeText(Field(req.post, "maintenance_title")),
      env.escUrlRaw(Field(req.post, "maintenance_logo_url")),
      env.ksesPost(Field(req.post, "maintenance_text")))
  }

  /** The branch taken, in the handler's order: the edit form, then the add form (which
      falls through when the name or URL is PHP-empty), then the action links. Each
      branch is taken exactly when the requests before it were not, and carries the
      sanitized fields of the request. */
  function Route(req: AdminRequest, env: Env): (c: Command)
    ensures !OnPluginPage(req) ==> c.Ignore?
    ensures c.EditSite? <==> OnPluginPage(req) && UpdateFormPosted(req, env)
    ensures c.EditSite? ==> c.id == env.intval(Field(req.post, "id")) && c.details == PostedDetails(req, env)
    ensures c.AddSite? <==> OnPluginPage(req) && !UpdateFormPosted(req, env) && AddAccepted(req, env)
    ensures c.AddSite? ==> c.name == PostedName(req, env) && c.url == PostedUrl(req, env)
    ensures c.DeleteSite? <==>
      && ReachesLinks(req, env)
      && env.sanitizeKey(req.get["action"]) == "delete"
      && env.verifyNonce(req.get["_wpnonce"], "wpcm_delete_record")
    ensures c.DeleteSite? ==> c.id == env.intval(req.get["id"])
    ensures c.ChangeStatus? <==>
      && ReachesLinks(req, env)
      && (env.sanitizeKey(req.get["action"]) == Active || env.sanitizeKey(req.get["action"]) == Maintenance)
      && env.verifyNonce(req.get["_wpnonce"], "wpcm_status_change")
    ensures c.ChangeStatus? ==> c.id == env.intval(req.get["id"]) && c.newStatus == env.sanitizeKey(req.get["action"])
  {
    if !OnPluginPage(req) then Ignore
    else if UpdateFormPosted(req, env) then
      EditSite(env.intval(Field(req.post, "id")), PostedDetails(req, env))
    else if AddAccepted(req, env) then AddSite(PostedName(req, env), PostedUrl(req, env))
    else if ActionLink(req) then
      var action := env.sanitizeKey(req.get["action"]);
      var id := env.intval(req.get["id"]);
      var nonce := req.get["_wpnonce"];
      if action == "delete" && env.verifyNonce(nonce, "wpcm_delete_record") then DeleteSite(id)
      else if (action == Active || action == Maintenance) && env.verifyNonce(nonce, "wpcm_status_change") then
        ChangeStatus(id, action)
      else Ignore
    else Ignore
  }

  // ---- Executing it ----

  /** How the handler ends: it returns and the page renders, or it redirects with a
      `message` code (1 added, 2 deleted, 3 status updated, 4 push failed, 5 site not
      found, 6 details updated) and the extra query arguments. */
  datatype AdminResult =
    | Continue
    | Redirect(message: nat, siteName: Option<string>, status: Option<string>, error: Option<string>)

  /** The registry after the request, how it ended, and the webhook call made, if any. */
  datatype Effect = Effect(rows: map<int, SiteRecord>, autoIncrement: int, result: AdminResult, sent: Option<WebhookCall>)

  function Notice(message: nat): AdminResult {
    Redirect(message, None, None, None)
  }

  /** The row a command edits in place, if any. */
  predicate Targets(cmd: Command, id: int) {
    (cmd.EditSite? && cmd.id == id) || (cmd.ChangeStatus? && cmd.id == id)
  }

  /** What running a command does to the registry. */
  function Execute(rows: map<int, SiteRecord>, autoIncrement: int, cmd: Command, env: Env): (e: Effect)
    ensures e.result.Continue? <==> cmd.Ignore?
    ensures e.autoIncrement == autoIncrement || (cmd.AddSite? && e.autoIncrement == autoIncrement + 1)
    ensures e.rows.Keys <= rows.Keys + {autoIncrement}
    ensures cmd.Ignore? ==> e == Effect(rows, autoIncrement, Continue, None)
    ensures forall id :: id in rows && id != autoIncrement && !Targets(cmd, id) && !(cmd.DeleteSite? && cmd.id == id)
                         ==> id in e.rows && e.rows[id] == rows[id]
  {
    match cmd
    case Ignore => Effect(rows, autoIncrement, Continue, None)
    case EditSite(id, d) =>
      Effect(if id in rows then rows[id := WithDetails(rows[id], d)] else rows, autoIncrement, Notice(6), None)
    case AddSite(name, url) =>
      var key := BinToHex(env.randomBytes);
      if KeyTaken(rows, key) then Effect(rows, autoIncrement, Notice(1), None)
      else Effect(rows[autoIncrement := NewRecord(name, url, key, env.now)], autoIncrement + 1, Notice(1), None)
    case DeleteSite(id) => Effect(rows - {id}, autoIncrement, Notice(2), None)
    case ChangeStatus(id, newStatus) =>
      if id !in rows then Effect(rows, autoIncrement, Notice(5), None)
      else
        var site := rows[id];
        var call := StatusCall(site, newStatus);
        var outcome := env.transport(call);
        if Confirmed(outcome) then
          Effect(rows[id := site.(status := newStatus)], autoIncrement,
                 Redirect(3, Some(site.siteName), Some(newStatus), None), Some(call))
        else
          Effect(rows, autoIncrement,
                 Redirect(4, Some(site.siteName), None, Some(FailureReason(outcome, env.escHtml))), Some(call))
  }

  /** The status-change branch: look the site up, post the change to it, and record the
      new status only when the client answered 200. */
  method PushStatus(reg: Registry, id: int, newStatus: string, env: Env) returns (result: AdminResult, sent: Option<WebhookCall>)
    requires reg.Valid()
    modifies reg
    ensures reg.Valid()
    ensures Effect(reg.rows, reg.autoIncrement, result, sent)
         == Execute(old(reg.rows), old(reg.autoIncrement), ChangeStatus(id, newStatus), env)
  {
    sent := None;
    var site := reg.Find(id);
    if site.Some? {
      var call := StatusCall(site.value, newStatus);
      var response := env.transport(call);
      sent := Some(call);
      if !Confirmed(response) {
        result := Redirect(4, Some(site.value.siteName), None, Some(FailureReason(response, env.escHtml)));
      } else {
        reg.UpdateStatus(id, newStatus);
        result := Redirect(3, Some(site.value.siteName), Some(newStatus), None);
      }
    } else {
      result := Notice(5);
    }
  }

  /** `wpcm_handle_actions`, branch by branch as the plugin runs it. */
  method HandleActions(reg: Registry, req: AdminRequest, env: Env) returns (result: AdminResult, sent: Option<WebhookCall>)
    requires reg.Valid() && |env.randomBytes| == KeyBytes
    modifies reg
    ensures reg.Valid()
    ensures Effect(reg.rows, reg.autoIncrement, result, sent)
         == Execute(old(reg.rows), old(reg.autoIncrement), Route(req, env), env)
  {
    sent := None;
    if !OnPluginPage(req) {
      assert Route(req, env) == Ignore;
      return Continue, None;
    }

    if UpdateFormPosted(req, env) {
      var id := env.intval(Field(req.post, "id"));
      assert Route(req, env) == EditSite(id, PostedDetails(req, env));
      reg.UpdateDetails(id, PostedDetails(req, env));
      return Notice(6), None;
    }

    if AddFormPosted(req, env) {
      var name := PostedName(req, env);
      var url := PostedUrl(req, env);
      if !IsEmpty(name) && !IsEmpty(url) {
        var key := BinToHex(env.randomBytes);
        assert Route(req, env) == AddSite(name, url);
        var _ := reg.Insert(name, url, key, env.now);
        return Notice(1), None;
      }
    }

    if ActionLink(req) {
      var action := env.sanitizeKey(req.get["action"]);
      var id := env.intval(req.get["id"]);
      var nonce := req.get["_wpnonce"];

      if action == "delete" && env.verifyNonce(nonce, "wpcm_delete_record") {
        assert Route(req, env) == DeleteSite(id);
        reg.Delete(id);
        return Notice(2), None;
      }

      if (action == Active || action == Maintenance) && env.verifyNonce(nonce, "wpcm_status_change") {
        assert Route(req, env) == ChangeStatus(id, action);
        result, sent := PushStatus(reg, id, action, env);
        return;
      }
    }
    assert Route(req, env) == Ignore;
    return Continue, None;
  }

  // ---- Properties of the handler ----

  /** Running any command keeps the table's constraints. */
  lemma ExecuteKeepsTableValid(rows: map<int, SiteRecord>, autoIncrement: int, cmd: Command, env: Env)
    requires TableValid(rows, autoIncrement)
    ensures var e := Execute(rows, autoIncrement, cmd, env); TableValid(e.rows, e.autoIncrement)
  {
  }

  /** The registry's status changes only on a confirmed push: without a 200 the registry is
      unchanged and the operator gets message 4 with the reason; with it, exactly that
      row's status becomes the target status. */
  lemma ConfirmedOnlyCommit(rows: map<int, SiteRecord>, autoIncrement: int, id: int, newStatus: string, env: Env)
    requires id in rows
    ensures var e := Execute(rows, autoIncrement, ChangeStatus(id, newStatus), env);
      var outcome := env.transport(StatusCall(rows[id], newStatus));
      && e.sent == Some(StatusCall(rows[id], newStatus))
      && (!Confirmed(outcome) ==> e.rows == rows && e.result.Redirect? && e.result.message == 4
                                  && e.result.error == Some(FailureReason(outcome, env.escHtml)))
      && (Confirmed(outcome) ==> e.rows.Keys == rows.Keys && e.rows[id].status == newStatus
                                 && e.rows[id] == rows[id].(status := newStatus)
                                 && e.result.Redirect? && e.result.message == 3)
      && forall other :: other in rows && other != id ==> e.rows[other] == rows[other]
  {
  }

  /** A status link for an id that is not in the registry makes no call and changes nothing. */
  lemma UnknownSiteNoCall(rows: map<int, SiteRecord>, autoIncrement: int, id: int, newStatus: string, env: Env)
    requires id !in rows
    ensures Execute(rows, autoIncrement, ChangeStatus(id, newStatus), env)
         == Effect(rows, autoIncrement, Notice(5), None)
  {
  }

  /** Only a status change ever calls a client. */
  lemma OnlyStatusChangesCall(rows: map<int, SiteRecord>, autoIncrement: int, cmd: Command, env: Env)
    requires Execute(rows, autoIncrement, cmd, env).sent.Some?
    ensures cmd.ChangeStatus? && cmd.id in rows
  {
  }

  /** An added site gets the next id, a key of 32 lower-case hex digits made from the
      random bytes, the status `active`, and no maintenance copy; no other row changes. */
  lemma AddedSiteDefaults(rows: map<int, SiteRecord>, autoIncrement: int, name: string, url: string, env: Env)
    requires TableValid(rows, autoIncrement) && |env.randomBytes| == KeyBytes
    requires !KeyTaken(rows, BinToHex(env.randomBytes))
    ensures var e := Execute(rows, autoIncrement, AddSite(name, url), env);
      && autoIncrement !in rows && e.rows.Keys == rows.Keys + {autoIncrement}
      && var r := e.rows[autoIncrement];
      && r.siteName == name && r.siteUrl == url && r.status == Active
      && |r.activationKey| == 32 && (forall i :: 0 <= i < 32 ==> IsLowerHex(r.activationKey[i]))
      && HexToBin(r.activationKey) == env.randomBytes
      && r.maintenanceTitle.None? && r.maintenanceLogoUrl.None? && r.maintenanceText.None?
      && forall id :: id in rows ==> e.rows[id] == rows[id]
  {
    HexRoundTrip(env.randomBytes);
  }

  /** An add request is carried out only with a valid add nonce and a name and URL that
      are not PHP-empty after sanitizing. */
  lemma AddNeedsNameAndUrl(req: AdminRequest, env: Env)
    requires OnPluginPage(req) && !UpdateFormPosted(req, env)
    ensures Route(req, env).AddSite? <==>
      AddFormPosted(req, env) && !IsEmpty(PostedName(req, env)) && !IsEmpty(PostedUrl(req, env))
  {
  }

  /** Editing changes the name, URL and maintenance copy of that one row; its status,
      key and date stay, and every other row stays. */
  lemma EditKeepsStatusAndKey(rows: map<int, SiteRecord>, autoIncrement: int, id: int, d: SiteDetails, env: Env)
    requires id in rows
    ensures var e := Execute(rows, autoIncrement, EditSite(id, d), env);
      && e.rows.Keys == rows.Keys
      && e.rows[id].status == rows[id].status
      && e.rows[id].activationKey == rows[id].activationKey
      && e.rows[id].activationDate == rows[id].activationDate
      && e.rows[id].siteName == d.siteName && e.rows[id].siteUrl == d.siteUrl
      && e.rows[id].maintenanceTitle == Some(d.maintenanceTitle)
      && e.rows[id].maintenanceLogoUrl == Some(d.maintenanceLogoUrl)
      && e.rows[id].maintenanceText == Some(d.maintenanceText)
      && forall other :: other in rows && other != id ==> e.rows[other] == rows[other]
  {
  }

  /** Deleting removes exactly the row with that id. */
  lemma DeleteRemovesOnlyThatRow(rows: map<int, SiteRecord>, autoIncrement: int, id: int, env: Env)
    ensures var e := Execute(rows, autoIncrement, DeleteSite(id), env);
      && e.rows.Keys == rows.Keys - {id}
      && forall other :: other in e.rows ==> e.rows[other] == rows[other]
  {
  }

  /** A request that fails its checks is harmless: no branch taken, an add whose fresh key
      collides, an edit or a delete of an id not in the table. None of them changes the table
      or the counter or calls a client; each ends with its notice or no redirect. */
  lemma RefusedCommandsChangeNothing(rows: map<int, SiteRecord>, autoIncrement: int, cmd: Command, env: Env)
    requires || cmd.Ignore?
             || (cmd.AddSite? && KeyTaken(rows, BinToHex(env.randomBytes)))
             || (cmd.EditSite? && cmd.id !in rows)
             || (cmd.DeleteSite? && cmd.id !in rows)
    ensures var e := Execute(rows, autoIncrement, cmd, env);
      && e.rows == rows && e.autoIncrement == autoIncrement && e.sent == None
      && (cmd.Ignore? <==> e.result == Continue)
      && (cmd.AddSite? ==> e.result == Notice(1))
  {
  }
}
