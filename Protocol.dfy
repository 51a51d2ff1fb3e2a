/** The status-propagation protocol end to end: the manager's JSON body as the client's
    handler receives it, the client's reply as the manager's commit decision, and the
    client's options as the maintenance page renders them. */
module Protocol {
  import opened PhpStrings
  import opened WpOptions
  import MaintenancePage
  import CC = ClientController
  import CM = ClientManager

  /** `json_encode` on the manager followed by `get_json_params` and `isset` on the client:
      a string field arrives, a null field counts as not set, and a later field of the same
      name wins. */
  function Decode(body: seq<(string, CM.Json)>): (d: map<string, string>)
    ensures OnlySentStrings(body, d)
    ensures LastFieldWins(body, d)
  {
    if body == [] then map[]
    else
      var prefix := body[..|body| - 1];
      DecodeStep(prefix, body[|body| - 1], Decode(prefix));
      assert prefix + [body[|body| - 1]] == body;
      Put(Decode(prefix), body[|body| - 1])
  }

  /** Every decoded parameter was sent as a string field of that name with that value. */
  ghost predicate OnlySentStrings(body: seq<(string, CM.Json)>, d: map<string, string>) {
    forall k :: k in d ==> exists i :: 0 <= i < |body| && body[i] == (k, CM.JString(d[k]))
  }

  /** The last field of each name decides: a string is set to its value, a null is unset. */
  ghost predicate LastFieldWins(body: seq<(string, CM.Json)>, d: map<string, string>) {
    forall i :: LastOfItsName(body, i) ==>
      && (body[i].0 in d <==> body[i].1.JString?)
      && (body[i].1.JString? ==> d[body[i].0] == body[i].1.s)
  }

  /** Field `i` is the last one of its name in `body`. */
  predicate LastOfItsName(body: seq<(string, CM.Json)>, i: int) {
    0 <= i < |body| && forall j :: i < j < |body| ==> body[j].0 != body[i].0
  }

  /** Decoding one more field keeps both properties. */
  lemma DecodeStep(prefix: seq<(string, CM.Json)>, field: (string, CM.Json), m: map<string, string>)
    requires OnlySentStrings(prefix, m) && LastFieldWins(prefix, m)
    ensures OnlySentStrings(prefix + [field], Put(m, field))
    ensures LastFieldWins(prefix + [field], Put(m, field))
  {
    var body := prefix + [field];
    var d := Put(m, field);
    var n := |prefix|;
    forall k | k in d
      ensures exists i :: 0 <= i < |body| && body[i] == (k, CM.JString(d[k]))
    {
      if k == field.0 {
        assert body[n] == (k, CM.JString(d[k]));
      } else {
        var i :| 0 <= i < n && prefix[i] == (k, CM.JString(m[k]));
        assert body[i] == prefix[i];
      }
    }
    forall i | LastOfItsName(body, i)
      ensures body[i].0 in d <==> body[i].1.JString?
      ensures body[i].1.JString? ==> d[body[i].0] == body[i].1.s
    {
      if i < n {
        assert body[n].0 != body[i].0;
        forall j | i < j < n
          ensures prefix[j].0 != prefix[i].0
        {
          assert body[j] == prefix[j];
        }
        assert LastOfItsName(prefix, i);
        assert body[i] == prefix[i];
      }
    }
  }

  /** One decoded field: a string is set, a null is unset. */
  function Put(m: map<string, string>, field: (string, CM.Json)): map<string, string> {
    if field.1.JString? then m[field.0 := field.1.s] else m - {field.0}
  }

  /** The request the client's endpoint sees for one call from the manager. */
  function Deliver(call: CM.WebhookCall, remoteAddr: Option<string>): CC.WebhookRequest {
    CC.WebhookRequest(remoteAddr, Decode(call.body))
  }

  /** The client receives the key, the target status and each maintenance column that is
      set in the registry, whatever the target status; a never-set column arrives unset. */
  lemma {:induction false} DeliveredParams(site: CM.SiteRecord, newStatus: string)
    ensures var p := Decode(CM.WebhookBody(site, newStatus));
      && p.Keys <= {"key", "status", "maintenance_title", "maintenance_logo_url", "maintenance_text"}
      && "key" in p && p["key"] == site.activationKey
      && "status" in p && p["status"] == newStatus
      && ("maintenance_title" in p <==> site.maintenanceTitle.Some?)
      && ("maintenance_title" in p ==> p["maintenance_title"] == site.maintenanceTitle.value)
      && ("maintenance_logo_url" in p <==> site.maintenanceLogoUrl.Some?)
      && ("maintenance_logo_url" in p ==> p["maintenance_logo_url"] == site.maintenanceLogoUrl.value)
      && ("maintenance_text" in p <==> site.maintenanceText.Some?)
      && ("maintenance_text" in p ==> p["maintenance_text"] == site.maintenanceText.value)
  {
    var body := CM.WebhookBody(site, newStatus);
    var m1 := map["key" := site.activationKey];
    var m2 := m1["status" := newStatus];
    var m3 := Put(m2, body[2]);
    var m4 := Put(m3, body[3]);
    assert body[..1][..0] == [];
    assert Decode(body[..1]) == m1;
    assert body[..2][..1] == body[..1];
    assert Decode(body[..2]) == m2;
    assert body[..3][..2] == body[..2];
    assert Decode(body[..3]) == m3;
    assert body[..4][..3] == body[..3];
    assert Decode(body[..4]) == m4;
    assert body[..5] == body && body[..4] == body[..|body| - 1];
    assert Decode(body) == Put(m4, body[4]);
  }

  /** The client's answer on the wire: its HTTP status, with an unspecified body. */
  function WireOutcome(reply: CC.Reply, body: string): CM.HttpOutcome {
    CM.HttpResponse(CC.HttpStatus(reply), body)
  }

  /** The manager and the client move together. When the transport carries the call to
      the client and brings back its reply, the registry row's status changes exactly
      when the client applied the change, and then both hold the target status; when
      the client refused, neither side changed. */
  lemma RegistryAgreesWithClient(
    rows: map<int, CM.SiteRecord>, autoIncrement: int, id: int, newStatus: string, env: CM.Env,
    options: map<string, string>, config: CC.Config, san: CC.Sanitizers, remoteAddr: Option<string>, replyBody: string)
    requires id in rows
    requires newStatus == CM.Active || newStatus == CM.Maintenance
    requires san.text(newStatus) == newStatus
    requires var call := CM.StatusCall(rows[id], newStatus);
      env.transport(call) == WireOutcome(CC.Webhook(options, config, san, Deliver(call, remoteAddr)).reply, replyBody)
    ensures var call := CM.StatusCall(rows[id], newStatus);
      var client := CC.Webhook(options, config, san, Deliver(call, remoteAddr));
      var manager := CM.Execute(rows, autoIncrement, CM.ChangeStatus(id, newStatus), env);
      && (client.reply.Updated? ==>
            && id in manager.rows && manager.rows[id].status == newStatus
            && SiteStatus in client.options && client.options[SiteStatus] == newStatus)
      && (client.reply.Refused? ==> manager.rows == rows && client.options == options)
  {
    var call := CM.StatusCall(rows[id], newStatus);
    var req := Deliver(call, remoteAddr);
    var client := CC.Webhook(options, config, san, req);
    var outcome := env.transport(call);
    assert CM.Confirmed(outcome) <==> client.reply.Updated? by {
      assert outcome == WireOutcome(client.reply, replyBody);
    }
    CM.ConfirmedOnlyCommit(rows, autoIncrement, id, newStatus, env);
    CC.RefusalLeavesStoreUnchanged(options, config, san, req);
    if client.reply.Updated? {
      DeliveredParams(rows[id], newStatus);
      CC.SuccessStoresKnownStatus(options, config, san, req);
    }
  }

  /** A client configured with the site's key (and letting the manager's address through)
      accepts the push: the manager commits and the client stores the target status. */
  lemma MatchingKeyCommits(
    rows: map<int, CM.SiteRecord>, autoIncrement: int, id: int, newStatus: string, env: CM.Env,
    options: map<string, string>, config: CC.Config, san: CC.Sanitizers, remoteAddr: Option<string>, replyBody: string)
    requires id in rows
    requires newStatus == CM.Active || newStatus == CM.Maintenance
    requires san.text(newStatus) == newStatus && san.text(rows[id].activationKey) == rows[id].activationKey
    requires config.apiKey == Some(rows[id].activationKey) && !IsEmpty(rows[id].activationKey)
    requires CC.IpPermitted(config, CC.WebhookRequest(remoteAddr, map[]))
    requires var call := CM.StatusCall(rows[id], newStatus);
      env.transport(call) == WireOutcome(CC.Webhook(options, config, san, Deliver(call, remoteAddr)).reply, replyBody)
    ensures var call := CM.StatusCall(rows[id], newStatus);
      var client := CC.Webhook(options, config, san, Deliver(call, remoteAddr));
      var manager := CM.Execute(rows, autoIncrement, CM.ChangeStatus(id, newStatus), env);
      && client.reply == CC.Updated("Status updated to " + newStatus)
      && id in manager.rows && manager.rows[id].status == newStatus
      && SiteStatus in client.options && client.options[SiteStatus] == newStatus
      && manager.result.Redirect? && manager.result.message == 3
  {
    var call := CM.StatusCall(rows[id], newStatus);
    var req := Deliver(call, remoteAddr);
    DeliveredParams(rows[id], newStatus);
    assert CC.RemoteAddr(req) == CC.RemoteAddr(CC.WebhookRequest(remoteAddr, map[]));
    assert CC.IpPermitted(config, req);
    CC.StatusCheck(options, config, san, req);
    CC.SuccessStoresKnownStatus(options, config, san, req);
    assert CM.Confirmed(env.transport(call));
    CM.ConfirmedOnlyCommit(rows, autoIncrement, id, newStatus, env);
  }

  /** A client whose key differs refuses with 403, and the operator is told so: the
      registry keeps its status, and the reason names code 403. */
  lemma WrongKeyReportsForbidden(
    rows: map<int, CM.SiteRecord>, autoIncrement: int, id: int, newStatus: string, env: CM.Env,
    options: map<string, string>, config: CC.Config, san: CC.Sanitizers, remoteAddr: Option<string>, replyBody: string)
    requires id in rows
    requires san.text(rows[id].activationKey) == rows[id].activationKey
    requires config.apiKey.Some? && config.apiKey.value != rows[id].activationKey
    requires CC.IpPermitted(config, CC.WebhookRequest(remoteAddr, map[]))
    requires var call := CM.StatusCall(rows[id], newStatus);
      env.transport(call) == WireOutcome(CC.Webhook(options, config, san, Deliver(call, remoteAddr)).reply, replyBody)
    ensures var manager := CM.Execute(rows, autoIncrement, CM.ChangeStatus(id, newStatus), env);
      && manager.rows == rows
      && manager.result.Redirect? && manager.result.message == 4 && manager.result.error.Some?
      && var reason := manager.result.error.value;
         |reason| >= |CM.HttpCodePrefix| && DecimalValue(LeadingDigits(reason[|CM.HttpCodePrefix|..])) == 403
  {
    var call := CM.StatusCall(rows[id], newStatus);
    var req := Deliver(call, remoteAddr);
    DeliveredParams(rows[id], newStatus);
    assert CC.RemoteAddr(req) == CC.RemoteAddr(CC.WebhookRequest(remoteAddr, map[]));
    CC.KeyCheck(options, config, san, req);
    assert CC.Webhook(options, config, san, req).reply == CC.InvalidKey;
    assert env.transport(call) == CM.HttpResponse(403, replyBody);
    CM.ConfirmedOnlyCommit(rows, autoIncrement, id, newStatus, env);
  }

  /** After an accepted `active` push the page, were it shown, would use every default. */
  lemma ActivePushRestoresDefaults(options: map<string, string>, config: CC.Config, san: CC.Sanitizers,
                                   req: CC.WebhookRequest, f: MaintenancePage.Filters)
    requires CC.Webhook(options, config, san, req).reply.Updated?
    requires CC.Param(req.params, "status", san.text) == CC.Active
    ensures var page := MaintenancePage.Render(CC.Webhook(options, config, san, req).options, f);
      && page.heading == f.escHtml(MaintenancePage.DefaultTitle)
      && page.body == f.autop(MaintenancePage.DefaultText)
      && page.banner == MaintenancePage.GearIcon
  {
    CC.ActiveClearsPresentation(options, config, san, req);
  }

  /** A `maintenance` push of a site whose maintenance copy was never set sends nulls; the
      client stores "" for each, so its page shows an empty title and text and the gear
      icon, not the built-in defaults. */
  lemma NeverSetCopyShowsBlanks(
    site: CM.SiteRecord, options: map<string, string>, config: CC.Config, san: CC.Sanitizers,
    remoteAddr: Option<string>, f: MaintenancePage.Filters)
    requires site.maintenanceTitle.None? && site.maintenanceLogoUrl.None? && site.maintenanceText.None?
    requires san.text(CM.Maintenance) == CM.Maintenance
    requires CC.Webhook(options, config, san, Deliver(CM.StatusCall(site, CM.Maintenance), remoteAddr)).reply.Updated?
    ensures var stored := CC.Webhook(options, config, san, Deliver(CM.StatusCall(site, CM.Maintenance), remoteAddr)).options;
      var page := MaintenancePage.Render(stored, f);
      && CC.StoredStatus(stored) == CC.Maintenance
      && page.heading == f.escHtml("") && page.documentTitle == f.escHtml("")
      && page.body == f.autop("")
      && page.banner == MaintenancePage.GearIcon
  {
    var req := Deliver(CM.StatusCall(site, CM.Maintenance), remoteAddr);
    DeliveredParams(site, CM.Maintenance);
    CC.MaintenanceStoresPresentation(options, config, san, req);
  }

  /** A `maintenance` push carries the registry's copy to the page: the stored title, logo
      and text are the sanitized registry values. */
  lemma MaintenancePushShowsRegistryCopy(
    site: CM.SiteRecord, options: map<string, string>, config: CC.Config, san: CC.Sanitizers,
    remoteAddr: Option<string>, f: MaintenancePage.Filters)
    requires site.maintenanceTitle.Some? && site.maintenanceLogoUrl.Some? && site.maintenanceText.Some?
    requires san.text(CM.Maintenance) == CM.Maintenance
    requires CC.Webhook(options, config, san, Deliver(CM.StatusCall(site, CM.Maintenance), remoteAddr)).reply.Updated?
    ensures var stored := CC.Webhook(options, config, san, Deliver(CM.StatusCall(site, CM.Maintenance), remoteAddr)).options;
      var page := MaintenancePage.Render(stored, f);
      && page.heading == f.escHtml(san.text(site.maintenanceTitle.value))
      && page.body == f.autop(san.ksesPost(site.maintenanceText.value))
      && (page.banner.GearIcon? <==> IsEmpty(san.urlRaw(site.maintenanceLogoUrl.value)))
      && (page.banner.LogoImage? ==> page.banner.src == f.escUrl(san.urlRaw(site.maintenanceLogoUrl.value)))
  {
    var req := Deliver(CM.StatusCall(site, CM.Maintenance), remoteAddr);
    DeliveredParams(site, CM.Maintenance);
    CC.MaintenanceStoresPresentation(options, config, san, req);
  }
}
