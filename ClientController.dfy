/** The client plugin: the `update-status` webhook receiver, which authenticates a call
    and writes the new status into the options store, and the per-request gate, which
    reads that status and answers with the maintenance page while it is `maintenance`. */
module ClientController {
  import opened PhpStrings
  import opened WpOptions
  import MaintenancePage

  const Active := "active"
  const Maintenance := "maintenance"

  /** The deployment constants `WPCM_ALLOWED_IP` and `WPCM_API_KEY`; None when undefined. */
  datatype Config = Config(allowedIp: Option<string>, apiKey: Option<string>)

  /** The input filters the handler applies: `sanitize_text_field`, `esc_url_raw`, `wp_kses_post`. */
  datatype Sanitizers = Sanitizers(text: string -> string, urlRaw: string -> string, ksesPost: string -> string)

  /** One call to the endpoint: `$_SERVER['REMOTE_ADDR']` if set, and the JSON parameters
      that are set (a JSON null is not set). */
  datatype WebhookRequest = WebhookRequest(remoteAddr: Option<string>, params: map<string, string>)

  /** A `WP_REST_Response` on success, a `WP_Error` with its code, message and HTTP status otherwise. */
  datatype Reply = Updated(message: string) | Refused(code: string, message: string, status: nat)

  const InvalidIp := Refused("invalid_ip", "Forbidden: IP address not allowed.", 403)
  const InvalidKey := Refused("invalid_key", "Invalid activation key.", 403)
  const InvalidStatus := Refused("invalid_status", "Invalid status provided.", 400)

  function HttpStatus(r: Reply): nat {
    if r.Updated? then 200 else r.status
  }

  /** The reply and the options store after one webhook call. */
  datatype Outcome = Outcome(reply: Reply, options: map<string, string>)

  /** The allow-list is checked only when the constant is defined and not PHP-empty. */
  predicate AllowListEnforced(config: Config) {
    config.allowedIp.Some? && !IsEmpty(config.allowedIp.value)
  }

  /** `array_map('trim', explode(',', $list))`. */
  function AllowedIps(list: string): (ips: seq<string>)
    ensures |ips| == |Explode(',', list)|
    ensures forall i :: 0 <= i < |ips| ==> ips[i] == Trim(Explode(',', list)[i])
  {
    var parts := Explode(',', list);
    seq(|parts|, i requires 0 <= i < |parts| => Trim(parts[i]))
  }

  function RemoteAddr(req: WebhookRequest): string {
    req.remoteAddr.GetOr("")
  }

  /** Security check 1: the caller's address is one of the trimmed allow-list entries,
      or no allow-list is enforced. */
  predicate IpPermitted(config: Config, req: WebhookRequest) {
    !AllowListEnforced(config) || RemoteAddr(req) in AllowedIps(config.allowedIp.value)
  }

  /** A JSON parameter after sanitizing, or "" when it is not set. */
  function Param(params: map<string, string>, name: string, sanitize: string -> string): string {
    if name in params then sanitize(params[name]) else ""
  }

  /** Security check 2: the key is defined, the sanitized key is not PHP-empty, and they match. */
  predicate KeyAccepted(config: Config, key: string) {
    config.apiKey.Some? && !IsEmpty(key) && key == config.apiKey.value
  }

  predicate IsKnownStatus(status: string) {
    status == Active || status == Maintenance
  }

  function SuccessMessage(status: string): string {
    "Status updated to " + status
  }

  /** The presentation options a `maintenance` call stores: each sanitized parameter, or "". */
  function PresentationFrom(req: WebhookRequest, san: Sanitizers): map<string, string> {
    map[MaintenanceTitle := Param(req.params, "maintenance_title", san.text),
        MaintenanceLogoUrl := Param(req.params, "maintenance_logo_url", san.urlRaw),
        MaintenanceText := Param(req.params, "maintenance_text", san.ksesPost)]
  }

  /** What one webhook call does to the store and what it answers, checks in source order. */
  function Webhook(options: map<string, string>, config: Config, san: Sanitizers, req: WebhookRequest): (o: Outcome)
    ensures o.reply.Updated? <==>
      && IpPermitted(config, req)
      && KeyAccepted(config, Param(req.params, "key", san.text))
      && IsKnownStatus(Param(req.params, "status", san.text))
    ensures forall name :: name in options && name !in {SiteStatus, MaintenanceTitle, MaintenanceLogoUrl, MaintenanceText}
              ==> name in o.options && o.options[name] == options[name]
  {
    var key := Param(req.params, "key", san.text);
    var status := Param(req.params, "status", san.text);
    if !IpPermitted(config, req) then Outcome(InvalidIp, options)
    else if !KeyAccepted(config, key) then Outcome(InvalidKey, options)
    else if !IsKnownStatus(status) then Outcome(InvalidStatus, options)
    else if status == Maintenance then
      Outcome(Updated(SuccessMessage(status)), options[SiteStatus := status] + PresentationFrom(req, san))
    else
      Outcome(Updated(SuccessMessage(status)),
              options[SiteStatus := status] - {MaintenanceTitle, MaintenanceLogoUrl, MaintenanceText})
  }

  /** The endpoint callback: runs the checks in order and then writes or deletes options
      one at a time, as the plugin does. */
  method HandleWebhook(store: OptionStore, config: Config, san: Sanitizers, req: WebhookRequest)
    returns (reply: Reply)
    modifies store
    ensures Outcome(reply, store.values) == Webhook(old(store.values), config, san, req)
  {
    if AllowListEnforced(config) {
      var requestIp := RemoteAddr(req);
      var allowedIps := AllowedIps(config.allowedIp.value);
      if requestIp !in allowedIps {
        assert Webhook(store.values, config, san, req) == Outcome(InvalidIp, store.values);
        return InvalidIp;
      }
    }

    assert IpPermitted(config, req);
    var key := Param(req.params, "key", san.text);
    var status := Param(req.params, "status", san.text);

    if config.apiKey.None? || IsEmpty(key) || key != config.apiKey.value {
      assert Webhook(store.values, config, san, req) == Outcome(InvalidKey, store.values);
      return InvalidKey;
    }
    ghost var before := store.values;

    if status == Active || status == Maintenance {
      store.Update(SiteStatus, status);
      if status == Maintenance {
        var title := Param(req.params, "maintenance_title", san.text);
        var logoUrl := Param(req.params, "maintenance_logo_url", san.urlRaw);
        var text := Param(req.params, "maintenance_text", san.ksesPost);
        store.Update(MaintenanceTitle, title);
        store.Update(MaintenanceLogoUrl, logoUrl);
        store.Update(MaintenanceText, text);
        WritesAsUnion(before[SiteStatus := status], title, logoUrl, text);
      } else {
        store.Delete(MaintenanceTitle);
        store.Delete(MaintenanceLogoUrl);
        store.Delete(MaintenanceText);
        DeletesAsDifference(before[SiteStatus := status]);
      }
      return Updated(SuccessMessage(status));
    }

    return InvalidStatus;
  }

  /** Helper: the three presentation writes, one after another, are one union. */
  lemma WritesAsUnion(m: map<string, string>, title: string, logoUrl: string, text: string)
    ensures m[MaintenanceTitle := title][MaintenanceLogoUrl := logoUrl][MaintenanceText := text]
         == m + map[MaintenanceTitle := title, MaintenanceLogoUrl := logoUrl, MaintenanceText := text]
  {
  }

  /** Helper: the three presentation deletes, one after another, are one difference. */
  lemma DeletesAsDifference(m: map<string, string>)
    ensures m - {MaintenanceTitle} - {MaintenanceLogoUrl} - {MaintenanceText}
         == m - {MaintenanceTitle, MaintenanceLogoUrl, MaintenanceText}
  {
  }

  // ---- Properties of the webhook receiver ----

  /** Every refused call leaves the store exactly as it was; only a 200 changes it. */
  lemma RefusalLeavesStoreUnchanged(options: map<string, string>, config: Config, san: Sanitizers, req: WebhookRequest)
    ensures var o := Webhook(options, config, san, req);
      o.reply.Refused? ==> o.options == options
    ensures var o := Webhook(options, config, san, req);
      o.reply.Refused? <==> HttpStatus(o.reply) != 200
  {
  }

  /** An address is permitted exactly when it equals the trimmed text of one of the
      comma-separated pieces of the allow-list: pieces being the separator-free strings
      that join back, with commas, to the constant. */
  lemma AllowListMembership(config: Config, req: WebhookRequest, pieces: seq<string>)
    requires AllowListEnforced(config)
    requires |pieces| >= 1 && forall i :: 0 <= i < |pieces| ==> ',' !in pieces[i]
    requires Implode(',', pieces) == config.allowedIp.value
    ensures IpPermitted(config, req) <==> exists i :: 0 <= i < |pieces| && Trim(pieces[i]) == RemoteAddr(req)
  {
    ExplodeUnique(',', config.allowedIp.value, pieces);
    TrimmedMember(RemoteAddr(req), AllowedIps(config.allowedIp.value), pieces);
  }

  /** Membership in the trimmed pieces, stated on the pieces themselves. */
  lemma TrimmedMember(addr: string, ips: seq<string>, pieces: seq<string>)
    requires |ips| == |pieces| && forall i :: 0 <= i < |ips| ==> ips[i] == Trim(pieces[i])
    ensures addr in ips <==> exists i :: 0 <= i < |pieces| && Trim(pieces[i]) == addr
  {
    if addr in ips {
      var i :| 0 <= i < |ips| && ips[i] == addr;
      assert Trim(pieces[i]) == addr;
    }
  }

  /** An enforced allow-list refuses an unlisted caller with `invalid_ip` whatever key,
      status and fields it sends: the address check comes first. */
  lemma UnlistedAddressRefusedFirst(options: map<string, string>, config: Config, san: Sanitizers, req: WebhookRequest)
    requires AllowListEnforced(config)
    requires RemoteAddr(req) !in AllowedIps(config.allowedIp.value)
    ensures Webhook(options, config, san, req) == Outcome(InvalidIp, options)
  {
  }

  /** With the allow-list undefined, "" or "0", no call is refused for its address. */
  lemma AllowListSkippedWhenUnset(options: map<string, string>, config: Config, san: Sanitizers, req: WebhookRequest)
    requires !AllowListEnforced(config)
    ensures Webhook(options, config, san, req).reply != InvalidIp
  {
  }

  /** An address that begins or ends with a blank never passes an enforced allow-list,
      since every entry is trimmed. */
  lemma PaddedAddressNeverListed(config: Config, req: WebhookRequest)
    requires AllowListEnforced(config)
    requires RemoteAddr(req) != [] && (IsBlank(RemoteAddr(req)[0]) || IsBlank(RemoteAddr(req)[|RemoteAddr(req)| - 1]))
    ensures !IpPermitted(config, req)
  {
  }

  /** With no `REMOTE_ADDR`, the address is "" and it passes exactly when some entry trims
      to "": an empty piece, such as the one after a trailing comma, or a blank one. */
  lemma MissingAddressMatchesEmptyEntry(config: Config, req: WebhookRequest, pieces: seq<string>)
    requires AllowListEnforced(config) && req.remoteAddr.None?
    requires pieces == Explode(',', config.allowedIp.value)
    ensures IpPermitted(config, req) <==> exists i :: 0 <= i < |pieces| && Trim(pieces[i]) == ""
  {
    assert RemoteAddr(req) == "";
    TrimmedMember("", AllowedIps(config.allowedIp.value), pieces);
  }

  /** Past the address check, the call gets `invalid_key` exactly when the key is not
      accepted: the constant is undefined, or the sanitized key is missing, "" or "0", or
      it differs from the constant. The store is then unchanged. */
  lemma KeyCheck(options: map<string, string>, config: Config, san: Sanitizers, req: WebhookRequest)
    requires IpPermitted(config, req)
    ensures var o := Webhook(options, config, san, req);
      (o.reply == InvalidKey) <==> !KeyAccepted(config, Param(req.params, "key", san.text))
    ensures var o := Webhook(options, config, san, req);
      o.reply == InvalidKey ==> o.options == options
  {
  }

  /** Once authenticated, the call gets `invalid_status` exactly when the sanitized status
      is neither `active` nor `maintenance`; otherwise it is applied and answered with 200. */
  lemma StatusCheck(options: map<string, string>, config: Config, san: Sanitizers, req: WebhookRequest)
    requires IpPermitted(config, req) && KeyAccepted(config, Param(req.params, "key", san.text))
    ensures var o := Webhook(options, config, san, req);
      var status := Param(req.params, "status", san.text);
      && (o.reply == InvalidStatus <==> !IsKnownStatus(status))
      && (IsKnownStatus(status) ==> o.reply == Updated("Status updated to " + status))
  {
  }

  /** An accepted `maintenance` call stores the status and all three presentation options,
      a missing parameter as "", and touches no other option. */
  lemma MaintenanceStoresPresentation(options: map<string, string>, config: Config, san: Sanitizers, req: WebhookRequest)
    requires Webhook(options, config, san, req).reply.Updated?
    requires Param(req.params, "status", san.text) == Maintenance
    ensures var s := Webhook(options, config, san, req).options;
      && s.Keys == options.Keys + {SiteStatus, MaintenanceTitle, MaintenanceLogoUrl, MaintenanceText}
      && s[SiteStatus] == Maintenance
      && s[MaintenanceTitle] == Param(req.params, "maintenance_title", san.text)
      && s[MaintenanceLogoUrl] == Param(req.params, "maintenance_logo_url", san.urlRaw)
      && s[MaintenanceText] == Param(req.params, "maintenance_text", san.ksesPost)
      && ("maintenance_title" !in req.params ==> s[MaintenanceTitle] == "")
      && ("maintenance_logo_url" !in req.params ==> s[MaintenanceLogoUrl] == "")
      && ("maintenance_text" !in req.params ==> s[MaintenanceText] == "")
      && forall name :: name in options && name !in {SiteStatus, MaintenanceTitle, MaintenanceLogoUrl, MaintenanceText}
           ==> s[name] == options[name]
  {
  }

  /** An accepted `active` call stores the status, leaves no presentation option behind,
      whatever was stored before, and touches no other option. */
  lemma ActiveClearsPresentation(options: map<string, string>, config: Config, san: Sanitizers, req: WebhookRequest)
    requires Webhook(options, config, san, req).reply.Updated?
    requires Param(req.params, "status", san.text) == Active
    ensures var s := Webhook(options, config, san, req).options;
      && s.Keys == options.Keys + {SiteStatus} - {MaintenanceTitle, MaintenanceLogoUrl, MaintenanceText}
      && s[SiteStatus] == Active
      && forall name :: name in options && name !in {SiteStatus, MaintenanceTitle, MaintenanceLogoUrl, MaintenanceText}
           ==> s[name] == options[name]
  {
  }

  /** The stored status is always `active` or `maintenance` after a successful call. */
  lemma SuccessStoresKnownStatus(options: map<string, string>, config: Config, san: Sanitizers, req: WebhookRequest)
    requires Webhook(options, config, san, req).reply.Updated?
    ensures var s := Webhook(options, config, san, req).options;
      SiteStatus in s && IsKnownStatus(s[SiteStatus]) && s[SiteStatus] == Param(req.params, "status", san.text)
  {
  }

  /** Replaying a call gives the same reply and the same store as applying it once. */
  lemma WebhookIdempotent(options: map<string, string>, config: Config, san: Sanitizers, req: WebhookRequest)
    ensures var once := Webhook(options, config, san, req);
      Webhook(once.options, config, san, req) == once
  {
    var once := Webhook(options, config, san, req);
    var twice := Webhook(once.options, config, san, req);
    var status := Param(req.params, "status", san.text);
    ReplyIgnoresStore(options, once.options, config, san, req);
    if once.reply.Refused? {
      assert once.options == options;
    } else if status == Maintenance {
      var written := options[SiteStatus := status] + PresentationFrom(req, san);
      assert once.options == written;
      assert twice.options == written[SiteStatus := status] + PresentationFrom(req, san);
      WriteTwice(options, status, PresentationFrom(req, san));
    } else {
      var cleared := options[SiteStatus := status] - {MaintenanceTitle, MaintenanceLogoUrl, MaintenanceText};
      assert once.options == cleared;
      assert twice.options == cleared[SiteStatus := status] - {MaintenanceTitle, MaintenanceLogoUrl, MaintenanceText};
      ClearTwice(options, status);
    }
  }

  /** Helper: writing the status and the presentation twice is writing them once. */
  lemma WriteTwice(m: map<string, string>, status: string, p: map<string, string>)
    ensures (m[SiteStatus := status] + p)[SiteStatus := status] + p == m[SiteStatus := status] + p
  {
  }

  /** Helper: writing the status and clearing the presentation twice is doing it once. */
  lemma ClearTwice(m: map<string, string>, status: string)
    ensures var d := {MaintenanceTitle, MaintenanceLogoUrl, MaintenanceText};
      (m[SiteStatus := status] - d)[SiteStatus := status] - d == m[SiteStatus := status] - d
  {
  }

  /** The reply never depends on what the store held before. */
  lemma ReplyIgnoresStore(a: map<string, string>, b: map<string, string>, config: Config, san: Sanitizers, req: WebhookRequest)
    ensures Webhook(a, config, san, req).reply == Webhook(b, config, san, req).reply
  {
  }

  // ---- Concrete calls ----

  /** An allow-list of two entries admits exactly the two trimmed entries. */
  lemma TwoEntryAllowList(config: Config, req: WebhookRequest, first: string, second: string)
    requires ',' !in first && ',' !in second
    requires config.allowedIp == Some(first + "," + second)
    ensures IpPermitted(config, req) <==> RemoteAddr(req) == Trim(first) || RemoteAddr(req) == Trim(second)
  {
    ListOfTwo(first, second);
    ExplodeUnique(',', first + "," + second, [first, second]);
    var ips := AllowedIps(first + "," + second);
    assert ips == [Trim(first), Trim(second)];
  }

  /** Helper: two separator-free entries joined by a comma make a list that is enforced
      and that splits back into the two. */
  lemma ListOfTwo(first: string, second: string)
    requires ',' !in first && ',' !in second
    ensures !IsEmpty(first + "," + second)
    ensures Implode(',', [first, second]) == first + "," + second
  {
    assert (first + "," + second)[|first|] == ',';
    assert [first, second][1..] == [second];
  }

  /** An allow-list of two entries without blanks at their ends admits exactly those two. */
  lemma TwoCleanEntries(config: Config, req: WebhookRequest, first: string, second: string)
    requires ',' !in first && ',' !in second
    requires first != [] && !IsBlank(first[0]) && !IsBlank(first[|first| - 1])
    requires second != [] && !IsBlank(second[0]) && !IsBlank(second[|second| - 1])
    requires config.allowedIp == Some(first + "," + second)
    ensures IpPermitted(config, req) <==> RemoteAddr(req) == first || RemoteAddr(req) == second
  {
    TwoEntryAllowList(config, req, first, second);
    TrimKeepsClean(first);
    TrimKeepsClean(second);
  }

  /** Allow-list "10.0.0.1,10.0.0.2": a call from 10.0.0.3 is refused as `invalid_ip`
      although it carries the right key. */
  lemma UnlistedCallerExample(options: map<string, string>, config: Config, san: Sanitizers, req: WebhookRequest)
    requires config == Config(Some("10.0.0.1,10.0.0.2"), Some("abc123"))
    requires req == WebhookRequest(Some("10.0.0.3"), map["key" := "abc123", "status" := Maintenance])
    ensures Webhook(options, config, san, req) == Outcome(InvalidIp, options)
  {
    assert "10.0.0.1,10.0.0.2" == "10.0.0.1" + "," + "10.0.0.2";
    TwoCleanEntries(config, req, "10.0.0.1", "10.0.0.2");
  }

  /** A blank after the comma does not matter: ", " separates like ",". */
  lemma BlankAfterComma(config: Config, req: WebhookRequest, first: string, second: string)
    requires ',' !in first && ',' !in second
    requires first != [] && !IsBlank(first[0]) && !IsBlank(first[|first| - 1])
    requires second != [] && !IsBlank(second[0]) && !IsBlank(second[|second| - 1])
    requires config.allowedIp == Some(first + ", " + second)
    ensures IpPermitted(config, req) <==> RemoteAddr(req) == first || RemoteAddr(req) == second
  {
    var padded := [' '] + second;
    assert first + ", " + second == first + "," + padded;
    TwoEntryAllowList(config, req, first, padded);
    TrimStartSkipsBlank(' ', second);
    TrimKeepsClean(first);
    TrimKeepsClean(second);
  }

  /** Allow-list "10.0.0.1, 10.0.0.2": the entry is trimmed, so 10.0.0.2 gets through to
      the key check. */
  lemma TrimmedEntryExample(config: Config, req: WebhookRequest)
    requires config.allowedIp == Some("10.0.0.1, 10.0.0.2") && req.remoteAddr == Some("10.0.0.2")
    ensures IpPermitted(config, req)
  {
    assert "10.0.0.1, 10.0.0.2" == "10.0.0.1" + ", " + "10.0.0.2";
    BlankAfterComma(config, req, "10.0.0.1", "10.0.0.2");
  }

  /** Key "abc124" against the constant "abc123" is refused with 403 and changes nothing. */
  lemma WrongKeyExample(options: map<string, string>, san: Sanitizers)
    requires san.text("abc124") == "abc124"
    ensures var req := WebhookRequest(Some("10.0.0.1"), map["key" := "abc124", "status" := Maintenance]);
      var o := Webhook(options, Config(None, Some("abc123")), san, req);
      o == Outcome(InvalidKey, options) && HttpStatus(o.reply) == 403
  {
  }

  /** Status "paused" with the right key is refused with 400 and changes nothing. */
  lemma UnknownStatusExample(options: map<string, string>, san: Sanitizers)
    requires san.text("abc123") == "abc123" && san.text("paused") == "paused"
    ensures var req := WebhookRequest(None, map["key" := "abc123", "status" := "paused"]);
      var o := Webhook(options, Config(None, Some("abc123")), san, req);
      o == Outcome(InvalidStatus, options) && HttpStatus(o.reply) == 400
  {
  }

  // ---- The gate ----

  /** How the gate ends a request: let it through, serve the maintenance page, or
      `wp_die` with 503 when the page template is missing. `logout` records whether
      `wp_logout` ran first. */
  datatype GateOutcome =
    | Proceed
    | ServePage(logout: bool, page: MaintenancePage.Page)
    | Die(logout: bool, message: string, title: string, status: int)

  const DieMessage := "This site is currently under maintenance. Please check back later."
  const DieTitle := "Maintenance Mode"

  /** The stored status, `active` when the option does not exist. */
  function StoredStatus(options: map<string, string>): string {
    GetOption(options, SiteStatus, Active)
  }

  /** `template_redirect` hook: reads the status; in maintenance it logs a logged-in user
      out and ends the request with the page (or the 503 fallback). It changes no option. */
  method MaintenanceMode(store: OptionStore, f: MaintenancePage.Filters, loggedIn: bool, pageFileExists: bool)
    returns (g: GateOutcome)
    ensures g.Proceed? <==> !(SiteStatus in store.values && store.values[SiteStatus] == Maintenance)
    ensures g.ServePage? <==> (StoredStatus(store.values) == Maintenance && pageFileExists)
    ensures !g.Proceed? ==> g.logout == loggedIn
    ensures g.ServePage? ==> g.page == MaintenancePage.Render(store.values, f) && g.page.statusHeader == MaintenancePage.StatusHeader
    ensures g.Die? ==> g.status == 503 && g.message == DieMessage && g.title == DieTitle
  {
    var status := store.Get(SiteStatus, Active);
    if status == Maintenance {
      var logout := loggedIn;
      if pageFileExists {
        var page := MaintenancePage.Render(store.values, f);
        return ServePage(logout, page);
      } else {
        return Die(logout, DieMessage, DieTitle, 503);
      }
    }
    return Proceed;
  }
}
