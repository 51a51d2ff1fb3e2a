# WP Client Manager: status propagation

WP Client Manager is two WordPress plugins. The **manager** runs on a control site. It keeps a
registry of client sites in the `client_sites` table and lets an operator add, edit and
delete sites. It can also switch a site between `active` and `maintenance`. A switch is a
JSON POST to the client's webhook, and the registry records it only when the client
answers HTTP 200. The **client controller** runs on each client site. Its webhook checks
the caller's address against an optional allow-list and then checks the shared
activation key. It stores the new status and the maintenance copy as WordPress options.
On every front-end request, its gate serves a 503 maintenance page while the stored
status is `maintenance`.

The model has six modules:

- `PhpStrings`: the PHP string builtins the core relies on, with their edge cases. They
  are `empty`, `trim` with its default blank set, `explode`, `rtrim` of one character,
  `substr` from 0, decimal formatting and `bin2hex`.
- `WpOptions`: the options store, a class whose `values` map is updated in place.
- `MaintenancePage`: the page the template renders from the options.
- `ClientController`: the webhook as a pure function `Webhook`, and the endpoint as a
  method `HandleWebhook` on the store that is proved equal to it. It also holds the
  `template_redirect` gate `MaintenanceMode`.
- `ClientManager`: the registry as a class with the table's constraints as its
  invariant. It also holds the routing of an admin request (`Route`), its effect
  (`Execute`), and the handler `HandleActions`, proved equal to `Execute` after `Route`.
- `Protocol`: both sides together. The manager's JSON body is decoded as the client
  reads it, the client's reply becomes the manager's commit decision, and the stored
  options are rendered by the page.

WordPress and PHP services are parameters of the model:

- the sanitizers and escapers (`sanitize_text_field`, `esc_url_raw`, `wp_kses_post`,
  `sanitize_key`, `esc_html`, `esc_url`, `wpautop`);
- `intval`;
- nonce verification;
- the 16 random bytes of a new key;
- the insert time;
- the HTTP transport.

Behaviour of the code worth knowing:

- The manager always sends all three maintenance fields, not only on a switch to
  `maintenance`. A field that was never set goes out as JSON `null`.
- The client treats a `null` field as missing and stores `""` for it. The page then
  shows an empty title and text and the gear icon, not the built-in defaults.
- The manager's only success test is the response code 200. The response body is never
  read to decide success; on a failure its first 300 characters are echoed in the reason.
- Switching a site to `active` does not clear the registry's maintenance columns. Only
  the client deletes its copies.

## Model

| member | source | states |
|---|---|---|
| PhpStrings.TrimStart | client-controller/client-controller.php:40 | drops exactly the leading run of PHP blanks: the result is a suffix, every dropped character is blank, and the result does not start with a blank |
| PhpStrings.TrimStartSkipsBlank | client-controller/client-controller.php:40 | a leading blank does not change what trimming the start gives |
| PhpStrings.TrimEnd | client-controller/client-controller.php:40 | drops exactly the trailing run of PHP blanks: the result is a prefix, every dropped character is blank, and the result does not end with a blank |
| PhpStrings.Trim | client-controller/client-controller.php:40 | `trim` returns the slice of its input left after dropping blanks, and only blanks, from both ends, with no blank at either end of the result; this fixes the result |
| PhpStrings.TrimKeepsClean | client-controller/client-controller.php:40 | a string with no blank at either end is left as it is by `trim` |
| PhpStrings.Explode | client-controller/client-controller.php:40 | `explode` gives at least one piece, no piece contains the separator, and joining the pieces with the separator gives back the input |
| PhpStrings.ExplodeUnique | client-controller/client-controller.php:40 | any separator-free pieces that join to the input are exactly what `explode` returns |
| PhpStrings.IsEmpty | client-controller/client-controller.php:52 | PHP `empty()` holds for a string exactly when it is shorter than two characters and all zeros: "" and "0", not "00" or " 0" |
| PhpStrings.TrimTrailing | wp-client-manager/wp-client-manager.php:464 | `rtrim($s, '/')` removes exactly the trailing run of that character and keeps the rest |
| PhpStrings.Prefix | wp-client-manager/wp-client-manager.php:486 | `substr($s, 0, n)` is a prefix of the input that is n long, or all of the input when it is shorter |
| PhpStrings.NatToString | wp-client-manager/wp-client-manager.php:487 | a code interpolated into a string is a non-empty run of decimal digits with no leading zero |
| PhpStrings.DecimalRoundTrip | wp-client-manager/wp-client-manager.php:487 | reading the formatted digits back gives the number |
| PhpStrings.LeadingDigits | wp-client-manager/wp-client-manager.php:487 | the longest digit prefix of a string is all digits and is a prefix |
| PhpStrings.LeadingDigitsOfConcat | wp-client-manager/wp-client-manager.php:487 | digits followed by text that starts with a non-digit read back as exactly those digits |
| PhpStrings.BinToHex | wp-client-manager/wp-client-manager.php:440 | `bin2hex` gives two lower-case hex digits per byte |
| PhpStrings.HexRoundTrip | wp-client-manager/wp-client-manager.php:440 | decoding the hex text of a key gives back its random bytes |
| PhpStrings.BinToHexInjective | wp-client-manager/wp-client-manager.php:440 | different random bytes give different keys |
| WpOptions.GetOption | client-controller/maintenance-page.php:3-5 | `get_option` gives the stored value when the option exists, else the default |
| WpOptions.OptionStore.Get | client-controller/client-controller.php:88 | reading an option from the store gives `get_option` of its current values |
| WpOptions.OptionStore.Update | client-controller/client-controller.php:57 | `update_option` sets one option and leaves every other option as it was |
| WpOptions.OptionStore.Delete | client-controller/client-controller.php:70-72 | `delete_option` removes one option, is a no-op when it is absent, and leaves the others |
| MaintenancePage.Render | client-controller/maintenance-page.php:3-69 | fixed 503 and content-type headers; the document title equals the heading; title and text take the stored option when it exists, else the defaults; the gear icon is shown exactly when the logo option is missing or PHP-empty, else the escaped logo |
| MaintenancePage.AllDefaults | client-controller/maintenance-page.php:3-5 | with no presentation options the page shows the default title, the default text and the gear icon |
| ClientController.Webhook | client-controller/client-controller.php:35-79 | a call succeeds exactly when the address is permitted, the key accepted and the status known; no option other than the status and the three presentation options ever changes |
| ClientController.HandleWebhook | client-controller/client-controller.php:35-79 | the endpoint's reply and the resulting store are what the webhook's specification gives for the old store |
| ClientController.RefusalLeavesStoreUnchanged | client-controller/client-controller.php:35-79 | every refused call leaves the options untouched; only a success changes them |
| ClientController.AllowListMembership | client-controller/client-controller.php:38-44 | under an enforced list the caller passes exactly when its address equals some trimmed entry |
| ClientController.UnlistedAddressRefusedFirst | client-controller/client-controller.php:38-54 | an unlisted caller is refused with `invalid_ip` whatever key and status it sends, and nothing changes |
| ClientController.AllowListSkippedWhenUnset | client-controller/client-controller.php:38 | with the allow-list undefined, "" or "0", no call is refused for its address |
| ClientController.PaddedAddressNeverListed | client-controller/client-controller.php:40-42 | an address with a blank at either end never matches a trimmed entry |
| ClientController.MissingAddressMatchesEmptyEntry | client-controller/client-controller.php:39-42 | without `REMOTE_ADDR` the caller passes exactly when some comma-separated entry trims to "" |
| ClientController.KeyCheck | client-controller/client-controller.php:47-54 | past the address check, the reply is `invalid_key` (403) exactly when the key constant is undefined, the sent key is PHP-empty, or they differ |
| ClientController.StatusCheck | client-controller/client-controller.php:56-78 | once authenticated, the reply is `invalid_status` (400) exactly when the status is neither `active` nor `maintenance`, else a success naming it |
| ClientController.MaintenanceStoresPresentation | client-controller/client-controller.php:57-67 | an accepted `maintenance` call stores the status and the three sanitized fields, "" for a missing one, and keeps the other options |
| ClientController.ActiveClearsPresentation | client-controller/client-controller.php:68-72 | an accepted `active` call stores the status, deletes the three presentation options and keeps the rest |
| ClientController.SuccessStoresKnownStatus | client-controller/client-controller.php:56-57 | after a success the stored status is `active` or `maintenance` and equals the requested one |
| ClientController.ReplyIgnoresStore | client-controller/client-controller.php:35-79 | the reply to a call does not depend on the options stored before it |
| ClientController.WebhookIdempotent | client-controller/client-controller.php:35-79 | delivering the same call twice gives the same reply and store as delivering it once |
| ClientController.TwoEntryAllowList | client-controller/client-controller.php:40-42 | a two-entry list admits exactly the two trimmed entries |
| ClientController.TwoCleanEntries | client-controller/client-controller.php:40-42 | a two-entry list whose entries have no end blanks admits exactly those two addresses |
| ClientController.BlankAfterComma | client-controller/client-controller.php:40-42 | ", " separates entries as "," does |
| ClientController.UnlistedCallerExample | client-controller/client-controller.php:38-44 | with list "10.0.0.1,10.0.0.2", a call from 10.0.0.3 with the right key is refused `invalid_ip` and nothing changes |
| ClientController.TrimmedEntryExample | client-controller/client-controller.php:40-42 | with list "10.0.0.1, 10.0.0.2", the caller 10.0.0.2 passes |
| ClientController.WrongKeyExample | client-controller/client-controller.php:52-54 | key "abc124" against "abc123" gets 403 `invalid_key` and nothing changes |
| ClientController.UnknownStatusExample | client-controller/client-controller.php:56-78 | status "paused" with the right key gets 400 `invalid_status` and nothing changes |
| ClientController.MaintenanceMode | client-controller/client-controller.php:86-103 | the request proceeds exactly when the stored status is not exactly `maintenance`; otherwise a logged-in user is logged out and the page is served when its file exists, else `wp_die` with 503 and the fixed message and title |
| ClientManager.Registry.constructor | wp-client-manager/wp-client-manager.php:375-385 | a new table is empty and valid, and its counter starts at 1 |
| ClientManager.Registry.Find | wp-client-manager/wp-client-manager.php:461 | the lookup finds a row exactly when the id is in the table, and returns that row |
| ClientManager.Registry.Insert | wp-client-manager/wp-client-manager.php:441 | an insert succeeds exactly when the key is not taken, creating a row with the defaults under the next id; a refused insert changes nothing; the table stays valid |
| ClientManager.Registry.UpdateDetails | wp-client-manager/wp-client-manager.php:419-429 | the edit replaces name, URL and the three maintenance columns of that row only; an unknown id changes nothing |
| ClientManager.Registry.UpdateStatus | wp-client-manager/wp-client-manager.php:491 | only that row's status changes |
| ClientManager.Registry.Delete | wp-client-manager/wp-client-manager.php:454 | only that row is removed, and the table stays valid |
| ClientManager.WebhookUrl | wp-client-manager/wp-client-manager.php:464 | the URL is the site URL, with its trailing slashes and nothing else removed, followed by the webhook path |
| ClientManager.WebhookBody | wp-client-manager/wp-client-manager.php:465-471 | five fields with distinct names: the key, the target status, and the three maintenance fields, each null exactly when its column was never set and otherwise the column's value |
| ClientManager.StatusCall | wp-client-manager/wp-client-manager.php:464-471 | the call goes to the site's own webhook URL, ending with the webhook path, and carries the site's body: its own key, the target status and its maintenance copy |
| ClientManager.WebhookUrlIgnoresTrailingSlash | wp-client-manager/wp-client-manager.php:464 | a trailing slash on the stored URL does not change the target |
| ClientManager.FailureReason | wp-client-manager/wp-client-manager.php:481-488 | a transport error is reported after "Connection Error: "; a rejection names its code, readable back from the digits after the fixed prefix, and ends with the escaped first 300 characters of the body |
| ClientManager.Route | wp-client-manager/wp-client-manager.php:401-500 | off the plugin page nothing happens; the edit form is taken exactly when posted with a valid nonce, with the posted id and sanitized details; the add exactly when the edit was not and the add nonce is valid with a non-empty sanitized name and URL, which it carries; a delete or status link exactly when neither form was taken and the link's action and nonce match, with the link's id and, for a status change, the link's `active` or `maintenance` |
| ClientManager.Execute | wp-client-manager/wp-client-manager.php:408-500 | the handler returns without redirecting exactly when no branch applies, and then nothing changes and no call is made; only an add advances the counter, by one; no row appears beyond the next id; every row other than the one edited, pushed or deleted is kept unchanged |
| ClientManager.PushStatus | wp-client-manager/wp-client-manager.php:459-500 | the status-change branch's table, result and call are those of its specification, and the table's constraints hold afterwards |
| ClientManager.HandleActions | wp-client-manager/wp-client-manager.php:401-502 | the handler's table, result and outgoing call are those of the routed command, and the table's constraints hold afterwards |
| ClientManager.ExecuteKeepsTableValid | wp-client-manager/wp-client-manager.php:375-385 | every command keeps ids below the counter and activation keys unique |
| ClientManager.ConfirmedOnlyCommit | wp-client-manager/wp-client-manager.php:459-494 | the call is always made for a known site; without a 200 the table is unchanged and message 4 carries the reason; with one, only that row's status becomes the target and message 3 is shown |
| ClientManager.UnknownSiteNoCall | wp-client-manager/wp-client-manager.php:461-497 | a status link for an unknown id makes no call, changes nothing and gives message 5 |
| ClientManager.OnlyStatusChangesCall | wp-client-manager/wp-client-manager.php:459-479 | only a status change for a known site calls a client |
| ClientManager.AddedSiteDefaults | wp-client-manager/wp-client-manager.php:435-445 | an added site gets the next id, name and URL as sent, status `active`, a 32-hex-digit key that decodes to the random bytes, and no maintenance copy; other rows stay |
| ClientManager.AddNeedsNameAndUrl | wp-client-manager/wp-client-manager.php:435-445 | past the edit form, a site is added exactly when the add nonce is valid and the sanitized name and URL are both not PHP-empty |
| ClientManager.EditKeepsStatusAndKey | wp-client-manager/wp-client-manager.php:411-433 | an edit changes that row's name, URL and maintenance copy, and keeps its status, key and date and every other row |
| ClientManager.RefusedCommandsChangeNothing | wp-client-manager/wp-client-manager.php:401-457 | no branch taken, an add whose fresh key is already in the table, and an edit or delete of an unknown id leave the table and counter as they were and call no client |
| ClientManager.DeleteRemovesOnlyThatRow | wp-client-manager/wp-client-manager.php:453-457 | a delete removes exactly that id and keeps every other row |
| Protocol.Decode | client-controller/client-controller.php:47-49 | every parameter the client reads was sent as a string field of that name and value; the last field of each name decides, a string setting it and a null leaving it unset |
| Protocol.DeliveredParams | wp-client-manager/wp-client-manager.php:465-471 | the client receives the key and the target status, and each maintenance field exactly when the registry column is set, with its value |
| Protocol.RegistryAgreesWithClient | wp-client-manager/wp-client-manager.php:481-494 | when the reply comes back from the client, the registry changes its status exactly when the client applied it, to the same status; on a refusal neither side changes |
| Protocol.MatchingKeyCommits | client-controller/client-controller.php:52-75 | a client holding the site's key that lets the manager's address through applies the change, and the manager commits it with message 3 |
| Protocol.WrongKeyReportsForbidden | wp-client-manager/wp-client-manager.php:481-489 | a client with a different key refuses; the registry keeps its status and the reason reads back code 403 |
| Protocol.ActivePushRestoresDefaults | client-controller/maintenance-page.php:3-5 | after an accepted `active` push the page shows the default title, the default text and the gear icon |
| Protocol.NeverSetCopyShowsBlanks | client-controller/client-controller.php:61-67 | a `maintenance` push of a site with no maintenance copy leaves the page with an empty title and text and the gear icon |
| Protocol.MaintenancePushShowsRegistryCopy | wp-client-manager/wp-client-manager.php:465-471 | a `maintenance` push shows the registry's title and text, as sanitized by the client, on the page; the gear icon appears exactly when the sanitized logo is PHP-empty, and otherwise the image source is the escaped sanitized registry logo |

## Left out

- HTTP transport, timeouts and JSON encoding are a parameter that maps a call to an outcome. A body that cannot be encoded is not modelled.
- JSON parameters of other types (numbers, arrays, booleans) are not modelled. Every parameter is a string or null.
- Redirect URLs, `urlencode`, `admin_url`, `wp_redirect` and `exit` are not modelled. The handler's result is the redirect's `message` code and its arguments.
- `wp_logout` is a flag on the gate's outcome, and `include` of the template becomes the rendered page. The request ends there in both cases.
- Nonces are a boolean verification function of nonce and action. Capability checks are left to WordPress.
- `hash_equals` is string equality. Its constant-time property is not modelled.
- `in_array` is loose comparison in PHP. It is modelled as string equality, which is what it gives for the non-numeric strings involved.
- `intval` is a parameter from string to integer.
- `substr` counts bytes, while the model counts characters. They agree on ASCII bodies.
- A response without a code (`''` from `wp_remote_retrieve_response_code`) is not modelled. Codes are natural numbers.
- Sanitizer and escaper behaviour is not modelled. The functions are parameters, and their outputs are what the model stores and shows.
- Column widths (`VARCHAR(255)`, `VARCHAR(50)`), the `INT(11) UNSIGNED` id range and auto-increment values consumed by a failed insert are not modelled. A refused insert leaves the counter unchanged.
- `dbDelta`, `flush_rewrite_rules` and `wp_cache_flush` are not modelled. The first runs the schema, which the registry's constructor and invariant capture; the others only clear caches.
- The admin pages, list table, notices, styles and HTML markup are not modelled. Neither is the discovery of the server's IP address (wp-client-manager.php:291-304 and 508-526).
- mu-plugins/loader.php is not part of this model.
- Concurrent requests and the atomicity of the remote call and the registry update are not modelled. Each request runs alone.
- ClientManager.FailureReason: for a rejection, the contract states the prefix, the code and the trailing echoed body. It does not state the fixed text between them.
