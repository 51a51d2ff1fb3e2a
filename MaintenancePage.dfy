/** The maintenance page the client serves while in maintenance: a 503 response whose
    title, logo and text come from the presentation options, each falling back to a
    built-in default only when its option does not exist. */
module MaintenancePage {
  import opened PhpStrings
  import opened WpOptions

  const DefaultTitle := "Under Maintenance"
  const DefaultLogoUrl := ""
  const DefaultText := "Our website is currently undergoing scheduled maintenance. We should be back online shortly. Thank you for your patience."

  const StatusHeader := "HTTP/1.1 503 Service Unavailable"
  const ContentTypeHeader := "Content-Type: text/html; charset=utf-8"

  /** The output filters the template applies: `esc_html`, `esc_url` and `wpautop`. */
  datatype Filters = Filters(escHtml: string -> string, escUrl: string -> string, autop: string -> string)

  /** Above the heading the page shows either the logo image or the gear icon. */
  datatype Banner = LogoImage(src: string) | GearIcon

  /** What the template emits: the two headers and the content of each variable slot. */
  datatype Page = Page(
    statusHeader: string,
    contentTypeHeader: string,
    documentTitle: string,  // inside <title>
    heading: string,        // inside <h1>
    banner: Banner,
    body: string)

  /** Renders the page from the current options. */
  function Render(options: map<string, string>, f: Filters): (p: Page)
    ensures p.statusHeader == StatusHeader && p.contentTypeHeader == ContentTypeHeader
    ensures p.documentTitle == p.heading
    ensures MaintenanceTitle !in options ==> p.heading == f.escHtml(DefaultTitle)
    ensures MaintenanceTitle in options ==> p.heading == f.escHtml(options[MaintenanceTitle])
    ensures MaintenanceText !in options ==> p.body == f.autop(DefaultText)
    ensures MaintenanceText in options ==> p.body == f.autop(options[MaintenanceText])
    ensures p.banner.GearIcon? <==> MaintenanceLogoUrl !in options || IsEmpty(options[MaintenanceLogoUrl])
    ensures p.banner.LogoImage? ==> p.banner.src == f.escUrl(options[MaintenanceLogoUrl])
  {
    var title := GetOption(options, MaintenanceTitle, DefaultTitle);
    var logoUrl := GetOption(options, MaintenanceLogoUrl, DefaultLogoUrl);
    var text := GetOption(options, MaintenanceText, DefaultText);
    Page(
      StatusHeader,
      ContentTypeHeader,
      f.escHtml(title),
      f.escHtml(title),
      if !IsEmpty(logoUrl) then LogoImage(f.escUrl(logoUrl)) else GearIcon,
      f.autop(text))
  }

  /** With no presentation options at all, every slot shows its built-in default. */
  lemma AllDefaults(options: map<string, string>, f: Filters)
    requires MaintenanceTitle !in options && MaintenanceLogoUrl !in options && MaintenanceText !in options
    ensures Render(options, f) == Page(StatusHeader, ContentTypeHeader, f.escHtml(DefaultTitle),
                                       f.escHtml(DefaultTitle), GearIcon, f.autop(DefaultText))
  {
  }
}
