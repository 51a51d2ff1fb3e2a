/** The client site's WordPress options store, as far as the client plugin uses it:
    `get_option` with a default, `update_option` and `delete_option` on named string
    options. The plugin keeps its state in four options named here. */
module WpOptions {

  /** The client's stored site status. */
  const SiteStatus := "wpcm_site_status"
  /** The three maintenance presentation options. */
  const MaintenanceTitle := "wpcm_maintenance_title"
  const MaintenanceLogoUrl := "wpcm_maintenance_logo_url"
  const MaintenanceText := "wpcm_maintenance_text"

  /** `get_option($name, $default)`: the stored value when there is one, else the default. */
  function GetOption(values: map<string, string>, name: string, default: string): (v: string)
    ensures name in values ==> v == values[name]
    ensures name !in values ==> v == default
  {
    if name in values then values[name] else default
  }

  /** The options table. `values` holds every option that exists; a deleted option is absent. */
  class OptionStore {
    var values: map<string, string>

    constructor (initial: map<string, string>)
      ensures values == initial
    {
      values := initial;
    }

    /** `get_option($name, $default)`. */
    method Get(name: string, default: string) returns (v: string)
      ensures v == GetOption(values, name, default)
    {
      if name in values {
        v := values[name];
      } else {
        v := default;
      }
    }

    /** `update_option($name, $value)`: creates or overwrites one option. */
    method Update(name: string, value: string)
      modifies this
      ensures values == old(values)[name := value]
    {
      values := values[name := value];
    }

    /** `delete_option($name)`: removes one option; deleting an absent option is a no-op. */
    method Delete(name: string)
      modifies this
      ensures values == old(values) - {name}
    {
      values := values - {name};
    }
  }
}
