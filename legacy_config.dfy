/** Configuration of the older single-file version: one map holds all four settings. */
module LegacyConfig {
  import opened Strings
  import opened ConfigMaps
  import Client

  const Required := ["jira_domain", "project_key", "email", "api_token"]

  /** All four required keys are truthy. */
  function IsConfigured(config: map<string, string>): (r: bool)
    ensures r <==> Truthy(config, "jira_domain") && Truthy(config, "project_key") &&
                   Truthy(config, "email") && Truthy(config, "api_token")
  {
    assert "jira_domain" in Required && "project_key" in Required && "email" in Required && "api_token" in Required;
    NoneMissing(config, Required);
    Missing(config, Required) == []
  }

  /**
   * NOT_CONFIGURED for an empty file; otherwise INCOMPLETE naming the missing keys
   * in the order jira_domain, project_key, email, api_token; else CONFIGURED.
   */
  function GetConfigStatus(config: map<string, string>): (r: string)
    ensures config == map[] ==> r == "NOT_CONFIGURED"
    ensures config != map[] && IsConfigured(config) ==> r == "CONFIGURED"
    ensures config != map[] && !IsConfigured(config) ==>
            r == "INCOMPLETE (missing: " + Join(Missing(config, Required), ", ") + ")" &&
            Missing(config, Required) != []
  {
    if config == map[] then "NOT_CONFIGURED"
    else
      var missing := Missing(config, Required);
      if missing != [] then "INCOMPLETE (missing: " + Join(missing, ", ") + ")" else "CONFIGURED"
  }

  /** `is_configured()` holds exactly when the status is exactly CONFIGURED. */
  lemma ConfiguredIffStatusConfigured(config: map<string, string>)
    ensures IsConfigured(config) <==> GetConfigStatus(config) == "CONFIGURED"
  {
    var r := GetConfigStatus(config);
    if config == map[] {
      assert r[0] == 'N';
    } else if !IsConfigured(config) {
      assert r[0] == 'I';
    }
  }

  /** The missing list names each absent or empty key, in the order jira_domain, project_key, email, api_token. */
  lemma MissingInFixedOrder(config: map<string, string>)
    ensures Missing(config, Required) ==
            IfMissing(config, "jira_domain") +
            IfMissing(config, "project_key") +
            IfMissing(config, "email") +
            IfMissing(config, "api_token")
  {
    var keys := Required;
    MissingUnfold(config, keys);
    keys := keys[1..];
    MissingUnfold(config, keys);
    keys := keys[1..];
    MissingUnfold(config, keys);
    keys := keys[1..];
    MissingUnfold(config, keys);
    keys := keys[1..];
    assert keys == [];
  }

  /** A client built without explicit arguments succeeds exactly when `is_configured` holds. */
  lemma ClientFromConfigIffConfigured(config: map<string, string>)
    ensures IsConfigured(config) <==>
            Client.Resolve("", config, "jira_domain") != "" && Client.Resolve("", config, "project_key") != "" &&
            Client.Resolve("", config, "email") != "" && Client.Resolve("", config, "api_token") != ""
  {
  }
}
