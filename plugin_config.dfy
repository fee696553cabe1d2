/**
 * Configuration of the plugin version: credentials live in the plugin's file,
 * the project key in a per-directory project file. Both files arrive as maps.
 */
module PluginConfig {
  import opened Strings
  import opened ConfigMaps
  import Client

  const ProjectConfigName := ".jira_config.json"
  const Required := ["jira_domain", "project_key", "email", "api_token"]
  const Credentials := ["jira_domain", "email", "api_token"]

  const ConfiguredPrefix := "CONFIGURED"
  const ProjectNotConfigured := "PROJECT_NOT_CONFIGURED (create " + ProjectConfigName + " with project_key)"

  /** The merged configuration: the plugin file, its project key overridden by a truthy one from the project file. */
  function Merged(plugin: map<string, string>, project: map<string, string>): (config: map<string, string>)
    ensures config.Keys == plugin.Keys + (if Truthy(project, "project_key") then {"project_key"} else {})
    ensures forall k :: k in plugin && k != "project_key" ==> config[k] == plugin[k]
    ensures Truthy(project, "project_key") ==> config["project_key"] == project["project_key"]
    ensures !Truthy(project, "project_key") && "project_key" in plugin ==> config["project_key"] == plugin["project_key"]
  {
    if Truthy(project, "project_key") then plugin["project_key" := project["project_key"]] else plugin
  }

  /** `load_config`: starts from the plugin file and overwrites its project key in place. */
  method LoadConfig(plugin: map<string, string>, project: map<string, string>) returns (config: map<string, string>)
    ensures config == Merged(plugin, project)
  {
    config := plugin;
    if Truthy(project, "project_key") {
      config := config["project_key" := project["project_key"]];
    }
  }

  /** All four required keys are truthy in the merged configuration. */
  function IsConfigured(plugin: map<string, string>, project: map<string, string>): (r: bool)
    ensures r <==> Truthy(plugin, "jira_domain") && Truthy(plugin, "email") && Truthy(plugin, "api_token") &&
                   (Truthy(project, "project_key") || Truthy(plugin, "project_key"))
  {
    var config := Merged(plugin, project);
    assert "jira_domain" in Required && "project_key" in Required && "email" in Required && "api_token" in Required;
    NoneMissing(config, Required);
    Missing(config, Required) == []
  }

  /**
   * The status string: missing credentials win, listed in the order jira_domain,
   * email, api_token; then a missing project file key; else the project file's key.
   */
  function GetConfigStatus(plugin: map<string, string>, project: map<string, string>): (r: string)
    ensures !(Truthy(plugin, "jira_domain") && Truthy(plugin, "email") && Truthy(plugin, "api_token")) ==>
            r == "CREDENTIALS_MISSING (missing: " + Join(Missing(plugin, Credentials), ", ") + ")"
    ensures (Truthy(plugin, "jira_domain") && Truthy(plugin, "email") && Truthy(plugin, "api_token") &&
             !Truthy(project, "project_key")) ==> r == ProjectNotConfigured
    ensures (Truthy(plugin, "jira_domain") && Truthy(plugin, "email") && Truthy(plugin, "api_token") &&
             Truthy(project, "project_key")) ==> r == "CONFIGURED (project: " + project["project_key"] + ")"
  {
    var missingCreds := Missing(plugin, Credentials);
    assert "jira_domain" in Credentials && "email" in Credentials && "api_token" in Credentials;
    NoneMissing(plugin, Credentials);
    if missingCreds != [] then "CREDENTIALS_MISSING (missing: " + Join(missingCreds, ", ") + ")"
    else if !Truthy(project, "project_key") then ProjectNotConfigured
    else "CONFIGURED (project: " + project["project_key"] + ")"
  }

  /** Missing credentials are named in the order jira_domain, email, api_token. */
  lemma MissingCredentialsInFixedOrder(plugin: map<string, string>)
    ensures Missing(plugin, Credentials) ==
            IfMissing(plugin, "jira_domain") +
            IfMissing(plugin, "email") +
            IfMissing(plugin, "api_token")
  {
    var keys := Credentials;
    MissingUnfold(plugin, keys);
    keys := keys[1..];
    MissingUnfold(plugin, keys);
    keys := keys[1..];
    MissingUnfold(plugin, keys);
    keys := keys[1..];
    assert keys == [];
  }

  lemma DiffersFromPrefix(r: string, i: nat)
    requires i < |r| && i < |ConfiguredPrefix| && r[i] != ConfiguredPrefix[i]
    ensures !StartsWith(r, ConfiguredPrefix)
  {
  }

  /** A status that starts with CONFIGURED implies the merged configuration is complete. */
  lemma StatusConfiguredImpliesIsConfigured(plugin: map<string, string>, project: map<string, string>)
    ensures StartsWith(GetConfigStatus(plugin, project), ConfiguredPrefix) ==> IsConfigured(plugin, project)
  {
    var r := GetConfigStatus(plugin, project);
    if !(Truthy(plugin, "jira_domain") && Truthy(plugin, "email") && Truthy(plugin, "api_token")) {
      assert r[1] == 'R';
      DiffersFromPrefix(r, 1);
    } else if !Truthy(project, "project_key") {
      assert r[0] == 'P';
      DiffersFromPrefix(r, 0);
    }
  }

  /**
   * The converse fails: a project key held only in the plugin file satisfies
   * `is_configured` (and client construction), yet the status asks for a project file.
   */
  lemma ProjectKeyOnlyInPluginFile()
    ensures var plugin := map["jira_domain" := "d", "project_key" := "P", "email" := "e", "api_token" := "t"];
            IsConfigured(plugin, map[]) && GetConfigStatus(plugin, map[]) == ProjectNotConfigured
  {
  }

  /** A client built without explicit arguments succeeds exactly when `is_configured` holds. */
  lemma ClientFromConfigIffConfigured(plugin: map<string, string>, project: map<string, string>)
    ensures IsConfigured(plugin, project) <==>
            var config := Merged(plugin, project);
            Client.Resolve("", config, "jira_domain") != "" && Client.Resolve("", config, "project_key") != "" &&
            Client.Resolve("", config, "email") != "" && Client.Resolve("", config, "api_token") != ""
  {
  }
}
