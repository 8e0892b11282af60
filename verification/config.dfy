/** The controller's options (`pkg/config/options.go`) and the provider
    configuration's defaults (`pkg/config/providers.go`). Durations are integer
    nanoseconds. Environment variables are read through a parameter. */
module Config {
  import opened Outcomes
  import opened Site24x7Api

  const ProviderSite24x7: string := "site24x7"
  const ProviderNull: string := "null"

  const DefaultProvider: string := ProviderSite24x7
  const DefaultNameTemplate: string := "{{.Namespace}}-{{.IngressName}}"
  /** One hour. */
  const DefaultResyncInterval: int := 3_600_000_000_000
  const DefaultListenAddr: string := "0.0.0.0:443"

  /** The monitor settings used when an Ingress's annotations do not override
      them, and which profiles and groups are discovered automatically. */
  datatype MonitorDefaults = MonitorDefaults(
    autoLocationProfile: bool,
    autoNotificationProfile: bool,
    autoThresholdProfile: bool,
    autoMonitorGroup: bool,
    autoUserGroup: bool,
    matchCase: bool,
    timeout: int,
    checkFrequency: string,
    httpMethod: string,
    authUser: string,
    authPass: string,
    userAgent: string,
    useNameServer: bool,
    locationProfileID: string,
    notificationProfileID: string,
    thresholdProfileID: string,
    monitorGroupIDs: seq<string>,
    userGroupIDs: seq<string>,
    actions: Option<seq<ActionRef>>,
    customHeaders: Option<seq<Header>>)

  datatype Site24x7Config = Site24x7Config(
    clientID: string,
    clientSecret: string,
    refreshToken: string,
    monitorDefaults: MonitorDefaults)

  datatype ProviderConfig = ProviderConfig(site24x7: Site24x7Config)

  datatype Options = Options(
    providerConfigFile: string,
    namespace: string,
    providerName: string,
    nameTemplate: string,
    tlsCertFile: string,
    tlsPrivateKeyFile: string,
    listenAddr: string,
    noDelete: bool,
    enableAdmission: bool,
    creationDelay: int,
    resyncInterval: int,
    providerConfig: ProviderConfig)

  /** `NewDefaultProviderConfig`: the OAuth2 credentials come from the
      environment; every profile and group is discovered automatically, checks
      run every minute with GET and a ten-second timeout, and the decoded
      lists are empty rather than nil. */
  function NewDefaultProviderConfig(getenv: string -> string): (c: ProviderConfig)
    ensures c.site24x7.clientID == getenv("SITE24X7_CLIENT_ID")
    ensures c.site24x7.clientSecret == getenv("SITE24X7_CLIENT_SECRET")
    ensures c.site24x7.refreshToken == getenv("SITE24X7_REFRESH_TOKEN")
    ensures var d := c.site24x7.monitorDefaults;
            && d.autoLocationProfile && d.autoNotificationProfile && d.autoThresholdProfile
            && d.autoMonitorGroup && d.autoUserGroup
            && d.checkFrequency == "1" && d.httpMethod == "G" && d.timeout == 10 && d.useNameServer
            && d.customHeaders == Some([]) && d.actions == Some([])
            && !d.matchCase && d.authUser == "" && d.authPass == "" && d.userAgent == ""
            && d.locationProfileID == "" && d.notificationProfileID == "" && d.thresholdProfileID == ""
            && d.monitorGroupIDs == [] && d.userGroupIDs == []
  {
    ProviderConfig(Site24x7Config(
      getenv("SITE24X7_CLIENT_ID"),
      getenv("SITE24X7_CLIENT_SECRET"),
      getenv("SITE24X7_REFRESH_TOKEN"),
      MonitorDefaults(true, true, true, true, true, false, 10, "1", "G", "", "", "", true,
                      "", "", "", [], [], Some([]), Some([]))))
  }

  /** `NewDefaultOptions`: resync hourly, the Site24x7 provider, the
      "namespace-name" template, listening on port 443; no creation delay, no
      namespace restriction, deletion and admission as Go's zero values leave
      them. */
  function NewDefaultOptions(getenv: string -> string): (o: Options)
    ensures o.resyncInterval == DefaultResyncInterval && o.providerName == DefaultProvider
    ensures o.nameTemplate == DefaultNameTemplate && o.listenAddr == DefaultListenAddr
    ensures o.providerConfig == NewDefaultProviderConfig(getenv)
    ensures o.creationDelay == 0 && o.namespace == "" && !o.noDelete && !o.enableAdmission
    ensures o.providerConfigFile == "" && o.tlsCertFile == "" && o.tlsPrivateKeyFile == ""
  {
    Options("", "", DefaultProvider, DefaultNameTemplate, "", "", DefaultListenAddr, false, false,
            0, DefaultResyncInterval, NewDefaultProviderConfig(getenv))
  }

  /** `Validate`: the first violated rule, in the order creation delay,
      resync interval, name template, provider. */
  function Validate(o: Options): (err: Option<Error>)
    ensures err == None <==>
              o.creationDelay >= 0 && o.resyncInterval >= 0 && o.nameTemplate != "" && o.providerName != ""
    ensures o.creationDelay < 0 ==>
              err == Some(Failure("--creation-delay has to be greater than or equal to 0s"))
    ensures o.creationDelay >= 0 && o.resyncInterval < 0 ==>
              err == Some(Failure("--resync-interval has to be greater than or equal to 0s"))
    ensures o.creationDelay >= 0 && o.resyncInterval >= 0 && o.nameTemplate == "" ==>
              err == Some(Failure("--name-template must not be empty"))
    ensures o.creationDelay >= 0 && o.resyncInterval >= 0 && o.nameTemplate != "" && o.providerName == "" ==>
              err == Some(Failure("--provider must not be empty"))
  {
    if o.creationDelay < 0 then Some(Failure("--creation-delay has to be greater than or equal to 0s"))
    else if o.resyncInterval < 0 then Some(Failure("--resync-interval has to be greater than or equal to 0s"))
    else if o.nameTemplate == "" then Some(Failure("--name-template must not be empty"))
    else if o.providerName == "" then Some(Failure("--provider must not be empty"))
    else None
  }

  /** The options' tests: the defaults are valid, and emptying the provider
      name or the name template makes them invalid; changing anything else
      that the rules do not mention keeps them valid. */
  lemma OptionsExamples(getenv: string -> string, namespace: string, noDelete: bool)
    ensures Validate(NewDefaultOptions(getenv)) == None
    ensures Validate(NewDefaultOptions(getenv).(providerName := "")).Some?
    ensures Validate(NewDefaultOptions(getenv).(nameTemplate := "")).Some?
    ensures Validate(NewDefaultOptions(getenv).(namespace := namespace, noDelete := noDelete)) == None
  {
  }

  /** Zero durations are allowed; only negative ones are rejected. */
  lemma ZeroDurationsValid(o: Options)
    requires o.nameTemplate != "" && o.providerName != ""
    ensures Validate(o.(creationDelay := 0, resyncInterval := 0)) == None
    ensures Validate(o.(creationDelay := -1)).Some? && Validate(o.(creationDelay := 0, resyncInterval := -1)).Some?
  {
  }
}
