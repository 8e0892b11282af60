/** The part of the Site24x7 API client (`site24x7-go`) that the Site24x7
    provider uses: the website monitor record, and a client whose list
    endpoints answer with the listed items' IDs in list order. The client is
    a record of answers; its calls are logged by the provider. */
module Site24x7Api {
  import opened Outcomes

  /** A custom HTTP header a monitor sends. */
  datatype Header = Header(name: string, value: string)

  /** A reference to an alert action of a monitor. */
  datatype ActionRef = ActionRef(actionID: string, alertType: int)

  /** A Site24x7 website monitor. Go tells a nil slice from an empty one for
      the JSON-decoded lists, so those are `Option`s (None is nil). */
  datatype SiteMonitor = SiteMonitor(
    monitorID: string,
    displayName: string,
    monitorType: string,
    website: string,
    checkFrequency: string,
    httpMethod: string,
    authUser: string,
    authPass: string,
    matchCase: bool,
    userAgent: string,
    timeout: int,
    useNameServer: bool,
    userGroupIDs: seq<string>,
    monitorGroups: seq<string>,
    locationProfileID: string,
    notificationProfileID: string,
    thresholdProfileID: string,
    customHeaders: Option<seq<Header>>,
    actionIDs: Option<seq<ActionRef>>)

  /** The list endpoints the defaulters read from. */
  datatype Listing = LocationProfiles | NotificationProfiles | ThresholdProfiles | MonitorGroups | UserGroups

  /** One call into the client. */
  datatype ClientCall =
    | List(listing: Listing)
    | ListMonitors
    | CreateCall(monitor: SiteMonitor)
    | UpdateCall(monitor: SiteMonitor)
    | DeleteCall(monitorID: string)

  /** A call that changes a monitor at Site24x7. */
  predicate IsMonitorChange(c: ClientCall)
  {
    c.CreateCall? || c.UpdateCall? || c.DeleteCall?
  }

  /** The client's answers: the IDs (profile IDs, group IDs, user group IDs)
      each list endpoint returns, the listed monitors, and the results of the
      monitor changes. */
  datatype Client = Client(
    list: Listing -> Result<seq<string>>,
    monitors: Result<seq<SiteMonitor>>,
    create: SiteMonitor -> Option<Error>,
    update: SiteMonitor -> Option<Error>,
    delete: string -> Option<Error>)
}
