/** The connectivity values published by the path monitor client. */
module PathMonitorClientInterface {

  /** `NWPath.Status`. Only `Satisfied` counts as connected. */
  datatype PathStatus = Satisfied | Unsatisfied | RequiresConnection

  /** `NetworkPath`: the part of a network path the app looks at. */
  datatype NetworkPath = NetworkPath(status: PathStatus)
}
