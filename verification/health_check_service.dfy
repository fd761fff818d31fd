/** The service interface: the three-valued aggregate status. */
module HealthCheckService {

  /** The overall outcome of one health evaluation, in the order the enum
      declares its constants.
      - `Failed`: a check threw while it was being evaluated.
      - `Healthy`: every check that was executed passed.
      - `Unhealthy`: a check that was executed reported the subsystem unhealthy. */
  datatype Status = Failed | Healthy | Unhealthy
}
