/** Optional values and the Python exceptions that can escape the /stats handler. */
module Outcomes {

  datatype Option<+T> = None | Some(value: T)

  /** The exceptions the modelled code lets propagate to Flask. */
  datatype Fault =
    | ZeroDivisionError  // `... / elapsed` with elapsed == 0
    | IndexError         // `temps["cpu_thermal"][0]` on an empty sensor list
    | OSError            // `psutil.disk_usage` failing with anything but PermissionError

  /** A Python call either returns a value or raises one of the faults above. */
  datatype Result<+T> = Ok(value: T) | Raised(fault: Fault)
}
