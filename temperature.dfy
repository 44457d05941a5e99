/** The temperature fallback chain (app.py, `get_temperature`) and its default in `stats`. */
module Temperature {
  import opened Outcomes

  /** What `vcgencmd measure_temp` gave: a parsed reading, or any exception
      (command missing, failing exit status, unparsable output), all of which are caught. */
  datatype Vcgencmd = Measured(celsius: real) | Failed

  /** `psutil.sensors_temperatures()`: each sensor's name and the `current` values of its entries. */
  type Sensors = map<string, seq<real>>

  const ThermalSensor: string := "cpu_thermal"

  function GetTemperature(vc: Vcgencmd, sensors: Sensors): (r: Result<Option<real>>)
    ensures vc.Measured? ==> r == Ok(Some(vc.celsius))
    ensures r == Ok(None) <==> vc.Failed? && ThermalSensor !in sensors
    ensures r.Raised? <==> vc.Failed? && ThermalSensor in sensors && sensors[ThermalSensor] == []
    ensures r.Raised? ==> r.fault == IndexError
    ensures vc.Failed? && ThermalSensor in sensors && sensors[ThermalSensor] != [] ==>
      r == Ok(Some(sensors[ThermalSensor][0]))
  {
    match vc
    case Measured(c) => Ok(Some(c))
    case Failed =>
      if ThermalSensor in sensors then
        var entries := sensors[ThermalSensor];
        if |entries| == 0 then Raised(IndexError) else Ok(Some(entries[0]))
      else Ok(None)
  }

  // ---------------------------------------------------------------------------
  // The chain as an ordered list of strategies tried in turn

  /** The outcome of one strategy: a reading, nothing (try the next one), or an exception. */
  datatype Attempt = Found(celsius: real) | Unavailable | Crashed(fault: Fault)

  /** Tries the attempts in order; the first reading or exception decides, none gives `None`. */
  function FirstAvailable(attempts: seq<Attempt>): (r: Result<Option<real>>)
    ensures r == Ok(None) <==> forall i :: 0 <= i < |attempts| ==> attempts[i].Unavailable?
  {
    if attempts == [] then Ok(None)
    else
      match attempts[0]
      case Found(c) => Ok(Some(c))
      case Crashed(f) => Raised(f)
      case Unavailable => FirstAvailable(attempts[1..])
  }

  /** vcgencmd: every exception is swallowed and the chain moves on. */
  function CommandAttempt(vc: Vcgencmd): Attempt
  {
    match vc
    case Measured(c) => Found(c)
    case Failed => Unavailable
  }

  /** The sensor lookup: absent sensor gives nothing, an empty list raises, otherwise the first entry. */
  function SensorAttempt(sensors: Sensors): Attempt
  {
    if ThermalSensor !in sensors then Unavailable
    else if sensors[ThermalSensor] == [] then Crashed(IndexError)
    else Found(sensors[ThermalSensor][0])
  }

  /** `get_temperature` is the two-strategy chain, vcgencmd first. */
  lemma GetTemperatureIsChain(vc: Vcgencmd, sensors: Sensors)
    ensures GetTemperature(vc, sensors) == FirstAvailable([CommandAttempt(vc), SensorAttempt(sensors)])
  {
  }

  /** A vcgencmd reading wins whatever the sensors say. */
  lemma CommandTakesPriority(c: real, s1: Sensors, s2: Sensors)
    ensures GetTemperature(Measured(c), s1) == GetTemperature(Measured(c), s2) == Ok(Some(c))
  {
  }

  /** `get_temperature() or 0`: `None` and a reading of 0.0 are both falsy and become 0. */
  function TemperatureOrZero(t: Option<real>): (r: real)
    ensures t.None? ==> r == 0.0
    ensures t.Some? ==> r == t.value
  {
    if t.Some? && t.value != 0.0 then t.value else 0.0
  }

  /** With no source available, the reported temperature is 0. */
  lemma NoSourceReportsZero(sensors: Sensors)
    requires ThermalSensor !in sensors
    ensures GetTemperature(Failed, sensors).Ok?
    ensures TemperatureOrZero(GetTemperature(Failed, sensors).value) == 0.0
  {
  }
}
