/** The value types shared by the screens of the dashboard (types.ts). */
module Types {

  /** The two interface languages; English is the default. */
  datatype Language = EN | NP

  /** The health state a sensor record reports; set by the data source, not derived from its reading. */
  datatype SensorStatus = Online | Offline | Warning

  /** One monitoring device's last-known state. `ppm` and `battery` are plain integers: the
      records are taken as supplied and no range is enforced. */
  datatype Sensor = Sensor(
    id: string,
    name: string,
    location: string,
    ppm: int,
    battery: int,
    status: SensorStatus,
    lastUpdated: string)

  /** The safety tier of a gas reading. It is never stored: it is always computed from the reading.
      `Caution` is the screens' "warning" tier, renamed so as not to clash with `SensorStatus.Warning`. */
  datatype AlertLevel = Safe | Caution | Danger
}
