/** Decoded inputs of the monitor: one sensor line after `readline`, UTF-8
    decoding and `json.loads`, and one forecast reply after the HTTP request
    and `response.json()`. Parsing itself is not modelled: each input arrives
    already classified by the branch of the program it drives. */
module Inputs {

  datatype Option<+T> = None | Some(value: T) {
    /** The value, or `default` when absent (Python's `dict.get(key, default)`). */
    function GetOr(default: T): T {
      match this
      case Some(v) => v
      case None => default
    }
  }

  /** A JSON value where the program divides or multiplies it by a float:
      a number (JSON integers, floats and booleans all behave as numbers in
      Python) or anything else (null, a string, a list, an object), on which
      the arithmetic raises `TypeError`. */
  datatype Reading = Number(x: real) | NotNumber

  /** A numeric key of the frame object: `None` when the key is absent. */
  type Field = Option<Reading>

  /** One line read from the serial port, classified by how far it gets. */
  datatype Line =
    | Blank        // empty after `strip()`: skipped with `continue`
    | Unreadable   // `readline()` or the UTF-8 decode raised
    | NotJson      // `json.loads` raised
    | NotObject    // valid JSON without `.get` (a list, a number, ...)
    | Object(voltageRaw: Field, illuminanceRaw: Field, mode: Option<string>)

  /** A parsed timestamp, as `datetime.fromisoformat` returns it; kept opaque. */
  datatype Instant = Instant(iso: string)

  /** The forecast service's reply, as far as `fetch_forecast` reads it. */
  datatype Reply =
    | Unavailable  // the request, `response.json()` or a `.get` on a non-object raised
    | Decoded(times: Option<seq<Option<Instant>>>, irradiances: Option<seq<Reading>>)
      // `hourly.time` and `hourly.shortwave_radiation`; `None` when the key
      // (or the whole `hourly` object) is absent, and a `None` entry of
      // `times` is a string `fromisoformat` rejects
}
