/** The values the LIFX client exchanges with the remote lighting API: light
    payloads, requests, the record of what was sent and waited, the values
    the client can throw, and the answers the network gives. */
module LifxTypes {
  import opened Base

  const REQUEST_TIMEOUT := 15000
  const MAX_RETRIES := 3
  const RETRY_DELAY := 2000
  const RECONNECT_DELAY := 5000
  const MAX_RECONNECT_ATTEMPTS := 5
  const RECONNECT_DELAY_CAP := 30000
  /** The hold between a flag's first command and its steady state. */
  const SETTLE_DELAY := 3000

  /** A light as listed by `GET /lights/all`; the client only refers to it by id. */
  datatype Device = Device(id: string, name: string)

  /** Fractions (saturation, brightness) are carried in thousandths, and
      durations and periods in milliseconds, so that no arithmetic on them
      is ever fractional: brightness 0.5 is 500, a 0.1 s fade is 100. */
  type Milli = nat

  datatype Color = Color(hue: nat, saturation: Milli, kelvin: nat)

  /** The body of `PUT /lights/{selector}/state`; `durationMs` is absent when the
      source leaves `duration` out. */
  datatype LightState = LightState(powerOn: bool, color: Color, brightness: Milli, durationMs: Option<nat>)

  datatype PulseColor = PulseColor(hue: nat, saturation: Milli, brightness: Milli, kelvin: nat)

  /** The body of `POST /lights/{selector}/effects/pulse`. */
  datatype Pulse = Pulse(color: PulseColor, fromColor: PulseColor, periodMs: nat, cycles: nat, powerOn: bool)

  datatype Call =
    | ListLights
    | PutState(selector: string, state: LightState)
    | PostPulse(selector: string, pulse: Pulse)

  /** One HTTP request: what it asks for, the bearer credential in its
      Authorization header, and the client-side timeout it carries (if any). */
  datatype Request = Request(call: Call, bearer: string, timeoutMs: Option<nat>)

  /** What the client did, in order: a request put on the wire, or a pause. */
  datatype Event = Sent(req: Request) | Waited(ms: nat)

  /** The values that reach a `catch` block. An Axios error carries the HTTP
      status of its response (absent when there was no response) and its
      error code; `ErrorObj` is any other instance of `Error`; `ApiErr` is the
      plain `{message, status}` object that `handleError` throws, which is
      not an instance of `Error`. */
  datatype Thrown =
    | AxiosErr(responseStatus: Option<int>, code: string, msg: string)
    | ErrorObj(msg: string)
    | ApiErr(msg: string, status: int)

  /** The network's answer to one request: a response (carrying the device
      list when there is one) or a rejection. */
  datatype Answer = Reply(devices: seq<Device>) | Rejected(error: Thrown)

  /** JavaScript truthiness of a `string | null`: present and non-empty. */
  predicate Present(t: Option<string>)
  {
    t.Some? && t.value != ""
  }
}
