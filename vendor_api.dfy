/**
  The vendor's REST API as the light platform sees it: the parsed
  response records it reads, the action payload it sends, and the
  requests it issues. The network itself is not modelled: an operation
  returns the request it would send and receives the vendor's answer
  (a status code or an already-parsed record) as a parameter.
*/
module VendorApi {
  import opened Wrappers

  /** Device type of a light bulb; the only type the platform keeps. */
  const Bulb := "devices.types.light"
  /** Capability type of a numeric range (brightness, colour temperature, ...). */
  const TypeRange := "devices.capabilities.range"
  /** Instance name of a range capability that reports brightness. */
  const BrightnessStateInstance := "brightness"
  /** Capability type of the on/off switch. */
  const EnabledState := "devices.capabilities.on_off"

  const ApiRoot := "https://api.iot.yandex.net/v1.0"

  /** A JSON scalar as the vendor reports it in a capability's state. */
  datatype Value = Bool(b: bool) | Number(x: real) | Text(s: string)

  datatype CapabilityState = CapabilityState(instance: string, value: Value)

  datatype Capability = Capability(capType: string, state: CapabilityState)

  /** One device record, as listed in the account response or returned alone. */
  datatype Device = Device(id: string, name: string, deviceType: string, capabilities: seq<Capability>)

  /** The account-info response: the user's devices, in the vendor's order. */
  datatype UserInfo = UserInfo(devices: seq<Device>)

  // --- the action payload (the object under the body's "payload" key) -------

  datatype ActionParameters = ActionParameters(instance: string, value: bool)

  datatype ActionCapability = ActionCapability(capType: string, retrievable: bool, parameters: ActionParameters)

  datatype ActionDevice = ActionDevice(id: string, capabilities: seq<ActionCapability>)

  datatype ActionPayload = ActionPayload(devices: seq<ActionDevice>)

  /** The payload turn_on (on = true) and turn_off (on = false) post for one device. */
  function OnOffPayload(deviceId: string, on: bool): (p: ActionPayload)
    ensures CommandOf(p) == Some(Command(deviceId, on))
  {
    ActionPayload([ActionDevice(deviceId, [ActionCapability(EnabledState, true, ActionParameters("on", on))])])
  }

  /** The one on/off instruction a payload carries. */
  datatype Command = Command(deviceId: string, on: bool)

  /**
    Reads a payload back: Some when it addresses exactly one device with
    exactly one retrievable on/off capability for instance "on".
  */
  function CommandOf(p: ActionPayload): Option<Command> {
    if |p.devices| == 1 && |p.devices[0].capabilities| == 1 then
      var d := p.devices[0];
      var c := d.capabilities[0];
      if c.capType == EnabledState && c.retrievable && c.parameters.instance == "on"
      then Some(Command(d.id, c.parameters.value))
      else None
    else None
  }

  /** Conversely, every single on/off instruction is the payload built for it. */
  lemma {:induction false} OnOffPayloadIsCanonical(p: ActionPayload)
    ensures CommandOf(p).Some? ==> p == OnOffPayload(CommandOf(p).value.deviceId, CommandOf(p).value.on)
  {
    if CommandOf(p).Some? {
      var d := p.devices[0];
      var c := d.capabilities[0];
      assert c == ActionCapability(EnabledState, true, ActionParameters("on", c.parameters.value));
      assert d.capabilities == [c];
      assert p.devices == [d];
    }
  }

  // --- requests ----------------------------------------------------------------

  /** An HTTP request to the vendor, with its Authorization header. */
  datatype Request =
    | Get(url: string, authorization: string)
    | Post(url: string, authorization: string, body: ActionPayload)

  function Authorization(token: string): string {
    "Bearer " + token
  }

  /** The token an Authorization header carries, if it is a bearer header. */
  function BearerToken(authorization: string): Option<string> {
    if |authorization| >= 7 && authorization[..7] == "Bearer " then Some(authorization[7..]) else None
  }

  /** Every request carries the caller's token unchanged. */
  lemma {:induction false} BearerTokenRoundTrip(token: string)
    ensures BearerToken(Authorization(token)) == Some(token)
  {
    assert Authorization(token)[..7] == "Bearer ";
    assert Authorization(token)[7..] == token;
  }

  /** The account-info request, used for token validation and discovery. */
  function UserInfoRequest(token: string): (r: Request)
    ensures r.Get? && r.url == ApiRoot + "/user/info"
    ensures BearerToken(r.authorization) == Some(token)
  {
    BearerTokenRoundTrip(token);
    Get(ApiRoot + "/user/info", Authorization(token))
  }

  /** The single-device state request. */
  function DeviceRequest(token: string, deviceId: string): (r: Request)
    ensures r.Get? && r.url == ApiRoot + "/devices/" + deviceId
    ensures BearerToken(r.authorization) == Some(token)
  {
    BearerTokenRoundTrip(token);
    Get(ApiRoot + "/devices/" + deviceId, Authorization(token))
  }

  /** The device-action request. */
  function ActionRequest(token: string, payload: ActionPayload): (r: Request)
    ensures r.Post? && r.url == ApiRoot + "/user/devices/action" && r.body == payload
    ensures BearerToken(r.authorization) == Some(token)
  {
    BearerTokenRoundTrip(token);
    Post(ApiRoot + "/user/devices/action", Authorization(token), payload)
  }

  /** An action is applied locally when the vendor answers with a status below 400. */
  predicate Accepted(status: int) {
    status < 400
  }
}
