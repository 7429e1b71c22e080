/**
  The light platform's objects: the per-device client Light, the Hub that
  validates the token and discovers lights, and the host adapter
  AwesomeLight. Each remote call returns the request it sends; the
  vendor's answer comes in as a parameter.
*/
module LightPlatform {
  import opened Wrappers
  import opened VendorApi
  import opened Capabilities
  import opened Discovery

  /** The local mirror of one vendor device. */
  class Light {
    const yandexDeviceId: string
    var name: string
    var state: Value
    var brightness: Option<int>
    const token: string

    constructor (name: string, state: Value, brightness: Option<int>, token: string, yandexDeviceId: string)
      ensures this.yandexDeviceId == yandexDeviceId && this.token == token
      ensures this.name == name && this.state == state && this.brightness == brightness
    {
      this.yandexDeviceId := yandexDeviceId;
      this.name := name;
      this.state := state;
      this.brightness := brightness;
      this.token := token;
    }

    /** The mirrored fields as a value. */
    function Snapshot(): LightRecord
      reads this
    {
      LightRecord(yandexDeviceId, name, state, brightness, token)
    }

    /**
      Posts the "on" action; `status` is the vendor's answer. The mirror
      turns on only when the vendor accepted, and keeps its prior value
      otherwise.
    */
    method TurnOn(status: int) returns (request: Request)
      modifies this`state
      ensures request == ActionRequest(token, OnOffPayload(yandexDeviceId, true))
      ensures state == if Accepted(status) then Bool(true) else old(state)
      ensures name == old(name) && brightness == old(brightness)
    {
      var payload := OnOffPayload(yandexDeviceId, true);
      request := ActionRequest(token, payload);
      if status < 400 {
        state := Bool(true);
      }
    }

    /** Posts the "off" action; the mirror turns off only when the vendor accepted. */
    method TurnOff(status: int) returns (request: Request)
      modifies this`state
      ensures request == ActionRequest(token, OnOffPayload(yandexDeviceId, false))
      ensures state == if Accepted(status) then Bool(false) else old(state)
      ensures name == old(name) && brightness == old(brightness)
    {
      var payload := OnOffPayload(yandexDeviceId, false);
      request := ActionRequest(token, payload);
      if status < 400 {
        state := Bool(false);
      }
    }

    /** The cached on/off state; no remote call. */
    function IsOn(): (on: Value)
      reads this
      ensures on == state
    {
      state
    }

    /**
      Refreshes the mirror from the single-device response. The name is
      overwritten first, so it changes even when the capability read then
      faults; the on/off state and brightness change only when it does not.
    */
    method Update(response: Device) returns (request: Request, outcome: Outcome<Fault>)
      modifies this`name, this`state, this`brightness
      ensures request == DeviceRequest(token, yandexDeviceId)
      ensures name == response.name
      ensures outcome.Pass? <==> !ReportsBrightness(response.capabilities)
      ensures outcome.Pass? ==> state == Enabled(response.capabilities) && brightness == None
      ensures outcome.Fail? ==> state == old(state) && brightness == old(brightness)
    {
      request := DeviceRequest(token, yandexDeviceId);
      name := response.name;
      var reading := ReadCapabilities(response.capabilities);
      if reading.Failure? {
        return request, Fail(reading.error);
      }
      state := reading.value.enabled;
      brightness := reading.value.brightness;
      outcome := Pass;
    }
  }

  /** One user account, identified by its bearer token. */
  class Hub {
    const bearerToken: string

    constructor (bearerToken: string)
      ensures this.bearerToken == bearerToken
    {
      this.bearerToken := bearerToken;
    }

    /** The token is invalid exactly when the account-info call answers 400 or above. */
    method IsInvalidToken(status: int) returns (request: Request, invalid: bool)
      ensures request == UserInfoRequest(bearerToken)
      ensures invalid <==> status >= 400
    {
      request := UserInfoRequest(bearerToken);
      if status >= 400 {
        return request, true;
      }
      return request, false;
    }

    /**
      Builds the light for one bulb device: reads its capabilities and
      mirrors the device under this hub's token, or faults on a brightness range.
    */
    method NewLight(item: Device) returns (result: Result<Light, Fault>)
      ensures result.Success? <==> !ReportsBrightness(item.capabilities)
      ensures result.Success? ==> fresh(result.value) && result.value.Snapshot() == Discovered(item, bearerToken)
    {
      var reading := ReadCapabilities(item.capabilities);
      if reading.Failure? {
        return Failure(reading.error);
      }
      var light := new Light(item.name, reading.value.enabled, reading.value.brightness, bearerToken, item.id);
      result := Success(light);
    }

    /**
      Discovers the lights of the account response: one new Light per bulb
      device, in the devices' order, mirroring that device under this hub's
      token; a bulb with a brightness range makes the whole call fault.
    */
    method Lights(response: UserInfo) returns (request: Request, result: Result<seq<Light>, Fault>)
      ensures request == UserInfoRequest(bearerToken)
      ensures result.Success? <==> !DiscoveryFaults(response.devices)
      ensures result.Success? ==> |result.value| == |Bulbs(response.devices)|
      ensures result.Success? ==> forall k :: 0 <= k < |result.value| ==>
                fresh(result.value[k]) && result.value[k].Snapshot() == Discovered(Bulbs(response.devices)[k], bearerToken)
      ensures result.Success? ==> forall k, l :: 0 <= k < l < |result.value| ==> result.value[k] != result.value[l]
    {
      request := UserInfoRequest(bearerToken);
      var devices := response.devices;
      var lights: seq<Light> := [];
      ghost var kept: seq<Device> := [];
      for i := 0 to |devices|
        invariant forall j :: 0 <= j < i ==> !(IsBulb(devices[j]) && ReportsBrightness(devices[j].capabilities))
        invariant kept == Bulbs(devices[..i])
        invariant |lights| == |kept|
        invariant forall k :: 0 <= k < |lights| ==> fresh(lights[k])
        invariant forall k :: 0 <= k < |lights| ==> lights[k].Snapshot() == Discovered(kept[k], bearerToken)
        invariant forall k, l :: 0 <= k < l < |lights| ==> lights[k] != lights[l]
      {
        var item := devices[i];
        BulbsPrefix(devices, i);
        if item.deviceType == Bulb {
          var made := NewLight(item);
          if made.Failure? {
            return request, Failure(made.error);
          }
          var light := made.value;
          assert forall k :: 0 <= k < |lights| ==> lights[k] != light;
          lights := lights + [light];
          kept := kept + [item];
        }
      }
      assert devices[..|devices|] == devices;
      result := Success(lights);
    }
  }

  /**
    The host adapter around one Light. Its name is fixed when it is made;
    its cached on/off state and brightness stay unset until the first
    refresh and change only on refresh.
  */
  class AwesomeLight {
    const light: Light
    const name: string
    var state: Option<Value>
    var brightness: Option<int>

    constructor (light: Light)
      ensures this.light == light && name == light.name
      ensures state == None && brightness == None
    {
      this.light := light;
      this.name := light.name;
      this.state := None;
      this.brightness := None;
    }

    /** Turns the wrapped light on; the adapter's own cache is not touched. */
    method TurnOn(status: int) returns (request: Request)
      modifies light`state
      ensures request == ActionRequest(light.token, OnOffPayload(light.yandexDeviceId, true))
      ensures light.state == if Accepted(status) then Bool(true) else old(light.state)
      ensures state == old(state) && brightness == old(brightness)
    {
      request := light.TurnOn(status);
    }

    /** Turns the wrapped light off; the adapter's own cache is not touched. */
    method TurnOff(status: int) returns (request: Request)
      modifies light`state
      ensures request == ActionRequest(light.token, OnOffPayload(light.yandexDeviceId, false))
      ensures light.state == if Accepted(status) then Bool(false) else old(light.state)
      ensures state == old(state) && brightness == old(brightness)
    {
      request := light.TurnOff(status);
    }

    /**
      Refreshes the wrapped light, then copies its on/off state and
      brightness; a fault in the light's refresh leaves the cache as it was.
    */
    method Update(response: Device) returns (request: Request, outcome: Outcome<Fault>)
      modifies this`state, this`brightness, light`name, light`state, light`brightness
      ensures request == DeviceRequest(light.token, light.yandexDeviceId)
      ensures light.name == response.name
      ensures outcome.Pass? <==> !ReportsBrightness(response.capabilities)
      ensures outcome.Pass? ==> light.state == Enabled(response.capabilities) && light.brightness == None
      ensures outcome.Pass? ==> state == Some(light.IsOn()) && brightness == light.brightness
      ensures outcome.Fail? ==> light.state == old(light.state) && light.brightness == old(light.brightness)
      ensures outcome.Fail? ==> state == old(state) && brightness == old(brightness)
    {
      request, outcome := light.Update(response);
      if outcome.Fail? {
        return;
      }
      state := Some(light.IsOn());
      brightness := light.brightness;
    }
  }
}
