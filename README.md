# Yandex IoT light platform, modelled in Dafny

This project models the light platform of a home-automation integration for
the Yandex smart-home cloud (`custom_components/yandex_iot_integration/light.py`).
That platform has three parts. A `Hub` holds the user's bearer token. It checks
the token and discovers the account's light bulbs. A `Light` mirrors one vendor
device: its name, its on/off state and its brightness. It turns the device on
or off through the device-action endpoint and refreshes itself from the
single-device endpoint. An `AwesomeLight` is the host entity that wraps one
`Light` and keeps its own copies of the light's name, state and brightness.

The network is replaced by values:
- every remote operation returns the `Request` it would send (URL, bearer
  Authorization header and, for actions, the payload);
- it takes the vendor's answer as a parameter: a status code for the token
  check and the on/off actions, an already-parsed record for discovery and
  refresh.

Files:
- `wrappers.dfy`: `Option`, `Result` and `Outcome`.
- `vendor_api.dfy`: the response records, the action payload, the requests and
  the type constants.
- `capabilities.dfy`: the capability loop that discovery and refresh share.
- `discovery.dfy`: the bulb filter and the record a discovered light mirrors.
- `light_platform.dfy`: the classes `Light`, `Hub` and `AwesomeLight`.

Brightness never becomes a number. The expression `int(255 / 100 * …)` at
light.py:299 and light.py:328 is meant to scale the vendor's brightness
percentage to 0–255, but the code never gets that far.
When a range capability's instance is `"brightness"`, it evaluates
`capability["state"]["instance"]["value"]`, which indexes the string
`"brightness"` with a key. Python raises `TypeError` there. The model follows
the code:
- that branch ends the operation with the fault `BrightnessTypeError`;
- every discovery or refresh that completes leaves brightness `None`;
- no scaling is modelled.

What happens on a fault follows the code's order of assignments:
- a faulting discovery returns no lights at all, because the exception
  discards the partial list;
- a faulting refresh has already overwritten the light's name, but keeps its
  state and brightness;
- the adapter's cache is not touched.

## Model

| member | source | states |
|---|---|---|
| `LightPlatform.Light.constructor` | custom_components/yandex_iot_integration/light.py:219-224 | a new light holds exactly the given name, state, brightness, token and device id |
| `LightPlatform.Light.TurnOn` | custom_components/yandex_iot_integration/light.py:226-253 | posts the "on" payload for this device with this light's token; state becomes true iff the status is below 400, otherwise keeps its prior value; name and brightness are unchanged (device id and token are constants) |
| `LightPlatform.Light.TurnOff` | custom_components/yandex_iot_integration/light.py:255-281 | posts the "off" payload; state becomes false iff the status is below 400, otherwise keeps its prior value; name and brightness are unchanged |
| `LightPlatform.Light.IsOn` | custom_components/yandex_iot_integration/light.py:283-284 | returns the mirrored state, reading only the object and changing nothing |
| `LightPlatform.Light.Update` | custom_components/yandex_iot_integration/light.py:286-301 | requests this device's state; the name always becomes the response's name; the call faults iff some range capability reports brightness; on success the state is the last on/off value (false if none) and brightness is None; on a fault state and brightness keep their prior values |
| `LightPlatform.Hub.constructor` | custom_components/yandex_iot_integration/light.py:305-306 | the hub keeps the given bearer token |
| `LightPlatform.Hub.IsInvalidToken` | custom_components/yandex_iot_integration/light.py:308-313 | requests the account info with the hub's token; the token is invalid iff the status is at least 400, whatever the body |
| `LightPlatform.Hub.NewLight` | custom_components/yandex_iot_integration/light.py:323-331 | for one bulb device: faults iff it reports a brightness range; otherwise returns a new Light mirroring that device's id, name and on/off state, with brightness None and the hub's token |
| `LightPlatform.Hub.Lights` | custom_components/yandex_iot_integration/light.py:315-333 | requests the account info; faults iff some bulb device reports a brightness range; otherwise returns one distinct new Light per bulb device, the k-th mirroring the k-th bulb's id, name and on/off state, with brightness None and the hub's own token |
| `LightPlatform.AwesomeLight.constructor` | custom_components/yandex_iot_integration/light.py:173-178 | the adapter wraps the given light, fixes its name to the light's name, and starts with state and brightness unset |
| `LightPlatform.AwesomeLight.TurnOn` | custom_components/yandex_iot_integration/light.py:198-203 | delegates to the light's turn-on, with its request and state change; the adapter's own cached state and brightness do not change |
| `LightPlatform.AwesomeLight.TurnOff` | custom_components/yandex_iot_integration/light.py:205-207 | delegates to the light's turn-off; the adapter's own cached state and brightness do not change |
| `LightPlatform.AwesomeLight.Update` | custom_components/yandex_iot_integration/light.py:209-215 | refreshes the light; on success the cache becomes the light's `IsOn()` and brightness (so brightness None); on a fault the cache keeps its prior values |
| `Capabilities.ReadCapabilities` | custom_components/yandex_iot_integration/light.py:323-330 | the capability loop of discovery, and likewise of refresh at light.py:292-299: faults iff some range capability has instance "brightness"; otherwise yields the last on/off value (false if none) and brightness None |
| `Capabilities.LastOnOffAbsent` | custom_components/yandex_iot_integration/light.py:324 | the on/off read finds no value, and the state stays at its initial false, iff no capability is on/off |
| `Capabilities.LastOnOffIsLast` | custom_components/yandex_iot_integration/light.py:329-330 | when a capability is on/off and no later one is, the value read is that capability's state value: the last on/off capability wins |
| `Discovery.BulbsInOrder` | custom_components/yandex_iot_integration/light.py:321-322 | the kept devices are exactly the devices of type "devices.types.light", each once, in their relative order: the k-th kept device is the one at the k-th bulb position, the positions increase, and a position is kept iff a bulb is there |
| `Discovery.FaultsAreFromBulbs` | custom_components/yandex_iot_integration/light.py:321-328 | discovery faults iff some kept bulb reports a brightness range; devices of other types are never read |
| `VendorApi.OnOffPayload` | custom_components/yandex_iot_integration/light.py:227-245 | the action payload of turn_on (and, with value false, of turn_off at light.py:256-274) reads back as exactly one instruction: one device, the light's id, with one retrievable on/off capability for instance "on" carrying the requested value |
| `VendorApi.OnOffPayloadIsCanonical` | custom_components/yandex_iot_integration/light.py:256-274 | conversely, every payload that carries a single such on/off instruction is the one the light builds for that device and value |
| `VendorApi.BearerTokenRoundTrip` | custom_components/yandex_iot_integration/light.py:248-249 | the Authorization header of every request carries the token unchanged after the "Bearer " prefix |
| `VendorApi.UserInfoRequest` | custom_components/yandex_iot_integration/light.py:316-318 | the account-info call (also made at light.py:309-310) is a GET of /v1.0/user/info whose Authorization header carries the hub's token unchanged |
| `VendorApi.DeviceRequest` | custom_components/yandex_iot_integration/light.py:287-289 | the refresh call is a GET of /v1.0/devices/ followed by the light's device id, with the light's token in the Authorization header |
| `VendorApi.ActionRequest` | custom_components/yandex_iot_integration/light.py:247-250 | the action call (also made at light.py:276-279) is a POST to /v1.0/user/devices/action carrying the given payload, with the light's token in the Authorization header |

## Left out

- Network I/O (`requests.get`, `requests.post`, `res.json()`) is not modelled. Each operation returns the request it would send and takes the status code or the parsed record as a parameter. Transport failures and undecodable bodies, which the code lets propagate, are therefore not represented.
- `update` (light.py:287) and `lights` (light.py:316) never check the status of their GET call. They read the parsed body whatever the status, and the model does the same. Only the token check (light.py:309-311) looks at a GET's status. A body that lacks a key the code reads (`id`, `name`, `devices`, `type`, `capabilities`, `state`, `instance`, `value`) would raise `KeyError` or `TypeError` in Python. Such bodies cannot be expressed in the model's records, because every record carries every field.
- A capability's state value is modelled as a JSON bool, number (`real`) or string. JSON `null`, arrays and objects are not represented. The model stores whatever value an on/off capability reports, as the code does.
- The percent-to-0–255 brightness scaling `int(255 / 100 * ...)` is not modelled. It is floating-point, and it can never be reached, because the expression faults first.
- `setup_platform`, `PLATFORM_SCHEMA` validation and logging are host-framework glue and are not modelled.
- The `DevicesNames` table and the device-type constants other than the bulb type are unused data and are not modelled.
- The `**kwargs` of the adapter's `turn_on` and `turn_off` are ignored by the code and are not modelled.
- The adapter's `name`, `brightness` and `is_on` properties only return its fields. The model reads those fields directly.
- `config_flow.py` is not part of this model: its one step stores the entered token for the host.
- `__init__.py` is not part of this model: it only forwards entry setup to the light platform.
