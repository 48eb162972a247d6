# MWAN3 integration for Home Assistant — a Dafny model

The integration watches the multi-WAN manager (MWAN3) of an OpenWrt router.
It has three parts, and the model follows them:

- **The authenticator** (`MWAN3Auth`, module `Auth`). It logs in to the
  router's LuCI login form and takes the `sysauth` token out of the
  `Set-Cookie` values of the 302 reply. It caches the token for one hour
  and sends it back as a `Cookie` header. It can also probe the MWAN3
  status page, and a 401/403 there clears the cache. The regular
  expression `sysauth=([^;]+)` is modelled in module `Sysauth`: the
  leftmost match and the greedy run of characters other than `;`.
- **The poller and the sensors** (`MWAN3Coordinator` and
  `MWAN3InterfaceSensor`, module `Sensor`). Each poll fetches the
  `interface_status` JSON. It normalises every interface into a record of
  twelve fields with defaults, and it turns every failure into the empty
  snapshot. Each sensor reads its interface's status and attributes from
  the latest snapshot, with the same defaults. Setting up an entry
  creates one sensor per interface that the first poll found.
- **The setup flow** (`MWAN3ConfigFlow` and `MWAN3OptionsFlow`, module
  `ConfigFlow`). It makes one validating round trip to the router. It
  maps the failures of that round trip to form errors, builds the entry
  data, and applies the scan-interval rule of the two forms.

Module `Common` holds the shared vocabulary: `Option`, a `Result` that
carries a Python exception, the constants of `const.py`, substring search
and decimal rendering. Module `JsonValue` holds decoded JSON and the
Python operations applied to it.

The router and the clock are parameters:

- A login is a `LoginReply`: a status, the `Set-Cookie` values and the
  clock reading taken when the token is stored, or a raised exception.
- The status GET is a `StatusReply` or a `ProbeReply`.
- "Now" is an integer number of seconds.

The pure functions `TokenStep`, `HeadersResult`, `ValidateStep`, `Parsed`
and `RefreshResult` specify the operations. The classes `Authenticator`
and `Coordinator` hold the state the source mutates, and their methods
are proved equal to those functions. The loops of the source are the
methods `ScanSetCookies` (the cookie loop) and `ParseStatus` (the loop
over the interfaces), each proved against its specification function.
The token cache keeps an invariant (`Auth.WellFormed`): the token and
its expiry are set and cleared together, and a cached token is one the
pattern produced, so it is non-empty and free of `;`. The constructor
establishes it, and every operation that changes the cache keeps it.

Two consequences of the source are proved about the model:

- Setup accepts a reply whose interfaces object is non-empty, even when
  its entries are not objects. Every poll of that same reply yields the
  empty snapshot (`ConfigFlow.SetupAcceptsReplyThePollDrops`), so such an
  entry gets no sensors.
- The options flow stores `scan_interval` in the entry's options.
  `async_setup_entry` reads the interval from the entry's data only
  (sensor.py:45), so an interval changed in the options does not reach
  the poller. In the model, `Sensor.SetupEntry` takes only the entry data.

## Model

| member | source | states |
|---|---|---|
| Common.DecimalString | custom_components/mwan3/auth.py:90 | `str(status)` of a non-negative status is a non-empty string of decimal digits that denotes the status, with no leading zero; one digit exactly when the status is below 10 |
| JsonValue.In | custom_components/mwan3/sensor.py:105 | Python's `"interfaces" in data` is a key test on an object; it is defined on arrays and strings too, and it raises TypeError on any other JSON value |
| Common.ContainsOccurs | custom_components/mwan3/auth.py:53 | Python's `sub in s` on strings holds only when `sub` occurs at some position; `Common.ContainsAt` gives the converse |
| JsonValue.InOnStringsAndLists | custom_components/mwan3/sensor.py:105 | on a string body, `"interfaces" in data` holds exactly when the key occurs as a substring; on a list body, exactly when some element is that string |
| Sysauth.SysauthToken | custom_components/mwan3/auth.py:54-56 | the group `re.search(r'sysauth=([^;]+)')` captures is non-empty and free of `;` |
| Sysauth.SearchFailsIffNoMatch | custom_components/mwan3/auth.py:54-55 | the search finds nothing exactly when the pattern matches at no position |
| Sysauth.SearchIsLeftmostMaximal | custom_components/mwan3/auth.py:54-56 | a token found is the group at the leftmost match, and it is a maximal run: it ends at the end of the text or before a `;` |
| Sysauth.GuardImplied | custom_components/mwan3/auth.py:53-55 | the `'sysauth=' in cookie` guard never rejects a cookie the search would match |
| Sysauth.FirstToken | custom_components/mwan3/auth.py:51-61 | there is no token exactly when no Set-Cookie value matches; a token found is non-empty and free of `;` |
| Sysauth.FirstTokenIsFirst | custom_components/mwan3/auth.py:52-59 | the token found is that of some Set-Cookie value, and no value before it, in header order, matches |
| Sysauth.TokenRoundTrip | custom_components/mwan3/auth.py:54 | a cookie `sysauth=` + t + (nothing, or `;`…) yields exactly t, for every non-empty t free of `;` |
| Sysauth.ExampleCookie | custom_components/mwan3/auth.py:54 | `sysauth=abc123; Path=/` yields `abc123` |
| Auth.Login | custom_components/mwan3/auth.py:45-65 | a login succeeds exactly on a 302 whose cookies carry a token; the token is the first match, non-empty and free of `;`. A non-302 raises "Invalid credentials or connection failed", and a 302 without a match raises "Failed to get authentication token". A transport error raises "Failed to connect to MWAN3"; any other exception passes through |
| Auth.TokenStep | custom_components/mwan3/auth.py:30-65 | a reusable cache answers without a login. Otherwise the result is the login's. A failure leaves the cache unchanged. A success caches the token until the login clock plus one hour. The cache invariant is kept: token and expiry are set together, and a cached token is non-empty and free of `;` |
| Auth.FreshTokenLifetime | custom_components/mwan3/auth.py:33-34 | after a login, the token is reused whatever the router answers, at every time before the login clock plus 3600 s, and never from then on |
| Auth.LoginRejected | custom_components/mwan3/auth.py:47-48 | any login status other than 302 is reported as invalid credentials, and the cache stays as it was |
| Auth.RedirectWithoutToken | custom_components/mwan3/auth.py:51-61 | a 302 none of whose cookies matches fails with "Failed to get authentication token", and the cache stays as it was |
| Auth.LoginTransportFailure | custom_components/mwan3/auth.py:63-65 | a transport error becomes "Failed to connect to MWAN3", any other exception passes through, and the cache is unchanged |
| Auth.HeadersResult | custom_components/mwan3/auth.py:67-70 | headers are produced exactly when `_get_token` succeeds. They are the single `Cookie` header `sysauth=` + the token; otherwise `_get_token`'s exception is raised |
| Auth.HeadersCarryToken | custom_components/mwan3/auth.py:67-70 | on a cache that keeps the invariant, whether the token was cached or just obtained, the same pattern applied to the Cookie header gives back exactly that token |
| Auth.ValidateStep | custom_components/mwan3/auth.py:72-94 | success exactly when a token is obtained and the probe answers 200, with "Connection successful". After a token, 401/403 gives "Authentication failed" and a cache that is never reusable again; only that case clears the cache. Any other status gives "Failed to access MWAN3 status page (HTTP n)". A failed login or a raised probe gives "Connection error: " + the exception's message. The cache invariant is kept |
| Auth.RejectedProbeForcesLogin | custom_components/mwan3/auth.py:84-88 | after a 401/403 probe, the next `_get_token` logs in again at any time |
| Auth.ScanSetCookies | custom_components/mwan3/auth.py:51-61 | the cookie loop, with its early return, finds exactly `FirstToken` |
| Auth.Authenticator.constructor | custom_components/mwan3/auth.py:15-22 | stores the credentials; no token, no expiry, no session; the cache invariant holds |
| Auth.Authenticator.OpenSession | custom_components/mwan3/auth.py:24-28 | afterwards a session is open |
| Auth.Authenticator.GetToken | custom_components/mwan3/auth.py:30-65 | result and new cache are those of `TokenStep`; a session is opened exactly when a login is needed; the cache invariant is kept |
| Auth.Authenticator.GetHeaders | custom_components/mwan3/auth.py:67-70 | result is `HeadersResult`; the cache is updated as `_get_token` updates it |
| Auth.Authenticator.ValidateConnection | custom_components/mwan3/auth.py:72-94 | outcome, message and new cache are those of `ValidateStep`; the session is open afterwards |
| Auth.Authenticator.Close | custom_components/mwan3/auth.py:96-100 | the session is closed and the cached token and expiry are untouched |
| Sensor.ParseInterface | custom_components/mwan3/sensor.py:107-120 | a parsed record has exactly the twelve fields |
| Sensor.ParsedField | custom_components/mwan3/sensor.py:107-120 | each field is the interface object's value under that field's name, verbatim, or the field's default when it is missing |
| Sensor.EmptyInterfaceParsesToDefaults | custom_components/mwan3/sensor.py:107-120 | an interface object without fields parses to the defaults ("unknown", false, 0, []) |
| Sensor.ExtraFieldsDropped | custom_components/mwan3/sensor.py:107-120 | keys outside the twelve names do not affect the record |
| Sensor.ParseEntries | custom_components/mwan3/sensor.py:106-120 | one record per interface entry |
| Sensor.Parsed | custom_components/mwan3/sensor.py:101-122 | the snapshot lists exactly the interfaces of `data["interfaces"]`, each as its parsed record. For an object body, parsing succeeds exactly when "interfaces" is absent, or is an object all of whose entries are objects |
| Sensor.NoInterfacesKeyParsesEmpty | custom_components/mwan3/sensor.py:105 | a body without "interfaces" parses to the empty snapshot |
| Sensor.ParseStatus | custom_components/mwan3/sensor.py:101-122 | the loop that fills the dict gives exactly `Parsed`, including its exceptions |
| Sensor.RefreshResult | custom_components/mwan3/sensor.py:80-99 | a non-empty snapshot comes only from headers obtained (a cached token or a login), a 200 and a body that parses to it. A raised request gives the empty snapshot. No interface outside the reply is ever listed |
| Sensor.RefreshListsExactlyTheReply | custom_components/mwan3/sensor.py:90-93 | a 200 with a well-formed body lists exactly its interfaces; interfaces of earlier polls are dropped |
| Sensor.State | custom_components/mwan3/sensor.py:140-144 | the interface's status when present, else "unknown" |
| Sensor.ExtraStateAttributes | custom_components/mwan3/sensor.py:146-162 | the attributes are exactly the eleven fields other than status |
| Sensor.AttributeField | custom_components/mwan3/sensor.py:149-161 | each attribute is the interface's stored value of that field, or the field's default when the interface or the field is missing |
| Sensor.SensorViewOfParsedRecord | custom_components/mwan3/sensor.py:140-162 | for a parsed record, the state is its status and the attributes are the record minus its status |
| Sensor.SensorViewOfMissingInterface | custom_components/mwan3/sensor.py:143-162 | an interface missing from the data reads as all defaults |
| Sensor.NewSensor | custom_components/mwan3/sensor.py:132-137 | the sensor is bound to its interface; its unique id is `mwan3_` followed by the interface name, and its name is the friendly name, a space and the interface name |
| Sensor.SensorsFor | custom_components/mwan3/sensor.py:51-56 | one sensor per interface in the data, each bound to its interface, with unique id `mwan3_` + name and display name friendly name + " " + name |
| Sensor.UniqueIdsDistinct | custom_components/mwan3/sensor.py:136-137 | distinct interfaces get distinct unique ids, and the id gives back the interface name |
| Sensor.Coordinator.constructor | custom_components/mwan3/sensor.py:61-78 | a fresh authenticator with the host and credentials, no token and no session; the interval and name as given |
| Sensor.Coordinator.Refresh | custom_components/mwan3/sensor.py:80-99 | the data becomes `RefreshResult` and the token cache is updated as `get_headers` updates it, keeping its invariant. When headers were obtained, the session is closed afterwards |
| Sensor.Coordinator.Shutdown | custom_components/mwan3/sensor.py:124-127 | closes the session, keeps the cache |
| Sensor.SetupEntry | custom_components/mwan3/sensor.py:34-56 | interval and name come from the entry, defaulting to 30 s and "MWAN3 host". The coordinator's authenticator holds the entry's host, username and password. Its cache is the one the first poll left from an empty cache, and the invariant holds, so later polls can follow. The data is that first poll, and the sensors are one per interface of that data |
| ConfigFlow.ValidateInput | custom_components/mwan3/config_flow.py:24-51 | success exactly on a login, then a 200, then an object with a non-empty "interfaces" object. The title is the name or "MWAN3 host", and the interfaces are the keys of that object. Every failure is stated. A login failure and a raised status GET pass through unchanged. A non-200 is `cannot_connect`. A missing key is `invalid_response`, an empty object `no_interfaces`. A body `in` rejects, or a non-object body holding the key, gives TypeError; a non-object "interfaces" gives AttributeError |
| ConfigFlow.NonOkStatusCannotConnect | custom_components/mwan3/config_flow.py:36-37 | after a login, any status other than 200 is `cannot_connect` |
| ConfigFlow.MissingInterfacesKeyInvalid | custom_components/mwan3/config_flow.py:40-41 | a body without "interfaces" is `invalid_response` |
| ConfigFlow.EmptyInterfacesRejected | custom_components/mwan3/config_flow.py:44-46 | an empty interfaces object is `no_interfaces` |
| ConfigFlow.SetupAgreesWithFirstPoll | custom_components/mwan3/config_flow.py:44-51 | when every entry is an object, the interfaces setup reports are exactly those the first poll of the same reply lists |
| ConfigFlow.SetupAcceptsReplyThePollDrops | custom_components/mwan3/config_flow.py:44-46 | after a login, setup accepts every 200 object body whose interfaces object has an entry that is not an object, reporting all its keys; every poll of that reply, whatever the token cache holds, is empty |
| ConfigFlow.NumberEntryAcceptedThenDropped | custom_components/mwan3/config_flow.py:44-51 | `{"interfaces": {"wan": 1}}` is accepted at setup with the interface `wan`, and every poll of it is empty |
| ConfigFlow.StepUser | custom_components/mwan3/config_flow.py:58-96 | no input shows an empty form. An entry is created exactly when validation succeeds, with the input's data, its name filled in and equal to the title. Otherwise `errors["base"]` is the ValueError's message, or "unknown" for any other exception |
| ConfigFlow.RejectedLoginShownOnForm | custom_components/mwan3/config_flow.py:75-76 | a rejected login shows "Invalid credentials or connection failed" on the form |
| ConfigFlow.NonObjectInterfacesShownAsUnknown | custom_components/mwan3/config_flow.py:44 | a non-object "interfaces" value fails with AttributeError, and the form shows "unknown" |
| ConfigFlow.DecodeValueErrorShownOnForm | custom_components/mwan3/config_flow.py:39 | a ValueError raised while reading the 200 reply shows its own message on the form |
| ConfigFlow.TransportFailuresOnForm | custom_components/mwan3/config_flow.py:75-79 | a transport error on the status GET shows "unknown"; the same error during login shows "Failed to connect to MWAN3" |
| ConfigFlow.ScanIntervalField | custom_components/mwan3/config_flow.py:89-92 | a missing value takes the default; the value, submitted or default, is accepted exactly when it is at least 10, with no upper bound |
| ConfigFlow.UserSchema | custom_components/mwan3/config_flow.py:83-94 | an accepted form keeps the submitted host, username and password. Its scan interval is the submitted one, or 30, and is at least 10. Its name is the submitted one, or "MWAN3 Router" |
| ConfigFlow.StepInit | custom_components/mwan3/config_flow.py:113-140 | no input shows the form with the stored option, or 30, as default; input creates an untitled entry that holds only the submitted `scan_interval` |
| ConfigFlow.OptionsStoreAcceptedInterval | custom_components/mwan3/config_flow.py:117-137 | the options entry stores exactly the interval the form accepted, and it is at least 10 |

## Left out

- Networking, the HTTP session object and the URLs are not modelled. This
  includes the login form fields and the cache-busting timestamp. The
  replies are parameters, and the session is a flag that records whether
  it is open.
- Leaving `async with session` is modelled as `close`, because both end
  with the session closed.
- JSON decoding is not modelled: `response.json()` yields a decoded value,
  or a raised exception on a 200. JSON numbers are integers; floats are
  not modelled.
- The messages of the TypeError and AttributeError that Python raises on
  a body of the wrong shape are the empty string. Only their kind matters
  to the code that catches them.
- The order of the interface names is not modelled, because the
  snapshot and the name lists are maps and sets. The `description` text
  of the created entry (`Found interfaces: …`) is left out for the same
  reason.
- `vol.Coerce(int)` is not modelled: form values are already integers.
  The form rendering, the `step_id` and the other schema fields are left
  out too.
- The Home Assistant framework is not modelled: scheduling of polls,
  entity registration, `async_config_entry_first_refresh`'s retry
  behaviour, the state class and `super().async_shutdown()`. The
  coordinator's data starts as the empty snapshot rather than `None`.
- Logging is not modelled, because it does not affect any result.
- Each asynchronous operation is modelled as one atomic step. Two
  overlapping calls that interleave at an `await` are not modelled; an
  example is two `_get_token` calls that both log in.
- `MAX_SCAN_INTERVAL` is declared but nothing in the integration enforces
  it, so it bounds nothing in the model.
