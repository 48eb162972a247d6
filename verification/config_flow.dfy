/** The setup flow: one probe of the router that must succeed before an
    entry is created, the mapping of its failures to form errors, the
    entry data, and the scan-interval rule of the setup and options forms. */
module ConfigFlow {
  import opened Common
  import opened JsonValue
  import Auth
  import Sensor

  const CannotConnect: string := "cannot_connect"
  const InvalidResponse: string := "invalid_response"
  const NoInterfaces: string := "no_interfaces"
  const UnknownError: string := "unknown"
  const CONF_SCAN_INTERVAL: string := "scan_interval"

  /** What a successful `validate_input` returns. The interface names are a
      set: the order of the JSON object's keys is not modelled. */
  datatype SetupInfo = SetupInfo(title: string, interfaces: set<string>)

  /** `data.get(CONF_NAME, f"MWAN3 {host}")`. */
  function Title(data: EntryData): string {
    data.name.GetOr(DefaultName(data.host))
  }

  /** `validate_input`: a fresh authenticator logs in, one GET of the
      interface_status page, then the checks in order: status 200, an
      "interfaces" key, a non-empty interfaces object. */
  function ValidateInput(data: EntryData, now: int, login: Auth.LoginReply, reply: StatusReply)
    : (r: Result<SetupInfo>)
    ensures r.Ok? <==>
      && Auth.Login(login).Ok?
      && reply.StatusResponse? && reply.status == 200
      && reply.body.JObj? && "interfaces" in reply.body.fields
      && reply.body.fields["interfaces"].JObj? && reply.body.fields["interfaces"].fields != map[]
    ensures r.Ok? ==> r.value.title == Title(data)
    ensures r.Ok? ==> r.value.interfaces == Sensor.InterfaceEntries(reply.body).Keys && r.value.interfaces != {}
    ensures Auth.Login(login).Err? ==> r == Err(Auth.Login(login).error)
    ensures Auth.Login(login).Ok? && reply.StatusRaised? ==> r == Err(reply.error)
    ensures Auth.Login(login).Ok? && reply.StatusResponse? && reply.status != 200 ==>
      r == Err(Exception(ValueError, CannotConnect))
    ensures Auth.Login(login).Ok? && reply.StatusResponse? && reply.status == 200 ==>
      && (In("interfaces", reply.body).None? ==> r == Err(Exception(TypeError, "")))
      && (In("interfaces", reply.body) == Some(false) ==> r == Err(Exception(ValueError, InvalidResponse)))
      && (In("interfaces", reply.body) == Some(true) && !reply.body.JObj? ==> r == Err(Exception(TypeError, "")))
    ensures Auth.Login(login).Ok? && reply.StatusResponse? && reply.status == 200 && reply.body.JObj?
            && "interfaces" in reply.body.fields ==>
      && (!reply.body.fields["interfaces"].JObj? ==> r == Err(Exception(AttributeError, "")))
      && (reply.body.fields["interfaces"] == JObj(map[]) ==> r == Err(Exception(ValueError, NoInterfaces)))
  {
    match Auth.HeadersResult(Auth.NoSession, now, login)
    case Err(e) => Err(e)
    case Ok(_) =>
      match reply
      case StatusRaised(e) => Err(e)
      case StatusResponse(status, body) =>
        if status != 200 then Err(Exception(ValueError, CannotConnect))
        else
          match In("interfaces", body)
          case None => Err(Exception(TypeError, ""))
          case Some(present) =>
            if !present then Err(Exception(ValueError, InvalidResponse))
            else if !body.JObj? then Err(Exception(TypeError, ""))
            else
              var entries := body.fields["interfaces"];
              if !entries.JObj? then Err(Exception(AttributeError, ""))
              else if entries.fields.Keys == {} then Err(Exception(ValueError, NoInterfaces))
              else Ok(SetupInfo(Title(data), entries.fields.Keys))
  }

  /** After a successful login, any status other than 200 is "cannot
      connect", whatever the body. */
  lemma NonOkStatusCannotConnect(data: EntryData, now: int, login: Auth.LoginReply, status: nat, body: Json)
    requires Auth.Login(login).Ok? && status != 200
    ensures ValidateInput(data, now, login, StatusResponse(status, body)) == Err(Exception(ValueError, CannotConnect))
  {
  }

  /** A 200 body object without "interfaces" is an invalid response. */
  lemma MissingInterfacesKeyInvalid(data: EntryData, now: int, login: Auth.LoginReply, fields: map<string, Json>)
    requires Auth.Login(login).Ok? && "interfaces" !in fields
    ensures ValidateInput(data, now, login, StatusResponse(200, JObj(fields))) == Err(Exception(ValueError, InvalidResponse))
  {
  }

  /** A 200 body whose interfaces object is empty has no interfaces. */
  lemma EmptyInterfacesRejected(data: EntryData, now: int, login: Auth.LoginReply, fields: map<string, Json>)
    requires Auth.Login(login).Ok? && "interfaces" in fields && fields["interfaces"] == JObj(map[])
    ensures ValidateInput(data, now, login, StatusResponse(200, JObj(fields))) == Err(Exception(ValueError, NoInterfaces))
  {
  }

  /** Interfaces accepted at setup are exactly those the first poll of the
      same reply reports, provided each of them is an object. */
  lemma SetupAgreesWithFirstPoll(data: EntryData, now: int, login: Auth.LoginReply, reply: StatusReply)
    requires ValidateInput(data, now, login, reply).Ok?
    requires Sensor.AllObjects(Sensor.InterfaceEntries(reply.body))
    ensures Sensor.RefreshResult(Auth.HeadersResult(Auth.NoSession, now, login), reply).Keys
         == ValidateInput(data, now, login, reply).value.interfaces
  {
    Sensor.RefreshListsExactlyTheReply(Auth.HeadersResult(Auth.NoSession, now, login), reply.body);
  }

  /** Setup only checks that the interfaces object is non-empty, not that
      its entries are objects: a reply with an entry that is not an object
      is accepted at setup, while every poll of that reply, whatever the
      state of the token cache, yields the empty snapshot. */
  lemma SetupAcceptsReplyThePollDrops(data: EntryData, now: int, login: Auth.LoginReply,
                                      fields: map<string, Json>, bad: string,
                                      headers: Result<map<string, string>>)
    requires Auth.Login(login).Ok?
    requires "interfaces" in fields && fields["interfaces"].JObj?
    requires bad in fields["interfaces"].fields && !fields["interfaces"].fields[bad].JObj?
    ensures ValidateInput(data, now, login, StatusResponse(200, JObj(fields)))
         == Ok(SetupInfo(Title(data), fields["interfaces"].fields.Keys))
    ensures Sensor.RefreshResult(headers, StatusResponse(200, JObj(fields))) == map[]
  {
    assert bad in fields["interfaces"].fields.Keys;
    assert !Sensor.AllObjects(fields["interfaces"].fields);
  }

  /** One such reply: `{"interfaces": {"wan": 1}}`. */
  lemma NumberEntryAcceptedThenDropped(data: EntryData, now: int, login: Auth.LoginReply,
                                       headers: Result<map<string, string>>)
    requires Auth.Login(login).Ok?
    ensures var reply := StatusResponse(200, JObj(map["interfaces" := JObj(map["wan" := JNum(1)])]));
      && ValidateInput(data, now, login, reply) == Ok(SetupInfo(Title(data), {"wan"}))
      && Sensor.RefreshResult(headers, reply) == map[]
  {
    var fields := map["interfaces" := JObj(map["wan" := JNum(1)])];
    assert map["wan" := JNum(1)].Keys == {"wan"};
    SetupAcceptsReplyThePollDrops(data, now, login, fields, "wan", headers);
  }

  /** The error key `async_step_user` shows for an exception: the message
      of a ValueError, "unknown" for anything else. */
  function ErrorCode(e: Exception): string {
    if e.kind == ValueError then e.message else UnknownError
  }

  /** The outcome of the user step: the form again with its errors, or an
      entry with its title and data. */
  datatype UserStepResult =
    | UserForm(errors: map<string, string>)
    | UserEntry(title: string, data: EntryData)

  /** `async_step_user`. */
  function StepUser(userInput: Option<EntryData>, now: int, login: Auth.LoginReply, reply: StatusReply)
    : (r: UserStepResult)
    ensures userInput.None? ==> r == UserForm(map[])
    ensures r.UserEntry? <==> userInput.Some? && ValidateInput(userInput.value, now, login, reply).Ok?
    ensures r.UserEntry? ==>
      r.data == userInput.value.(name := Some(Title(userInput.value))) && r.data.name == Some(r.title)
    ensures r.UserForm? && userInput.Some? ==>
      r.errors == map["base" := ErrorCode(ValidateInput(userInput.value, now, login, reply).error)]
  {
    match userInput
    case None => UserForm(map[])
    case Some(input) =>
      match ValidateInput(input, now, login, reply)
      case Ok(info) => UserEntry(info.title, input.(name := Some(Title(input))))
      case Err(e) => UserForm(map["base" := ErrorCode(e)])
  }

  /** A login the router rejects (any status but 302) shows its message on
      the form, and no entry is created. */
  lemma RejectedLoginShownOnForm(input: EntryData, now: int, status: nat, cookies: seq<string>, clock: int,
                                 reply: StatusReply)
    requires status != 302
    ensures StepUser(Some(input), now, Auth.LoginResponse(status, cookies, clock), reply)
         == UserForm(map["base" := Auth.InvalidCredentials])
  {
  }

  /** An "interfaces" value that is not an object fails on `.keys()` with
      an AttributeError, which the form shows as "unknown". */
  lemma NonObjectInterfacesShownAsUnknown(input: EntryData, now: int, login: Auth.LoginReply, v: Json)
    requires Auth.Login(login).Ok? && !v.JObj?
    ensures StepUser(Some(input), now, login, StatusResponse(200, JObj(map["interfaces" := v])))
         == UserForm(map["base" := UnknownError])
  {
  }

  /** A ValueError raised while reading the 200 reply, such as one from the
      JSON decoder, shows its own message on the form. */
  lemma DecodeValueErrorShownOnForm(input: EntryData, now: int, login: Auth.LoginReply, message: string)
    requires Auth.Login(login).Ok?
    ensures StepUser(Some(input), now, login, StatusRaised(Exception(ValueError, message)))
         == UserForm(map["base" := message])
  {
  }

  /** A transport failure of the status GET (after a good login) is not a
      ValueError, so the form shows "unknown"; the same failure during the
      login shows the login's connection message. */
  lemma TransportFailuresOnForm(input: EntryData, now: int, login: Auth.LoginReply, message: string)
    requires Auth.Login(login).Ok?
    ensures StepUser(Some(input), now, login, StatusRaised(Exception(ClientError, message)))
         == UserForm(map["base" := UnknownError])
    ensures StepUser(Some(input), now, Auth.LoginRaised(Exception(ClientError, message)), StatusRaised(Exception(ClientError, message)))
         == UserForm(map["base" := Auth.ConnectFailed])
  {
  }

  /** A scan-interval field of either form: `vol.Required` with a default,
      then `vol.Range(min=MIN_SCAN_INTERVAL)` on the integer. A missing
      value takes the default, and the range check applies to the default
      as well as to a submitted value. There is no upper bound. */
  function ScanIntervalField(submitted: Option<int>, default: int): (r: Option<int>)
    ensures r.Some? <==> MIN_SCAN_INTERVAL <= submitted.GetOr(default)
    ensures r.Some? ==> r.value == submitted.GetOr(default)
  {
    var v := submitted.GetOr(default);
    if v < MIN_SCAN_INTERVAL then None else Some(v)
  }

  /** The user form's schema: name defaults to "MWAN3 Router", the scan
      interval to 30 and must be at least 10. */
  function UserSchema(submitted: EntryData): (r: Option<EntryData>)
    ensures r.Some? <==> ScanIntervalField(submitted.scanInterval, DEFAULT_SCAN_INTERVAL).Some?
    ensures r.Some? ==> r.value.scanInterval.Some? && MIN_SCAN_INTERVAL <= r.value.scanInterval.value
    ensures r.Some? ==> r.value.name.Some? && Title(r.value) == submitted.name.GetOr("MWAN3 Router")
    ensures r.Some? ==> r.value.scanInterval == Some(submitted.scanInterval.GetOr(DEFAULT_SCAN_INTERVAL))
    ensures r.Some? ==>
      r.value.host == submitted.host && r.value.username == submitted.username && r.value.password == submitted.password
  {
    match ScanIntervalField(submitted.scanInterval, DEFAULT_SCAN_INTERVAL)
    case None => None
    case Some(v) =>
      Some(submitted.(name := Some(submitted.name.GetOr("MWAN3 Router")), scanInterval := Some(v)))
  }

  /** The interval the options form offers: the stored option, or 30. */
  function OptionsDefault(options: map<string, int>): int {
    if CONF_SCAN_INTERVAL in options then options[CONF_SCAN_INTERVAL] else DEFAULT_SCAN_INTERVAL
  }

  /** The outcome of the options step: the form with its default, or an
      entry with its title and data. */
  datatype OptionsStepResult =
    | OptionsForm(defaultScanInterval: int)
    | OptionsEntry(title: string, data: map<string, int>)

  /** `MWAN3OptionsFlow.async_step_init`. */
  function StepInit(options: map<string, int>, userInput: Option<int>): (r: OptionsStepResult)
    ensures userInput.None? ==> r == OptionsForm(OptionsDefault(options))
    ensures userInput.Some? ==> r == OptionsEntry("", map[CONF_SCAN_INTERVAL := userInput.value])
  {
    match userInput
    case None => OptionsForm(OptionsDefault(options))
    case Some(v) => OptionsEntry("", map[CONF_SCAN_INTERVAL := v])
  }

  /** What the options flow stores is the interval its form accepted, and
      only that, and it is at least the minimum. */
  lemma OptionsStoreAcceptedInterval(options: map<string, int>, submitted: Option<int>)
    requires ScanIntervalField(submitted, OptionsDefault(options)).Some?
    ensures var v := ScanIntervalField(submitted, OptionsDefault(options)).value;
      && StepInit(options, Some(v)) == OptionsEntry("", map[CONF_SCAN_INTERVAL := v])
      && MIN_SCAN_INTERVAL <= v
  {
  }
}
