/** The status poller and the per-interface sensors: normalisation of the
    interface_status body into a snapshot, the refresh policy that turns
    every failure into an empty snapshot, the coordinator that holds the
    latest snapshot, and the sensors' lookups with defaults. */
module Sensor {
  import opened Common
  import opened JsonValue
  import Auth

  /** The twelve fields of an interface record. */
  datatype Field =
    | Status | Enabled | Score | Up | Age | Turn
    | Online | Uptime | Lost | Offline | Running | TrackIp

  const AllFields: set<Field> :=
    {Status, Enabled, Score, Up, Age, Turn, Online, Uptime, Lost, Offline, Running, TrackIp}

  /** The key of each field in the router's JSON and in the record dict. */
  function Name(f: Field): string {
    match f
    case Status => "status"
    case Enabled => "enabled"
    case Score => "score"
    case Up => "up"
    case Age => "age"
    case Turn => "turn"
    case Online => "online"
    case Uptime => "uptime"
    case Lost => "lost"
    case Offline => "offline"
    case Running => "running"
    case TrackIp => "track_ip"
  }

  /** The value each field takes when the router leaves it out. */
  function Default(f: Field): Json {
    match f
    case Status => JStr("unknown")
    case Enabled | Up | Running => JBool(false)
    case Score | Age | Turn | Online | Uptime | Lost | Offline => JNum(0)
    case TrackIp => JArr([])
  }

  /** One interface's normalised status, keyed by field. */
  type Record = map<Field, Json>

  /** Interface name to its record: the coordinator's data. */
  type Snapshot = map<string, Record>

  /** Python's `record.get(name, default)` on a record. */
  function GetField(d: Record, f: Field, default: Json): Json {
    if f in d then d[f] else default
  }

  /** The record of an interface the router reported with no fields. */
  const Defaults: Record := map f | f in AllFields :: Default(f)

  /** The record `_parse_status` builds from one interface object: exactly
      the twelve fields, each copied verbatim when present under its name
      and defaulted when not. */
  function ParseInterface(obj: map<string, Json>): (r: Record)
    ensures r.Keys == AllFields
  {
    map[
      Status := Get(obj, "status", JStr("unknown")),
      Enabled := Get(obj, "enabled", JBool(false)),
      Score := Get(obj, "score", JNum(0)),
      Up := Get(obj, "up", JBool(false)),
      Age := Get(obj, "age", JNum(0)),
      Turn := Get(obj, "turn", JNum(0)),
      Online := Get(obj, "online", JNum(0)),
      Uptime := Get(obj, "uptime", JNum(0)),
      Lost := Get(obj, "lost", JNum(0)),
      Offline := Get(obj, "offline", JNum(0)),
      Running := Get(obj, "running", JBool(false)),
      TrackIp := Get(obj, "track_ip", JArr([]))]
  }

  /** Each field of the record is the object's value under the field's
      name, verbatim, or the field's default when the object lacks it. */
  lemma ParsedField(obj: map<string, Json>, f: Field)
    ensures ParseInterface(obj)[f] == Get(obj, Name(f), Default(f))
  {
  }

  /** An interface object with no fields parses to the defaults. */
  lemma EmptyInterfaceParsesToDefaults()
    ensures ParseInterface(map[]) == Defaults
  {
  }

  /** Fields outside the twelve do not reach the record. */
  lemma ExtraFieldsDropped(obj: map<string, Json>, extra: map<string, Json>)
    requires forall f :: Name(f) !in extra
    ensures ParseInterface(obj + extra) == ParseInterface(obj)
  {
    forall f | f in AllFields
      ensures ParseInterface(obj + extra)[f] == ParseInterface(obj)[f]
    {
      ParsedField(obj + extra, f);
      ParsedField(obj, f);
    }
  }

  /** The `data["interfaces"]` object of a body, or the empty map when the
      body has none. */
  function InterfaceEntries(body: Json): map<string, Json> {
    if body.JObj? && "interfaces" in body.fields && body.fields["interfaces"].JObj?
    then body.fields["interfaces"].fields
    else map[]
  }

  /** Every entry of the interfaces object is itself an object. */
  predicate AllObjects(entries: map<string, Json>) {
    forall n :: n in entries ==> entries[n].JObj?
  }

  /** One record per entry of the interfaces object. */
  function ParseEntries(entries: map<string, Json>): (r: Snapshot)
    requires AllObjects(entries)
    ensures r.Keys == entries.Keys
  {
    map n | n in entries :: ParseInterface(entries[n].fields)
  }

  /** `_parse_status` on a decoded body: the snapshot, or the exception
      Python raises on a body of the wrong shape. */
  function Parsed(body: Json): (r: Result<Snapshot>)
    ensures r.Ok? ==> r.value.Keys == InterfaceEntries(body).Keys
    ensures r.Ok? ==> forall n :: n in r.value ==>
      InterfaceEntries(body)[n].JObj? && r.value[n] == ParseInterface(InterfaceEntries(body)[n].fields)
    ensures body.JObj? ==> (r.Ok? <==>
      ("interfaces" in body.fields ==>
        body.fields["interfaces"].JObj? && AllObjects(body.fields["interfaces"].fields)))
  {
    match In("interfaces", body)
    case None => Err(Exception(TypeError, ""))
    case Some(present) =>
      if !present then Ok(map[])
      else if !body.JObj? then Err(Exception(TypeError, ""))
      else
        var entries := body.fields["interfaces"];
        if !entries.JObj? then Err(Exception(AttributeError, ""))
        else if !AllObjects(entries.fields) then Err(Exception(AttributeError, ""))
        else Ok(ParseEntries(entries.fields))
  }

  /** A body object without "interfaces" parses to the empty snapshot. */
  lemma NoInterfacesKeyParsesEmpty(fields: map<string, Json>)
    requires "interfaces" !in fields
    ensures Parsed(JObj(fields)) == Ok(map[])
  {
  }

  /** `_parse_status`: builds the snapshot by inserting one record per entry
      of `data["interfaces"]`. */
  method ParseStatus(data: Json) returns (r: Result<Snapshot>)
    ensures r == Parsed(data)
  {
    var interfaces: Snapshot := map[];
    var present := In("interfaces", data);
    if present.None? {
      return Err(Exception(TypeError, ""));
    }
    if present.value {
      if !data.JObj? {
        return Err(Exception(TypeError, ""));
      }
      var entries := data.fields["interfaces"];
      if !entries.JObj? {
        return Err(Exception(AttributeError, ""));
      }
      var pending := entries.fields.Keys;
      while pending != {}
        invariant pending <= entries.fields.Keys
        invariant interfaces.Keys == entries.fields.Keys - pending
        invariant forall n :: n in interfaces ==>
          entries.fields[n].JObj? && interfaces[n] == ParseInterface(entries.fields[n].fields)
        decreases pending
      {
        var name :| name in pending;
        var entry := entries.fields[name];
        if !entry.JObj? {
          assert !AllObjects(entries.fields);
          return Err(Exception(AttributeError, ""));
        }
        interfaces := interfaces[name := ParseInterface(entry.fields)];
        pending := pending - {name};
      }
      assert AllObjects(entries.fields);
      assert interfaces == ParseEntries(entries.fields);
    }
    return Ok(interfaces);
  }

  /** `_async_update_data`'s result: the parsed snapshot of a 200 reply,
      and the empty snapshot for a login failure, a raised request, any
      other status, or a body that does not parse. */
  function RefreshResult(headers: Result<map<string, string>>, reply: StatusReply): (r: Snapshot)
    ensures r != map[] ==>
      headers.Ok? && reply.StatusResponse? && reply.status == 200 && Parsed(reply.body) == Ok(r)
    ensures reply.StatusResponse? ==> r.Keys <= InterfaceEntries(reply.body).Keys
    ensures reply.StatusRaised? ==> r == map[]
  {
    if headers.Err? then map[]
    else
      match reply
      case StatusRaised(_) => map[]
      case StatusResponse(status, body) =>
        if status != 200 then map[]
        else
          match Parsed(body)
          case Ok(snapshot) => snapshot
          case Err(_) => map[]
  }

  /** A 200 reply with a well-formed body yields one record per interface
      it lists; an interface it does not list is absent, whatever earlier
      polls saw. */
  lemma RefreshListsExactlyTheReply(headers: Result<map<string, string>>, body: Json)
    requires headers.Ok? && Parsed(body).Ok?
    ensures RefreshResult(headers, StatusResponse(200, body)).Keys == InterfaceEntries(body).Keys
  {
  }

  /** The data the sensors read when their interface may be missing:
      `coordinator.data.get(name, {})`. */
  function InterfaceData(data: Snapshot, interfaceName: string): Record {
    if interfaceName in data then data[interfaceName] else map[]
  }

  /** `MWAN3InterfaceSensor.state`: the interface's status, "unknown" when
      the interface or its status is missing. */
  function State(data: Snapshot, interfaceName: string): (r: Json)
    ensures interfaceName in data && Status in data[interfaceName] ==> r == data[interfaceName][Status]
    ensures !(interfaceName in data && Status in data[interfaceName]) ==> r == Default(Status)
  {
    var d := InterfaceData(data, interfaceName);
    GetField(d, Status, JStr("unknown"))
  }

  /** `MWAN3InterfaceSensor.extra_state_attributes`: the eleven fields other
      than status, each looked up with its default. */
  function ExtraStateAttributes(data: Snapshot, interfaceName: string): (r: Record)
    ensures r.Keys == AllFields - {Status}
  {
    var d := InterfaceData(data, interfaceName);
    map[
      Enabled := GetField(d, Enabled, JBool(false)),
      Score := GetField(d, Score, JNum(0)),
      Up := GetField(d, Up, JBool(false)),
      Age := GetField(d, Age, JNum(0)),
      Turn := GetField(d, Turn, JNum(0)),
      Online := GetField(d, Online, JNum(0)),
      Uptime := GetField(d, Uptime, JNum(0)),
      Lost := GetField(d, Lost, JNum(0)),
      Offline := GetField(d, Offline, JNum(0)),
      Running := GetField(d, Running, JBool(false)),
      TrackIp := GetField(d, TrackIp, JArr([]))]
  }

  /** Each attribute is the interface's stored value of that field, or the
      field's default when the interface or the field is missing. */
  lemma AttributeField(data: Snapshot, interfaceName: string, f: Field)
    requires f != Status
    ensures ExtraStateAttributes(data, interfaceName)[f] == GetField(InterfaceData(data, interfaceName), f, Default(f))
  {
  }

  /** For a record `_parse_status` built, the state is its status and the
      attributes are the record without the status. */
  lemma SensorViewOfParsedRecord(data: Snapshot, interfaceName: string, obj: map<string, Json>)
    requires interfaceName in data && data[interfaceName] == ParseInterface(obj)
    ensures State(data, interfaceName) == data[interfaceName][Status]
    ensures ExtraStateAttributes(data, interfaceName) == data[interfaceName] - {Status}
  {
  }

  /** An interface missing from the data reads as all defaults. */
  lemma SensorViewOfMissingInterface(data: Snapshot, interfaceName: string)
    requires interfaceName !in data
    ensures State(data, interfaceName) == Defaults[Status]
    ensures ExtraStateAttributes(data, interfaceName) == Defaults - {Status}
  {
  }

  /** A sensor as `MWAN3InterfaceSensor.__init__` names it. */
  datatype InterfaceSensor = InterfaceSensor(interfaceName: string, name: string, uniqueId: string)

  /** `MWAN3InterfaceSensor.__init__`: the display name is the friendly
      name, a space and the interface name; the unique id is `mwan3_`
      followed by the interface name, from which the name can be read back. */
  function NewSensor(friendlyName: string, interfaceName: string): (r: InterfaceSensor)
    ensures r.interfaceName == interfaceName
    ensures "mwan3_" <= r.uniqueId && r.uniqueId[|"mwan3_"|..] == interfaceName
    ensures friendlyName + " " <= r.name && r.name[|friendlyName| + 1..] == interfaceName
  {
    InterfaceSensor(interfaceName, friendlyName + " " + interfaceName, "mwan3_" + interfaceName)
  }

  /** The sensors `async_setup_entry` adds: one per interface of the data. */
  function SensorsFor(friendlyName: string, data: Snapshot): (r: map<string, InterfaceSensor>)
    ensures r.Keys == data.Keys
    ensures forall n :: n in r ==> r[n].interfaceName == n
    ensures forall n :: n in r ==> r[n].uniqueId == "mwan3_" + n && r[n].name == friendlyName + " " + n
  {
    map n | n in data :: NewSensor(friendlyName, n)
  }

  /** Distinct interfaces get distinct unique ids, and each unique id gives
      back its interface name. */
  lemma {:induction false} UniqueIdsDistinct(friendlyName: string, data: Snapshot, a: string, b: string)
    requires a in data && b in data && a != b
    ensures SensorsFor(friendlyName, data)[a].uniqueId != SensorsFor(friendlyName, data)[b].uniqueId
    ensures SensorsFor(friendlyName, data)[a].uniqueId[|"mwan3_"|..] == a
  {
    var p := "mwan3_";
    assert (p + a)[|p|..] == a;
    assert (p + b)[|p|..] == b;
  }

  /** `MWAN3Coordinator`: the authenticator it owns, the poll settings and
      the latest snapshot. */
  class Coordinator {
    const auth: Auth.Authenticator
    const friendlyName: string
    const scanInterval: int
    var data: Snapshot

    constructor (host: string, username: string, password: string, scanInterval: int, friendlyName: string)
      ensures fresh(auth)
      ensures auth.host == host && auth.username == username && auth.password == password
      ensures auth.Cached() == Auth.NoSession && !auth.sessionOpen && auth.Valid()
      ensures this.scanInterval == scanInterval && this.friendlyName == friendlyName
      ensures data == map[]
    {
      auth := new Auth.Authenticator(host, username, password);
      this.scanInterval := scanInterval;
      this.friendlyName := friendlyName;
      data := map[];
    }

    /** One poll: `_async_update_data`, whose result replaces the data
        wholesale. Leaving `async with session` closes the session. */
    method Refresh(now: int, login: Auth.LoginReply, reply: StatusReply)
      modifies this, auth
      requires auth.Valid()
      ensures auth.Valid()
      ensures data == RefreshResult(Auth.HeadersResult(old(auth.Cached()), now, login), reply)
      ensures auth.Cached() == Auth.TokenStep(old(auth.Cached()), now, login).1
      ensures Auth.HeadersResult(old(auth.Cached()), now, login).Ok? ==> !auth.sessionOpen
      ensures Auth.HeadersResult(old(auth.Cached()), now, login).Err? ==>
        auth.sessionOpen == (old(auth.sessionOpen) || !Auth.Reusable(old(auth.Cached()), now))
    {
      var headers := auth.GetHeaders(now, login);
      if headers.Err? {
        data := map[];
        return;
      }
      auth.OpenSession();
      match reply {
        case StatusRaised(_) =>
          data := map[];
        case StatusResponse(status, body) =>
          if status == 200 {
            var parsed := ParseStatus(body);
            data := if parsed.Ok? then parsed.value else map[];
          } else {
            data := map[];
          }
      }
      auth.Close();
    }

    /** `async_shutdown`: closes the authenticator's session. */
    method Shutdown()
      modifies auth
      ensures !auth.sessionOpen && auth.Cached() == old(auth.Cached())
    {
      auth.Close();
    }
  }

  /** `async_setup_entry`: a coordinator from the entry data, its first
      refresh, and one sensor per interface that refresh found. */
  method SetupEntry(entry: EntryData, now: int, login: Auth.LoginReply, reply: StatusReply)
    returns (coordinator: Coordinator, sensors: map<string, InterfaceSensor>)
    ensures fresh(coordinator) && fresh(coordinator.auth)
    ensures coordinator.scanInterval == entry.scanInterval.GetOr(DEFAULT_SCAN_INTERVAL)
    ensures coordinator.friendlyName == entry.name.GetOr(DefaultName(entry.host))
    ensures coordinator.auth.host == entry.host && coordinator.auth.username == entry.username
         && coordinator.auth.password == entry.password
    ensures coordinator.auth.Valid() && coordinator.auth.Cached() == Auth.TokenStep(Auth.NoSession, now, login).1
    ensures coordinator.data == RefreshResult(Auth.HeadersResult(Auth.NoSession, now, login), reply)
    ensures sensors == SensorsFor(coordinator.friendlyName, coordinator.data)
  {
    coordinator := new Coordinator(
      entry.host, entry.username, entry.password,
      entry.scanInterval.GetOr(DEFAULT_SCAN_INTERVAL),
      entry.name.GetOr(DefaultName(entry.host)));
    coordinator.Refresh(now, login, reply);
    sensors := SensorsFor(coordinator.friendlyName, coordinator.data);
  }
}
