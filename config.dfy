/** The configuration object: the dictionary it holds in memory and the
    updates its setters, `add_port`, `remove_port` and `clear_all` make. */
module VortexConfig {
  import opened PyValues
  import opened ConfigDefaults
  import opened ConfigLookups
  import opened PortList

  /** What the configuration file yields when it is read: no file, a file
      that cannot be opened or parsed, or the mapping it holds (an empty
      mapping for an empty file). */
  datatype ConfigFile = Absent | Broken | Loaded(doc: Dict)

  /** The keys that a plain setter writes without any check. */
  datatype Field =
    | IpIranField | IpKharejField | IranIfaceIpField | KharejIfaceIpField
    | RemoteForwardIpField | ForwardedPortsField
    | TunnelIdField | PeerTunnelIdField | SessionIdField | PeerSessionIdField

  function FieldKey(f: Field): string
  {
    match f
    case IpIranField => "ip_iran"
    case IpKharejField => "ip_kharej"
    case IranIfaceIpField => "iran_iface_ip"
    case KharejIfaceIpField => "kharej_iface_ip"
    case RemoteForwardIpField => "remote_forward_ip"
    case ForwardedPortsField => "forwarded_ports"
    case TunnelIdField => "tunnel_id"
    case PeerTunnelIdField => "peer_tunnel_id"
    case SessionIdField => "session_id"
    case PeerSessionIdField => "peer_session_id"
  }

  /** The values the role setter accepts: `None` and exactly the roles the
      role table has an entry for. */
  predicate AcceptedRole(v: Value)
    ensures AcceptedRole(v) <==> v == Null || (v.Str? && v.s in ROLE_TUNNEL_DEFAULTS)
  {
    v == Str(IRAN) || v == Str(KHAREJ) || v == Null
  }

  const ClearedKeys: set<string> := {"role", "ip_iran", "ip_kharej", "forwarded_ports"}

  /** The dictionary `clear_all` leaves: the role and both peer addresses
      forgotten, the port list empty, every other key as it was. */
  function Cleared(d: Dict): (r: Dict)
    ensures r.Keys == d.Keys + ClearedKeys
    ensures forall k :: k in d && k !in ClearedKeys ==> r[k] == d[k]
    ensures r["role"] == Null && r["ip_iran"] == Null && r["ip_kharej"] == Null
    ensures r["forwarded_ports"] == IntList([])
  {
    d["role" := Null]["ip_iran" := Null]["ip_kharej" := Null]["forwarded_ports" := IntList([])]
  }

  /** After `clear_all` the node is unconfigured and has no endpoints, and
      every stored tunnel or session ID still reads the same. */
  lemma ClearedSpec(d: Dict)
    ensures Role(Cleared(d)) == Null && IpIran(Cleared(d)) == Null && IpKharej(Cleared(d)) == Null
    ensures ForwardedPorts(Cleared(d)) == IntList([])
    ensures !IsConfigured(Cleared(d))
    ensures LocalIp(Cleared(d)) == Null && RemoteIp(Cleared(d)) == Null
    ensures forall f :: GetOr(d, KeyName(f), Null) != Null ==> ResolveId(Cleared(d), f) == ResolveId(d, f)
  {
  }

  /** Clearing twice is the same as clearing once. */
  lemma ClearedIdempotent(d: Dict)
    ensures Cleared(Cleared(d)) == Cleared(d)
  {
  }

  /** Whether Python's `port in v` holds; defined where `in` accepts an
      integer on the left. */
  predicate Contains(v: Value, port: int)
  {
    match v
    case IntList(items) => port in items
    case PySet(ints, _) => port in ints
    case Mapping(intKeys, _) => port in intKeys
    case _ => false
  }

  /** The values on which `port in v` does not raise TypeError. */
  predicate SupportsIn(v: Value)
  {
    v.IntList? || v.PySet? || v.Mapping?
  }

  /** What a call does to the dictionary: its status, the dictionary after
      it, and whether it writes the file. */
  datatype Effect = Effect(status: Status, after: Dict, saves: bool)

  /** `add_port` on the dictionary `d`.  A list gets the port appended when
      it is missing; a set or mapping without it has no `append`. */
  function AddPortEffect(d: Dict, port: int): (e: Effect)
    ensures e.status == Done <==> ForwardedPorts(d).IntList? || (SupportsIn(ForwardedPorts(d)) && Contains(ForwardedPorts(d), port))
    ensures !SupportsIn(ForwardedPorts(d)) ==> e.status == Failed(TypeError)
    ensures SupportsIn(ForwardedPorts(d)) && e.status != Done ==> e.status == Failed(AttributeError)
    ensures e.status == Done ==> Contains(ForwardedPorts(e.after), port)
    ensures e.saves <==> ForwardedPorts(d).IntList? && port !in ForwardedPorts(d).items
    ensures !e.saves ==> e.after == d
    ensures e.saves ==> e.after == d["forwarded_ports" := IntList(AddedPort(ForwardedPorts(d).items, port))]
  {
    var ports := ForwardedPorts(d);
    if !SupportsIn(ports) then Effect(Failed(TypeError), d, false)
    else if Contains(ports, port) then Effect(Done, d, false)
    else if ports.IntList? then Effect(Done, d["forwarded_ports" := IntList(ports.items + [port])], true)
    else Effect(Failed(AttributeError), d, false)
  }

  /** `remove_port` on the dictionary `d`.  A list loses the first
      occurrence of the port and a set loses the port; a mapping holding it
      as a key has no `remove`. */
  function RemovePortEffect(d: Dict, port: int): (e: Effect)
    ensures e.status == Done <==> SupportsIn(ForwardedPorts(d)) && !(ForwardedPorts(d).Mapping? && Contains(ForwardedPorts(d), port))
    ensures !SupportsIn(ForwardedPorts(d)) ==> e.status == Failed(TypeError)
    ensures SupportsIn(ForwardedPorts(d)) && e.status != Done ==> e.status == Failed(AttributeError)
    ensures e.saves <==> e.status == Done && Contains(ForwardedPorts(d), port)
    ensures !e.saves ==> e.after == d
    ensures e.saves && ForwardedPorts(d).IntList? ==>
      e.after == d["forwarded_ports" := IntList(RemovedPort(ForwardedPorts(d).items, port))]
    ensures e.saves && ForwardedPorts(d).PySet? ==>
      e.after == d["forwarded_ports" := PySet(ForwardedPorts(d).ints - {port}, ForwardedPorts(d).hasOthers)]
    ensures e.status == Done && !ForwardedPorts(d).IntList? ==> !Contains(ForwardedPorts(e.after), port)
  {
    var ports := ForwardedPorts(d);
    if !SupportsIn(ports) then Effect(Failed(TypeError), d, false)
    else if !Contains(ports, port) then Effect(Done, d, false)
    else
      match ports
      case IntList(items) => Effect(Done, d["forwarded_ports" := IntList(RemovedPort(items, port))], true)
      case PySet(ints, hasOthers) => Effect(Done, d["forwarded_ports" := PySet(ints - {port}, hasOthers)], true)
      case _ => Effect(Failed(AttributeError), d, false)
  }

  /** On a duplicate-free port list, `remove_port` leaves the port absent. */
  lemma RemovePortFromDistinctList(d: Dict, port: int)
    requires ForwardedPorts(d).IntList? && Distinct(ForwardedPorts(d).items)
    ensures RemovePortEffect(d, port).status == Done
    ensures !Contains(ForwardedPorts(RemovePortEffect(d, port).after), port)
  {
    var ps := ForwardedPorts(d).items;
    RemovedPortFromDistinct(ps, port);
  }

  /** `add_port` twice in a row: the second call changes nothing and does not
      write the file. */
  lemma AddPortTwice(d: Dict, port: int)
    requires AddPortEffect(d, port).status == Done
    ensures AddPortEffect(AddPortEffect(d, port).after, port) == Effect(Done, AddPortEffect(d, port).after, false)
  {
  }

  /** `add_port` of a new port followed by `remove_port` of it restores the
      dictionary. */
  lemma RemoveUndoesAddPort(d: Dict, port: int)
    requires "forwarded_ports" in d && ForwardedPorts(d).IntList? && port !in ForwardedPorts(d).items
    ensures RemovePortEffect(AddPortEffect(d, port).after, port).after == d
  {
    RemoveUndoesAdd(ForwardedPorts(d).items, port);
  }

  class Config {
    /** `self._config`. */
    var entries: Dict
    /** The dictionary `_save` last wrote to the configuration file; `None`
        while this object has not written it. */
    var written: Option<Dict>

    /** Every default key is present from the load onwards; in particular
        the port list is stored, so `ForwardedPorts` reads the stored value. */
    ghost predicate Valid()
      reads this
      ensures Valid() ==> "forwarded_ports" in entries && ForwardedPorts(entries) == entries["forwarded_ports"]
      ensures Valid() ==> "role" in entries && "ip_iran" in entries && "ip_kharej" in entries
    {
      HasDefaultKeys(entries)
    }

    /** `__init__`: start from an empty dictionary and load. */
    constructor (file: ConfigFile)
      ensures Valid()
      ensures file.Loaded? ==> entries == WithDefaults(file.doc)
      ensures !file.Loaded? ==> entries == WithDefaults(map[])
      ensures written == None
    {
      entries := map[];
      written := None;
      new;
      Load(file);
    }

    /** `_load`: take the file's mapping (an empty one when it cannot be
        read), then insert every missing default key. */
    method Load(file: ConfigFile)
      modifies this
      ensures Valid()
      ensures file.Absent? ==> entries == WithDefaults(old(entries))
      ensures file.Broken? ==> entries == WithDefaults(map[])
      ensures file.Loaded? ==> entries == WithDefaults(file.doc)
      ensures written == old(written)
    {
      match file {
        case Absent =>
        case Broken => entries := map[];
        case Loaded(doc) => entries := doc;
      }
      entries := ApplyDefaults(entries);
      WithDefaultsExtends(entries);
    }

    /** `_save` and `save`: write the dictionary to the file. */
    method Save()
      modifies this
      ensures entries == old(entries)
      ensures written == Some(entries)
    {
      written := Some(entries);
    }

    /** The role setter: only IRAN, KHAREJ or `None`; anything else raises
        ValueError and changes nothing. */
    method SetRole(value: Value) returns (status: Status)
      requires Valid()
      modifies this
      ensures Valid()
      ensures status == Done <==> AcceptedRole(value)
      ensures status != Done ==> status == Failed(ValueError)
      ensures status == Done ==> entries == old(entries)["role" := value] && written == Some(entries)
      ensures status != Done ==> entries == old(entries) && written == old(written)
      ensures status == Done ==> Role(entries) == value
    {
      if !AcceptedRole(value) {
        return Failed(ValueError);
      }
      entries := entries["role" := value];
      Save();
      status := Done;
    }

    /** The setters of every other property: store the value as given and
        save. */
    method SetField(field: Field, value: Value)
      requires Valid()
      modifies this
      ensures Valid()
      ensures entries == old(entries)[FieldKey(field) := value]
      ensures written == Some(entries)
    {
      entries := entries[FieldKey(field) := value];
      Save();
    }

    /** `add_port`: append the port when it is not listed yet. */
    method AddPort(port: int) returns (status: Status)
      requires Valid()
      modifies this
      ensures Valid()
      ensures status == AddPortEffect(old(entries), port).status
      ensures entries == AddPortEffect(old(entries), port).after
      ensures written == if AddPortEffect(old(entries), port).saves then Some(entries) else old(written)
    {
      var ports := ForwardedPorts(entries);
      if !SupportsIn(ports) {
        return Failed(TypeError);
      }
      if !Contains(ports, port) {
        if !ports.IntList? {
          return Failed(AttributeError);
        }
        SetField(ForwardedPortsField, IntList(ports.items + [port]));
      }
      status := Done;
    }

    /** `remove_port`: drop the first occurrence of the port, if any. */
    method RemovePort(port: int) returns (status: Status)
      requires Valid()
      modifies this
      ensures Valid()
      ensures status == RemovePortEffect(old(entries), port).status
      ensures entries == RemovePortEffect(old(entries), port).after
      ensures written == if RemovePortEffect(old(entries), port).saves then Some(entries) else old(written)
    {
      var ports := ForwardedPorts(entries);
      if !SupportsIn(ports) {
        return Failed(TypeError);
      }
      if Contains(ports, port) {
        match ports {
          case IntList(items) =>
            SetField(ForwardedPortsField, IntList(RemovedPort(items, port)));
          case PySet(ints, hasOthers) =>
            SetField(ForwardedPortsField, PySet(ints - {port}, hasOthers));
          case Mapping(_, _) =>
            return Failed(AttributeError);
        }
      }
      status := Done;
    }

    /** `clear_all`. */
    method ClearAll()
      requires Valid()
      modifies this
      ensures Valid()
      ensures entries == Cleared(old(entries))
      ensures written == Some(entries)
      ensures !IsConfigured(entries)
    {
      entries := entries["role" := Null];
      entries := entries["ip_iran" := Null];
      entries := entries["ip_kharej" := Null];
      entries := entries["forwarded_ports" := IntList([])];
      Save();
      ClearedSpec(old(entries));
    }
  }
}
