/** The read-only properties of the configuration: each is a function of
    the dictionary, `self._config`. */
module ConfigLookups {
  import opened PyValues
  import opened ConfigDefaults

  /* The property getters.  Each reads its key and, when the key is missing,
     falls back to a value of its own, which agrees with the key's entry in
     the default configuration. */

  function Role(d: Dict): (r: Value)
    ensures "role" in d ==> r == d["role"]
    ensures "role" !in d ==> r == DEFAULTS["role"]
  {
    GetOr(d, "role", Null)
  }

  function IpIran(d: Dict): (r: Value)
    ensures "ip_iran" in d ==> r == d["ip_iran"]
    ensures "ip_iran" !in d ==> r == DEFAULTS["ip_iran"]
  {
    GetOr(d, "ip_iran", Null)
  }

  function IpKharej(d: Dict): (r: Value)
    ensures "ip_kharej" in d ==> r == d["ip_kharej"]
    ensures "ip_kharej" !in d ==> r == DEFAULTS["ip_kharej"]
  {
    GetOr(d, "ip_kharej", Null)
  }

  function IranIfaceIp(d: Dict): (r: Value)
    ensures "iran_iface_ip" in d ==> r == d["iran_iface_ip"]
    ensures "iran_iface_ip" !in d ==> r == DEFAULTS["iran_iface_ip"]
  {
    GetOr(d, "iran_iface_ip", Str("10.30.30.1"))
  }

  function KharejIfaceIp(d: Dict): (r: Value)
    ensures "kharej_iface_ip" in d ==> r == d["kharej_iface_ip"]
    ensures "kharej_iface_ip" !in d ==> r == DEFAULTS["kharej_iface_ip"]
  {
    GetOr(d, "kharej_iface_ip", Str("10.30.30.2"))
  }

  function RemoteForwardIp(d: Dict): (r: Value)
    ensures "remote_forward_ip" in d ==> r == d["remote_forward_ip"]
    ensures "remote_forward_ip" !in d ==> r == DEFAULTS["remote_forward_ip"]
  {
    GetOr(d, "remote_forward_ip", Str("10.30.30.2"))
  }

  function ForwardedPorts(d: Dict): (r: Value)
    ensures "forwarded_ports" in d ==> r == d["forwarded_ports"]
    ensures "forwarded_ports" !in d ==> r == DEFAULTS["forwarded_ports"]
  {
    GetOr(d, "forwarded_ports", IntList([]))
  }


  /** A role for which the role table has an entry. */
  predicate KnownRole(role: Value)
  {
    role == Str(IRAN) || role == Str(KHAREJ)
  }

  /** The four tunnel and session IDs. */
  datatype IdField = TunnelId | PeerTunnelId | SessionId | PeerSessionId

  function KeyName(f: IdField): string
  {
    match f
    case TunnelId => "tunnel_id"
    case PeerTunnelId => "peer_tunnel_id"
    case SessionId => "session_id"
    case PeerSessionId => "peer_session_id"
  }

  const IdKeys: set<string> := {"tunnel_id", "peer_tunnel_id", "session_id", "peer_session_id"}

  /** The constant a getter returns when neither the dictionary nor the role
      table supplies a value. */
  function UltimateFallback(f: IdField): int
  {
    match f
    case TunnelId => 1000
    case PeerTunnelId => 2000
    case SessionId => 10
    case PeerSessionId => 20
  }

  /** The same ID seen from the other end of the tunnel. */
  function Peer(f: IdField): IdField
  {
    match f
    case TunnelId => PeerTunnelId
    case PeerTunnelId => TunnelId
    case SessionId => PeerSessionId
    case PeerSessionId => SessionId
  }

  /** `ROLE_TUNNEL_DEFAULTS[role][key]`. */
  function RoleDefault(role: string, f: IdField): int
    requires role in ROLE_TUNNEL_DEFAULTS
  {
    ROLE_TUNNEL_DEFAULTS[role][KeyName(f)]
  }

  /** The ID getters (`tunnel_id`, `peer_tunnel_id`, `session_id`,
      `peer_session_id`): the stored value unless it is `None`, then the
      role's default, then a constant.  Testing `role in ROLE_TUNNEL_DEFAULTS`
      raises TypeError for a truthy role that cannot be hashed. */
  function ResolveId(d: Dict, f: IdField): (r: Outcome<Value>)
    ensures r.Raised? <==> GetOr(d, KeyName(f), Null) == Null && Truthy(Role(d)) && !Hashable(Role(d))
    ensures r.Raised? ==> r.failure == TypeError
    ensures r.Ok? ==> r.value != Null
    ensures GetOr(d, KeyName(f), Null) != Null ==> r == Ok(d[KeyName(f)])
  {
    var stored := GetOr(d, KeyName(f), Null);
    if stored != Null then Ok(stored)
    else
      var role := Role(d);
      if !Truthy(role) then Ok(Int(UltimateFallback(f)))
      else if !Hashable(role) then Raised(TypeError)
      else if role.Str? && role.s in ROLE_TUNNEL_DEFAULTS then Ok(Int(RoleDefault(role.s, f)))
      else Ok(Int(UltimateFallback(f)))
  }

  /** An explicit ID is used even when it is falsy, such as 0. */
  lemma ExplicitZeroIdKept(d: Dict, f: IdField)
    requires KeyName(f) in d && d[KeyName(f)] == Int(0)
    ensures ResolveId(d, f) == Ok(Int(0))
  {
  }

  /** With no stored ID, a known role supplies its table entry. */
  lemma RoleDefaultApplies(d: Dict, f: IdField)
    requires GetOr(d, KeyName(f), Null) == Null && KnownRole(Role(d))
    ensures ResolveId(d, f) == Ok(Int(RoleDefault(Role(d).s, f)))
  {
  }

  /** With no stored ID and no usable role (none, empty, or a value the table
      does not know, such as one loaded from a hand-edited file), the
      constant is used. */
  lemma UltimateFallbackApplies(d: Dict, f: IdField)
    requires GetOr(d, KeyName(f), Null) == Null
    requires !KnownRole(Role(d)) && (Hashable(Role(d)) || !Truthy(Role(d)))
    ensures ResolveId(d, f) == Ok(Int(UltimateFallback(f)))
  {
  }

  /** No stored tunnel or session ID. */
  ghost predicate NoExplicitIds(d: Dict)
  {
    forall f :: GetOr(d, KeyName(f), Null) == Null
  }

  /** Two ends configured only by role agree on the tunnel: each side's local
      IDs are the other side's peer IDs. */
  lemma MirroredEndpointIds(iran: Dict, kharej: Dict, f: IdField)
    requires NoExplicitIds(iran) && Role(iran) == Str(IRAN)
    requires NoExplicitIds(kharej) && Role(kharej) == Str(KHAREJ)
    ensures ResolveId(iran, f) == ResolveId(kharej, Peer(f))
    ensures ResolveId(iran, f).Ok?
  {
    assert GetOr(iran, KeyName(f), Null) == Null;
    assert GetOr(kharej, KeyName(Peer(f)), Null) == Null;
    RoleDefaultsMirrored();
  }

  /** A side with no role and no stored IDs uses the same IDs as IRAN. */
  lemma UnsetRoleActsAsIran(unset: Dict, iran: Dict, f: IdField)
    requires NoExplicitIds(unset) && Role(unset) == Null
    requires NoExplicitIds(iran) && Role(iran) == Str(IRAN)
    ensures ResolveId(unset, f) == ResolveId(iran, f)
  {
    assert GetOr(unset, KeyName(f), Null) == Null;
    assert GetOr(iran, KeyName(f), Null) == Null;
  }

  /** `get_tunnel_ids`: the four getters' results under their own key names,
      raising whatever the first failing getter raises. */
  function GetTunnelIds(d: Dict): (r: Outcome<map<string, Value>>)
    ensures r.Ok? <==> forall f :: ResolveId(d, f).Ok?
    ensures r.Raised? ==> r.failure == TypeError
    ensures r.Ok? ==> r.value.Keys == IdKeys && forall f :: KeyName(f) in r.value && r.value[KeyName(f)] == ResolveId(d, f).value
  {
    var t := ResolveId(d, TunnelId);
    var p := ResolveId(d, PeerTunnelId);
    var s := ResolveId(d, SessionId);
    var ps := ResolveId(d, PeerSessionId);
    if t.Raised? then Raised(t.failure)
    else if p.Raised? then Raised(p.failure)
    else if s.Raised? then Raised(s.failure)
    else if ps.Raised? then Raised(ps.failure)
    else
      var ids := map[
        "tunnel_id" := t.value,
        "peer_tunnel_id" := p.value,
        "session_id" := s.value,
        "peer_session_id" := ps.value
      ];
      Ok(ids)
  }

  /** `is_configured`: role and both peer addresses are all set, that is
      none of them is `None` or empty. */
  predicate IsConfigured(d: Dict)
    ensures Role(d) == Null || IpIran(d) == Null || IpKharej(d) == Null ==> !IsConfigured(d)
    ensures Role(d) == Str("") || IpIran(d) == Str("") || IpKharej(d) == Str("") ==> !IsConfigured(d)
    ensures Role(d).Str? && IpIran(d).Str? && IpKharej(d).Str? ==>
      (IsConfigured(d) <==> Role(d).s != "" && IpIran(d).s != "" && IpKharej(d).s != "")
  {
    Truthy(Role(d)) && Truthy(IpIran(d)) && Truthy(IpKharej(d))
  }

  /** `get_local_ip`: this node's own address, by role. */
  function LocalIp(d: Dict): (r: Value)
    ensures Role(d) == Str(IRAN) ==> r == IpIran(d)
    ensures Role(d) == Str(KHAREJ) ==> r == IpKharej(d)
    ensures !KnownRole(Role(d)) ==> r == Null
  {
    if Role(d) == Str(IRAN) then IpIran(d)
    else if Role(d) == Str(KHAREJ) then IpKharej(d)
    else Null
  }

  /** `get_remote_ip`: the other end's address, by role. */
  function RemoteIp(d: Dict): (r: Value)
    ensures Role(d) == Str(IRAN) ==> r == IpKharej(d)
    ensures Role(d) == Str(KHAREJ) ==> r == IpIran(d)
    ensures !KnownRole(Role(d)) ==> r == Null
  {
    if Role(d) == Str(IRAN) then IpKharej(d)
    else if Role(d) == Str(KHAREJ) then IpIran(d)
    else Null
  }

  /** The two ends of one tunnel, sharing both addresses, see each other's
      local address as their remote one. */
  lemma EndpointsSwapWithRole(iran: Dict, kharej: Dict)
    requires Role(iran) == Str(IRAN) && Role(kharej) == Str(KHAREJ)
    requires IpIran(iran) == IpIran(kharej) && IpKharej(iran) == IpKharej(kharej)
    ensures LocalIp(iran) == RemoteIp(kharej) && RemoteIp(iran) == LocalIp(kharej)
    ensures LocalIp(iran) == IpIran(iran) && LocalIp(kharej) == IpKharej(kharej)
  {
  }

  /** Under a known role, local and remote are the two peer addresses, one
      each; under any other role neither is known. */
  lemma EndpointsCoverPeers(d: Dict)
    ensures KnownRole(Role(d)) ==> multiset{LocalIp(d), RemoteIp(d)} == multiset{IpIran(d), IpKharej(d)}
    ensures !KnownRole(Role(d)) ==> LocalIp(d) == Null && RemoteIp(d) == Null
  {
  }

  /** A configured node with a known role has both endpoints set. */
  lemma ConfiguredHasEndpoints(d: Dict)
    requires IsConfigured(d) && KnownRole(Role(d))
    ensures Truthy(LocalIp(d)) && Truthy(RemoteIp(d))
  {
  }

  /** `is_configured` does not check the role against the table: a role
      loaded from the file that is neither IRAN nor KHAREJ still counts as
      configured, with no local or remote address. */
  lemma ConfiguredWithUnknownRole(d: Dict)
    requires Truthy(Role(d)) && !KnownRole(Role(d)) && Truthy(IpIran(d)) && Truthy(IpKharej(d))
    ensures IsConfigured(d) && LocalIp(d) == Null && RemoteIp(d) == Null
  {
  }

  /** Every getter reads the same before and after defaults are filled in:
      the getters' own fallbacks agree with the default configuration. */
  lemma LoadPreservesReads(loaded: Dict)
    ensures Role(WithDefaults(loaded)) == Role(loaded)
    ensures IpIran(WithDefaults(loaded)) == IpIran(loaded)
    ensures IpKharej(WithDefaults(loaded)) == IpKharej(loaded)
    ensures IranIfaceIp(WithDefaults(loaded)) == IranIfaceIp(loaded)
    ensures KharejIfaceIp(WithDefaults(loaded)) == KharejIfaceIp(loaded)
    ensures RemoteForwardIp(WithDefaults(loaded)) == RemoteForwardIp(loaded)
    ensures ForwardedPorts(WithDefaults(loaded)) == ForwardedPorts(loaded)
    ensures forall f :: ResolveId(WithDefaults(loaded), f) == ResolveId(loaded, f)
  {
    forall f ensures ResolveId(WithDefaults(loaded), f) == ResolveId(loaded, f) {
      assert GetOr(WithDefaults(loaded), KeyName(f), Null) == GetOr(loaded, KeyName(f), Null);
    }
  }

  /** A fresh install (no file) reads as the documented defaults. */
  lemma FreshInstallReads()
    ensures Role(WithDefaults(map[])) == Null
    ensures IranIfaceIp(WithDefaults(map[])) == Str("10.30.30.1")
    ensures KharejIfaceIp(WithDefaults(map[])) == Str("10.30.30.2")
    ensures ForwardedPorts(WithDefaults(map[])) == IntList([])
    ensures !IsConfigured(WithDefaults(map[]))
    ensures forall f :: ResolveId(WithDefaults(map[]), f) == Ok(Int(UltimateFallback(f)))
  {
    var d := WithDefaults(map[]);
    assert d == DEFAULTS;
    forall f ensures ResolveId(d, f) == Ok(Int(UltimateFallback(f))) {
      assert KeyName(f) in DEFAULTS;
    }
  }

  /** With no file, `get_tunnel_ids` yields 1000, 2000, 10 and 20. */
  lemma FreshInstallIds()
    ensures GetTunnelIds(WithDefaults(map[])) == Ok(map["tunnel_id" := Int(1000), "peer_tunnel_id" := Int(2000), "session_id" := Int(10), "peer_session_id" := Int(20)])
  {
    FreshInstallReads();
    var d := WithDefaults(map[]);
    assert ResolveId(d, TunnelId) == Ok(Int(1000));
    assert ResolveId(d, PeerTunnelId) == Ok(Int(2000));
    assert ResolveId(d, SessionId) == Ok(Int(10));
    assert ResolveId(d, PeerSessionId) == Ok(Int(20));
  }
}
