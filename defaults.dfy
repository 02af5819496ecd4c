/** The default configuration and the role-based tunnel ID table, and the
    filling-in of missing keys that loading performs. */
module ConfigDefaults {
  import opened PyValues

  const IRAN := "IRAN"
  const KHAREJ := "KHAREJ"

  /** The keys of the default configuration, in the order of its literal. */
  const DefaultKeys: seq<string> := [
    "version", "role", "ip_iran", "ip_kharej", "iran_iface_ip",
    "kharej_iface_ip", "remote_forward_ip", "forwarded_ports",
    "tunnel_id", "peer_tunnel_id", "session_id", "peer_session_id"
  ]

  /** `Config.DEFAULTS`. */
  const DEFAULTS: Dict := map[
    "version" := Str("1.0.0"),
    "role" := Null,
    "ip_iran" := Null,
    "ip_kharej" := Null,
    "iran_iface_ip" := Str("10.30.30.1"),
    "kharej_iface_ip" := Str("10.30.30.2"),
    "remote_forward_ip" := Str("10.30.30.2"),
    "forwarded_ports" := IntList([]),
    "tunnel_id" := Null,
    "peer_tunnel_id" := Null,
    "session_id" := Null,
    "peer_session_id" := Null
  ]

  /** `Config.ROLE_TUNNEL_DEFAULTS`. */
  const ROLE_TUNNEL_DEFAULTS: map<string, map<string, int>> := map[
    IRAN := map[
      "tunnel_id" := 1000,
      "peer_tunnel_id" := 2000,
      "session_id" := 10,
      "peer_session_id" := 20
    ],
    KHAREJ := map[
      "tunnel_id" := 2000,
      "peer_tunnel_id" := 1000,
      "session_id" := 20,
      "peer_session_id" := 10
    ]
  ]

  /** The key list enumerates exactly the keys of the default configuration. */
  lemma DefaultKeysAreDefaults()
    ensures forall k :: k in DEFAULTS <==> k in DefaultKeys
  {
  }

  /** The dictionary a load leaves behind: every key of the loaded one with
      its loaded value (even `None`), and every other default key with its
      default value. */
  function WithDefaults(loaded: Dict): (r: Dict)
    ensures forall k :: k in r <==> k in loaded || k in DEFAULTS
    ensures forall k :: k in loaded ==> r[k] == loaded[k]
    ensures forall k :: k in DEFAULTS && k !in loaded ==> r[k] == DEFAULTS[k]
  {
    DEFAULTS + loaded
  }

  /** A dictionary holding every default key: the state every `Config`
      object keeps from its load onwards. */
  ghost predicate HasDefaultKeys(d: Dict)
  {
    forall k :: k in DEFAULTS ==> k in d
  }

  /** The loop of `_load` that inserts each missing default key in turn. */
  method ApplyDefaults(loaded: Dict) returns (config: Dict)
    ensures config == WithDefaults(loaded)
  {
    DefaultKeysAreDefaults();
    config := loaded;
    for i := 0 to |DefaultKeys|
      invariant forall k :: k in config <==> k in loaded || k in DefaultKeys[..i]
      invariant forall k :: k in config ==> config[k] == WithDefaults(loaded)[k]
    {
      var key := DefaultKeys[i];
      if key !in config {
        config := config[key := DEFAULTS[key]];
      }
      assert DefaultKeys[..i + 1] == DefaultKeys[..i] + [key];
    }
    assert DefaultKeys[..|DefaultKeys|] == DefaultKeys;
  }

  /** Loading twice fills in nothing new. */
  lemma WithDefaultsIdempotent(loaded: Dict)
    ensures WithDefaults(WithDefaults(loaded)) == WithDefaults(loaded)
  {
  }

  /** Filling in defaults never drops or changes a loaded key. */
  lemma WithDefaultsExtends(loaded: Dict)
    ensures HasDefaultKeys(WithDefaults(loaded))
    ensures loaded.Keys <= WithDefaults(loaded).Keys
  {
  }

  /** The two role tables are mirror images: each side's local tunnel and
      session IDs are the other side's peer IDs. */
  lemma RoleDefaultsMirrored()
    ensures ROLE_TUNNEL_DEFAULTS[IRAN]["tunnel_id"] == ROLE_TUNNEL_DEFAULTS[KHAREJ]["peer_tunnel_id"]
    ensures ROLE_TUNNEL_DEFAULTS[IRAN]["peer_tunnel_id"] == ROLE_TUNNEL_DEFAULTS[KHAREJ]["tunnel_id"]
    ensures ROLE_TUNNEL_DEFAULTS[IRAN]["session_id"] == ROLE_TUNNEL_DEFAULTS[KHAREJ]["peer_session_id"]
    ensures ROLE_TUNNEL_DEFAULTS[IRAN]["peer_session_id"] == ROLE_TUNNEL_DEFAULTS[KHAREJ]["session_id"]
  {
  }
}
