# VortexL2 configuration store, modelled in Dafny

VortexL2 keeps its tunnel configuration in `/etc/vortexl2/config.yaml`. The
`Config` class loads that file into an in-memory dictionary and fills in
every missing key from `DEFAULTS`. Its properties read and write single keys.
Each setter saves the whole dictionary back to the file.

- The role setter accepts only `IRAN`, `KHAREJ` or `None`.
- The four tunnel/session ID getters fall back in three steps: the stored
  value, then the role's entry in `ROLE_TUNNEL_DEFAULTS`, then a constant.
- `add_port` and `remove_port` edit the list of forwarded ports.
- `clear_all` forgets the role, both peer addresses and the ports.
- `get_local_ip` and `get_remote_ip` pick between the two peer addresses by
  role.

The model is split into five modules:

- `PyValues` (values.dfy) covers the values a YAML document can put in the
  dictionary (`None`, bools, ints, strings, integer lists, sets, mappings and
  an opaque rest) and the Python behaviours of them that the code relies on:
  - truthiness (`Truthy`);
  - whether a value can be hashed (`Hashable`);
  - `dict.get` with a default (`GetOr`).

  The raised exceptions are values: `Outcome` for a getter and `Status` for
  a setter.
- `ConfigDefaults` (defaults.dfy) holds `DEFAULTS`, `ROLE_TUNNEL_DEFAULTS`
  and the default-filling loop of `_load`. `ApplyDefaults` keeps the loop as
  a `for` loop over the keys in the dictionary literal's order. It is proved
  equal to `WithDefaults`, which is Dafny's right-biased map union
  `DEFAULTS + loaded`.
- `ConfigLookups` (lookups.dfy) holds every getter as a function of the
  dictionary. Each getter's own fallback for a missing key is proved to agree
  with `DEFAULTS`. This covers `role`, `ip_iran`, `ip_kharej`, `iran_iface_ip`,
  `kharej_iface_ip`, `remote_forward_ip`, `forwarded_ports`, the four ID
  getters (`ResolveId` with an `IdField` selector), `get_tunnel_ids`,
  `is_configured`, `get_local_ip` and `get_remote_ip`.
- `PortList` (ports.dfy) gives the list edits of `add_port` and
  `remove_port` as functions of the list before the call.
- `VortexConfig` (config.dfy) holds the class `Config`.
  - `entries` is the dictionary (`self._config`).
  - `written` is the dictionary that `_save` last wrote. It stands for the
    file's contents after a save.
  - Each method states the whole new state. This includes when the file is
    written and when it is not.
  - The ten setters that store a value without checking it are one method,
    `SetField`. A `Field` selector names the key.

Each ID getter returns whatever non-`None` value is stored under its key,
0 included. The source annotates these getters with `-> int` but does not
check the value, so the model returns a `Value`.

The role lookup `role in ROLE_TUNNEL_DEFAULTS` can raise TypeError. This
happens when the role loaded from the file is truthy but cannot be hashed
(a non-empty list, a non-empty set or a non-empty mapping). The model returns
that error.

What `add_port` and `remove_port` do depends on the stored
`forwarded_ports` value. `AddPortEffect` and `RemovePortEffect` describe
each call's effect on the dictionary, including whether it writes the file.

- A `None`, bool, number, string or timestamp makes the `in` test raise
  TypeError.
- A set or a mapping supports `in`.
  - `add_port` of a port it lacks raises AttributeError, because neither
    has `append`.
  - `remove_port` removes a port from a set and saves.
  - `remove_port` of a port that is a mapping key raises AttributeError.
  - A call that finds nothing to do returns normally.

## Model

| member | source | states |
|---|---|---|
| ConfigDefaults.WithDefaults | vortexl2/config.py:69-72 | after loading, every key of `DEFAULTS` is present; every loaded key keeps its loaded value, even `None`; the other keys take their default value |
| ConfigDefaults.ApplyDefaults | vortexl2/config.py:69-72 | the loop that inserts each missing default key in turn yields exactly `WithDefaults` of the loaded dictionary |
| ConfigDefaults.DefaultKeysAreDefaults | vortexl2/config.py:24-38 | the loop's key list enumerates exactly the keys of `DEFAULTS` |
| ConfigDefaults.WithDefaultsIdempotent | vortexl2/config.py:69-72 | filling in defaults a second time changes nothing |
| ConfigDefaults.WithDefaultsExtends | vortexl2/config.py:69-72 | the filled dictionary holds every default key and never drops a loaded key |
| ConfigDefaults.RoleDefaultsMirrored | vortexl2/config.py:41-54 | IRAN's tunnel and session IDs are KHAREJ's peer IDs and vice versa |
| ConfigLookups.Role | vortexl2/config.py:91-93 | `role` reads the stored role; a missing key reads as `None`, the default |
| ConfigLookups.IpIran | vortexl2/config.py:102-104 | `ip_iran` reads the stored address; a missing key reads as `None`, the default |
| ConfigLookups.IpKharej | vortexl2/config.py:111-113 | `ip_kharej` reads the stored address; a missing key reads as `None`, the default |
| ConfigLookups.IranIfaceIp | vortexl2/config.py:120-122 | `iran_iface_ip` reads the stored value; a missing key reads as the default `10.30.30.1` |
| ConfigLookups.KharejIfaceIp | vortexl2/config.py:129-131 | `kharej_iface_ip` reads the stored value; a missing key reads as the default `10.30.30.2` |
| ConfigLookups.RemoteForwardIp | vortexl2/config.py:138-140 | `remote_forward_ip` reads the stored value; a missing key reads as the default `10.30.30.2` |
| ConfigLookups.ForwardedPorts | vortexl2/config.py:147-149 | `forwarded_ports` reads the stored value; a missing key reads as the default empty list |
| ConfigLookups.ResolveId | vortexl2/config.py:156-213 | an ID getter returns the stored value whenever it is not `None`; it never returns `None`; it raises only TypeError, and exactly when no ID is stored and the role is truthy but unhashable |
| ConfigLookups.ExplicitZeroIdKept | vortexl2/config.py:159-161 | a stored ID of 0 is returned as is, not replaced by a default |
| ConfigLookups.RoleDefaultApplies | vortexl2/config.py:162-164 | with no stored ID and role IRAN or KHAREJ, the getter returns that role's table entry |
| ConfigLookups.UltimateFallbackApplies | vortexl2/config.py:162-165 | with no stored ID and a missing, empty or unknown role, the getter returns 1000, 2000, 10 or 20 |
| ConfigLookups.MirroredEndpointIds | vortexl2/config.py:156-213 | an IRAN node and a KHAREJ node with no stored IDs agree: each side's tunnel/session ID is the other's peer ID, and no getter raises |
| ConfigLookups.UnsetRoleActsAsIran | vortexl2/config.py:156-213 | with no role and no stored IDs, the getters return the same IDs as an IRAN node |
| ConfigLookups.GetTunnelIds | vortexl2/config.py:220-227 | the result has exactly the four ID keys, each holding its getter's result; it raises TypeError exactly when some getter raises |
| ConfigLookups.IsConfigured | vortexl2/config.py:251-257 | a node with a `None` or empty role, `ip_iran` or `ip_kharej` is not configured; when all three are strings, it is configured exactly when none is empty |
| ConfigLookups.LocalIp | vortexl2/config.py:259-265 | the local address is `ip_iran` for IRAN and `ip_kharej` for KHAREJ; for any other role it is `None` |
| ConfigLookups.RemoteIp | vortexl2/config.py:267-273 | the remote address is `ip_kharej` for IRAN and `ip_iran` for KHAREJ; for any other role it is `None` |
| ConfigLookups.EndpointsSwapWithRole | vortexl2/config.py:259-273 | for an IRAN node and a KHAREJ node sharing both addresses, each one's local address is the other's remote address; IRAN's local address is `ip_iran` |
| ConfigLookups.EndpointsCoverPeers | vortexl2/config.py:259-273 | under a known role, local and remote are the two peer addresses, one each; under any other role both are `None` |
| ConfigLookups.ConfiguredHasEndpoints | vortexl2/config.py:251-273 | a configured node with a known role has a truthy local and a truthy remote address |
| ConfigLookups.ConfiguredWithUnknownRole | vortexl2/config.py:251-273 | any truthy role outside the table, with both addresses truthy, counts as configured, yet has no local or remote address |
| ConfigLookups.LoadPreservesReads | vortexl2/config.py:102-213 | every getter reads the same value before and after defaults are filled in, so the getters' own `.get` fallbacks agree with `DEFAULTS` |
| ConfigLookups.FreshInstallReads | vortexl2/config.py:24-54 | with no file, the role is `None`, every ID getter falls back to its constant, the interface addresses are the documented defaults, the port list is empty and the node is not configured |
| ConfigLookups.FreshInstallIds | vortexl2/config.py:220-227 | with no file, `get_tunnel_ids` yields 1000, 2000, 10 and 20 |
| PortList.AddedPort | vortexl2/config.py:229-234 | afterwards the port is listed; the old list is an unchanged prefix; the list grows by one exactly when the port was absent; no other element appears |
| PortList.AddedPortIdempotent | vortexl2/config.py:229-234 | adding the same port twice equals adding it once |
| PortList.AddedPortKeepsDistinct | vortexl2/config.py:229-234 | a duplicate-free list stays duplicate-free |
| PortList.RemovedPort | vortexl2/config.py:236-241 | an absent port leaves the list unchanged; a present one shortens it by one |
| PortList.RemovedPortMultiset | vortexl2/config.py:236-241 | removal takes away exactly one copy of the port and nothing else |
| PortList.RemovedPortCutsFirst | vortexl2/config.py:236-241 | removal cuts out exactly the first occurrence and keeps the other elements in order |
| PortList.RemovedPortFromDistinct | vortexl2/config.py:236-241 | on a duplicate-free list the port is absent afterwards and the list stays duplicate-free |
| PortList.RemovedPortKeepsOtherCopies | vortexl2/config.py:236-241 | on a list holding the port twice or more, the port is still listed afterwards |
| PortList.RemoveUndoesAdd | vortexl2/config.py:229-241 | adding a port that was absent and then removing it restores the original list |
| VortexConfig.AcceptedRole | vortexl2/config.py:97-98 | the role setter accepts exactly `None` and the roles that the role table has an entry for |
| VortexConfig.Cleared | vortexl2/config.py:243-249 | `clear_all` sets role and both peer addresses to `None` and the ports to an empty list; every other key keeps its value |
| VortexConfig.ClearedSpec | vortexl2/config.py:243-257 | after `clear_all` the node is unconfigured and has no endpoints, and every stored tunnel or session ID reads the same |
| VortexConfig.AddPortEffect | vortexl2/config.py:229-234 | `add_port` succeeds exactly on a list, or on a set or mapping already holding the port, and the port is then held; it writes the file exactly when it appends to a list, giving `AddedPort`; otherwise the dictionary is unchanged; a value without `in` raises TypeError, a set or mapping lacking the port raises AttributeError |
| VortexConfig.AddPortTwice | vortexl2/config.py:229-234 | after a successful `add_port`, a second call with the same port succeeds, changes nothing and does not write |
| VortexConfig.RemovePortEffect | vortexl2/config.py:236-241 | `remove_port` writes the file exactly when it succeeds on a value holding the port; a list becomes `RemovedPort` of it, a set loses the port; a value without `in` raises TypeError, a mapping with the port as key raises AttributeError; otherwise nothing changes |
| VortexConfig.RemovePortFromDistinctList | vortexl2/config.py:236-241 | on a duplicate-free port list, `remove_port` succeeds and the port is absent afterwards |
| VortexConfig.RemoveUndoesAddPort | vortexl2/config.py:229-241 | adding a port a stored list lacks and then removing it restores the dictionary |
| VortexConfig.ClearedIdempotent | vortexl2/config.py:243-249 | clearing twice is clearing once |
| VortexConfig.Config.Valid | vortexl2/config.py:69-72 | from the load onwards every default key is stored, so the port list, the role and both peer addresses are read from stored keys |
| VortexConfig.Config.constructor | vortexl2/config.py:56-58 | a new object holds the file's dictionary with defaults filled in and has not written the file |
| VortexConfig.Config.Load | vortexl2/config.py:60-72 | a missing file keeps the current dictionary; an unreadable file yields an empty one; a parsed mapping replaces it; the result then has defaults filled in |
| VortexConfig.Config.Save | vortexl2/config.py:75-89 | the file holds the current dictionary, which is unchanged |
| VortexConfig.Config.SetRole | vortexl2/config.py:95-100 | IRAN, KHAREJ and `None` are stored and saved; any other value raises ValueError and changes neither the dictionary nor the file |
| VortexConfig.Config.SetField | vortexl2/config.py:106-218 | the plain setters store the value under their key, change no other key, and save |
| VortexConfig.Config.AddPort | vortexl2/config.py:229-234 | status, new dictionary and file write are those of `AddPortEffect` on the old dictionary |
| VortexConfig.Config.RemovePort | vortexl2/config.py:236-241 | status, new dictionary and file write are those of `RemovePortEffect` on the old dictionary |
| VortexConfig.Config.ClearAll | vortexl2/config.py:243-249 | the dictionary becomes `Cleared` of the old one and is saved; afterwards `is_configured` is false |

## Left out

- Reading and writing the file are not modelled. That covers YAML parsing and
  dumping, the existence check, creating the directory and `chmod 0o600`
  (vortexl2/config.py:62-67, 75-85). The file's parsed
  content is a constructor parameter (`ConfigFile`). Writing it is the
  assignment of `written`. Errors raised while writing are not modelled.
- YAML documents whose top level is not a mapping are not modelled, nor
  mappings with non-string keys.
  - A falsy top level (`[]`, `0`, `""`, `false`) becomes `{}` through
    `or {}` (vortexl2/config.py:65). `Loaded(map[])` already models that.
  - The defaults loop (vortexl2/config.py:70-72) runs outside the `try`
    (vortexl2/config.py:63-67). A truthy top level that is not a mapping
    therefore makes `_load` itself raise, and `Config()` with it. A file
    holding `42` raises TypeError at `"version" not in 42`. A file holding
    `- 80` raises TypeError at `[80]["version"] = ...`.
  - Only a list, string or set that contains all twelve key names is kept
    as the non-dictionary value.
- AddPortEffect: a stored list that holds non-integers is an `Opaque` value.
  On it the model raises TypeError. Python's `in` on a list never raises:
  it compares elements with `==`. For example, with `forwarded_ports:
  ["443"]`, `add_port(80)` appends the port and saves.
- RemovePortEffect: on a stored list holding non-integers the model raises
  TypeError. Python always returns normally; it removes the first element
  equal to the port, if there is one.
- Config.AddPort: inherits the `AddPortEffect` gap for lists holding
  non-integers.
- Config.RemovePort: inherits the `RemovePortEffect` gap for lists holding
  non-integers.
- Sets and mappings are recorded by their integer elements or keys.
  Elements or keys of other types never equal a port in the model. Python's
  `True == 1` and `80.0 == 80` are not modelled for them.
- Opaque values are not modelled exactly. A value other than `None`, a bool,
  an int, a string, a list of ints, a set or a mapping keeps only its
  truthiness and whether it can be hashed. Examples are a float, a
  timestamp, a list holding non-integers, or `!!binary` bytes. For the list
  and the bytes this loses behaviour, because both support `in` (see
  AddPortEffect and RemovePortEffect above).
- In-place list mutation and the aliasing it causes are not modelled.
  `add_port` and `remove_port` first change the list object held in the
  dictionary (`append`, `remove`), then store it back. The model only
  captures the net effect on the dictionary.
- Sharing of the default port list is not modelled. When the file has no
  `forwarded_ports` key, `_load` stores the class-level list
  `Config.DEFAULTS["forwarded_ports"]` itself (vortexl2/config.py:32,
  70-72). A later `add_port` appends to that shared list in place
  (vortexl2/config.py:231-233). This changes `DEFAULTS` for the rest of the
  process, and with it every `Config` object that loaded without the key.
  Example: with no file, `a = Config(); b = Config(); a.add_port(443)`
  leaves `b.forwarded_ports == [443]`. Every later `Config()` that loads
  without the key also starts with `[443]`. The model keeps `DEFAULTS`
  constant, so the following hold only while that shared list is
  untouched:
  - WithDefaults, ApplyDefaults, Config.constructor and Config.Load (for
    the key `forwarded_ports`);
  - FreshInstallReads (its empty port list);
  - LoadPreservesReads.
- `to_dict` is left out: its shallow copy only concerns Python aliasing.
- The unused `uuid` and `socket` imports and the `CONFIG_DIR`/`CONFIG_FILE`
  path constants are left out.
