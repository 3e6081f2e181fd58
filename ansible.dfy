/**
 * The data shaping of the Ansible configurator
 * (unfurl/configurators/ansible.py): normalising per-task results, host
 * variables and inventories, wrapping a task list into a play, the
 * `ansible-playbook` arguments, the result callback's bookkeeping and how
 * `run` folds the results into the task's result. Running Ansible itself is
 * not modelled: its outcome is the state of the result callback.
 */
module Ansible {
  import opened Wrappers
  import opened Values
  import opened Support
  import opened Configurator

  // ---------------------------------------------------------------------------
  // getAnsibleResults

  /** The names of the normalised result, in the order of the key map. */
  const ResultNames: seq<string> := ["returncode", "msg", "error", "stdout"]

  /** The raw result keys each normalised name is taken from, in order of preference. */
  function SourceKeys(name: string): seq<string> {
    if name == "error" then ["exception", "module_stderr"]
    else if name == "stdout" then ["stdout", "module_stdout"]
    else [name]
  }

  /** The first of `keys` present in the raw result. */
  function FirstPresent(raw: map<string, Value>, keys: seq<string>): (r: Option<string>)
    ensures r.None? <==> forall i :: 0 <= i < |keys| ==> keys[i] !in raw
    ensures r.Some? ==> r.value in raw
    ensures r.Some? ==> exists i :: 0 <= i < |keys| && keys[i] == r.value && forall j :: 0 <= j < i ==> keys[j] !in raw
  {
    if keys == [] then None
    else if keys[0] in raw then Some(keys[0])
    else
      var r := FirstPresent(raw, keys[1..]);
      assert forall i :: 1 <= i < |keys| ==> keys[i] == keys[1..][i - 1];
      r
  }

  /** The normalised entries for a prefix of the key map, as the loop over it builds them. */
  function Mapped(raw: map<string, Value>, names: seq<string>): map<string, Value>
    decreases |names|
  {
    if names == [] then map[]
    else
      var m := Mapped(raw, names[..|names| - 1]);
      var name := names[|names| - 1];
      match FirstPresent(raw, SourceKeys(name))
      case None => m
      case Some(k) => m[name := raw[k]]
  }

  /** Each name holds the value of its first present source key, and is absent when none is present. */
  lemma {:induction false} MappedEntries(raw: map<string, Value>, names: seq<string>, name: string)
    ensures name in Mapped(raw, names) <==> name in names && FirstPresent(raw, SourceKeys(name)).Some?
    ensures name in Mapped(raw, names) ==> Mapped(raw, names)[name] == raw[FirstPresent(raw, SourceKeys(name)).value]
    decreases |names|
  {
    if names != [] {
      var init := names[..|names| - 1];
      MappedEntries(raw, init, name);
      assert names == init + [names[|names| - 1]];
      assert name in names <==> name in init || name == names[|names| - 1];
    }
  }

  /** The entries of the `extraKeys` loop, applied over `d`. */
  function WithExtras(d: map<string, Value>, raw: map<string, Value>, extraKeys: seq<string>): map<string, Value>
    decreases |extraKeys|
  {
    if extraKeys == [] then d
    else
      var m := WithExtras(d, raw, extraKeys[..|extraKeys| - 1]);
      var key := extraKeys[|extraKeys| - 1];
      if key in raw then m[key := raw[key]] else m
  }

  lemma {:induction false} WithExtrasEntries(d: map<string, Value>, raw: map<string, Value>, extraKeys: seq<string>, k: string)
    ensures k in extraKeys && k in raw ==> k in WithExtras(d, raw, extraKeys) && WithExtras(d, raw, extraKeys)[k] == raw[k]
    ensures !(k in extraKeys && k in raw) ==>
      (k in WithExtras(d, raw, extraKeys) <==> k in d) && (k in d ==> WithExtras(d, raw, extraKeys)[k] == d[k])
    decreases |extraKeys|
  {
    if extraKeys != [] {
      var init := extraKeys[..|extraKeys| - 1];
      WithExtrasEntries(d, raw, init, k);
      assert extraKeys == init + [extraKeys[|extraKeys| - 1]];
      assert k in extraKeys <==> k in init || k == extraKeys[|extraKeys| - 1];
    }
  }

  /** The requested facts, as the facts loop collects them from `ansible_facts`; a non-dict answering `in` raises. */
  function CollectFacts(ansibleFacts: Value, facts: seq<string>): Outcome<map<string, Value>>
    decreases |facts|
  {
    if facts == [] then Returns(map[])
    else
      match CollectFacts(ansibleFacts, facts[..|facts| - 1])
      case Raises(e) => Raises(e)
      case Returns(m) =>
        var fact := facts[|facts| - 1];
        match Contains(ansibleFacts, Str(fact))
        case Raises(e) => Raises(e)
        case Returns(found) =>
          if !found then Returns(m)
          else if ansibleFacts.Dict? then Returns(m[fact := ansibleFacts.fields[fact]])
          else Raises(TypeError)
  }

  /** The first exception of the facts loop is the one it raises. */
  lemma {:induction false} FactsRaiseStays(ansibleFacts: Value, facts: seq<string>, n: nat)
    requires n <= |facts| && CollectFacts(ansibleFacts, facts[..n]).Raises?
    ensures CollectFacts(ansibleFacts, facts) == CollectFacts(ansibleFacts, facts[..n])
    decreases |facts| - n
  {
    if n < |facts| {
      assert facts[..n + 1][..n] == facts[..n];
      FactsRaiseStays(ansibleFacts, facts, n + 1);
    } else {
      assert facts[..n] == facts;
    }
  }

  /** From a dict of facts: exactly the requested facts it holds. */
  lemma {:induction false} CollectFactsFromDict(fields: map<string, Value>, facts: seq<string>)
    ensures CollectFacts(Dict(fields), facts).Returns?
    ensures var m := CollectFacts(Dict(fields), facts).value;
      forall k :: (k in m <==> k in facts && k in fields) && (k in m ==> m[k] == fields[k])
    decreases |facts|
  {
    if facts != [] {
      var init := facts[..|facts| - 1];
      CollectFactsFromDict(fields, init);
      assert facts == init + [facts[|facts| - 1]];
      forall k ensures k in facts <==> k in init || k == facts[|facts| - 1] {
      }
    }
  }

  /** The outputs part of `getAnsibleResults`. */
  function FactOutputs(raw: map<string, Value>, facts: seq<string>): Outcome<map<string, Value>> {
    var ansibleFacts := Get(raw, "ansible_facts", Null);
    if facts == [] || !Truthy(ansibleFacts) then Returns(map[]) else CollectFacts(ansibleFacts, facts)
  }

  /** `getAnsibleResults(result, extraKeys, facts)`, as a reference definition. */
  function AnsibleResults(raw: map<string, Value>, extraKeys: seq<string>, facts: seq<string>)
    : Outcome<(map<string, Value>, map<string, Value>)>
  {
    match FactOutputs(raw, facts)
    case Raises(e) => Raises(e)
    case Returns(outputs) => Returns((WithExtras(Mapped(raw, ResultNames), raw, extraKeys), outputs))
  }

  /**
   * The normalised result: an extra key present in the raw result is copied
   * unchanged; any other name holds its first present source key (so
   * `exception` wins over `module_stderr` and `stdout` over `module_stdout`)
   * and is absent when none is present.
   */
  lemma NormalisedEntries(raw: map<string, Value>, extraKeys: seq<string>, facts: seq<string>, k: string)
    requires AnsibleResults(raw, extraKeys, facts).Returns?
    ensures var d := AnsibleResults(raw, extraKeys, facts).value.0;
      && (k in extraKeys && k in raw ==> k in d && d[k] == raw[k])
      && (!(k in extraKeys && k in raw) ==>
            (k in d <==> k in ResultNames && FirstPresent(raw, SourceKeys(k)).Some?)
            && (k in d ==> d[k] == raw[FirstPresent(raw, SourceKeys(k)).value]))
  {
    MappedEntries(raw, ResultNames, k);
    WithExtrasEntries(Mapped(raw, ResultNames), raw, extraKeys, k);
  }

  /** With `ansible_facts` a dict, the outputs are exactly the requested facts present in it, and none without requests or facts. */
  lemma FactOutputsExact(raw: map<string, Value>, facts: seq<string>)
    requires "ansible_facts" in raw ==> raw["ansible_facts"].Dict?
    ensures FactOutputs(raw, facts).Returns?
    ensures var outputs := FactOutputs(raw, facts).value;
      var available := DictOf(Get(raw, "ansible_facts", Null));
      forall k :: (k in outputs <==> k in facts && k in available) && (k in outputs ==> outputs[k] == available[k])
  {
    var ansibleFacts := Get(raw, "ansible_facts", Null);
    if facts != [] && Truthy(ansibleFacts) {
      CollectFactsFromDict(ansibleFacts.fields, facts);
    }
  }

  /** `getAnsibleResults(result, extraKeys, facts)`: the key map, then the extra keys, then the facts. */
  method GetAnsibleResults(raw: map<string, Value>, extraKeys: seq<string>, facts: seq<string>)
    returns (r: Outcome<(map<string, Value>, map<string, Value>)>)
    ensures r == AnsibleResults(raw, extraKeys, facts)
  {
    var resultDict := MapResultKeys(raw);
    resultDict := CopyExtraKeys(resultDict, raw, extraKeys);
    var outputs := CopyFacts(raw, facts);
    if outputs.Raises? {
      return Raises(outputs.error);
    }
    return Returns((resultDict, outputs.value));
  }

  /** The loop over the key map, with the inner search for the first present key. */
  method MapResultKeys(raw: map<string, Value>) returns (resultDict: map<string, Value>)
    ensures resultDict == Mapped(raw, ResultNames)
  {
    resultDict := map[];
    for n := 0 to |ResultNames|
      invariant resultDict == Mapped(raw, ResultNames[..n])
    {
      assert ResultNames[..n + 1][..n] == ResultNames[..n];
      var name := ResultNames[n];
      var keys := SourceKeys(name);
      var j := 0;
      while j < |keys|
        invariant 0 <= j <= |keys|
        invariant FirstPresent(raw, keys) == FirstPresent(raw, keys[j..])
      {
        assert keys[j..] == [keys[j]] + keys[j + 1..];
        if keys[j] in raw {
          break;
        }
        j := j + 1;
      }
      if j < |keys| {
        assert keys[j..] == [keys[j]] + keys[j + 1..];
        resultDict := resultDict[name := raw[keys[j]]];
      }
    }
    assert ResultNames[..|ResultNames|] == ResultNames;
  }

  /** The loop over `extraKeys`. */
  method CopyExtraKeys(d: map<string, Value>, raw: map<string, Value>, extraKeys: seq<string>)
    returns (resultDict: map<string, Value>)
    ensures resultDict == WithExtras(d, raw, extraKeys)
  {
    resultDict := d;
    for n := 0 to |extraKeys|
      invariant resultDict == WithExtras(d, raw, extraKeys[..n])
    {
      assert extraKeys[..n + 1][..n] == extraKeys[..n];
      var key := extraKeys[n];
      if key in raw {
        resultDict := resultDict[key := raw[key]];
      }
    }
    assert extraKeys[..|extraKeys|] == extraKeys;
  }

  /** The loop over `facts`, run only when facts are requested and `ansible_facts` is truthy. */
  method CopyFacts(raw: map<string, Value>, facts: seq<string>) returns (r: Outcome<map<string, Value>>)
    ensures r == FactOutputs(raw, facts)
  {
    var outputs: map<string, Value> := map[];
    if facts == [] {
      return Returns(outputs);
    }
    var ansibleFacts := Get(raw, "ansible_facts", Null);
    if !Truthy(ansibleFacts) {
      return Returns(outputs);
    }
    for n := 0 to |facts|
      invariant CollectFacts(ansibleFacts, facts[..n]) == Returns(outputs)
    {
      assert facts[..n + 1][..n] == facts[..n];
      var fact := facts[n];
      var found := Contains(ansibleFacts, Str(fact));
      if found.Raises? {
        FactsRaiseStays(ansibleFacts, facts, n + 1);
        return Raises(found.error);
      }
      if found.value {
        if !ansibleFacts.Dict? {
          FactsRaiseStays(ansibleFacts, facts, n + 1);
          return Raises(TypeError);
        }
        outputs := outputs[fact := ansibleFacts.fields[fact]];
      }
    }
    assert facts[..|facts|] == facts;
    return Returns(outputs);
  }

  // ---------------------------------------------------------------------------
  // Host variables

  /** An `endpoint` capability of a node: whether it is an Ansible endpoint, and its attributes. */
  datatype Endpoint = Endpoint(isAnsible: bool, attributes: map<string, Value>)

  /** A node instance as the inventory sees it. */
  datatype Host = Host(name: string, endpoints: seq<Endpoint>)

  /** The first Ansible endpoint of a node, the one the search loop of `_getHostVars` stops at. */
  function AnsibleEndpoint(endpoints: seq<Endpoint>): (r: Option<Endpoint>)
    ensures r.None? <==> forall i :: 0 <= i < |endpoints| ==> !endpoints[i].isAnsible
    ensures r.Some? ==> exists i :: 0 <= i < |endpoints| && endpoints[i] == r.value && r.value.isAnsible
                                  && forall j :: 0 <= j < i ==> !endpoints[j].isAnsible
  {
    if endpoints == [] then None
    else if endpoints[0].isAnsible then Some(endpoints[0])
    else
      assert forall i :: 1 <= i < |endpoints| ==> endpoints[i] == endpoints[1..][i - 1];
      AnsibleEndpoint(endpoints[1..])
  }

  /** `"ansible_" + name: props[name]` for `name` in port, host, connection, user when present. */
  function ConnectionVars(props: map<string, Value>): (r: map<string, Value>)
    ensures ("ansible_port" in r <==> "port" in props) && ("port" in props ==> r["ansible_port"] == props["port"])
    ensures ("ansible_host" in r <==> "host" in props) && ("host" in props ==> r["ansible_host"] == props["host"])
    ensures ("ansible_connection" in r <==> "connection" in props)
            && ("connection" in props ==> r["ansible_connection"] == props["connection"])
    ensures ("ansible_user" in r <==> "user" in props) && ("user" in props ==> r["ansible_user"] == props["user"])
    ensures forall k :: k in r ==> k in {"ansible_port", "ansible_host", "ansible_connection", "ansible_user"}
  {
    (if "port" in props then map["ansible_port" := props["port"]] else map[])
    + (if "host" in props then map["ansible_host" := props["host"]] else map[])
    + (if "connection" in props then map["ansible_connection" := props["connection"]] else map[])
    + (if "user" in props then map["ansible_user" := props["user"]] else map[])
  }

  /**
   * The host variables of an Ansible endpoint: the connection attributes,
   * overlaid with its `hostvars` (which must be a dict), with `ansible_host`
   * filled from `ip_address` only when still absent.
   */
  function EndpointVars(props: map<string, Value>): (r: Outcome<map<string, Value>>)
    ensures r.Raises? <==> !Get(props, "hostvars", Dict(map[])).Dict?
    ensures r.Returns? ==>
      var overlay := Get(props, "hostvars", Dict(map[])).fields;
      var base := ConnectionVars(props);
      && (forall k :: k in overlay ==> k in r.value && r.value[k] == overlay[k])
      && (forall k :: k in base && k !in overlay ==> k in r.value && r.value[k] == base[k])
      && (forall k :: k in r.value ==> k in base || k in overlay || k == "ansible_host")
      && ("ansible_host" !in base && "ansible_host" !in overlay ==>
            ("ansible_host" in r.value <==> Truthy(Get(overlay, "ip_address", Null)))
            && ("ansible_host" in r.value ==> r.value["ansible_host"] == overlay["ip_address"]))
  {
    var overlay := Get(props, "hostvars", Dict(map[]));
    if !overlay.Dict? then Raises(TypeError)
    else
      var hostVars := ConnectionVars(props) + overlay.fields;
      if "ansible_host" !in hostVars && Truthy(Get(hostVars, "ip_address", Null))
      then Returns(hostVars["ansible_host" := hostVars["ip_address"]])
      else Returns(hostVars)
  }

  /** `_getHostVars(node)`, as a reference definition: no variables without an Ansible endpoint. */
  function HostVars(host: Host): (r: Outcome<map<string, Value>>)
    ensures (forall i :: 0 <= i < |host.endpoints| ==> !host.endpoints[i].isAnsible) ==> r == Returns(map[])
  {
    match AnsibleEndpoint(host.endpoints)
    case None => Returns(map[])
    case Some(e) => EndpointVars(e.attributes)
  }

  /** `_getHostVars(node)` */
  method GetHostVars(host: Host) returns (r: Outcome<map<string, Value>>)
    ensures r == HostVars(host)
  {
    var i := 0;
    while i < |host.endpoints|
      invariant 0 <= i <= |host.endpoints|
      invariant AnsibleEndpoint(host.endpoints) == AnsibleEndpoint(host.endpoints[i..])
    {
      assert host.endpoints[i..] == [host.endpoints[i]] + host.endpoints[i + 1..];
      if host.endpoints[i].isAnsible {
        return EndpointVars(host.endpoints[i].attributes);
      }
      i := i + 1;
    }
    return Returns(map[]);
  }

  /** The host variables dict `_updateVars` updates in place. */
  class HostVarsDict {
    var vars: map<string, Value>

    constructor (vars: map<string, Value>)
      ensures this.vars == vars
    {
      this.vars := vars;
    }

    /**
     * `_updateVars(connection, hostVars)`. The effect of an exception is
     * the partial update made before it; `err` is the exception.
     */
    method UpdateVars(connection: map<string, Value>) returns (err: Option<PyError>)
      modifies this
      ensures (vars, err) == UpdatedVars(old(vars), connection)
    {
      var creds := Get(connection, "credential", Null);
      if Truthy(creds) {
        if !creds.Dict? {
          return Some(TypeError);
        }
        var c := creds.fields;
        if "user" in c {
          vars := vars["ansible_user" := c["user"]];
        }
        if "token" in c {
          if "token_type" !in c {
            return Some(KeyError("token_type"));
          }
          if !c["token_type"].Str? {
            return Some(TypeError);
          }
          vars := vars["ansible_" + c["token_type"].s := c["token"]];
        }
        if "keys" in c {
          if !c["keys"].Dict? {
            return Some(TypeError);
          }
          vars := vars + c["keys"].fields;
        }
      }
      var overlay := Get(connection, "hostvars", Dict(map[]));
      if !overlay.Dict? {
        return Some(TypeError);
      }
      vars := vars + overlay.fields;
      return None;
    }
  }

  /**
   * What `_updateVars` leaves in `hostVars`, and the exception it raises, if
   * any: it fails iff a truthy credential is not a dict or its part fails,
   * or `hostvars` is not a dict; the connection's `hostvars` win over every
   * earlier entry, and no entry is removed.
   */
  function UpdatedVars(hostVars: map<string, Value>, connection: map<string, Value>)
    : (r: (map<string, Value>, Option<PyError>))
    ensures var creds := Get(connection, "credential", Null);
      r.1.Some? <==>
        || (Truthy(creds) && (!creds.Dict? || CredentialVars(hostVars, creds.fields).1.Some?))
        || !Get(connection, "hostvars", Dict(map[])).Dict?
    ensures var overlay := Get(connection, "hostvars", Dict(map[]));
      r.1.None? ==> forall k :: k in overlay.fields ==> k in r.0 && r.0[k] == overlay.fields[k]
    ensures hostVars.Keys <= r.0.Keys
  {
    var creds := Get(connection, "credential", Null);
    var withCreds: (map<string, Value>, Option<PyError>) :=
      if !Truthy(creds) then (hostVars, None)
      else if !creds.Dict? then (hostVars, Some(TypeError))
      else CredentialVars(hostVars, creds.fields);
    if withCreds.1.Some? then withCreds
    else
      var overlay := Get(connection, "hostvars", Dict(map[]));
      if !overlay.Dict? then (withCreds.0, Some(TypeError)) else (withCreds.0 + overlay.fields, None)
  }

  /** A token stored under `ansible_<type>` lands on `ansible_user` only for the type `user`. */
  lemma TokenNameDistinct(tokenType: Value)
    ensures tokenType.Str? ==> ("ansible_" + tokenType.s == "ansible_user" <==> tokenType.s == "user")
  {
    if tokenType.Str? && "ansible_" + tokenType.s == "ansible_user" {
      assert tokenType.s == ("ansible_" + tokenType.s)[8..];
    }
  }

  /**
   * The credential part of `_updateVars`: the user, then the token under its
   * type, then the extra keys. It fails iff there is a token without a string
   * type or the keys are not a dict; then the user and the token are stored
   * unless the keys override them, and the keys are all stored.
   */
  function CredentialVars(hostVars: map<string, Value>, c: map<string, Value>): (r: (map<string, Value>, Option<PyError>))
    ensures r.1.Some? <==>
      ("token" in c && ("token_type" !in c || !c["token_type"].Str?)) || ("keys" in c && !c["keys"].Dict?)
    ensures r.1.None? && "keys" in c ==>
      forall k :: k in c["keys"].fields ==> k in r.0 && r.0[k] == c["keys"].fields[k]
    ensures r.1.None? && "token" in c && !("keys" in c && "ansible_" + c["token_type"].s in c["keys"].fields) ==>
      "ansible_" + c["token_type"].s in r.0 && r.0["ansible_" + c["token_type"].s] == c["token"]
    ensures r.1.None? && "user" in c && !("keys" in c && "ansible_user" in c["keys"].fields)
            && !("token" in c && c["token_type"].s == "user") ==>
      "ansible_user" in r.0 && r.0["ansible_user"] == c["user"]
    ensures hostVars.Keys <= r.0.Keys
  {
    var withUser := if "user" in c then hostVars["ansible_user" := c["user"]] else hostVars;
    if "token" in c && "token_type" !in c then (withUser, Some(KeyError("token_type")))
    else if "token" in c && !c["token_type"].Str? then (withUser, Some(TypeError))
    else
      var withToken := if "token" in c then withUser["ansible_" + c["token_type"].s := c["token"]] else withUser;
      TokenNameDistinct(Get(c, "token_type", Null));
      if "keys" in c && !c["keys"].Dict? then (withToken, Some(TypeError))
      else ((if "keys" in c then withToken + c["keys"].fields else withToken), None)
  }

  /**
   * A full credential ends up in the host variables: the user as
   * `ansible_user` and the token under `ansible_<token_type>`, unless the
   * extra keys or the connection's `hostvars` override them; `hostvars` wins.
   */
  lemma CredentialsStored(hostVars: map<string, Value>, connection: map<string, Value>,
                          user: Value, tokenType: string, token: Value)
    requires "credential" in connection
    requires connection["credential"] == Dict(map["user" := user, "token_type" := Str(tokenType), "token" := token])
    requires Get(connection, "hostvars", Dict(map[])).Dict?
    ensures var (vars, err) := UpdatedVars(hostVars, connection);
      var overlay := Get(connection, "hostvars", Dict(map[])).fields;
      && err.None?
      && (forall k :: k in overlay ==> k in vars && vars[k] == overlay[k])
      && ("ansible_user" !in overlay && tokenType != "user" ==> "ansible_user" in vars && vars["ansible_user"] == user)
      && ("ansible_" + tokenType !in overlay ==> "ansible_" + tokenType in vars && vars["ansible_" + tokenType] == token)
  {
    var c := connection["credential"].fields;
    assert "token" in c && "token_type" in c && "keys" !in c && "user" in c;
    assert Truthy(connection["credential"]);
    var withUser := hostVars["ansible_user" := user];
    var withToken := withUser["ansible_" + tokenType := token];
    assert CredentialVars(hostVars, c) == (withToken, None);
    if tokenType != "user" {
      assert ("ansible_" + tokenType)[8..] == tokenType;
      assert "ansible_user"[8..] == "user";
      assert "ansible_" + tokenType != "ansible_user";
      assert withToken["ansible_user"] == user;
    }
  }

  /**
   * The order of the updates: the connection's `hostvars` override the
   * credential's `keys`, which override the user and the token written
   * before them (and the endpoint's own variables).
   */
  lemma OverrideOrder(hostVars: map<string, Value>, connection: map<string, Value>, k: string)
    requires "credential" in connection && connection["credential"].Dict?
    requires "keys" in connection["credential"].fields && connection["credential"].fields["keys"].Dict?
    requires UpdatedVars(hostVars, connection).1.None?
    ensures var vars := UpdatedVars(hostVars, connection).0;
      var keys := connection["credential"].fields["keys"].fields;
      var overlay := Get(connection, "hostvars", Dict(map[])).fields;
      && (k in overlay ==> vars[k] == overlay[k])
      && (k !in overlay && k in keys ==> vars[k] == keys[k])
  {
    var c := connection["credential"].fields;
    assert Truthy(connection["credential"]) by { assert "keys" in c; }
  }

  /** A token without its type raises KeyError after the user is already written. */
  lemma MissingTokenType(hostVars: map<string, Value>, connection: map<string, Value>, user: Value, token: Value)
    requires "credential" in connection
    requires connection["credential"] == Dict(map["user" := user, "token" := token])
    ensures UpdatedVars(hostVars, connection) == (hostVars["ansible_user" := user], Some(KeyError("token_type")))
  {
    var c := connection["credential"].fields;
    assert "user" in c && "token" in c && "token_type" !in c;
    assert Truthy(connection["credential"]);
  }

  // ---------------------------------------------------------------------------
  // Inventory

  /** A group: its member instances, its member groups, whether it is an Ansible inventory group, its properties. */
  datatype Group = Group(name: string, members: seq<Host>, groups: seq<Group>, isAnsibleGroup: bool,
                         properties: map<string, Value>)

  /** The key a child group is stored under: the group object itself, or its name. */
  datatype GroupKey = ByObject(group: Group) | ByName(name: string)

  /** An inventory group: `dict(hosts=..., vars=..., children=...)`. */
  datatype Inventory = Inventory(hosts: map<string, map<string, Value>>, vars: map<string, Value>,
                                 children: map<GroupKey, Inventory>)

  /**
   * The `hosts` loop: each member's host variables, as `hostVars` gives them
   * (`_getHostVars`), under its name, later members winning.
   */
  function HostsOf(members: seq<Host>, hostVars: Host -> Outcome<map<string, Value>>)
    : Outcome<map<string, map<string, Value>>>
    decreases |members|
  {
    if members == [] then Returns(map[])
    else
      match HostsOf(members[..|members| - 1], hostVars)
      case Raises(e) => Raises(e)
      case Returns(hosts) =>
        match hostVars(members[|members| - 1])
        case Raises(e) => Raises(e)
        case Returns(vars) => Returns(hosts[members[|members| - 1].name := vars])
  }

  function KeyOf(g: Group, byName: bool): GroupKey {
    if byName then ByName(g.name) else ByObject(g)
  }

  /** The `children` loop over the first `n` member groups of `g`: only Ansible inventory groups are kept. */
  function ChildrenOf(g: Group, n: nat, byName: bool): Outcome<map<GroupKey, Inventory>>
    requires n <= |g.groups|
    decreases g, n
  {
    if n == 0 then Returns(map[])
    else
      match ChildrenOf(g, n - 1, byName)
      case Raises(e) => Raises(e)
      case Returns(children) =>
        var child := g.groups[n - 1];
        if !child.isAnsibleGroup then Returns(children)
        else
          match BuildInventory(child, byName)
          case Raises(e) => Raises(e)
          case Returns(inventory) => Returns(children[KeyOf(child, byName) := inventory])
  }

  /** `_makeInventoryFromGroup`, with child groups keyed by object (as written) or by name. */
  function BuildInventory(g: Group, byName: bool): Outcome<Inventory>
    decreases g, |g.groups| + 1
  {
    match HostsOf(g.members, HostVars)
    case Raises(e) => Raises(e)
    case Returns(hosts) =>
      match ChildrenOf(g, |g.groups|, byName)
      case Raises(e) => Raises(e)
      case Returns(children) => Returns(Inventory(hosts, g.properties, children))
  }

  /** `_makeInventoryFromGroup(group)` as written: `children[child] = ...` keys a child group by the group object. */
  function InventoryFromGroupAsWritten(g: Group): (r: Outcome<Inventory>)
    ensures r.Returns? ==> r.value.vars == g.properties
  {
    BuildInventory(g, false)
  }

  /** `_makeInventoryFromGroup(group)` keying child groups by name, as `_makeInventory` does for the host's groups. */
  function InventoryFromGroup(g: Group): (r: Outcome<Inventory>)
    ensures r.Returns? ==> r.value.vars == g.properties
  {
    BuildInventory(g, true)
  }

  /** `_makeInventoryFromGroup(group)`, keying child groups by name: the members loop, then the children loop. */
  method MakeInventoryFromGroup(g: Group) returns (r: Outcome<Inventory>)
    ensures r == InventoryFromGroup(g)
    decreases g
  {
    var hosts: map<string, map<string, Value>> := map[];
    for n := 0 to |g.members|
      invariant HostsOf(g.members[..n], HostVars) == Returns(hosts)
    {
      assert g.members[..n + 1][..n] == g.members[..n];
      var vars := GetHostVars(g.members[n]);
      if vars.Raises? {
        HostsRaiseStays(g.members, HostVars, n + 1);
        return Raises(vars.error);
      }
      hosts := hosts[g.members[n].name := vars.value];
    }
    assert g.members[..|g.members|] == g.members;
    var children: map<GroupKey, Inventory> := map[];
    for n := 0 to |g.groups|
      invariant ChildrenOf(g, n, true) == Returns(children)
    {
      var child := g.groups[n];
      if child.isAnsibleGroup {
        var inventory := MakeInventoryFromGroup(child);
        if inventory.Raises? {
          ChildrenRaiseStays(g, n + 1);
          return Raises(inventory.error);
        }
        children := children[ByName(child.name) := inventory.value];
      }
    }
    return Returns(Inventory(hosts, g.properties, children));
  }

  lemma {:induction false} HostsRaiseStays(members: seq<Host>, hostVars: Host -> Outcome<map<string, Value>>, n: nat)
    requires n <= |members| && HostsOf(members[..n], hostVars).Raises?
    ensures HostsOf(members, hostVars) == HostsOf(members[..n], hostVars)
    decreases |members| - n
  {
    if n < |members| {
      assert members[..n + 1][..n] == members[..n];
      HostsRaiseStays(members, hostVars, n + 1);
    } else {
      assert members[..n] == members;
    }
  }

  lemma {:induction false} ChildrenRaiseStays(g: Group, n: nat)
    requires n <= |g.groups| && ChildrenOf(g, n, true).Raises?
    ensures ChildrenOf(g, |g.groups|, true) == ChildrenOf(g, n, true)
    decreases |g.groups| - n
  {
    if n < |g.groups| {
      ChildrenRaiseStays(g, n + 1);
    }
  }

  /** The child keys: exactly the Ansible inventory member groups, under their object or their name. */
  lemma {:induction false} ChildKeys(g: Group, n: nat, byName: bool, key: GroupKey)
    requires n <= |g.groups|
    requires ChildrenOf(g, n, byName).Returns?
    ensures key in ChildrenOf(g, n, byName).value <==>
      exists i :: 0 <= i < n && g.groups[i].isAnsibleGroup && key == KeyOf(g.groups[i], byName)
    decreases n
  {
    if n > 0 {
      ChildKeys(g, n - 1, byName, key);
    }
  }

  /**
   * The value under a child key: the inventory of the last Ansible member
   * group with that key (later groups overwrite earlier ones).
   */
  lemma {:induction false} ChildrenLastWins(g: Group, n: nat, byName: bool, key: GroupKey)
    requires n <= |g.groups|
    requires ChildrenOf(g, n, byName).Returns? && key in ChildrenOf(g, n, byName).value
    ensures exists i ::
      && 0 <= i < n && g.groups[i].isAnsibleGroup && KeyOf(g.groups[i], byName) == key
      && (forall j :: i < j < n && g.groups[j].isAnsibleGroup ==> KeyOf(g.groups[j], byName) != key)
      && BuildInventory(g.groups[i], byName) == Returns(ChildrenOf(g, n, byName).value[key])
    decreases n
  {
    var child := g.groups[n - 1];
    if !(child.isAnsibleGroup && KeyOf(child, byName) == key) {
      ChildrenLastWins(g, n - 1, byName, key);
    }
  }

  /**
   * As written, every child of an inventory is keyed by one of its member
   * group objects, never by a name, and holds that group's own inventory.
   */
  lemma ChildrenKeyedByObject(g: Group, key: GroupKey)
    requires InventoryFromGroupAsWritten(g).Returns?
    requires key in InventoryFromGroupAsWritten(g).value.children
    ensures key.ByObject? && key.group in g.groups
    ensures InventoryFromGroupAsWritten(key.group) == Returns(InventoryFromGroupAsWritten(g).value.children[key])
  {
    ChildrenLastWins(g, |g.groups|, false, key);
  }

  /**
   * Corrected, the children are exactly the names of the member groups that
   * are Ansible inventory groups, and the child under a name is the inventory
   * of the last such group with that name.
   */
  lemma ChildrenKeyedByName(g: Group, name: string)
    requires InventoryFromGroup(g).Returns?
    ensures ByName(name) in InventoryFromGroup(g).value.children <==>
      exists i :: 0 <= i < |g.groups| && g.groups[i].isAnsibleGroup && g.groups[i].name == name
    ensures ByName(name) in InventoryFromGroup(g).value.children ==>
      exists i :: 0 <= i < |g.groups| && g.groups[i].isAnsibleGroup && g.groups[i].name == name
        && (forall j :: i < j < |g.groups| && g.groups[j].isAnsibleGroup ==> g.groups[j].name != name)
        && InventoryFromGroup(g.groups[i]) == Returns(InventoryFromGroup(g).value.children[ByName(name)])
  {
    ChildKeys(g, |g.groups|, true, ByName(name));
    if ByName(name) in InventoryFromGroup(g).value.children {
      ChildrenLastWins(g, |g.groups|, true, ByName(name));
    }
  }

  /** Every member appears under its name. */
  lemma {:induction false} HostsNamed(members: seq<Host>, hostVars: Host -> Outcome<map<string, Value>>, name: string)
    requires HostsOf(members, hostVars).Returns?
    ensures name in HostsOf(members, hostVars).value <==> exists i :: 0 <= i < |members| && members[i].name == name
    decreases |members|
  {
    if members != [] {
      HostsNamed(members[..|members| - 1], hostVars, name);
      assert forall i :: 0 <= i < |members| - 1 ==> members[..|members| - 1][i] == members[i];
    }
  }

  /** The last member with a name: no later member has that name. */
  predicate LastNamed(members: seq<Host>, i: int, name: string) {
    0 <= i < |members| && members[i].name == name && forall j :: i < j < |members| ==> members[j].name != name
  }

  /** The variables under a host name are those of the last member with that name. */
  lemma {:induction false} HostsLastWins(members: seq<Host>, hostVars: Host -> Outcome<map<string, Value>>, name: string)
    requires HostsOf(members, hostVars).Returns? && name in HostsOf(members, hostVars).value
    ensures exists i :: LastNamed(members, i, name) && hostVars(members[i]) == Returns(HostsOf(members, hostVars).value[name])
    decreases |members|
  {
    var last := |members| - 1;
    var prefix := members[..last];
    var hosts := HostsOf(prefix, hostVars).value;
    if members[last].name == name {
      assert LastNamed(members, last, name);
    } else {
      HostsLastWins(prefix, hostVars, name);
      var i :| LastNamed(prefix, i, name) && hostVars(prefix[i]) == Returns(hosts[name]);
      assert members[i] == prefix[i];
      assert forall j :: i < j < last ==> members[j] == prefix[j];
      assert LastNamed(members, i, name);
    }
  }

  /**
   * An inventory group: its hosts are exactly its members' names, each with
   * the variables of the last member of that name, and its vars are the
   * group's properties.
   */
  lemma InventoryHosts(g: Group, byName: bool, name: string)
    requires BuildInventory(g, byName).Returns?
    ensures var inv := BuildInventory(g, byName).value;
      && inv.vars == g.properties
      && (name in inv.hosts <==> exists i :: 0 <= i < |g.members| && g.members[i].name == name)
      && (name in inv.hosts ==> exists i :: LastNamed(g.members, i, name) && HostVars(g.members[i]) == Returns(inv.hosts[name]))
  {
    HostsNamed(g.members, HostVars, name);
    if name in BuildInventory(g, byName).value.hosts {
      HostsLastWins(g.members, HostVars, name);
    }
  }

  /**
   * `_makeInventory(host, allVars, task)`: the `all` group holds the host's
   * variables (updated from the connection to it, if any), the shared vars
   * and, by name, the host's Ansible inventory groups.
   */
  function MakeInventory(host: Host, allVars: map<string, Value>, connection: Option<map<string, Value>>,
                         groups: seq<Group>): (r: Outcome<Inventory>)
    ensures r.Raises? <==>
      || HostVars(host).Raises?
      || (HostVars(host).Returns? && connection.Some? && UpdatedVars(HostVars(host).value, connection.value).1.Some?)
      || GroupChildren(groups).Raises?
    ensures r.Returns? ==> r.value.hosts.Keys == {host.name} && r.value.vars == allVars
    ensures r.Returns? ==>
      && HostVars(host).Returns?
      && r.value.hosts[host.name] ==
           if connection.Some? then UpdatedVars(HostVars(host).value, connection.value).0 else HostVars(host).value
    ensures r.Returns? ==> GroupChildren(groups) == Returns(r.value.children)
  {
    match HostVars(host)
    case Raises(e) => Raises(e)
    case Returns(hostVars) =>
      var updated := if connection.Some? then UpdatedVars(hostVars, connection.value) else (hostVars, None);
      if updated.1.Some? then Raises(updated.1.value)
      else
        match GroupChildren(groups)
        case Raises(e) => Raises(e)
        case Returns(children) => Returns(Inventory(map[host.name := updated.0], allVars, children))
  }

  /** `{group.name: _makeInventoryFromGroup(group) for group in groups if Ansible}` */
  function GroupChildren(groups: seq<Group>): (r: Outcome<map<GroupKey, Inventory>>)
    ensures r.Returns? ==> forall k :: k in r.value ==> k.ByName?
    decreases |groups|
  {
    if groups == [] then Returns(map[])
    else
      match GroupChildren(groups[..|groups| - 1])
      case Raises(e) => Raises(e)
      case Returns(children) =>
        var g := groups[|groups| - 1];
        if !g.isAnsibleGroup then Returns(children)
        else
          match InventoryFromGroup(g)
          case Raises(e) => Raises(e)
          case Returns(inventory) => Returns(children[ByName(g.name) := inventory])
  }

  /** The last Ansible inventory group with a name: no later one has that name. */
  predicate LastAnsibleNamed(groups: seq<Group>, i: int, name: string) {
    && 0 <= i < |groups| && groups[i].isAnsibleGroup && groups[i].name == name
    && forall j :: i < j < |groups| && groups[j].isAnsibleGroup ==> groups[j].name != name
  }

  /** The children of the `all` group are exactly the host's Ansible inventory groups, by name. */
  lemma {:induction false} GroupChildrenKeys(groups: seq<Group>, name: string)
    requires GroupChildren(groups).Returns?
    ensures ByName(name) in GroupChildren(groups).value <==>
      exists i :: 0 <= i < |groups| && groups[i].isAnsibleGroup && groups[i].name == name
    decreases |groups|
  {
    if groups != [] {
      var prefix := groups[..|groups| - 1];
      GroupChildrenKeys(prefix, name);
      assert forall i :: 0 <= i < |prefix| ==> prefix[i] == groups[i];
    }
  }

  /** The child under a name is the inventory of the last Ansible inventory group of that name. */
  lemma {:induction false} GroupChildrenLastWins(groups: seq<Group>, name: string)
    requires GroupChildren(groups).Returns? && ByName(name) in GroupChildren(groups).value
    ensures exists i ::
      && LastAnsibleNamed(groups, i, name)
      && InventoryFromGroup(groups[i]) == Returns(GroupChildren(groups).value[ByName(name)])
    decreases |groups|
  {
    var last := |groups| - 1;
    var prefix := groups[..last];
    var g := groups[last];
    if g.isAnsibleGroup && g.name == name {
      assert LastAnsibleNamed(groups, last, name);
    } else {
      GroupChildrenLastWins(prefix, name);
      var i :| LastAnsibleNamed(prefix, i, name)
        && InventoryFromGroup(prefix[i]) == Returns(GroupChildren(prefix).value[ByName(name)]);
      assert groups[i] == prefix[i];
      assert forall j :: i < j < last ==> groups[j] == prefix[j];
      assert LastAnsibleNamed(groups, i, name);
    }
  }

  // ---------------------------------------------------------------------------
  // Playbooks

  /**
   * `_makePlayBook(playbook, task)`: a list whose first item names no
   * `hosts` is a bare task list and is wrapped into one play on the
   * operation host (or localhost, then with a local connection), without
   * gathering facts; any other list is returned unchanged. `operationHost`
   * is the operation host's name, if there is one.
   */
  function MakePlayBook(playbook: Value, operationHost: Option<string>): (r: Outcome<Value>)
    ensures !playbook.List? ==> r.Raises?
    ensures playbook == List([]) ==> r == Returns(playbook)
    ensures playbook.List? && playbook.items != [] && Contains(playbook.items[0], Str("hosts")) == Returns(true) ==>
      r == Returns(playbook)
    ensures playbook.List? && playbook.items != [] && Contains(playbook.items[0], Str("hosts")).Raises? ==>
      r == Raises(Contains(playbook.items[0], Str("hosts")).error)
    ensures playbook.List? && playbook.items != [] && Contains(playbook.items[0], Str("hosts")) == Returns(false) ==>
      r.Returns? && r.value.List? && |r.value.items| == 1 && r.value.items[0].Dict?
      && "tasks" in r.value.items[0].fields && r.value.items[0].fields["tasks"] == playbook
  {
    if !playbook.List? then Raises(AssertionError)
    else if playbook.items == [] then Returns(playbook)
    else
      var hosts := if operationHost.Some? && operationHost.value != "" then operationHost.value else "localhost";
      match Contains(playbook.items[0], Str("hosts"))
      case Raises(e) => Raises(e)
      case Returns(named) =>
        if named then Returns(playbook)
        else
          var play := map["hosts" := Str(hosts), "gather_facts" := Bool(false), "tasks" := playbook];
          Returns(List([Dict(if hosts == "localhost" then play["connection" := Str("local")] else play)]))
  }

  /** A bare task list becomes one play holding it, with a local connection exactly when it targets localhost. */
  lemma BareTasksWrapped(tasks: seq<Value>, operationHost: Option<string>)
    requires tasks != [] && tasks[0].Dict? && "hosts" !in tasks[0].fields
    ensures var r := MakePlayBook(List(tasks), operationHost);
      var hosts := if operationHost.Some? && operationHost.value != "" then operationHost.value else "localhost";
      && r.Returns? && r.value.List? && |r.value.items| == 1 && r.value.items[0].Dict?
      && r.value.items[0].fields["tasks"] == List(tasks)
      && r.value.items[0].fields["hosts"] == Str(hosts)
      && r.value.items[0].fields["gather_facts"] == Bool(false)
      && ("connection" in r.value.items[0].fields <==> hosts == "localhost")
  {
  }

  /** Wrapping is idempotent: a wrapped playbook is returned unchanged. */
  lemma MakePlayBookIdempotent(playbook: Value, operationHost: Option<string>)
    requires MakePlayBook(playbook, operationHost).Returns?
    ensures MakePlayBook(MakePlayBook(playbook, operationHost).value, operationHost) == MakePlayBook(playbook, operationHost)
  {
  }

  /**
   * `getPlaybookArgs(task)`: the `playbookArgs` input (a list, or a single
   * value wrapped into one; an empty list when absent) followed by
   * `--check` iff a dry run, `--timeout=N` iff the spec has a timeout, and
   * `-v...v` iff verbose is non-zero.
   */
  method GetPlaybookArgs(playbookArgs: Option<Value>, dryRun: bool, timeout: Value, verbose: int)
    returns (args: seq<Value>)
    ensures var given := if playbookArgs.None? then [] else if playbookArgs.value.List? then playbookArgs.value.items
                         else [playbookArgs.value];
      && |args| >= |given| && args[..|given|] == given
      && args[|given|..] ==
           (if dryRun then [Str("--check")] else [])
           + (if Truthy(timeout) then [Str("--timeout=" + PyStr(timeout))] else [])
           + (if verbose != 0 then [Str("-" + Repeat('v', verbose))] else [])
  {
    args := [];
    if playbookArgs.Some? {
      args := if playbookArgs.value.List? then playbookArgs.value.items else [playbookArgs.value];
    }
    ghost var given := args;
    if dryRun {
      args := args + [Str("--check")];
    }
    if Truthy(timeout) {
      args := args + [Str("--timeout=" + PyStr(timeout))];
    }
    if verbose != 0 {
      args := args + [Str("-" + Repeat('v', verbose))];
    }
    assert args[|given|..] ==
           (if dryRun then [Str("--check")] else [])
           + (if Truthy(timeout) then [Str("--timeout=" + PyStr(timeout))] else [])
           + (if verbose != 0 then [Str("-" + Repeat('v', verbose))] else []);
  }

  /** The verbosity flag has one `v` per level, and a negative level gives a bare `-`. */
  lemma VerbosityFlag(verbose: int)
    requires verbose != 0
    ensures var flag := "-" + Repeat('v', verbose);
      |flag| == 1 + (if verbose > 0 then verbose else 0) && flag[0] == '-'
  {
  }

  // ---------------------------------------------------------------------------
  // ResultCallback

  /** The status a task result arrives with: the four fields of `_ResultsByStatus`. */
  datatype CallbackStatus = OkResult | FailedResult | SkippedResult | UnreachableResult

  /** An Ansible task result: the task's name, its result dict and `is_failed()`. */
  datatype TaskResult = TaskResult(taskName: string, raw: map<string, Value>, failed: bool)

  /** `result._result.get("changed", False)`, which is also what `is_changed()` reports. */
  predicate ReportsChanged(r: TaskResult) {
    Truthy(Get(r.raw, "changed", Bool(false)))
  }

  function CountChanged(results: seq<TaskResult>): (n: nat)
    ensures n <= |results|
  {
    if results == [] then 0
    else CountChanged(results[..|results| - 1]) + (if ReportsChanged(results[|results| - 1]) then 1 else 0)
  }

  const EmptyBuckets: map<CallbackStatus, map<string, seq<TaskResult>>> :=
    map[OkResult := map[], FailedResult := map[], SkippedResult := map[], UnreachableResult := map[]]

  class ResultCallback {
    var results: seq<TaskResult>
    var changed: int
    /** `resultsByStatus`: per status, the results of each task name (insertion order not modelled). */
    var buckets: map<CallbackStatus, map<string, seq<TaskResult>>>
    /** `exit_code`, set from the `ansible-playbook` run. */
    var exitCode: int

    /**
     * `changed` counts the results that report a change, every status has a
     * bucket, and every bucketed result was added under its own task name.
     */
    predicate Valid()
      reads this
    {
      && changed == CountChanged(results)
      && (forall s: CallbackStatus :: s in buckets)
      && Bucketed(buckets, results)
    }

    constructor ()
      ensures Valid() && results == [] && changed == 0 && buckets == EmptyBuckets && exitCode == 0
    {
      results := [];
      changed := 0;
      buckets := EmptyBuckets;
      exitCode := 0;
      new;
      forall s: CallbackStatus ensures s in buckets {
        match s
        case OkResult =>
        case FailedResult =>
        case SkippedResult =>
        case UnreachableResult =>
      }
    }

    /**
     * `_addResult(status, result)`: appends the result, counts it if it
     * reports a change, and appends it to its task name's list in the bucket
     * of its status; no other bucket changes.
     */
    method AddResult(status: CallbackStatus, result: TaskResult)
      requires Valid()
      modifies this
      ensures Valid()
      ensures results == old(results) + [result]
      ensures changed == old(changed) + (if ReportsChanged(result) then 1 else 0)
      ensures buckets == old(buckets)[status := old(buckets)[status][result.taskName :=
                           Get2(old(buckets)[status], result.taskName) + [result]]]
      ensures exitCode == old(exitCode)
    {
      assert (results + [result])[..|results|] == results;
      BucketedAdd(buckets, results, status, result);
      results := results + [result];
      if ReportsChanged(result) {
        changed := changed + 1;
      }
      var bucket := buckets[status];
      bucket := bucket[result.taskName := Get2(bucket, result.taskName) + [result]];
      buckets := buckets[status := bucket];
    }
  }

  /** Every bucketed result is one of the results, filed under its own task name. */
  predicate Bucketed(buckets: map<CallbackStatus, map<string, seq<TaskResult>>>, results: seq<TaskResult>) {
    forall s, name, i :: s in buckets && name in buckets[s] && 0 <= i < |buckets[s][name]| ==>
      buckets[s][name][i] in results && buckets[s][name][i].taskName == name
  }

  lemma BucketedAdd(buckets: map<CallbackStatus, map<string, seq<TaskResult>>>, results: seq<TaskResult>,
                    status: CallbackStatus, result: TaskResult)
    requires Bucketed(buckets, results) && status in buckets
    ensures Bucketed(buckets[status := buckets[status][result.taskName :=
                       Get2(buckets[status], result.taskName) + [result]]], results + [result])
  {
    var nb: map<CallbackStatus, map<string, seq<TaskResult>>> := buckets[status := buckets[status][result.taskName := Get2(buckets[status], result.taskName) + [result]]];
    forall s: CallbackStatus, name: string, i: int | s in nb && name in nb[s] && 0 <= i < |nb[s][name]|
      ensures nb[s][name][i] in results + [result] && nb[s][name][i].taskName == name
    {
      if s == status && name == result.taskName && i == |Get2(buckets[status], result.taskName)| {
        assert nb[s][name][i] == result;
      } else {
        assert nb[s][name][i] == buckets[s][name][i];
      }
    }
  }

  /** `setdefault(name, [])`: the list already stored under a task name, or a new empty one. */
  function Get2(bucket: map<string, seq<TaskResult>>, name: string): (r: seq<TaskResult>)
    ensures name in bucket ==> r == bucket[name]
    ensures name !in bucket ==> r == []
  {
    if name in bucket then bucket[name] else []
  }

  // ---------------------------------------------------------------------------
  // The tail of AnsibleConfigurator.run

  /** `a.update(b) or a`, reduced from `{}`: the per-task dicts merged left to right. */
  function MergeUpdates(ms: seq<map<string, Value>>): map<string, Value>
    decreases |ms|
  {
    if ms == [] then map[] else MergeUpdates(ms[..|ms| - 1]) + ms[|ms| - 1]
  }

  /** Later tasks override earlier keys: each key comes from the last dict holding it. */
  lemma {:induction false} LaterTasksWin(ms: seq<map<string, Value>>, k: string, i: nat)
    requires i < |ms| && k in ms[i] && forall j :: i < j < |ms| ==> k !in ms[j]
    ensures k in MergeUpdates(ms) && MergeUpdates(ms)[k] == ms[i][k]
    decreases |ms|
  {
    if i < |ms| - 1 {
      LaterTasksWin(ms[..|ms| - 1], k, i);
    }
  }

  /** `getAnsibleResults` of each task result, in order; the first exception stops it. */
  function AllResults(results: seq<TaskResult>, resultKeys: seq<string>, factKeys: seq<string>)
    : (r: Outcome<seq<(map<string, Value>, map<string, Value>)>>)
    ensures r.Returns? ==> |r.value| == |results|
    decreases |results|
  {
    if results == [] then Returns([])
    else
      match AllResults(results[..|results| - 1], resultKeys, factKeys)
      case Raises(e) => Raises(e)
      case Returns(prefix) =>
        match AnsibleResults(results[|results| - 1].raw, resultKeys, factKeys)
        case Raises(e) => Raises(e)
        case Returns(pair) => Returns(prefix + [pair])
  }

  function Firsts(pairs: seq<(map<string, Value>, map<string, Value>)>): (r: seq<map<string, Value>>)
    ensures |r| == |pairs| && forall i :: 0 <= i < |pairs| ==> r[i] == pairs[i].0
  {
    seq(|pairs|, i requires 0 <= i < |pairs| => pairs[i].0)
  }

  function Seconds(pairs: seq<(map<string, Value>, map<string, Value>)>): (r: seq<map<string, Value>>)
    ensures |r| == |pairs| && forall i :: 0 <= i < |pairs| ==> r[i] == pairs[i].1
  {
    seq(|pairs|, i requires 0 <= i < |pairs| => pairs[i].1)
  }

  /**
   * `resultList, outputList = zip(*map(...))` and the two reductions, as
   * written: with no task results `zip(*[])` is empty and the unpacking
   * raises ValueError.
   */
  function MergeResultsAsWritten(results: seq<TaskResult>, resultKeys: seq<string>, factKeys: seq<string>)
    : (r: Outcome<(map<string, Value>, map<string, Value>)>)
    ensures results == [] ==> r == Raises(ValueError)
  {
    match AllResults(results, resultKeys, factKeys)
    case Raises(e) => Raises(e)
    case Returns(pairs) =>
      if pairs == [] then Raises(ValueError)
      else Returns((MergeUpdates(Firsts(pairs)), MergeUpdates(Seconds(pairs))))
  }

  /** The merged results and outputs, with no task results giving two empty dicts. */
  function MergeResults(results: seq<TaskResult>, resultKeys: seq<string>, factKeys: seq<string>)
    : (r: Outcome<(map<string, Value>, map<string, Value>)>)
    ensures results == [] ==> r == Returns((map[], map[]))
    ensures results != [] ==> r == MergeResultsAsWritten(results, resultKeys, factKeys)
  {
    match AllResults(results, resultKeys, factKeys)
    case Raises(e) => Raises(e)
    case Returns(pairs) => Returns((MergeUpdates(Firsts(pairs)), MergeUpdates(Seconds(pairs))))
  }

  /** A playbook that produced no task results breaks `run` as written, and gives empty results corrected. */
  lemma NoTaskResults(resultKeys: seq<string>, factKeys: seq<string>)
    ensures MergeResultsAsWritten([], resultKeys, factKeys) == Raises(ValueError)
    ensures MergeResults([], resultKeys, factKeys) == Returns((map[], map[]))
  {
  }

  /** The run's status: `error` when ansible exited non-zero or some task failed. */
  function PlaybookStatus(cbExitCode: int, failedBucket: map<string, seq<TaskResult>>): (s: Status)
    ensures s == Ok <==> cbExitCode == 0 && failedBucket == map[]
    ensures s == Ok || s == Error
  {
    if cbExitCode != 0 || |failedBucket| > 0 then Error else Ok
  }

  /** The `modified` passed to `done`: a failed task that changed something makes it `Status.error`. */
  function ModifiedOf(changed: int, results: seq<TaskResult>): (m: ModifiedArg)
    ensures changed <= 0 ==> m == Flag(Some(false))
    ensures changed > 0 && (exists i :: 0 <= i < |results| && results[i].failed && ReportsChanged(results[i])) ==>
      m == StatusGiven(Error)
    ensures changed > 0 && (forall i :: 0 <= i < |results| ==> !(results[i].failed && ReportsChanged(results[i]))) ==>
      m == Flag(Some(true))
  {
    if changed > 0 then
      if exists i :: 0 <= i < |results| && results[i].failed && ReportsChanged(results[i]) then StatusGiven(Error)
      else Flag(Some(true))
    else Flag(Some(false))
  }

  /** Some result reports a change iff the count of changes is positive. */
  lemma {:induction false} CountChangedPositive(results: seq<TaskResult>)
    ensures CountChanged(results) > 0 <==> exists i :: 0 <= i < |results| && ReportsChanged(results[i])
    decreases |results|
  {
    if results != [] {
      var prefix := results[..|results| - 1];
      CountChangedPositive(prefix);
      assert forall i :: 0 <= i < |prefix| ==> prefix[i] == results[i];
      if CountChanged(prefix) == 0 && ReportsChanged(results[|results| - 1]) {
        assert 0 <= |results| - 1 < |results| && ReportsChanged(results[|results| - 1]);
      }
    }
  }

  /**
   * The result `run` yields from the callback's state, corrected.
   * `taskHasErrors` is `task.errors` being non-empty, `required` the task's
   * `required`, and `factKeys` the names of the operation's declared
   * outputs. Result keys are `getResultKeys`, which gives none.
   */
  function RunResult(cb: ResultCallback, taskHasErrors: bool, required: bool, factKeys: seq<string>)
    : (r: Outcome<ConfiguratorResult>)
    reads cb
    requires cb.Valid()
    ensures var merged := MergeResults(cb.results, [], factKeys);
      && (r.Raises? <==> merged.Raises?)
      && (r.Raises? ==> r.error == merged.error)
      && (r.Returns? ==> r.value.result == Dict(merged.value.0) && r.value.outputs == Dict(merged.value.1))
  {
    var status := PlaybookStatus(cb.exitCode, cb.buckets[FailedResult]);
    match MergeResults(cb.results, [], factKeys)
    case Raises(e) => Raises(e)
    case Returns((merged, outputs)) =>
      Returns(Done(required, status == Ok && !taskHasErrors, ModifiedOf(cb.changed, cb.results), None,
                   Dict(merged), Dict(outputs)))
  }

  /**
   * The tail of `run` as written: `list(task.configSpec.outputs)` looks up an
   * `outputs` attribute on the spec object, whose attributes are
   * `attributes`, before any result is merged.
   */
  function RunResultAsWritten(cb: ResultCallback, taskHasErrors: bool, required: bool,
                              attributes: set<string>, factKeys: seq<string>): (r: Outcome<ConfiguratorResult>)
    reads cb
    requires cb.Valid()
    ensures "outputs" !in attributes ==> r == Raises(AttributeError("outputs"))
    ensures "outputs" in attributes ==> r == RunResult(cb, taskHasErrors, required, factKeys)
  {
    if "outputs" !in attributes then Raises(AttributeError("outputs"))
    else RunResult(cb, taskHasErrors, required, factKeys)
  }

  /**
   * A ConfigurationSpec has no `outputs`, so as written every playbook run
   * ends in AttributeError, even one whose results merge cleanly.
   */
  lemma OutputsLookupRaises(cb: ResultCallback, taskHasErrors: bool, required: bool, factKeys: seq<string>)
    requires cb.Valid()
    ensures RunResultAsWritten(cb, taskHasErrors, required, SpecAttributes, factKeys) == Raises(AttributeError("outputs"))
    ensures MergeResults(cb.results, [], factKeys).Returns? ==> RunResult(cb, taskHasErrors, required, factKeys).Returns?
  {
    assert "outputs" !in SpecAttributes;
  }

  /**
   * The run succeeds iff ansible exited cleanly, no task failed and the task
   * has no errors; it reports modified iff some task result reports a
   * change; and a failed task result that changed something leaves the
   * target in error.
   */
  lemma RunResultMeaning(cb: ResultCallback, taskHasErrors: bool, required: bool, factKeys: seq<string>)
    requires cb.Valid() && RunResult(cb, taskHasErrors, required, factKeys).Returns?
    ensures var r := RunResult(cb, taskHasErrors, required, factKeys).value;
      && (r.success == Some(true) <==> cb.exitCode == 0 && cb.buckets[FailedResult] == map[] && !taskHasErrors)
      && (r.modified == Some(true) <==> exists i :: 0 <= i < |cb.results| && ReportsChanged(cb.results[i]))
      && ((exists i :: 0 <= i < |cb.results| && cb.results[i].failed && ReportsChanged(cb.results[i]))
          ==> r.readyState == Some(Error))
  {
    CountChangedPositive(cb.results);
  }

  /** `_processResult` runs iff there are results or outputs and the status is ok (the status is never `degraded` here). */
  predicate ProcessesResult(status: Status, merged: map<string, Value>, outputs: map<string, Value>) {
    ((merged != map[] || outputs != map[]) && status == Ok) || status == Degraded
  }

  lemma ProcessOnlyOnSuccess(exitCode: int, failedBucket: map<string, seq<TaskResult>>,
                             merged: map<string, Value>, outputs: map<string, Value>)
    ensures ProcessesResult(PlaybookStatus(exitCode, failedBucket), merged, outputs) <==>
      exitCode == 0 && failedBucket == map[] && (merged != map[] || outputs != map[])
  {
  }
}
