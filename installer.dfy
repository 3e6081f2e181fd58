/**
 * Turning an implementation, or an operation of a configurator template
 * (an "installer"), into a configuration spec (unfurl/configurator.py,
 * `getConfigSpecArgsFromImplementation` and `getConfigSpecFromInstaller`).
 * `knownClass` stands for `lookupClass`: whether a configurator class of that
 * name can be loaded.
 */
module Installer {
  import opened Wrappers
  import opened Values
  import opened Configurator

  const ShellConfiguratorClass: string := "unfurl.configurators.shell.ShellConfigurator"

  predicate WordChar(c: char) {
    'a' <= c <= 'z' || 'A' <= c <= 'Z' || '0' <= c <= '9' || c == '_'
  }

  /** `re.match(r"[\w.-]+\Z", s)`: a single word that can be run without a shell. */
  predicate IsPlainCommand(s: string) {
    s != "" && forall i :: 0 <= i < |s| ==> WordChar(s[i]) || s[i] == '.' || s[i] == '-'
  }

  /** The implementation a `primary` entry names: an artifact definition stands for its `file`. */
  function PrimaryImplementation(primary: Value): (r: Value)
    ensures primary.Dict? ==> r == Get(primary.fields, "file", Null)
    ensures !primary.Dict? ==> r == primary
  {
    if primary.Dict? then Get(primary.fields, "file", Null) else primary
  }

  /** The entries of an implementation dict that are spec arguments. */
  function SpecArgsOf(fields: map<string, Value>): (r: map<string, Value>)
    ensures r.Keys == fields.Keys * SpecDefaultNames
    ensures forall k :: k in r ==> r[k] == fields[k]
  {
    map k | k in fields && k in SpecDefaultNames :: fields[k]
  }

  /** The implementation after its `primary` entry, if any, has replaced it. */
  function ResolvedImplementation(implementation: Value): Value {
    if implementation.Dict? && "primary" in implementation.fields
    then PrimaryImplementation(implementation.fields["primary"])
    else implementation
  }

  /** The spec arguments before a class is chosen: `inputs`, overridden by the implementation's own spec arguments. */
  function BaseArgs(implementation: Value, inputs: Value): map<string, Value> {
    map["inputs" := inputs] + (if implementation.Dict? then SpecArgsOf(implementation.fields) else map[])
  }

  /**
   * `getConfigSpecArgsFromImplementation`, as a reference definition. A name
   * that is not a loadable class is taken as a command line for the shell
   * configurator; the class lookup of a non-string fails, and so the regular
   * expression is then applied to a non-string, which raises TypeError.
   */
  function ImplementationArgs(implementation: Value, inputs: Value, knownClass: string -> bool)
    : (r: Outcome<map<string, Value>>)
  {
    var kw := BaseArgs(implementation, inputs);
    var impl := ResolvedImplementation(implementation);
    if "className" in kw then Returns(kw)
    else if impl.Str? && knownClass(impl.s) then Returns(kw["className" := impl])
    else if Truthy(inputs) && !inputs.Dict? then Raises(AttributeError("get"))
    else
      var shell := if Truthy(inputs) then Get(inputs.fields, "shell", Null) else inputs;
      if shell != Bool(false) && !impl.Str? then Raises(TypeError)
      else
        var command := if shell == Bool(false) || IsPlainCommand(impl.s) then List([impl]) else impl;
        var shellArgs := map["command" := command] + (if Truthy(inputs) then inputs.fields else map[]);
        Returns(kw["className" := Str(ShellConfiguratorClass)]["inputs" := Dict(shellArgs)])
  }

  /** Taking one more entry of an implementation dict adds it to the spec arguments when it is one. */
  lemma SpecArgsStep(items: map<string, Value>, pending: set<string>, name: string, inputs: Value)
    requires name in pending && pending <= items.Keys
    ensures name in SpecDefaultNames ==>
      map["inputs" := inputs] + SpecArgsOf(items - (pending - {name}))
        == (map["inputs" := inputs] + SpecArgsOf(items - pending))[name := items[name]]
    ensures name !in SpecDefaultNames ==>
      SpecArgsOf(items - (pending - {name})) == SpecArgsOf(items - pending)
  {
    if name in SpecDefaultNames {
      assert SpecArgsOf(items - (pending - {name})) == SpecArgsOf(items - pending)[name := items[name]];
    } else {
      assert SpecArgsOf(items - (pending - {name})) == SpecArgsOf(items - pending);
    }
  }

  /**
   * The loop of `getConfigSpecArgsFromImplementation` over the entries of an
   * implementation dict: spec arguments are collected over `inputs`, and a
   * `primary` entry replaces the implementation.
   */
  method ScanImplementation(implementation: Value, inputs: Value)
    returns (kw: map<string, Value>, impl: Value)
    ensures kw == BaseArgs(implementation, inputs)
    ensures impl == ResolvedImplementation(implementation)
  {
    kw := map["inputs" := inputs];
    impl := implementation;
    if implementation.Dict? {
      var items := implementation.fields;
      var pending := items.Keys;
      while pending != {}
        invariant pending <= items.Keys
        invariant kw == map["inputs" := inputs] + SpecArgsOf(items - pending)
        invariant impl == if "primary" in items && "primary" !in pending
                          then PrimaryImplementation(items["primary"]) else implementation
        decreases pending
      {
        var name :| name in pending;
        var value := items[name];
        if name == "primary" {
          impl := value;
          if impl.Dict? {
            impl := Get(impl.fields, "file", Null);
          }
        } else if name in SpecDefaultNames {
          kw := kw[name := value];
        }
        SpecArgsStep(items, pending, name, inputs);
        pending := pending - {name};
      }
      assert items - pending == items;
    } else {
      assert kw == kw + map[];
    }
  }

  /** `getConfigSpecArgsFromImplementation(implementation, inputs)` */
  method GetConfigSpecArgsFromImplementation(implementation: Value, inputs: Value, knownClass: string -> bool)
    returns (r: Outcome<map<string, Value>>)
    ensures r == ImplementationArgs(implementation, inputs, knownClass)
  {
    var kw, impl := ScanImplementation(implementation, inputs);
    if "className" in kw {
      return Returns(kw);
    }
    if impl.Str? && knownClass(impl.s) {
      return Returns(kw["className" := impl]);
    }
    kw := kw["className" := Str(ShellConfiguratorClass)];
    var shell := inputs;
    if Truthy(inputs) {
      if !inputs.Dict? {
        return Raises(AttributeError("get"));
      }
      shell := Get(inputs.fields, "shell", Null);
    }
    var shellArgs: map<string, Value>;
    if shell == Bool(false) {
      shellArgs := map["command" := List([impl])];
    } else if !impl.Str? {
      return Raises(TypeError);
    } else if IsPlainCommand(impl.s) {
      shellArgs := map["command" := List([impl])];
    } else {
      shellArgs := map["command" := impl];
    }
    if Truthy(inputs) {
      shellArgs := shellArgs + inputs.fields;
    } else {
      assert shellArgs + map[] == shellArgs;
    }
    kw := kw["inputs" := Dict(shellArgs)];
    return Returns(kw);
  }

  /** Only spec argument names come out, with a class name, and `primary` names the class when it is loadable. */
  lemma ImplementationArgsShape(implementation: Value, inputs: Value, knownClass: string -> bool)
    requires ImplementationArgs(implementation, inputs, knownClass).Returns?
    ensures var kw := ImplementationArgs(implementation, inputs, knownClass).value;
      && kw.Keys <= SpecDefaultNames
      && "className" in kw && "inputs" in kw
  {
  }

  /** A `primary` naming a loadable class becomes the class name, the caller's inputs are kept. */
  lemma PrimaryClassChosen(fields: map<string, Value>, inputs: Value, knownClass: string -> bool)
    requires "primary" in fields && fields["primary"].Str? && knownClass(fields["primary"].s)
    requires "className" !in fields && "inputs" !in fields
    ensures ImplementationArgs(Dict(fields), inputs, knownClass)
         == Returns(SpecArgsOf(fields)["inputs" := inputs]["className" := fields["primary"]])
  {
    assert BaseArgs(Dict(fields), inputs) == SpecArgsOf(fields)["inputs" := inputs];
  }

  /**
   * A command line that is not a loadable class goes to the shell configurator:
   * as a one-element list when the shell is switched off or the command is a
   * single plain word, as the string otherwise; the inputs are merged over it.
   */
  lemma ShellCommandForm(command: string, inputs: map<string, Value>, knownClass: string -> bool)
    requires !knownClass(command)
    ensures var r := ImplementationArgs(Str(command), Dict(inputs), knownClass);
      var useList := Get(inputs, "shell", Null) == Bool(false) || IsPlainCommand(command);
      && r.Returns?
      && r.value["className"] == Str(ShellConfiguratorClass)
      && r.value["inputs"].Dict?
      && (forall k :: k in inputs ==> r.value["inputs"].fields[k] == inputs[k])
      && ("command" !in inputs ==>
            r.value["inputs"].fields["command"] == if useList then List([Str(command)]) else Str(command))
      && r.value["inputs"] == Dict(ShellInputs(command, inputs))
  {
  }

  /** `shellArgs`: the command, as a one-element list or as the string, with the inputs merged over it. */
  function ShellInputs(command: string, inputs: map<string, Value>): map<string, Value> {
    var useList := Get(inputs, "shell", Null) == Bool(false) || IsPlainCommand(command);
    map["command" := if useList then List([Str(command)]) else Str(command)] + inputs
  }

  // ---------------------------------------------------------------------------
  // getConfigSpecFromInstaller

  /**
   * Which entry of `operations` the action selects, before aliases: an action
   * present with an empty value is explicitly unsupported, an absent one
   * falls back to `default` only when `useDefault` is set.
   */
  function SelectOperation(ops: map<string, Value>, action: string, useDefault: bool): (r: Option<Value>)
    ensures action in ops && !Truthy(ops[action]) ==> r == None
    ensures action in ops && Truthy(ops[action]) ==> r == Some(ops[action])
    ensures action !in ops && !useDefault ==> r == None
    ensures action !in ops && useDefault ==>
      r == if "default" in ops && Truthy(ops["default"]) then Some(ops["default"]) else None
    ensures r.Some? ==> Truthy(r.value)
  {
    var attributes := if action in ops then ops[action] else if useDefault then Get(ops, "default", Null) else Null;
    if Truthy(attributes) then Some(attributes) else None
  }

  /** What `attributes` holds after `steps` rounds of the alias loop: a string is looked up as another key. */
  function FollowAliases(ops: map<string, Value>, attributes: Value, steps: nat): Value
    decreases steps
  {
    if steps == 0 || !attributes.Str? then attributes
    else FollowAliases(ops, Get(ops, attributes.s, Null), steps - 1)
  }

  /** Once the loop reaches a non-string it stops changing `attributes`. */
  lemma {:induction false} FollowStable(ops: map<string, Value>, attributes: Value, steps: nat)
    requires !attributes.Str?
    ensures FollowAliases(ops, attributes, steps) == attributes
  {
  }

  lemma {:induction false} FollowSplit(ops: map<string, Value>, attributes: Value, i: nat, k: nat)
    ensures FollowAliases(ops, attributes, i + k) == FollowAliases(ops, FollowAliases(ops, attributes, i), k)
    decreases i
  {
    if i == 0 {
    } else if !attributes.Str? {
      FollowStable(ops, attributes, i + k);
      FollowStable(ops, attributes, i);
      FollowStable(ops, attributes, k);
    } else {
      FollowSplit(ops, Get(ops, attributes.s, Null), i - 1, k);
    }
  }

  /** Aliases that only ever name further aliases (a cycle) are still a string after any number of rounds. */
  lemma {:induction false} CyclicAliasesStayStrings(ops: map<string, Value>, attributes: Value, steps: nat)
    requires forall k :: k in ops ==> ops[k].Str? && ops[k].s in ops
    requires attributes.Str? && attributes.s in ops
    ensures FollowAliases(ops, attributes, steps).Str?
    decreases steps
  {
    if steps > 0 {
      CyclicAliasesStayStrings(ops, ops[attributes.s], steps - 1);
    }
  }

  /**
   * `dict(base, **overrides)`: the keys of `overrides` win over those of `base`.
   * Used for the shared defaults under an operation's own entry, and for the
   * installer's inputs under the caller's.
   */
  function Overlay(base: map<string, Value>, overrides: map<string, Value>): (r: map<string, Value>)
    ensures r.Keys == base.Keys + overrides.Keys
    ensures forall k :: k in overrides ==> r[k] == overrides[k]
    ensures forall k :: k in base && k !in overrides ==> r[k] == base[k]
  {
    base + overrides
  }

  /** The alias loop: at most `|ops|` rounds, stopping at the first value that is not a string. */
  method ResolveAliases(ops: map<string, Value>, selected: Value) returns (attributes: Value)
    ensures attributes == FollowAliases(ops, selected, |ops|)
  {
    attributes := selected;
    var n := |ops|;
    var i := 0;
    while i < n
      invariant 0 <= i <= n
      invariant attributes == FollowAliases(ops, selected, i)
    {
      if !attributes.Str? {
        assert attributes == FollowAliases(ops, selected, n) by {
          FollowSplit(ops, selected, i, n - i);
          FollowStable(ops, attributes, n - i);
        }
        break;
      }
      FollowSplit(ops, selected, i, 1);
      attributes := Get(ops, attributes.s, Null);
      i := i + 1;
    }
  }

  /** The operation entry after aliases and shared defaults, or None when there is none to use. */
  function OperationEntry(ops: map<string, Value>, action: string, useDefault: bool): Outcome<Option<map<string, Value>>>
  {
    match SelectOperation(ops, action, useDefault)
    case None => Returns(None)
    case Some(selected) =>
      var attributes := FollowAliases(ops, selected, |ops|);
      if !attributes.Dict? then Returns(None)
      else
        var shared := Get(ops, "shared", Null);
        if !Truthy(shared) then Returns(Some(attributes.fields))
        else if !shared.Dict? then Raises(TypeError)
        else Returns(Some(Overlay(shared.fields, attributes.fields)))
  }

  /** `getConfigSpecFromInstaller`, as a reference definition; Returns(None) is the function's `return None`. */
  function SpecFromInstaller(template: Installer, action: string, inputs: Value, knownClass: string -> bool,
                             useDefault: bool): Outcome<Option<ConfigurationSpec>>
  {
    if "operations" !in template.properties then Raises(KeyError("operations"))
    else if !template.properties["operations"].Dict? then Raises(TypeError)
    else
      match OperationEntry(template.properties["operations"].fields, action, useDefault)
      case Raises(e) => Raises(e)
      case Returns(None) => Returns(None)
      case Returns(Some(attributes)) =>
        if "implementation" !in attributes then Returns(None)
        else
          var own := Get(attributes, "inputs", Dict(map[]));
          if Truthy(inputs) && !(own.Dict? && inputs.Dict?) then Raises(TypeError)
          else
            var installerInputs := if Truthy(inputs) then Dict(Overlay(own.fields, inputs.fields)) else own;
            match ImplementationArgs(attributes["implementation"], installerInputs, knownClass)
            case Raises(e) => Raises(e)
            case Returns(kw) =>
              match MakeConfigSpec(template.name, action, kw - {"installer"}, Some(template))
              case Raises(e) => Raises(e)
              case Returns(spec) => Returns(Some(spec))
  }

  /** The selection of the operation entry, the alias loop and the merge of the shared defaults. */
  method FindOperationEntry(ops: map<string, Value>, action: string, useDefault: bool)
    returns (r: Outcome<Option<map<string, Value>>>)
    ensures r == OperationEntry(ops, action, useDefault)
  {
    var attributes := Null;
    if action in ops {
      attributes := ops[action];
      if !Truthy(attributes) {
        return Returns(None);
      }
    } else if useDefault {
      attributes := Get(ops, "default", Null);
    }
    if !Truthy(attributes) {
      return Returns(None);
    }
    attributes := ResolveAliases(ops, attributes);
    if !attributes.Dict? {
      return Returns(None);
    }
    var attrs := attributes.fields;
    var defaults := Get(ops, "shared", Null);
    if Truthy(defaults) {
      if !defaults.Dict? {
        return Raises(TypeError);
      }
      attrs := defaults.fields + attrs;
    }
    return Returns(Some(attrs));
  }

  /** `getConfigSpecFromInstaller(configuratorTemplate, action, inputs, useDefault)` */
  method GetConfigSpecFromInstaller(template: Installer, action: string, inputs: Value, knownClass: string -> bool,
                                    useDefault: bool := true)
    returns (r: Outcome<Option<ConfigurationSpec>>)
    ensures r == SpecFromInstaller(template, action, inputs, knownClass, useDefault)
  {
    if "operations" !in template.properties {
      return Raises(KeyError("operations"));
    }
    var operations := template.properties["operations"];
    if !operations.Dict? {
      return Raises(TypeError);
    }
    var entry := FindOperationEntry(operations.fields, action, useDefault);
    if entry.Raises? {
      return Raises(entry.error);
    }
    if entry.value.None? {
      return Returns(None);
    }
    var attrs := entry.value.value;
    if "implementation" !in attrs {
      return Returns(None);
    }
    var installerInputs := Get(attrs, "inputs", Dict(map[]));
    if Truthy(inputs) {
      if !(installerInputs.Dict? && inputs.Dict?) {
        return Raises(TypeError);
      }
      installerInputs := Dict(installerInputs.fields + inputs.fields);
    }
    var kw := GetConfigSpecArgsFromImplementation(attrs["implementation"], installerInputs, knownClass);
    if kw.Raises? {
      return Raises(kw.error);
    }
    var spec := MakeConfigSpec(template.name, action, kw.value - {"installer"}, Some(template));
    if spec.Raises? {
      return Raises(spec.error);
    }
    return Returns(Some(spec.value));
  }

  /** Aliases forming a cycle never reach a dict, so the lookup gives None instead of looping. */
  lemma CyclicAliasesGiveNone(template: Installer, action: string, inputs: Value, knownClass: string -> bool,
                              useDefault: bool)
    requires "operations" in template.properties && template.properties["operations"].Dict?
    requires var ops := template.properties["operations"].fields;
      forall k :: k in ops ==> ops[k].Str? && ops[k].s in ops
    ensures SpecFromInstaller(template, action, inputs, knownClass, useDefault) == Returns(None)
  {
    var ops := template.properties["operations"].fields;
    var selected := SelectOperation(ops, action, useDefault);
    if selected.Some? {
      CyclicAliasesStayStrings(ops, selected.value, |ops|);
    }
  }

  /** A dict reached through one alias is the entry used. */
  lemma AliasResolved(ops: map<string, Value>, alias: string, entry: map<string, Value>, steps: nat)
    requires alias in ops && ops[alias] == Dict(entry) && steps >= 1
    ensures FollowAliases(ops, Str(alias), steps) == Dict(entry)
  {
    FollowStable(ops, Dict(entry), steps - 1);
  }

  /** Every spec found is named after the installer, has the requested action as its operation and records the installer. */
  lemma InstallerSpecIdentity(template: Installer, action: string, inputs: Value, knownClass: string -> bool,
                              useDefault: bool)
    requires SpecFromInstaller(template, action, inputs, knownClass, useDefault).Returns?
    requires SpecFromInstaller(template, action, inputs, knownClass, useDefault).value.Some?
    ensures var spec := SpecFromInstaller(template, action, inputs, knownClass, useDefault).value.value;
      spec.name == template.name && spec.operation == action && spec.installer == Some(template)
  {
  }

  /** An operation entry without an `implementation`, even after the shared defaults, gives no spec. */
  lemma MissingImplementationGivesNone(template: Installer, action: string, inputs: Value, knownClass: string -> bool,
                                       useDefault: bool)
    requires "operations" in template.properties && template.properties["operations"].Dict?
    requires var entry := OperationEntry(template.properties["operations"].fields, action, useDefault);
      entry.Returns? && entry.value.Some? && "implementation" !in entry.value.value
    ensures SpecFromInstaller(template, action, inputs, knownClass, useDefault) == Returns(None)
  {
  }

  /** A command line naming a loadable class is that class; the inputs are passed as they are. */
  lemma ClassNameForm(command: string, inputs: Value, knownClass: string -> bool)
    requires knownClass(command)
    ensures var r := ImplementationArgs(Str(command), inputs, knownClass);
      && r.Returns? && r.value.Keys == {"inputs", "className"}
      && r.value["className"] == Str(command) && r.value["inputs"] == inputs
  {
  }

  /** With the caller's inputs given, the spec found is built from the implementation's arguments over the merged inputs. */
  lemma SpecOfEntry(template: Installer, action: string, inputs: map<string, Value>, knownClass: string -> bool,
                    useDefault: bool, own: map<string, Value>, attributes: map<string, Value>, spec: ConfigurationSpec)
    requires "operations" in template.properties && template.properties["operations"].Dict?
    requires OperationEntry(template.properties["operations"].fields, action, useDefault) == Returns(Some(attributes))
    requires "implementation" in attributes && Get(attributes, "inputs", Dict(map[])) == Dict(own)
    requires inputs != map[]
    requires SpecFromInstaller(template, action, Dict(inputs), knownClass, useDefault) == Returns(Some(spec))
    ensures var kw := ImplementationArgs(attributes["implementation"], Dict(Overlay(own, inputs)), knownClass);
      kw.Returns? && MakeConfigSpec(template.name, action, kw.value - {"installer"}, Some(template)) == Returns(spec)
  {
    assert Truthy(Dict(inputs));
  }

  /**
   * An implementation named by a string: the spec's inputs hold the caller's
   * inputs over the installer's own inputs (which the shared defaults may
   * supply). A loadable class gets exactly that merge and is the class name;
   * any other string is a shell command, and `shellArgs.update(inputs)` puts
   * the whole merge over its `command`, so an installer's own `command`
   * input wins too.
   */
  lemma CallerInputsWin(template: Installer, action: string, inputs: map<string, Value>, knownClass: string -> bool,
                        useDefault: bool, command: string, own: map<string, Value>, attributes: map<string, Value>,
                        spec: ConfigurationSpec)
    requires "operations" in template.properties && template.properties["operations"].Dict?
    requires OperationEntry(template.properties["operations"].fields, action, useDefault) == Returns(Some(attributes))
    requires Get(attributes, "implementation", Null) == Str(command) && Get(attributes, "inputs", Dict(map[])) == Dict(own)
    requires inputs != map[]
    requires SpecFromInstaller(template, action, Dict(inputs), knownClass, useDefault) == Returns(Some(spec))
    ensures spec.inputs.Dict?
    ensures spec.className == Str(if knownClass(command) then command else ShellConfiguratorClass)
    ensures forall k :: k in inputs ==> k in spec.inputs.fields && spec.inputs.fields[k] == inputs[k]
    ensures forall k :: k in own && k !in inputs ==> k in spec.inputs.fields && spec.inputs.fields[k] == own[k]
    ensures knownClass(command) ==> spec.inputs == Dict(Overlay(own, inputs))
    ensures !knownClass(command) ==> spec.inputs == Dict(ShellInputs(command, Overlay(own, inputs)))
  {
    var merged := Overlay(own, inputs);
    if knownClass(command) {
      ClassNameForm(command, Dict(merged), knownClass);
    } else {
      ShellCommandForm(command, merged, knownClass);
    }
    assert attributes["implementation"] == Str(command);
    SpecOfEntry(template, action, inputs, knownClass, useDefault, own, attributes, spec);
    var kw := ImplementationArgs(Str(command), Dict(merged), knownClass).value;
    SpecKeepsArgs(template.name, action, kw, Some(template), spec);
  }

  /** A spec built from arguments with truthy inputs holds those inputs and that class name. */
  lemma SpecKeepsArgs(name: string, action: string, kw: map<string, Value>, installer: Option<Installer>,
                      spec: ConfigurationSpec)
    requires MakeConfigSpec(name, action, kw - {"installer"}, installer) == Returns(spec)
    requires "inputs" in kw && Truthy(kw["inputs"]) && "className" in kw
    ensures spec.inputs == kw["inputs"] && spec.className == kw["className"]
  {
    assert (kw - {"installer"})["inputs"] == kw["inputs"];
    assert (kw - {"installer"})["className"] == kw["className"];
  }
}
