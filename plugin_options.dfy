/** `setup_plugin_args`, which gives every plugin an option store of its
    arguments' defaults, and `setup_plugin_options`, which copies the parsed
    values of one plugin's arguments into its store, collects the arguments
    that must be set and reports those left unset. */
module PluginSetup {
  import opened Values
  import opened Sessions

  // ---------------------------------------------------------------------
  // setup_plugin_args

  /** No later argument of `specs` than the `i`-th has its destination. */
  predicate LastForDest(specs: seq<ArgSpec>, i: int)
    requires 0 <= i < |specs|
  {
    forall j :: i < j < |specs| ==> specs[j].dest != specs[i].dest
  }

  /** The store `PluginOptions(defaults)` of a plugin. */
  function Defaults(specs: seq<ArgSpec>): Store
    decreases |specs|
  {
    if specs == [] then map[]
    else Defaults(specs[..|specs| - 1])[specs[|specs| - 1].dest := specs[|specs| - 1].default]
  }

  /** The store holds the destinations of the arguments and no other key. */
  lemma {:induction false} DefaultsKeys(specs: seq<ArgSpec>)
    ensures forall k :: k in Defaults(specs) <==> exists i :: 0 <= i < |specs| && specs[i].dest == k
    decreases |specs|
  {
    if specs != [] {
      var init := specs[..|specs| - 1];
      var last := specs[|specs| - 1];
      DefaultsKeys(init);
      var before := Defaults(init);
      var r := Defaults(specs);
      assert r == before[last.dest := last.default];
      forall k ensures k in r <==> exists i :: 0 <= i < |specs| && specs[i].dest == k {
        if k in before {
          var i :| 0 <= i < |init| && init[i].dest == k;
          assert specs[i].dest == k;
        }
        if exists i :: 0 <= i < |specs| && specs[i].dest == k {
          var i :| 0 <= i < |specs| && specs[i].dest == k;
          if i < |init| {
            assert init[i].dest == k;
          }
        }
      }
    }
  }

  /** Each argument's destination holds the argument's default, a later
      argument with the same destination overriding an earlier one. */
  lemma {:induction false} DefaultsValues(specs: seq<ArgSpec>, i: int)
    requires 0 <= i < |specs| && LastForDest(specs, i)
    ensures specs[i].dest in Defaults(specs) && Defaults(specs)[specs[i].dest] == specs[i].default
    decreases |specs|
  {
    var init := specs[..|specs| - 1];
    var last := specs[|specs| - 1];
    assert Defaults(specs) == Defaults(init)[last.dest := last.default];
    if i < |init| {
      assert specs[|init|].dest != specs[i].dest;
      assert init[i] == specs[i];
      assert LastForDest(init, i);
      DefaultsValues(init, i);
    } else {
      assert i == |specs| - 1;
    }
  }

  /** `setup_plugin_args`: every known plugin's store becomes the store of
      its arguments' defaults; the stores of other names stay as they were. */
  method SetupPluginArgs(session: Session)
    modifies session`pluginOptions
    ensures forall p :: p in session.pluginOptions <==> p in old(session.pluginOptions) || p in session.plugins
    ensures forall p :: p in session.plugins ==> session.pluginOptions[p] == Defaults(session.plugins[p].arguments)
    ensures forall p :: p in session.pluginOptions && p !in session.plugins ==>
      session.pluginOptions[p] == old(session.pluginOptions)[p]
  {
    var pending := session.plugins.Keys;
    while pending != {}
      invariant pending <= session.plugins.Keys
      invariant forall p :: p in session.pluginOptions <==>
        p in old(session.pluginOptions) || (p in session.plugins && p !in pending)
      invariant forall p :: p in session.plugins && p !in pending ==>
        session.pluginOptions[p] == Defaults(session.plugins[p].arguments)
      invariant forall p :: p in session.pluginOptions && (p !in session.plugins || p in pending) ==>
        session.pluginOptions[p] == old(session.pluginOptions)[p]
      decreases |pending|
    {
      var pname :| pname in pending;
      var arguments := session.plugins[pname].arguments;
      var defaults: Store := map[];
      var j := 0;
      while j < |arguments|
        invariant 0 <= j <= |arguments|
        invariant defaults == Defaults(arguments[..j])
      {
        assert arguments[..j + 1][..j] == arguments[..j];
        defaults := defaults[arguments[j].dest := arguments[j].default];
        j := j + 1;
      }
      assert arguments[..j] == arguments;
      session.pluginOptions := session.pluginOptions[pname := defaults];
      pending := pending - {pname};
    }
  }

  // ---------------------------------------------------------------------
  // The `required` OrderedDict of setup_plugin_options, keyed by name

  /** The position of the entry named `name`, or -1 when there is none. */
  function Position(entries: seq<ArgSpec>, name: string): (r: int)
    ensures -1 <= r < |entries|
    ensures r >= 0 ==> entries[r].name == name
    ensures r == -1 <==> forall i :: 0 <= i < |entries| ==> entries[i].name != name
  {
    if entries == [] then -1
    else if entries[0].name == name then 0
    else
      var p := Position(entries[1..], name);
      assert forall i :: 1 <= i < |entries| ==> entries[i] == entries[1..][i - 1];
      if p == -1 then -1 else p + 1
  }

  function Names(entries: seq<ArgSpec>): set<string> {
    set i | 0 <= i < |entries| :: entries[i].name
  }

  /** No later entry of `specs` than the `i`-th has its name. */
  predicate LastForName(specs: seq<ArgSpec>, i: int)
    requires 0 <= i < |specs|
  {
    forall j :: i < j < |specs| ==> specs[j].name != specs[i].name
  }

  predicate UniqueNames(entries: seq<ArgSpec>) {
    forall i, j :: 0 <= i < j < |entries| ==> entries[i].name != entries[j].name
  }

  /** `required[spec.name] = spec`. */
  function Insert(entries: seq<ArgSpec>, spec: ArgSpec): seq<ArgSpec> {
    var p := Position(entries, spec.name);
    if p == -1 then entries + [spec] else entries[p := spec]
  }

  /** A new name is added at the end; an existing name keeps its place and
      takes the new value; every other entry stays where and as it was. */
  lemma InsertFacts(entries: seq<ArgSpec>, spec: ArgSpec)
    ensures var r := Insert(entries, spec);
      Names(r) == Names(entries) + {spec.name} &&
      (UniqueNames(entries) ==> UniqueNames(r)) &&
      spec in r &&
      |r| == (if spec.name in Names(entries) then |entries| else |entries| + 1) &&
      (forall i :: 0 <= i < |entries| ==>
        r[i].name == entries[i].name && (r[i].name != spec.name ==> r[i] == entries[i])) &&
      (|r| > |entries| ==> r[|entries|] == spec)
  {
    var p := Position(entries, spec.name);
    var r := Insert(entries, spec);
    if p == -1 {
      assert forall i :: 0 <= i < |entries| ==> r[i] == entries[i];
      assert r[|entries|].name == spec.name;
    } else {
      assert r[p] == spec;
      assert r[p].name == entries[p].name;
      forall n | n in Names(entries) ensures n in Names(r) {
        var i :| 0 <= i < |entries| && entries[i].name == n;
        assert r[i].name == n;
      }
    }
  }

  /** The entries after `required[s.name] = s` for every `s` of `specs` in
      turn. */
  function InsertAll(entries: seq<ArgSpec>, specs: seq<ArgSpec>): seq<ArgSpec>
    decreases |specs|
  {
    if specs == [] then entries
    else Insert(InsertAll(entries, specs[..|specs| - 1]), specs[|specs| - 1])
  }

  lemma NamesOfInit(specs: seq<ArgSpec>)
    requires specs != []
    ensures Names(specs) == Names(specs[..|specs| - 1]) + {specs[|specs| - 1].name}
  {
    var init := specs[..|specs| - 1];
    assert forall i :: 0 <= i < |init| ==> init[i] == specs[i];
    forall n | n in Names(specs) ensures n in Names(init) + {specs[|specs| - 1].name} {
      var i :| 0 <= i < |specs| && specs[i].name == n;
      if i < |init| { assert init[i].name == n; }
    }
  }

  /** The required entries after the insertions hold the names of both, each
      once if the entries held each once, the entries' names keeping their
      places. */
  lemma {:induction false} InsertAllFacts(entries: seq<ArgSpec>, specs: seq<ArgSpec>)
    ensures var r := InsertAll(entries, specs);
      Names(r) == Names(entries) + Names(specs) &&
      (UniqueNames(entries) ==> UniqueNames(r)) &&
      |entries| <= |r| &&
      (forall i :: 0 <= i < |entries| ==> r[i].name == entries[i].name)
    decreases |specs|
  {
    if specs == [] {
      assert Names(specs) == {};
    } else {
      var init := specs[..|specs| - 1];
      NamesOfInit(specs);
      InsertAllFacts(entries, init);
      InsertFacts(InsertAll(entries, init), specs[|specs| - 1]);
    }
  }

  /** An entry whose name none of `specs` has keeps its value. */
  lemma {:induction false} InsertAllKeeps(entries: seq<ArgSpec>, specs: seq<ArgSpec>, i: int)
    requires 0 <= i < |entries| && entries[i].name !in Names(specs)
    ensures var r := InsertAll(entries, specs); i < |r| && r[i] == entries[i]
    decreases |specs|
  {
    if specs != [] {
      var init := specs[..|specs| - 1];
      assert Names(init) <= Names(specs) by {
        forall n | n in Names(init) ensures n in Names(specs) {
          var j :| 0 <= j < |init| && init[j].name == n;
          assert specs[j].name == n;
        }
      }
      assert specs[|specs| - 1].name in Names(specs);
      InsertAllKeeps(entries, init, i);
      InsertAllFacts(entries, init);
      InsertFacts(InsertAll(entries, init), specs[|specs| - 1]);
    }
  }

  /** The last spec inserted under a name is the entry for that name. */
  lemma {:induction false} InsertAllLastWins(entries: seq<ArgSpec>, specs: seq<ArgSpec>, i: int)
    requires 0 <= i < |specs| && LastForName(specs, i)
    ensures specs[i] in InsertAll(entries, specs)
    decreases |specs|
  {
    var init := specs[..|specs| - 1];
    var last := specs[|specs| - 1];
    if i < |init| {
      assert specs[|init|].name != specs[i].name;
      assert init[i] == specs[i];
      assert LastForName(init, i);
      InsertAllLastWins(entries, init, i);
      var before := InsertAll(entries, init);
      var r := InsertAll(entries, specs);
      assert r == Insert(before, last);
      InsertFacts(before, last);
      var k :| 0 <= k < |before| && before[k] == specs[i];
      assert r[k].name == before[k].name != last.name;
      assert r[k] == specs[i];
    } else {
      assert i == |specs| - 1;
      assert InsertAll(entries, specs) == Insert(InsertAll(entries, init), last);
      InsertFacts(InsertAll(entries, init), last);
    }
  }

  lemma {:induction false} InsertAllAppend(entries: seq<ArgSpec>, a: seq<ArgSpec>, b: seq<ArgSpec>)
    ensures InsertAll(InsertAll(entries, a), b) == InsertAll(entries, a + b)
    decreases |b|
  {
    if b == [] {
      assert a + b == a;
    } else {
      assert (a + b)[..|a + b| - 1] == a + b[..|b| - 1];
      assert (a + b)[|a + b| - 1] == b[|b| - 1];
      InsertAllAppend(entries, a, b[..|b| - 1]);
    }
  }

  // ---------------------------------------------------------------------
  // setup_plugin_options

  /** What `plugin.arguments.requires(name)` produces: the arguments the
      named argument needs, or a configuration error (a requirement cycle),
      raised after `yielded` were produced. */
  datatype Requires = Done(specs: seq<ArgSpec>) | Cycle(yielded: seq<ArgSpec>)

  function Yielded(q: Requires): seq<ArgSpec> {
    if q.Done? then q.specs else q.yielded
  }

  /** A line `setup_plugin_options` logs as an error. */
  datatype Message = ConfigError(plugin: string) | MissingRequired(name: string, plugin: string)

  /** `parg.required or value`: the argument's requirements are collected. */
  predicate Triggers(args: Store, spec: ArgSpec) {
    spec.required || Truthy(Get(args, spec.nsDest))
  }

  /** The argument ends the loop: its requirements are collected and
      raise the configuration error. */
  predicate Breaks(args: Store, needs: string -> Requires, spec: ArgSpec) {
    Triggers(args, spec) && needs(spec.name).Cycle?
  }

  /** The state of the loop of `setup_plugin_options` between two
      arguments: the plugin stores, the required entries and whether the
      loop has broken off. */
  datatype Pass = Pass(stores: map<string, Store>, required: seq<ArgSpec>, broken: bool)

  /** One turn of the loop for the argument `spec` of plugin `pname`. */
  function Step(p: Pass, pname: string, args: Store, needs: string -> Requires, spec: ArgSpec): Pass {
    var required := if spec.required then Insert(p.required, spec) else p.required;
    var value := Get(args, spec.nsDest);
    var stores := WithPluginOption(p.stores, pname, spec.dest, value);
    if Triggers(args, spec) then
      Pass(stores, InsertAll(required, Yielded(needs(spec.name))), needs(spec.name).Cycle?)
    else Pass(stores, required, false)
  }

  /** The loop over `specs`, which ends after the first argument that
      breaks it. */
  function Run(p: Pass, pname: string, args: Store, needs: string -> Requires, specs: seq<ArgSpec>): Pass
    decreases |specs|
  {
    if specs == [] || p.broken then p
    else Run(Step(p, pname, args, needs, specs[0]), pname, args, needs, specs[1..])
  }

  /** How many arguments the loop handles: all of them, or those up to and
      including the first that breaks it. */
  function Handled(args: Store, needs: string -> Requires, specs: seq<ArgSpec>): (n: nat)
    ensures n <= |specs|
  {
    if specs == [] then 0
    else if Breaks(args, needs, specs[0]) then 1
    else 1 + Handled(args, needs, specs[1..])
  }

  /** The loop handles every argument before the first one that breaks it,
      that one, and no more. */
  lemma {:induction false} HandledUpToBreak(args: Store, needs: string -> Requires, specs: seq<ArgSpec>)
    ensures var n := Handled(args, needs, specs);
      (forall i :: 0 <= i < n - 1 ==> !Breaks(args, needs, specs[i])) &&
      (n < |specs| ==> 0 < n && Breaks(args, needs, specs[n - 1])) &&
      ((exists i :: 0 <= i < |specs| && Breaks(args, needs, specs[i])) <==> 0 < n && Breaks(args, needs, specs[n - 1]))
  {
    if specs != [] && !Breaks(args, needs, specs[0]) {
      HandledUpToBreak(args, needs, specs[1..]);
      assert forall i :: 1 <= i < |specs| ==> specs[i] == specs[1..][i - 1];
    }
  }

  /** What one argument adds to the required entries: itself when flagged
      required, then whatever its requirements produced when it triggers. */
  function Contribution(args: Store, needs: string -> Requires, spec: ArgSpec): seq<ArgSpec> {
    (if spec.required then [spec] else []) +
    (if Triggers(args, spec) then Yielded(needs(spec.name)) else [])
  }

  function Contributions(args: Store, needs: string -> Requires, specs: seq<ArgSpec>): seq<ArgSpec> {
    if specs == [] then []
    else Contribution(args, needs, specs[0]) + Contributions(args, needs, specs[1..])
  }

  /** The plugin stores after each of `specs` copies its parsed value. */
  function CopyValues(stores: map<string, Store>, pname: string, args: Store, specs: seq<ArgSpec>): map<string, Store> {
    if specs == [] then stores
    else CopyValues(WithPluginOption(stores, pname, specs[0].dest, Get(args, specs[0].nsDest)), pname, args, specs[1..])
  }

  lemma StepRequired(p: Pass, pname: string, args: Store, needs: string -> Requires, spec: ArgSpec)
    ensures Step(p, pname, args, needs, spec).required ==
      InsertAll(p.required, Contribution(args, needs, spec))
  {
    var c := Contribution(args, needs, spec);
    var own := if spec.required then [spec] else [];
    var rest := if Triggers(args, spec) then Yielded(needs(spec.name)) else [];
    assert c == own + rest;
    InsertAllAppend(p.required, own, rest);
    if spec.required {
      assert own[..0] == [];
    }
  }

  /** The loop breaks off exactly when one of the arguments breaks it. */
  lemma {:induction false} RunBroken(p: Pass, pname: string, args: Store, needs: string -> Requires, specs: seq<ArgSpec>)
    requires !p.broken
    ensures Run(p, pname, args, needs, specs).broken <==> exists i :: 0 <= i < |specs| && Breaks(args, needs, specs[i])
    decreases |specs|
  {
    if specs != [] && !Breaks(args, needs, specs[0]) {
      var q := Step(p, pname, args, needs, specs[0]);
      RunBroken(q, pname, args, needs, specs[1..]);
      if i :| 0 <= i < |specs| && Breaks(args, needs, specs[i]) {
        assert specs[1..][i - 1] == specs[i];
      }
      if i :| 0 <= i < |specs[1..]| && Breaks(args, needs, specs[1..][i]) {
        assert specs[i + 1] == specs[1..][i];
      }
    }
  }

  /** The loop copies the parsed values of the arguments it handles, and of
      no others. */
  lemma {:induction false} RunStores(p: Pass, pname: string, args: Store, needs: string -> Requires, specs: seq<ArgSpec>)
    requires !p.broken
    ensures Run(p, pname, args, needs, specs).stores ==
      CopyValues(p.stores, pname, args, specs[..Handled(args, needs, specs)])
    decreases |specs|
  {
    var n := Handled(args, needs, specs);
    if specs == [] {
      assert specs[..n] == [];
    } else {
      var s := specs[0];
      var q := Step(p, pname, args, needs, s);
      if Breaks(args, needs, s) {
        assert specs[..n] == [s] && [s][1..] == [];
      } else {
        RunStores(q, pname, args, needs, specs[1..]);
        assert specs[..n][0] == s && specs[..n][1..] == specs[1..][..n - 1];
      }
    }
  }

  /** The loop's required entries are those of `p` followed by the
      contributions of the arguments it handles. */
  lemma {:induction false} RunRequired(p: Pass, pname: string, args: Store, needs: string -> Requires, specs: seq<ArgSpec>)
    requires !p.broken
    ensures Run(p, pname, args, needs, specs).required ==
      InsertAll(p.required, Contributions(args, needs, specs[..Handled(args, needs, specs)]))
    decreases |specs|
  {
    var n := Handled(args, needs, specs);
    if specs == [] {
      assert specs[..n] == [];
    } else {
      var s := specs[0];
      var q := Step(p, pname, args, needs, s);
      StepRequired(p, pname, args, needs, s);
      var c := Contribution(args, needs, s);
      if Breaks(args, needs, s) {
        assert specs[..n] == [s] && [s][1..] == [];
        assert c + [] == c;
      } else {
        RunRequired(q, pname, args, needs, specs[1..]);
        assert specs[..n][0] == s && specs[..n][1..] == specs[1..][..n - 1];
        InsertAllAppend(p.required, c, Contributions(args, needs, specs[1..][..n - 1]));
      }
    }
  }

  lemma {:induction false} CopyValuesUntouched(stores: map<string, Store>, pname: string, args: Store, specs: seq<ArgSpec>, key: string)
    requires forall i :: 0 <= i < |specs| ==> specs[i].dest != key
    ensures PluginValue(CopyValues(stores, pname, args, specs), pname, key) == PluginValue(stores, pname, key)
  {
    if specs != [] {
      CopyValuesUntouched(WithPluginOption(stores, pname, specs[0].dest, Get(args, specs[0].nsDest)), pname, args, specs[1..], key);
    }
  }

  /** When the loop breaks off, an argument after the one that broke it
      does not get its parsed value: its destination keeps the value it had
      unless an argument that was handled shares it. */
  lemma BreakSkipsLaterValues(p: Pass, pname: string, args: Store, needs: string -> Requires, specs: seq<ArgSpec>, k: int)
    requires !p.broken
    requires Handled(args, needs, specs) <= k < |specs|
    requires forall i :: 0 <= i < Handled(args, needs, specs) ==> specs[i].dest != specs[k].dest
    ensures Run(p, pname, args, needs, specs).broken
    ensures PluginValue(Run(p, pname, args, needs, specs).stores, pname, specs[k].dest) ==
      PluginValue(p.stores, pname, specs[k].dest)
  {
    var n := Handled(args, needs, specs);
    HandledUpToBreak(args, needs, specs);
    RunBroken(p, pname, args, needs, specs);
    RunStores(p, pname, args, needs, specs);
    CopyValuesUntouched(p.stores, pname, args, specs[..n], specs[k].dest);
  }

  /** The argument puts `name` in the required set: it is flagged required
      and has that name, or it triggers and its requirements produce an
      argument of that name. */
  predicate CollectsName(args: Store, needs: string -> Requires, spec: ArgSpec, name: string) {
    (spec.required && spec.name == name) ||
    (Triggers(args, spec) && name in Names(Yielded(needs(spec.name))))
  }

  /** Some argument of `specs` puts `name` in the required set. */
  predicate Collected(args: Store, needs: string -> Requires, specs: seq<ArgSpec>, name: string) {
    exists i :: 0 <= i < |specs| && CollectsName(args, needs, specs[i], name)
  }

  lemma NamesAppend(a: seq<ArgSpec>, b: seq<ArgSpec>)
    ensures Names(a + b) == Names(a) + Names(b)
  {
    var all := a + b;
    forall n | n in Names(all) ensures n in Names(a) + Names(b) {
      var i :| 0 <= i < |all| && all[i].name == n;
      if i < |a| { assert a[i].name == n; } else { assert b[i - |a|].name == n; }
    }
    forall n | n in Names(a) + Names(b) ensures n in Names(all) {
      if n in Names(a) {
        var i :| 0 <= i < |a| && a[i].name == n;
        assert all[i].name == n;
      } else {
        var i :| 0 <= i < |b| && b[i].name == n;
        assert all[|a| + i].name == n;
      }
    }
  }

  lemma ContributionNames(args: Store, needs: string -> Requires, spec: ArgSpec)
    ensures forall name :: name in Names(Contribution(args, needs, spec)) <==> CollectsName(args, needs, spec, name)
  {
    var own := if spec.required then [spec] else [];
    var req := if Triggers(args, spec) then Yielded(needs(spec.name)) else [];
    NamesAppend(own, req);
    if spec.required {
      assert own[0].name == spec.name;
      assert Names(own) == {spec.name};
    } else {
      assert Names(own) == {};
    }
    if !Triggers(args, spec) {
      assert Names(req) == {};
    }
  }

  lemma {:induction false} ContributionsNames(args: Store, needs: string -> Requires, specs: seq<ArgSpec>, name: string)
    ensures name in Names(Contributions(args, needs, specs)) <==> Collected(args, needs, specs, name)
  {
    if specs == [] {
      assert Names([]) == {};
    } else {
      ContributionsNames(args, needs, specs[1..], name);
      ContributionNames(args, needs, specs[0]);
      NamesAppend(Contribution(args, needs, specs[0]), Contributions(args, needs, specs[1..]));
      if Collected(args, needs, specs, name) {
        var i :| 0 <= i < |specs| && CollectsName(args, needs, specs[i], name);
        if i > 0 {
          assert specs[1..][i - 1] == specs[i];
        }
      }
      if Collected(args, needs, specs[1..], name) {
        var i :| 0 <= i < |specs[1..]| && CollectsName(args, needs, specs[1..][i], name);
        assert specs[i + 1] == specs[1..][i];
      }
    }
  }

  /** The required set `setup_plugin_options` builds for `plugin`: every
      name in it once; a name is in it exactly when a handled argument
      flagged required has it or a handled, triggering argument's
      requirements produced it; and its entry for a name is the last
      argument collected under that name. */
  lemma RequiredSet(stores: map<string, Store>, pname: string, args: Store, needs: string -> Requires, specs: seq<ArgSpec>)
    ensures var r := Run(Pass(stores, [], false), pname, args, needs, specs);
      var collected := Contributions(args, needs, specs[..Handled(args, needs, specs)]);
      UniqueNames(r.required) &&
      (forall name :: name in Names(r.required) <==> Collected(args, needs, specs[..Handled(args, needs, specs)], name)) &&
      (forall i :: 0 <= i < |collected| && LastForName(collected, i) ==> collected[i] in r.required)
  {
    var n := Handled(args, needs, specs);
    var collected := Contributions(args, needs, specs[..n]);
    RunRequired(Pass(stores, [], false), pname, args, needs, specs);
    InsertAllFacts([], collected);
    assert Names([]) == {};
    forall name ensures name in Names(InsertAll([], collected)) <==> Collected(args, needs, specs[..n], name) {
      ContributionsNames(args, needs, specs[..n], name);
    }
    forall i | 0 <= i < |collected| && LastForName(collected, i) ensures collected[i] in InsertAll([], collected) {
      InsertAllLastWins([], collected, i);
    }
  }


  /** `not session.get_plugin_option(pname, spec.dest)`. */
  predicate Unset(stores: map<string, Store>, pname: string, spec: ArgSpec) {
    !Truthy(PluginValue(stores, pname, spec.dest))
  }

  /** The missing reports for the required entries, in their order. */
  function MissingReports(required: seq<ArgSpec>, stores: map<string, Store>, pname: string): seq<Message>
    decreases |required|
  {
    if required == [] then []
    else
      var last := required[|required| - 1];
      MissingReports(required[..|required| - 1], stores, pname) +
      (if Truthy(PluginValue(stores, pname, last.dest)) then [] else [MissingRequired(last.name, pname)])
  }

  /** The reports name exactly the required entries whose value in the
      plugin's store is falsy, and are no more than the entries. */
  lemma {:induction false} MissingReportsFacts(required: seq<ArgSpec>, stores: map<string, Store>, pname: string)
    ensures var r := MissingReports(required, stores, pname);
      |r| <= |required| &&
      forall m :: m in r <==>
        exists i :: 0 <= i < |required| && Unset(stores, pname, required[i]) && m == MissingRequired(required[i].name, pname)
    decreases |required|
  {
    if required != [] {
      var init := required[..|required| - 1];
      MissingReportsFacts(init, stores, pname);
      assert forall i :: 0 <= i < |init| ==> init[i] == required[i];
    }
  }

  /** A single required entry gives one report when its value is falsy and
      none otherwise. */
  lemma MissingReportsOne(spec: ArgSpec, stores: map<string, Store>, pname: string)
    ensures MissingReports([spec], stores, pname) ==
      if Unset(stores, pname, spec) then [MissingRequired(spec.name, pname)] else []
  {
    assert [spec][..0] == [];
  }

  /** The reports for two lists of entries are the reports for the first
      followed by the reports for the second: together with
      `MissingReportsOne`, exactly one report per unset entry, in the order
      of the entries. */
  lemma {:induction false} MissingReportsAppend(a: seq<ArgSpec>, b: seq<ArgSpec>, stores: map<string, Store>, pname: string)
    ensures MissingReports(a + b, stores, pname) == MissingReports(a, stores, pname) + MissingReports(b, stores, pname)
    decreases |b|
  {
    if b == [] {
      assert a + b == a;
    } else {
      var init := b[..|b| - 1];
      assert (a + b)[..|a + b| - 1] == a + init;
      assert (a + b)[|a + b| - 1] == b[|b| - 1];
      MissingReportsAppend(a, init, stores, pname);
    }
  }

  /** The log of a run of the loop: the configuration error if it broke
      off, then the missing reports. */
  function Log(r: Pass, pname: string): seq<Message> {
    (if r.broken then [ConfigError(pname)] else []) + MissingReports(r.required, r.stores, pname)
  }

  /** The final loop of `setup_plugin_options`: a report for each required
      entry whose value the plugin's store does not hold truthily. */
  method ReportMissing(session: Session, pname: string, required: seq<ArgSpec>) returns (reports: seq<Message>)
    ensures reports == MissingReports(required, session.pluginOptions, pname)
  {
    reports := [];
    var k := 0;
    while k < |required|
      invariant 0 <= k <= |required|
      invariant reports == MissingReports(required[..k], session.pluginOptions, pname)
    {
      assert required[..k + 1][..k] == required[..k] && required[..k + 1][k] == required[k];
      var req := required[k];
      if !Truthy(session.PluginOption(pname, req.dest)) {
        reports := reports + [MissingRequired(req.name, pname)];
      }
      k := k + 1;
    }
    assert required[..k] == required;
  }

  /** `for rparg in ...: required[rparg.name] = rparg`. */
  method InsertEach(entries: seq<ArgSpec>, specs: seq<ArgSpec>) returns (r: seq<ArgSpec>)
    ensures r == InsertAll(entries, specs)
  {
    r := entries;
    var j := 0;
    while j < |specs|
      invariant 0 <= j <= |specs|
      invariant r == InsertAll(entries, specs[..j])
    {
      assert specs[..j + 1][..j] == specs[..j] && specs[..j + 1][j] == specs[j];
      r := Insert(r, specs[j]);
      j := j + 1;
    }
    assert specs[..j] == specs;
  }

  /** One turn of the loop of `setup_plugin_options`: the argument `parg`
      enters `required` when flagged required, its parsed value is copied to
      the plugin's store, and when it triggers, the arguments its
      requirements produce enter `required`; `broken` tells whether they
      raised the configuration error. */
  method HandleArgument(session: Session, pname: string, args: Store, needs: string -> Requires,
                        parg: ArgSpec, required: seq<ArgSpec>)
    returns (collected: seq<ArgSpec>, broken: bool)
    modifies session`pluginOptions
    ensures Pass(session.pluginOptions, collected, broken) ==
      Step(Pass(old(session.pluginOptions), required, false), pname, args, needs, parg)
  {
    collected := required;
    broken := false;
    if parg.required {
      collected := Insert(collected, parg);
    }
    var value := Get(args, parg.nsDest);
    session.SetPluginOption(pname, parg.dest, value);
    if parg.required || Truthy(value) {
      var q := needs(parg.name);
      collected := InsertEach(collected, Yielded(q));
      broken := q.Cycle?;
    }
  }

  /** `setup_plugin_options(session, args, plugin)`, with `needs` as
      `plugin.arguments.requires`; the error lines it logs are returned. */
  method SetupPluginOptions(session: Session, args: Store, plugin: Plugin, needs: string -> Requires)
    returns (log: seq<Message>)
    modifies session`pluginOptions
    ensures var r := Run(Pass(old(session.pluginOptions), [], false), plugin.name, args, needs, plugin.arguments);
      session.pluginOptions == r.stores && log == Log(r, plugin.name)
  {
    var pname := plugin.name;
    var specs := plugin.arguments;
    ghost var final := Run(Pass(session.pluginOptions, [], false), pname, args, needs, specs);
    var required: seq<ArgSpec> := [];
    var broken := false;
    log := [];
    var i := 0;
    while i < |specs|
      invariant 0 <= i <= |specs|
      invariant Run(Pass(session.pluginOptions, required, false), pname, args, needs, specs[i..]) == final
      invariant log == [] && !broken
    {
      assert specs[i..][0] == specs[i] && specs[i..][1..] == specs[i + 1..];
      required, broken := HandleArgument(session, pname, args, needs, specs[i], required);
      if broken {
        log := [ConfigError(pname)];
        break;
      }
      i := i + 1;
    }
    assert Pass(session.pluginOptions, required, broken) == final;
    if required != [] {
      var reports := ReportMissing(session, pname, required);
      log := log + reports;
    }
  }
}
