/** Configuration-file layering: which configuration files apply to a
    request, how they are put in front of the caller's argument list, and
    how the re-parsed namespace is normalised (`setup_args`,
    `setup_config_args`). */
module ConfigMerge {
  import opened Values
  import opened ArgParse

  /** The caller's argument list, which `setup_args` changes in place. */
  class ArgList {
    var tokens: seq<Token>

    constructor (tokens: seq<Token>)
      ensures this.tokens == tokens
    {
      this.tokens := tokens;
    }
  }

  /** `['@' + f for f in filter(os.path.isfile, files)]`. */
  function ExistingRefs(fs: FileSystem, files: seq<string>): (r: seq<Token>)
    decreases |files|
  {
    if files == [] then []
    else
      var last := files[|files| - 1];
      ExistingRefs(fs, files[..|files| - 1]) + (if last in fs then [FileRef(last)] else [])
  }

  /** Exactly the existing files get a token, in their order: the token list
      is at most as long as the file list and holds a file's token iff the
      file is listed and exists. */
  lemma {:induction false} ExistingRefsMembers(fs: FileSystem, files: seq<string>)
    ensures |ExistingRefs(fs, files)| <= |files|
    ensures forall t :: t in ExistingRefs(fs, files) <==> t.FileRef? && t.path in fs && t.path in files
    decreases |files|
  {
    if files != [] {
      var last := files[|files| - 1];
      ExistingRefsMembers(fs, files[..|files| - 1]);
      assert files == files[..|files| - 1] + [last];
      assert forall f :: f in files <==> f in files[..|files| - 1] || f == last;
    }
  }

  lemma ExistingRefsStep(fs: FileSystem, files: seq<string>, i: nat)
    requires i < |files|
    ensures Reverse(ExistingRefs(fs, files[..i + 1])) ==
      (if files[i] in fs then [FileRef(files[i])] else []) + Reverse(ExistingRefs(fs, files[..i]))
  {
    var added := if files[i] in fs then [FileRef(files[i])] else [];
    assert files[..i + 1][..i] == files[..i];
    ReverseAppend(ExistingRefs(fs, files[..i]), added);
    assert Reverse(added) == added;
  }

  /** The arguments of the existing files, one layer per file, in the order
      of `files`: the same filter as `ExistingRefs`, but giving what each
      `@file` token expands to rather than the token. `ExpandRefs` ties the
      two together; keeping both lets the precedence lemmas speak of layers
      while `SetupArgs` speaks of the tokens it inserts. */
  function FileLayers(fs: FileSystem, files: seq<string>): seq<seq<Item>>
    decreases |files|
  {
    if files == [] then []
    else
      var last := files[|files| - 1];
      FileLayers(fs, files[..|files| - 1]) + (if last in fs then [fs[last]] else [])
  }

  lemma {:induction false} FileLayersAppend(fs: FileSystem, a: seq<string>, b: seq<string>)
    ensures FileLayers(fs, a + b) == FileLayers(fs, a) + FileLayers(fs, b)
    decreases |b|
  {
    if b == [] {
      assert a + b == a;
    } else {
      assert (a + b)[..|a + b| - 1] == a + b[..|b| - 1];
      FileLayersAppend(fs, a, b[..|b| - 1]);
    }
  }

  lemma {:induction false} FileLayersReverse(fs: FileSystem, files: seq<string>)
    ensures FileLayers(fs, Reverse(files)) == Reverse(FileLayers(fs, files))
    decreases |files|
  {
    if files != [] {
      var init, last := files[..|files| - 1], files[|files| - 1];
      assert files == init + [last];
      ReverseAppend(init, [last]);
      assert Reverse([last]) == [last];
      FileLayersAppend(fs, [last], Reverse(init));
      assert [last][..0] == [];
      FileLayersReverse(fs, init);
      var mine := if last in fs then [fs[last]] else [];
      assert FileLayers(fs, [last]) == mine;
      ReverseAppend(FileLayers(fs, init), mine);
      assert Reverse(mine) == mine;
    }
  }

  /** The `@file` tokens put in front of the argument list expand to the
      files' arguments, the last existing file first. */
  lemma {:induction false} ExpandRefs(fs: FileSystem, files: seq<string>)
    ensures Expand(fs, Reverse(ExistingRefs(fs, files))) == Success(Concat(Reverse(FileLayers(fs, files))))
    decreases |files|
  {
    if files != [] {
      var init, last := files[..|files| - 1], files[|files| - 1];
      var refs := if last in fs then [FileRef(last)] else [];
      var mine := if last in fs then [fs[last]] else [];
      ReverseAppend(ExistingRefs(fs, init), refs);
      ReverseAppend(FileLayers(fs, init), mine);
      assert Reverse(refs) == refs && Reverse(mine) == mine;
      ExpandRefs(fs, init);
      ConcatAppend(mine, Reverse(FileLayers(fs, init)));
      if last in fs {
        assert refs[1..] == [] && fs[last] + [] == fs[last];
        assert Expand(fs, refs) == Success(fs[last]);
        assert Concat(mine) == fs[last] by {
          assert mine[1..] == [];
        }
        ExpandAppend(fs, refs, Reverse(ExistingRefs(fs, init)));
      } else {
        assert refs + Reverse(ExistingRefs(fs, init)) == Reverse(ExistingRefs(fs, init));
        assert mine + Reverse(FileLayers(fs, init)) == Reverse(FileLayers(fs, init));
      }
    }
  }

  function Join(words: seq<string>, sep: string): string {
    if words == [] then ""
    else if |words| == 1 then words[0]
    else words[0] + sep + Join(words[1..], sep)
  }

  /** `[stream.lower() for stream in streams]`. */
  function LowerAll(streams: seq<Value>): (r: seq<Value>)
    ensures |r| == |streams|
    ensures forall i :: 0 <= i < |streams| ==> r[i] == LowerValue(streams[i])
  {
    seq(|streams|, i requires 0 <= i < |streams| => LowerValue(streams[i]))
  }

  /** The elements of a list or tuple value. */
  function Elements(v: Value): seq<Value> {
    if v.ListV? then v.items else if v.TupleV? then v.elems else []
  }

  /** The end of `setup_args`: stream names lower-cased, and `url` taken
      from `url_param` when it is empty. */
  function Normalise(ns: Store): (r: Store)
    ensures forall k :: k != "stream" && k != "url" ==> Lookup(r, k) == Lookup(ns, k)
    ensures var stream := Get(ns, "stream");
      if Truthy(stream) && (stream.ListV? || stream.TupleV?) then
        Get(r, "stream") == ListV(LowerAll(Elements(stream)))
      else
        Lookup(r, "stream") == Lookup(ns, "stream")
    ensures !Truthy(Get(ns, "url")) && Truthy(Get(ns, "url_param")) ==> Get(r, "url") == Get(ns, "url_param")
    ensures Truthy(Get(ns, "url")) || !Truthy(Get(ns, "url_param")) ==> Lookup(r, "url") == Lookup(ns, "url")
  {
    var stream := Get(ns, "stream");
    var lowered :=
      if Truthy(stream) && (stream.ListV? || stream.TupleV?) then ns["stream" := ListV(LowerAll(Elements(stream)))]
      else ns;
    if !Truthy(Get(lowered, "url")) && Truthy(Get(lowered, "url_param")) then lowered["url" := Get(lowered, "url_param")]
    else lowered
  }

  /** What `setup_args` returns for the argument list it parsed: a parse
      error or, when unknown arguments are not ignored, the parser's
      "unrecognized arguments" error; otherwise the normalised namespace. */
  function ArgsOutcome(p: Parser, fs: FileSystem, tokens: seq<Token>, ignoreUnknown: bool): Result<Store> {
    match ParseKnownArgs(p, fs, tokens)
    case Failure(e) => Failure(e)
    case Success(parsed) =>
      if parsed.unknown != [] && !ignoreUnknown then
        Failure("unrecognized arguments: " + Join(parsed.unknown, " "))
      else
        Success(Normalise(parsed.ns))
  }

  /** `setup_args`: each existing configuration file is inserted at the front
      of the caller's list, so the list ends up holding the existing files in
      reverse order ahead of the original arguments. */
  method SetupArgs(p: Parser, fs: FileSystem, arglist: ArgList, configFiles: seq<string>, ignoreUnknown: bool)
    returns (r: Result<Store>)
    modifies arglist
    ensures arglist.tokens == Reverse(ExistingRefs(fs, configFiles)) + old(arglist.tokens)
    ensures r == ArgsOutcome(p, fs, arglist.tokens, ignoreUnknown)
  {
    for i := 0 to |configFiles|
      invariant arglist.tokens == Reverse(ExistingRefs(fs, configFiles[..i])) + old(arglist.tokens)
    {
      var f := configFiles[i];
      ExistingRefsStep(fs, configFiles, i);
      if f in fs {
        arglist.tokens := [FileRef(f)] + arglist.tokens;
      }
    }
    assert configFiles[..|configFiles|] == configFiles;
    r := ArgsOutcome(p, fs, arglist.tokens, ignoreUnknown);
  }

  /** Precedence after `setup_args`: a destination other than `stream` and
      `url` takes its value from the direct arguments if they set it, else
      from the configuration files in the order they were given (the first
      one highest), else from the parser's default. */
  lemma {:induction false} SetupArgsPrecedence(p: Parser, fs: FileSystem, files: seq<string>, direct: seq<Token>, dest: string)
    requires Expand(fs, direct).Success?
    requires dest != "stream" && dest != "url"
    ensures var r := ArgsOutcome(p, fs, Reverse(ExistingRefs(fs, files)) + direct, true);
      r.Success? &&
      Lookup(r.value, dest) == Or(Resolve([Expand(fs, direct).value] + FileLayers(fs, files), dest), Lookup(p.defaults, dest))
  {
    var fileItems := Concat(Reverse(FileLayers(fs, files)));
    var d := Expand(fs, direct).value;
    ExpandRefs(fs, files);
    ExpandAppend(fs, Reverse(ExistingRefs(fs, files)), direct);
    LastSettingAppend(fileItems, d, dest);
    LastWinsIsPriority(FileLayers(fs, files), dest);
    assert ([d] + FileLayers(fs, files))[1..] == FileLayers(fs, files);
  }

  /** The plugin-specific files `fn + '.' + module` for every name in
      `CONFIG_FILES`. */
  function PluginConfigNames(names: seq<string>, plugin: string): seq<string> {
    seq(|names|, i requires 0 <= i < |names| => names[i] + "." + plugin)
  }

  /** The plugin-specific files, present only when the URL is set and some
      plugin accepts it; a URL no plugin accepts adds nothing. */
  function PluginFiles(resolve: Value -> Option<string>, args: Store, names: seq<string>): seq<string> {
    var url := Get(args, "url");
    if Truthy(url) && resolve(url).Some? then PluginConfigNames(names, resolve(url).value) else []
  }

  /** The first existing file among `names`, as a list of at most one file. */
  function FirstExisting(fs: FileSystem, names: seq<string>): (r: seq<string>)
    ensures |r| <= 1
    ensures r == [] <==> forall i :: 0 <= i < |names| ==> names[i] !in fs
    ensures r != [] ==>
      (exists i :: 0 <= i < |names| && names[i] == r[0] && r[0] in fs && (forall j :: 0 <= j < i ==> names[j] !in fs))
  {
    if names == [] then []
    else if names[0] in fs then [names[0]]
    else
      var r := FirstExisting(fs, names[1..]);
      assert forall i :: 1 <= i < |names| ==> names[1..][i - 1] == names[i];
      r
  }

  /** The configuration files `setup_config_args` hands to `setup_args`. */
  function ConfigFiles(resolve: Value -> Option<string>, args: Store, fs: FileSystem, names: seq<string>): seq<string> {
    var config := Get(args, "config");
    PluginFiles(resolve, args, names) +
    (if Truthy(config) then Reverse(Strings(config)) else FirstExisting(fs, names))
  }

  /** `setup_config_args`: re-parses the caller's arguments behind the
      listed configuration files, or returns `args` as they are when the
      list is empty. Plugin-specific and `--config` files are listed whether
      or not they exist, so a list of missing files still re-parses.
      `names` is `CONFIG_FILES`. */
  method SetupConfigArgs(resolve: Value -> Option<string>, args: Store, p: Parser, fs: FileSystem,
                         arglist: ArgList, names: seq<string>)
    returns (r: Result<Store>)
    modifies arglist
    ensures var files := ConfigFiles(resolve, args, fs, names);
      if files == [] then
        r == Success(args) && arglist.tokens == old(arglist.tokens)
      else
        arglist.tokens == Reverse(ExistingRefs(fs, files)) + old(arglist.tokens) &&
        r == ArgsOutcome(p, fs, arglist.tokens, true)
  {
    var configFiles: seq<string> := [];
    var url := Get(args, "url");
    if Truthy(url) {
      var plugin := resolve(url);
      if plugin.Some? {
        configFiles := PluginConfigNames(names, plugin.value);
      }
    }
    var config := Get(args, "config");
    if Truthy(config) {
      configFiles := configFiles + Reverse(Strings(config));
    } else {
      ghost var plugins := configFiles;
      var i := 0;
      while i < |names|
        invariant i <= |names|
        invariant forall j :: 0 <= j < i ==> names[j] !in fs
        invariant configFiles == plugins
      {
        if names[i] in fs {
          configFiles := configFiles + [names[i]];
          assert configFiles == plugins + FirstExisting(fs, names);
          break;
        }
        i := i + 1;
      }
      assert configFiles == plugins + FirstExisting(fs, names);
    }
    if configFiles != [] {
      r := SetupArgs(p, fs, arglist, configFiles, true);
    } else {
      r := Success(args);
    }
  }

  /** Resulting precedence with explicit `--config` files `[A, B, C]`: the
      direct arguments, then the plugin-specific files, then C, then B, then
      A, then the parser's defaults. */
  lemma {:induction false} ExplicitConfigPrecedence(resolve: Value -> Option<string>, args: Store, p: Parser,
                                                    fs: FileSystem, names: seq<string>, direct: seq<Token>, dest: string)
    requires Truthy(Get(args, "config"))
    requires Expand(fs, direct).Success?
    requires dest != "stream" && dest != "url"
    ensures var files := ConfigFiles(resolve, args, fs, names);
      var r := ArgsOutcome(p, fs, Reverse(ExistingRefs(fs, files)) + direct, true);
      r.Success? &&
      Lookup(r.value, dest) ==
        Or(Resolve([Expand(fs, direct).value]
                   + FileLayers(fs, PluginFiles(resolve, args, names))
                   + Reverse(FileLayers(fs, Strings(Get(args, "config")))), dest),
           Lookup(p.defaults, dest))
  {
    var plugin, configs := PluginFiles(resolve, args, names), Strings(Get(args, "config"));
    var files := ConfigFiles(resolve, args, fs, names);
    assert files == plugin + Reverse(configs);
    FileLayersAppend(fs, plugin, Reverse(configs));
    FileLayersReverse(fs, configs);
    SetupArgsPrecedence(p, fs, files, direct, dest);
    var d := Expand(fs, direct).value;
    assert [d] + FileLayers(fs, files) == [d] + FileLayers(fs, plugin) + Reverse(FileLayers(fs, configs));
  }

  /** Without explicit `--config` files only the first existing default file
      applies, below the plugin-specific files. */
  lemma {:induction false} DefaultConfigPrecedence(resolve: Value -> Option<string>, args: Store, p: Parser,
                                                   fs: FileSystem, names: seq<string>, direct: seq<Token>, dest: string)
    requires !Truthy(Get(args, "config"))
    requires Expand(fs, direct).Success?
    requires dest != "stream" && dest != "url"
    ensures var files := ConfigFiles(resolve, args, fs, names);
      var r := ArgsOutcome(p, fs, Reverse(ExistingRefs(fs, files)) + direct, true);
      r.Success? &&
      Lookup(r.value, dest) ==
        Or(Resolve([Expand(fs, direct).value]
                   + FileLayers(fs, PluginFiles(resolve, args, names))
                   + FileLayers(fs, FirstExisting(fs, names)), dest),
           Lookup(p.defaults, dest))
  {
    var plugin, default := PluginFiles(resolve, args, names), FirstExisting(fs, names);
    var files := ConfigFiles(resolve, args, fs, names);
    assert files == plugin + default;
    FileLayersAppend(fs, plugin, default);
    SetupArgsPrecedence(p, fs, files, direct, dest);
    var d := Expand(fs, direct).value;
    assert [d] + FileLayers(fs, files) == [d] + FileLayers(fs, plugin) + FileLayers(fs, default);
  }
}
