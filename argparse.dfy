/** The argument parser the server hands its token list to, reduced to what
    the configuration layering depends on: `@file` tokens are replaced by the
    arguments the file holds, and every recognised argument assigns its
    destination with the last assignment winning. */
module ArgParse {
  import opened Values

  /** One argument once its text is read: a recognised option that sets a
      destination, or text the parser does not recognise. */
  datatype Item = Setting(dest: string, value: Value) | Unrecognised(text: string)

  /** A token of the argument list. `FileRef(p)` is the token `'@' + p`. */
  datatype Token = FileRef(path: string) | Direct(item: Item)

  /** The regular files that exist (`os.path.isfile`), each with the
      arguments it holds. */
  type FileSystem = map<string, seq<Item>>

  /** A parser is known by the defaults of its destinations. */
  datatype Parser = Parser(defaults: Store)

  datatype Parsed = Parsed(ns: Store, unknown: seq<string>)

  /** Replaces every `@file` token by the file's arguments; a reference to a
      file that does not exist is a parse error. The error text is an
      abstraction of the `OSError` message argparse reports. */
  function Expand(fs: FileSystem, tokens: seq<Token>): (r: Result<seq<Item>>)
    ensures r.Success? <==> forall i :: 0 <= i < |tokens| && tokens[i].FileRef? ==> tokens[i].path in fs
  {
    if tokens == [] then Success([])
    else
      var rest := Expand(fs, tokens[1..]);
      assert forall i :: 1 <= i < |tokens| ==> tokens[i] == tokens[1..][i - 1];
      match tokens[0]
      case FileRef(p) =>
        if p !in fs then Failure("can't open '" + p + "'")
        else if rest.Failure? then rest
        else Success(fs[p] + rest.value)
      case Direct(item) =>
        if rest.Failure? then rest else Success([item] + rest.value)
  }

  lemma {:induction false} ExpandAppend(fs: FileSystem, a: seq<Token>, b: seq<Token>)
    requires Expand(fs, a).Success? && Expand(fs, b).Success?
    ensures Expand(fs, a + b) == Success(Expand(fs, a).value + Expand(fs, b).value)
  {
    if a != [] {
      assert (a + b)[0] == a[0] && (a + b)[1..] == a[1..] + b;
      assert forall i :: 1 <= i < |a| ==> a[1..][i - 1] == a[i];
      ExpandAppend(fs, a[1..], b);
      var tail := Expand(fs, a[1..]).value + Expand(fs, b).value;
      match a[0]
      case FileRef(p) =>
        assert fs[p] + tail == Expand(fs, a).value + Expand(fs, b).value;
      case Direct(item) =>
        assert [item] + tail == Expand(fs, a).value + Expand(fs, b).value;
    } else {
      assert a + b == b;
      assert Expand(fs, a).value + Expand(fs, b).value == Expand(fs, b).value;
    }
  }

  /** The value the last setting of `dest` in `items` assigns, if any. */
  function LastSetting(items: seq<Item>, dest: string): Option<Value>
    decreases |items|
  {
    if items == [] then None
    else
      var last := items[|items| - 1];
      if last.Setting? && last.dest == dest then Some(last.value)
      else LastSetting(items[..|items| - 1], dest)
  }

  /** Applies the settings in order to a namespace. */
  function Assign(ns: Store, items: seq<Item>): (r: Store)
    ensures forall k :: Lookup(r, k) == Or(LastSetting(items, k), Lookup(ns, k))
    decreases |items|
  {
    if items == [] then ns
    else
      var last := items[|items| - 1];
      var before := Assign(ns, items[..|items| - 1]);
      if last.Setting? then before[last.dest := last.value] else before
  }

  /** The texts of the unrecognised arguments, in order. */
  function UnknownTexts(items: seq<Item>): (r: seq<string>)
    ensures r == [] <==> forall i :: 0 <= i < |items| ==> items[i].Setting?
  {
    if items == [] then []
    else
      (if items[0].Unrecognised? then [items[0].text] else []) + UnknownTexts(items[1..])
  }

  /** `parser.parse_known_args(tokens)`. */
  function ParseKnownArgs(p: Parser, fs: FileSystem, tokens: seq<Token>): Result<Parsed> {
    match Expand(fs, tokens)
    case Failure(e) => Failure(e)
    case Success(items) => Success(Parsed(Assign(p.defaults, items), UnknownTexts(items)))
  }

  /** Among layers listed from the highest priority down, the value of the
      first layer that sets `dest`. */
  function Resolve(layers: seq<seq<Item>>, dest: string): Option<Value> {
    if layers == [] then None
    else Or(LastSetting(layers[0], dest), Resolve(layers[1..], dest))
  }

  function Concat(layers: seq<seq<Item>>): seq<Item> {
    if layers == [] then [] else layers[0] + Concat(layers[1..])
  }

  lemma {:induction false} LastSettingAppend(a: seq<Item>, b: seq<Item>, dest: string)
    ensures LastSetting(a + b, dest) == Or(LastSetting(b, dest), LastSetting(a, dest))
    decreases |b|
  {
    if b == [] {
      assert a + b == a;
    } else {
      assert (a + b)[..|a + b| - 1] == a + b[..|b| - 1];
      LastSettingAppend(a, b[..|b| - 1], dest);
    }
  }

  /** Concatenating layers from the lowest priority up and letting the last
      setting win gives each destination the value of its highest layer. */
  lemma {:induction false} LastWinsIsPriority(layers: seq<seq<Item>>, dest: string)
    ensures LastSetting(Concat(Reverse(layers)), dest) == Resolve(layers, dest)
  {
    if layers != [] {
      var lower := Concat(Reverse(layers[1..]));
      assert Reverse(layers) == Reverse(layers[1..]) + [layers[0]];
      ConcatAppend(Reverse(layers[1..]), [layers[0]]);
      assert [layers[0]][1..] == [];
      assert Concat([layers[0]]) == layers[0];
      assert Concat(Reverse(layers)) == lower + layers[0];
      LastSettingAppend(lower, layers[0], dest);
      LastWinsIsPriority(layers[1..], dest);
    }
  }

  lemma {:induction false} ConcatAppend(a: seq<seq<Item>>, b: seq<seq<Item>>)
    ensures Concat(a + b) == Concat(a) + Concat(b)
  {
    if a == [] {
      assert a + b == b;
    } else {
      assert (a + b)[1..] == a[1..] + b;
      ConcatAppend(a[1..], b);
    }
  }
}
