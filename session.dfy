/** The parts of the Streamlink session the server writes to: the global
    option store, the registry of plugins with the arguments they declare,
    and one option store per plugin. */
module Sessions {
  import opened Values

  /** One argument a plugin declares. `name` is the argument's name inside
      the plugin, `dest` the key of its value in the plugin's option store,
      and `nsDest` the attribute the parsed namespace holds it under
      (`parg.namespace_dest(pname)` for the plugin that declares it). */
  datatype ArgSpec = ArgSpec(name: string, dest: string, nsDest: string, required: bool, default: Value)

  datatype Plugin = Plugin(name: string, arguments: seq<ArgSpec>)

  /** The plugin stores after `set_plugin_option(plugin, key, value)`: a
      plugin without an option store is ignored. */
  function WithPluginOption(stores: map<string, Store>, plugin: string, key: string, value: Value): map<string, Store> {
    if plugin in stores then stores[plugin := stores[plugin][key := value]] else stores
  }

  /** `get_plugin_option(plugin, key)`: None when the plugin or the key has
      no value. */
  function PluginValue(stores: map<string, Store>, plugin: string, key: string): Value {
    if plugin in stores then Get(stores[plugin], key) else NoneV
  }

  class Session {
    /** The global option store. */
    var options: Store
    /** Each plugin's option store, by plugin name. */
    var pluginOptions: map<string, Store>
    /** The known plugins, by plugin name. */
    var plugins: map<string, Plugin>

    constructor (plugins: map<string, Plugin>)
      ensures this.plugins == plugins && options == map[] && pluginOptions == map[]
    {
      this.plugins := plugins;
      options := map[];
      pluginOptions := map[];
    }

    /** `session.set_option(key, value)`. */
    method SetOption(key: string, value: Value)
      modifies this`options
      ensures options == old(options)[key := value]
    {
      options := options[key := value];
    }

    /** `session.set_plugin_option(plugin, key, value)`. */
    method SetPluginOption(plugin: string, key: string, value: Value)
      modifies this`pluginOptions
      ensures pluginOptions == WithPluginOption(old(pluginOptions), plugin, key, value)
    {
      if plugin in pluginOptions {
        pluginOptions := pluginOptions[plugin := pluginOptions[plugin][key := value]];
      }
    }

    /** `session.get_plugin_option(plugin, key)`. */
    function PluginOption(plugin: string, key: string): Value
      reads this
    {
      PluginValue(pluginOptions, plugin, key)
    }
  }
}
