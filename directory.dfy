/**
 * The shapes exchanged with the WordPress.org plugin directory through
 * `plugins_api`: the request (an action name and an argument array), the plugin
 * record a card is drawn from, and what a lookup can come back with.
 */
module Directory {

  /** A value in a `plugins_api` argument array. */
  datatype ArgVal = IntArg(i: int) | StrArg(s: string) | FieldsArg(fields: map<string, bool>)

  /** `plugins_api($action, $args)`. */
  datatype Request = Request(action: string, args: map<string, ArgVal>)

  /**
   * The properties of a plugin object that the card reads. A property the
   * directory leaves out reads as "" (PHP's null in string context); `rating`
   * is the value after the `(int)` cast the renderer applies.
   */
  datatype PluginInfo = PluginInfo(
    slug: string,
    name: string,
    homepage: string,
    author: string,
    shortDescription: string,
    rating: int,
    numRatings: int,
    activeInstalls: int,
    lastUpdated: string,
    tested: string,
    icons: map<string, string>)

  /** An entry of a result list: a plugin object, or anything that is not an object. */
  datatype PluginValue = Obj(info: PluginInfo) | NonObject

  /**
   * What `plugins_api` (or `get_transient`) yields: an object describing one
   * plugin, an object whose `plugins` property is set, a `WP_Error`, or a
   * falsy non-object (`false`, `null`: a transient miss or an unset variable).
   */
  datatype ApiResult =
    | Single(info: PluginInfo)
    | Multiple(plugins: seq<PluginValue>)
    | WpError
    | Nothing

  /** `is_object($r) && ! is_wp_error($r)`. */
  predicate Usable(r: ApiResult) {
    r.Single? || r.Multiple?
  }
}
