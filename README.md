# Plugin Cards, modelled in Dafny

Plugin Cards is a WordPress plugin. Its `[plugin_cards]` shortcode asks the
WordPress.org plugin directory about one plugin or a list of plugins, and
prints a card for each one. This project models the two functions that do the
work, `pc_plugin_cards_shortcode` and `pc_render_plugin_card`, and proves what
they promise.

- `PhpValues` (php_values.dfy) covers the PHP semantics the control flow
  depends on:
  - string truthiness (`""` and `"0"` are false);
  - `esc_attr` as entity escaping of `& < > " '`;
  - the `(int)` cast of a string;
  - the "first truthy value" search that an if/elseif chain performs.
- `Directory` (directory.dfy) holds the shapes exchanged with `plugins_api`: a
  request (action and argument array), the plugin record, and a lookup result.
  A result is a single plugin object, an object with a `plugins` list, a
  `WP_Error`, or a falsy non-object.
- `Resolver` (resolver.dfy) covers:
  - the attribute defaults of `shortcode_atts`;
  - `per_page`;
  - the precedence chain (custom query arguments, then slug, author, tag,
    user, browse, search);
  - the request each query sends, including the constant `fields` array;
  - the transient key each query uses.
- `Renderer` (renderer.dfy) covers a card's decisions:
  - the link target with its directory-URL fallback;
  - the svg / 2x / 1x / default icon chain;
  - the five-star row with the 98/90 thresholds on the fifth star;
  - the installs wording and the compatibility line;
  - the five sections a filter can replace;
  - `false` for anything that is not an object.
- `Shortcode` (shortcode.dfy) covers:
  - the cache-through lookup;
  - the output wrapper, built card by card in a loop (`Assemble`);
  - the whole shortcode as a specification function (`Run`);
  - the class `PluginCards`, which holds the site's transients as a map and
    whose `Shortcode` method reads and writes them in place.

WordPress services are parameters: `plugins_api`, `esc_url`, the query-args
filter and the nine card filters are function values in `Env` and
`CardFilters`. The model therefore holds for every behaviour of those services.

## Model

| member | source | states |
|---|---|---|
| PhpValues.EscAttr | plugin-cards.php:75-80 | escaping never shortens a value and leaves a value without special characters unchanged |
| PhpValues.EscAttrKeepsTruthiness | plugin-cards.php:75-80 | an escaped attribute is truthy exactly when the attribute as written is, so escaping before the chain changes no branch |
| PhpValues.IntCastOfDecimalString | plugin-cards.php:74 | the `(int)` cast of a decimal number's text (sign included) gives back that number |
| PhpValues.FirstTruthyIndex | plugin-cards.php:110-226 | the chosen position holds a truthy value and every earlier one is falsy; there is none exactly when all values are falsy |
| Resolver.ShortcodeAtts | plugin-cards.php:64-72 | each filter and `max_results` take the written attribute of the same name, or the default when it is absent |
| Resolver.ShortcodeAttsIgnoresUnknown | plugin-cards.php:64-72 | an attribute outside the seven known names does not change the attributes |
| Resolver.PerPageOfDecimal | plugin-cards.php:74 | a decimal `max_results` is the page size requested |
| Resolver.Resolve | plugin-cards.php:110-226 | custom arguments win exactly when non-empty; otherwise the chosen filter's escaped value is truthy and every filter earlier in precedence is falsy; no query runs exactly when all are falsy |
| Resolver.ResolveIsFirstTruthy | plugin-cards.php:110-226 | the chain agrees with the first truthy value, in precedence order, of the escaped filter values |
| Resolver.ResolveOnWrittenAttributes | plugin-cards.php:117-226 | the same choice stated on the attributes as written: the chosen one is truthy, all earlier ones are not, and the value is its escaping |
| Resolver.QueryFields | plugin-cards.php:83-96 | the field set has exactly the twelve names, with `reviews` and `sections` false and the other ten true |
| Resolver.RequestFor | plugin-cards.php:110-221 | custom arguments send `query_plugins` with those arguments. Slug sends `plugin_information` with exactly `slug` and `fields`. The other filters send `query_plugins` with exactly `per_page`, their own key and `fields`. No query sends nothing |
| Resolver.AsWrittenKeyIgnoresValue | plugin-cards.php:120-224 | as written, a filter's transient key is the same for every value of that filter |
| Resolver.InterpolatedKeySeparatesValues | plugin-cards.php:120 | with the key interpolated, two different values of a filter never share a key |
| Renderer.Pick | plugin-cards.php:295-299 | a section is the filter's markup verbatim exactly when that markup is truthy, and the computed section otherwise |
| Renderer.DisplayUrl | plugin-cards.php:279-282 | the link is the escaped homepage when that is truthy, otherwise the directory page built from the escaped slug; it is never empty |
| Renderer.IconChoice | plugin-cards.php:304-329 | the icon is the first non-empty of svg, 2x, 1x, default, with no image when all are empty; only 2x and 1x are passed through `esc_url` |
| Renderer.Stars | plugin-cards.php:367-412 | five stars. Star i of the first four is full from 20i and half from 20i-10. The fifth is full from 98 and half from 90. Fill never increases along the row and nothing follows a half star. Below 10 all are empty; from 98 all are full |
| Renderer.StarsMonotone | plugin-cards.php:367-412 | a higher rating never shows a star less filled |
| Renderer.InstallsText | plugin-cards.php:443-447 | "1+ Million" exactly when active installs reach 1000000, otherwise the count itself (followed by "+") |
| Renderer.Compatibility | plugin-cards.php:461-463 | the compatibility line appears exactly when `tested` is not empty, and shows it escaped |
| Renderer.RenderCard | plugin-cards.php:269-472 | a card's link, name, description and author pass through their filters. Each of the icon, rating, last-updated, installs and compatibility sections is the filter's truthy markup or else the computed default |
| Renderer.RenderValue | plugin-cards.php:272-477 | a card is produced exactly for an object; anything else renders as `false` |
| Renderer.UnfilteredCard | plugin-cards.php:278-463 | with no filter attached, every section shows its computed default and the link is never empty |
| Shortcode.CardsInListOrder | plugin-cards.php:245-248 | a result list yields one card per plugin object, in list order, and nothing for a non-object (the number of cards is the number of object positions) |
| Shortcode.AssembledShape | plugin-cards.php:228-263 | the output is empty exactly when the result is not a non-error object. Otherwise it is one wrapper holding only cards: multiple-plugins with the list's cards when `plugins` is set, single-plugin with one card when it is not |
| Shortcode.Assemble | plugin-cards.php:239-259 | the loop that appends card after card builds exactly the specified output |
| Shortcode.CacheThrough | plugin-cards.php:120-134 | a stored truthy value is a hit: no request is sent and the transients are unchanged. A miss sends the request. Only a non-error object is stored. Every other key is untouched |
| Shortcode.RunOutput | plugin-cards.php:228-263 | the shortcode prints nothing exactly when no query ran or the result is not a non-error object; any request sent is the one the query calls for |
| Shortcode.CustomQueryBypassesCache | plugin-cards.php:110-115 | custom arguments always reach the directory and never read or write a transient |
| Shortcode.RunKeepsCacheUsable | plugin-cards.php:132-134 | if every stored transient is a non-error object, that still holds after the shortcode |
| Shortcode.RepeatIsServedFromCache | plugin-cards.php:119-135 | a filtered shortcode that printed something, evaluated again, sends no request and prints the same output |
| Shortcode.SlugShortcodeRun | plugin-cards.php:117-135 | for any truthy slug, the shortcode runs the slug query on the escaped slug, through the slug transient, with the `plugin_information` request |
| Shortcode.SlugRunMissStores | plugin-cards.php:124-134 | on a miss with a usable answer, a slug shortcode sends its request for the escaped slug, stores the answer under its key and prints it |
| Shortcode.SlugRunHit | plugin-cards.php:120-124 | on a hit, a slug shortcode sends nothing, changes no transient and prints what is stored |
| Shortcode.AsWrittenServesAnotherSlugsCard | plugin-cards.php:120-133 | as written, `slug="jetpack"` after `slug="akismet"` sends no request and prints Akismet's output |
| Shortcode.SlugRunStoresOnlyItsKey | plugin-cards.php:133 | a slug shortcode adds no transient other than its own key |
| Shortcode.InterpolatedMissLooksUp | plugin-cards.php:120-131 | with interpolated keys, a slug whose own transient is absent is looked up in the directory |
| Shortcode.InterpolatedLooksUpEachSlug | plugin-cards.php:120-133 | with interpolated keys, `slug="jetpack"` after `slug="akismet"` asks for Jetpack and prints the directory's answer |
| Shortcode.PluginCards.FetchThrough | plugin-cards.php:120-134 | reading and writing the transient store in place has the outcome `CacheThrough` specifies |
| Shortcode.PluginCards.Shortcode | plugin-cards.php:62-264 | the shortcode's output, transients and request are those `Run` specifies, and it keeps every stored transient a non-error object |

## Left out

- js/plugin-cards.js is not part of this model. It is browser layout code driven by a timer.
- Transient expiry is left out: the 15-minute lifetime and the `plugin_cards_cache_expiration` filter. The transient store is a map without time.
- `plugins_api` is a function parameter. Its HTTP exchange is not modelled.
- `esc_url`, `esc_html` and `wp_kses_post` are not modelled. `esc_url` is a function parameter and the other two are not represented.
- PhpValues.EscAttr: WordPress's checks against double-encoding existing entities and against invalid UTF-8 are not modelled.
- Localisation and formatting are left out: `__`, `_e`, `_x`, `number_format_i18n`, and `human_time_diff` over `last_updated`. The card keeps the raw count and timestamp.
- Hook registration, the text domain, style registration and enqueueing, and output buffering are left out as WordPress plumbing.
- Renderer.RenderCard: the markup is produced by successive `echo`s into an output buffer in the source. Here it is a `Card` value with one field per decision, so markup order and exact HTML text are not captured.
- PhpValues.IntCast: PHP's acceptance of the exponent form (`"1e3"` casts to 1000) and its integer overflow are not modelled.
- A custom query argument that is a truthy non-array value is represented only as a map, so it cannot be expressed.
- A plugin record with no slug is handled as the code handles it: only `is_object` is checked and the slug reads as "". No error is raised for it.
- Section overrides follow the code's truthiness test, so an override of `"0"` counts as absent, just like "".

## Findings

| source | as written | input that shows it | evidently intended | confidence | as-written member | corrected member |
|---|---|---|---|---|---|---|
| plugin-cards.php:120 | The transient key is the single-quoted literal `'plugin_cards_{$slug}'`, which PHP does not interpolate. Every slug shares one key, and the same holds for author, tag, user, browse and search (lines 133-223). | `[plugin_cards slug="akismet"]` then `[plugin_cards slug="jetpack"]` within the transient lifetime: the second prints Akismet's card and sends no request | the key contains the filter value, so each value is cached separately | not executed | Shortcode.AsWrittenServesAnotherSlugsCard | Shortcode.InterpolatedLooksUpEachSlug |

`PluginCards.Shortcode` takes the key scheme as a parameter.
`Shortcode(AsWritten, …)` is the plugin as written. `Shortcode(Interpolated, …)`
is the corrected version, proved against the same `Run`. Even with interpolated
keys, two filter kinds that share a value (a tag and a search both equal to
`"seo"`) share a key. So do two `max_results` settings for the same filter.
The corrected member does not claim otherwise.
