# Filterable Portfolio helper — a Dafny model

The portfolio plugin has a static helper class, `Filterable_Portfolio_Helper`, and this project models it. The helper does four things:

- It builds the argument arrays it hands to the host's `get_posts`, both for portfolio listings and for related projects.
- It parses the `_project_images` post meta, a comma-separated list of attachment IDs.
- It turns the host's category and skill term lookups into plain lists, mapping an error to an empty list.
- It answers yes/no questions about the current request and the active theme.

The model never issues a host call. Every answer the host platform gives is a parameter of the function that uses it:

- stored options
- the post meta value
- terms
- the template lookup
- the theme headers
- the conditional tags

Modules:

- `Wrappers` (`wrappers.dfy`): `Option`.
- `Php` (`php.dfy`): the PHP runtime behaviour the helper depends on.
  - Scalar values and their truthiness, `isset`, and `is_numeric`/`intval` with their string internals left as parameters.
  - `rtrim`, `explode` and `implode`.
  - `array_filter`. A PHP array is an ordered sequence of key/value entries, so the keys that `array_filter` keeps are visible.
- `PortfolioHelper` (`portfolio_helper.dfy`): one pure function per static member of the class, plus the lemmas about them. The class has no fields and no loops. Its argument builders assign array keys step by step, and their bodies do the same with record updates.

The image-ID list keeps PHP's shape: the ordered entries of the array the helper returns. In the string case each surviving segment keeps its index in the split as its key. So `"12,47,,90,"` yields keys 0, 1 and 3 (`ExampleImageList`), and `"0,5"` yields only key 1, because `array_filter` drops `"0"` (`ExampleZeroDropped`).

The helper trims trailing commas with `rtrim`, which removes every trailing comma, not just one, and the model follows that. `TrimIsRedundant` shows the trim changes nothing: `array_filter` would drop those empty trailing segments anyway. That is why any number of trailing commas leaves the list, keys included, unchanged (`TrailingCommasIgnored`).

`featured` is compared with `== true`, a loose comparison. So the string `"false"` also switches the featured filter on (`LooseFeaturedValues`).

## Model

| member | source | states |
|---|---|---|
| `Php.RTrim` | includes/class-filterable-portfolio-helper.php:114 | the result is the longest prefix that does not end in a comma, and everything cut off is commas |
| `Php.Explode` | includes/class-filterable-portfolio-helper.php:116 | at least one segment, no segment contains the separator, and joining the segments with the separator gives back the input |
| `Php.ExplodeImplode` | includes/class-filterable-portfolio-helper.php:116 | splitting undoes joining whenever no part contains the separator |
| `Php.ExplodeTrailingSeparator` | includes/class-filterable-portfolio-helper.php:114-116 | appending one separator appends exactly one empty segment |
| `Php.FalsyValues` | includes/class-filterable-portfolio-helper.php:118 | a scalar is falsy exactly when it is null, false, 0, "" or "0" |
| `Php.IsNumeric` | includes/class-filterable-portfolio-helper.php:45-49 | only integers and strings can be numeric, and every integer is |
| `Php.IsSet` | includes/class-filterable-portfolio-helper.php:45-53 | `isset` holds exactly when the key is present and its value is not null |
| `Php.IsSetIn` | includes/class-filterable-portfolio-helper.php:33-35 | `isset` on what `get_option` returned holds exactly when that is an array holding the key with a non-null value |
| `Php.IntVal` | includes/class-filterable-portfolio-helper.php:46 | `intval` keeps integers; null and false become 0 |
| `Php.ListArray` | includes/class-filterable-portfolio-helper.php:116 | the array from `explode` lists segment i under key i, with keys ascending |
| `Php.ArrayFilter` | includes/class-filterable-portfolio-helper.php:118 | the result is no longer than the input and every kept value is truthy (which entries are kept: `ArrayFilterKeeps`) |
| `Php.ArrayFilterKeeps` | includes/class-filterable-portfolio-helper.php:118 | an entry survives exactly when it was in the array and its value is truthy, with its original key |
| `Php.ArrayFilterAscending` | includes/class-filterable-portfolio-helper.php:118 | filtering keeps the relative order of the keys |
| `Php.ArrayFilterAppend` | includes/class-filterable-portfolio-helper.php:118 | filtering works entry by entry (it distributes over concatenation) |
| `PortfolioHelper.Commas` | includes/class-filterable-portfolio-helper.php:114 | a run of n separators |
| `PortfolioHelper.ImageIdsFromString` | includes/class-filterable-portfolio-helper.php:112-119 | the parsed list has ascending integer keys, and each value is a string other than "" and "0" |
| `PortfolioHelper.PortfolioImageIds` | includes/class-filterable-portfolio-helper.php:109-122 | an array meta value comes back unchanged; a non-string scalar gives the empty array; a string gives ascending integer keys with truthy values |
| `PortfolioHelper.HasPortfolioImages` | includes/class-filterable-portfolio-helper.php:131-135 | true exactly when the image-ID list is non-empty |
| `PortfolioHelper.StringHasImagesIff` | includes/class-filterable-portfolio-helper.php:112-118 | a string meta value yields some image ID exactly when one of its comma-separated segments is neither "" nor "0" |
| `PortfolioHelper.HasImagesIff` | includes/class-filterable-portfolio-helper.php:131-135 | a post has images exactly when its meta is a non-empty array, or a string with a comma-separated segment other than "" and "0" |
| `PortfolioHelper.FilterIgnoresTrailingCommas` | includes/class-filterable-portfolio-helper.php:116-118 | split-then-filter gives the same array whatever number of commas is appended |
| `PortfolioHelper.TrimIsRedundant` | includes/class-filterable-portfolio-helper.php:113-118 | the parse equals split-then-filter of the untrimmed string |
| `PortfolioHelper.ImageIdsAreKeptSegments` | includes/class-filterable-portfolio-helper.php:114-118 | the parsed list holds exactly the segments other than "" and "0", each under its index in the split, in ascending order |
| `PortfolioHelper.TrailingCommasIgnored` | includes/class-filterable-portfolio-helper.php:113-118 | appending any number of commas leaves the parsed list, keys included, unchanged |
| `PortfolioHelper.ExampleImageList` | includes/class-filterable-portfolio-helper.php:112-118 | "12,47,,90," parses to "12", "47" and "90" under keys 0, 1 and 3 |
| `PortfolioHelper.ExampleZeroDropped` | includes/class-filterable-portfolio-helper.php:118 | "0,5" parses to "5" alone, under key 1 |
| `PortfolioHelper.NumericArg` | includes/class-filterable-portfolio-helper.php:45-49 | an argument overrides exactly when it is present and is an integer or a string that `is_numeric` accepts |
| `PortfolioHelper.FeaturedRequested` | includes/class-filterable-portfolio-helper.php:53 | the featured filter is requested exactly when `featured` is present and is not null, false, 0, "" or "0" |
| `PortfolioHelper.PortfolioQuery` | includes/class-filterable-portfolio-helper.php:31-62 | published portfolio posts; per-page, sort field and order come from the options, or default to -1, ID and DESC; only numeric per_page and page override; the featured meta clause is present exactly when featured is set and loosely true; no exclusion list and no tax query |
| `PortfolioHelper.DefaultPortfolioQuery` | includes/class-filterable-portfolio-helper.php:32-43 | with no stored options and no paging or featured arguments, the query is exactly portfolio, publish, -1, ID, DESC |
| `PortfolioHelper.NonNumericOverrideIgnored` | includes/class-filterable-portfolio-helper.php:45-51 | a non-numeric per_page or page argument gives the same query as leaving it out |
| `PortfolioHelper.NumericPerPageWins` | includes/class-filterable-portfolio-helper.php:45-47 | a numeric per_page argument, integer or numeric string, overrides any stored per-page option with its `intval` |
| `PortfolioHelper.NumericStringPerPageWins` | includes/class-filterable-portfolio-helper.php:45-47 | per_page given as the string "6" that `is_numeric` accepts sets the page size to that string's `intval` |
| `PortfolioHelper.LooseFeaturedValues` | includes/class-filterable-portfolio-helper.php:53-60 | featured set to "false" or "no" adds the meta clause; "0", "" or false does not |
| `PortfolioHelper.TermIds` | includes/class-filterable-portfolio-helper.php:88 | plucking term_id keeps the length and the order |
| `PortfolioHelper.AppendTaxClause` | includes/class-filterable-portfolio-helper.php:90-96 | `$args['tax_query'][] = ...` appends the clause after the existing ones, keeps the relation and changes no other field |
| `PortfolioHelper.RelatedQuery` | includes/class-filterable-portfolio-helper.php:72-99 | excludes exactly the post's own ID; limit from the option, default 3; tax query relation OR; one clause per taxonomy whose lookup gave an array, categories first, skills last, each with the plucked term IDs |
| `PortfolioHelper.RelatedClausesPerTaxonomy` | includes/class-filterable-portfolio-helper.php:84-97 | the clauses name only the category and skill taxonomies by id, each at most once, and each exactly when its lookup gave an array |
| `PortfolioHelper.TermsOrEmpty` | includes/class-filterable-portfolio-helper.php:161-165 | an error becomes the empty list; an array is returned as is |
| `PortfolioHelper.PortfolioCategories` | includes/class-filterable-portfolio-helper.php:155-166 | asks for non-empty category terms; gives none on error, otherwise what the host found |
| `PortfolioHelper.PortfolioSkills` | includes/class-filterable-portfolio-helper.php:173-184 | asks for non-empty skill terms; gives none on error, otherwise what the host found |
| `PortfolioHelper.PostIds` | includes/class-filterable-portfolio-helper.php:145 | plucking ID keeps the length and the order |
| `PortfolioHelper.CategoriesFromPortfolios` | includes/class-filterable-portfolio-helper.php:144-148 | the host is asked for category terms of exactly the given posts' IDs, in order, and its answer is returned untouched |
| `PortfolioHelper.IsSinglePortfolio` | includes/class-filterable-portfolio-helper.php:191-193 | true exactly on a single portfolio view |
| `PortfolioHelper.IsPortfolioArchive` | includes/class-filterable-portfolio-helper.php:200-209 | true exactly on the portfolio archive, a category listing or a skill listing |
| `PortfolioHelper.HasSingleTemplate` | includes/class-filterable-portfolio-helper.php:216-223 | true exactly when the lookup of single-portfolio.php is non-empty |
| `PortfolioHelper.HasArchiveTemplate` | includes/class-filterable-portfolio-helper.php:230-242 | true exactly when the lookup of the three archive templates is non-empty |
| `PortfolioHelper.IsShaplaThemeActive` | includes/class-filterable-portfolio-helper.php:249-259 | true exactly when the theme's template is "shapla" or its name is "Shapla" |
| `PortfolioHelper.SupportsArchiveTemplate` | includes/class-filterable-portfolio-helper.php:267-269 | true exactly when an archive template is found or the Shapla theme (or a child of it) is active |
| `PortfolioHelper.ArchiveSupportFromFiles` | includes/class-filterable-portfolio-helper.php:230-269 | when the lookup finds exactly the theme's files, archive support means one of the three archive files is present, or the theme is Shapla |

## Left out

- includes/Filterable_Portfolio_Widget.php as a whole. Its `widget()` and `form()` only echo markup and run the shortcode. `update()` is one call to the host's `sanitize_text_field`. The rest is host registration.
- What the host does with the arguments: the posts `get_posts` returns are not modelled. So "related projects never include the post itself" is stated as the exclusion list being exactly that post's ID. Likewise, what an OR tax query with no clauses matches is host query semantics.
- The host calls themselves: `get_the_terms`, `get_terms`, `wp_get_object_terms`, `get_post_meta`, `get_option`, `locate_template`, `wp_get_theme` and the conditional tags. Each is a parameter or an input value.
- `get_post($post)`: resolving a post object, an ID or the global post is host work, so the post ID is an input. Calling the helper with no resolvable post is not modelled.
- Which strings `is_numeric` accepts, what `intval` makes of a string, and what `esc_attr` produces. These are parameters (`Php.Conversions`).
- Floats, objects and nested arrays as values: scalars are null, booleans, integers and strings. An array meta value is an array of such scalars.
- `get_option` returning something other than an array is modelled as `None`, because `isset` of a key on it is false.
- The `ABSPATH` direct-access guard at the top of the helper file.
- The comment at includes/class-filterable-portfolio-helper.php:113 speaks of removing "last comma", but the `rtrim` on line 114 removes every trailing comma, and the model follows the code. `TrimIsRedundant` and `TrailingCommasIgnored` show that no caller can tell the two apart after `array_filter`.
