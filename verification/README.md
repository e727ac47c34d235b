# AI Tools Directory — derived views

The directory page (`AIToolsDirectory`) shows a fixed catalog of eight AI tools. It also keeps three pieces of state:
- a search term;
- a selected category, where the empty string means "All";
- a sort choice.

Everything the page lists is derived from the catalog and that state by three memoised computations:

- `categories`: the sidebar list of `[category, count]` pairs. It is built by reducing the catalog into an object keyed by category. The object's entries are then sorted by count, largest first.
- `filteredTools`: the main grid. It keeps the tools whose lower-cased name or category contains the lower-cased search term and whose category is the selected one, or every category if none is selected. It then sorts them by name (`localeCompare`), by popularity (descending), or not at all for any other sort value.
- `featuredTools`: the "Featured Tools" row. It holds the catalog's featured tools in catalog order.

This project models those three views as pure Dafny functions over an arbitrary catalog. It also models the concrete catalog and its colour table, and proves what the page relies on:
- which tools are listed, and how many times;
- the order they are listed in;
- that the sidebar counts are the true counts and sum to the "All" badge;
- that the shipped data is consistent (unique ids, popularities that are percentages, a colour for every category).

Modules:

- `Seqs`: an order-preserving `Filter`, which models `Array.prototype.filter`. It also holds the facts about filters: multiplicities, membership, order, and positions in both directions.
- `StableSort`: `Array.prototype.sort` with a JavaScript-style comparator. The sort is stable, as the ECMAScript 2019 edition and later require. `Sort` is an insertion sort, and `SortIsUnique` proves that every sorted, stable arrangement equals it, so the choice of algorithm loses nothing.
- `Text`: ASCII `toLowerCase`, `String.prototype.includes`, and a code-point string comparison that stands in for `localeCompare`.
- `Tools`: the tool record and the query state.
- `Views`: `filteredTools` and `featuredTools`.
- `CategoryCounts`: the `reduce` into an insertion-ordered object, `Object.entries`, and the count sort.
- `SampleCatalog`: the `tools` array, the `categoryColors` object, and facts about the views of that catalog.
- `SampleQueries`: two queries against that catalog, with the exact grid each one produces.

Two facts about the page:
- The selected category is a string; the empty string means "All".
- Searching "learning" sorted by popularity gives TensorFlow (95), Scikit-learn (92), PyTorch (90), as `SampleQueries.LearningByPopularity` proves.

## Model

| member | source | states |
|---|---|---|
| Views.Matches | ai-tools-directory.tsx:47-50 | The filter callback: the lower-cased name or category includes the lower-cased search term, and the category is the selected one unless "" is selected. `Views.SearchIgnoresCase`, `Views.EmptyQueryListsAll` and `SampleQueries.LearningMatchesAt` state its consequences. |
| Views.CompareTools | ai-tools-directory.tsx:51-55 | The sort callback, one branch per sort choice. `Views.CompareToolsOrders` states what its sign means and `Views.ToolOrderValid` that it is a consistent comparator. |
| Views.CompareToolsOrders | ai-tools-directory.tsx:51-55 | By name, two tools tie exactly when their names are equal. By popularity, the more popular tool sorts first and only equal popularities tie. Any other choice ties everything. Swapping the two tools negates the result. |
| Views.FilteredTools | ai-tools-directory.tsx:46-56 | The grid holds exactly the catalog tools matching the search term (in name or category, case-insensitively) and the selected category, each as often as in the catalog. It is never longer than the catalog and is sorted by the chosen comparator. |
| Views.ListedFromCatalog | ai-tools-directory.tsx:47-50 | Every tool in the grid sits at some position of the catalog and matches the query. |
| Views.FilteredToolsStable | ai-tools-directory.tsx:51-55 | The grid is a stable sort of the filtered tools: each class of tied tools keeps its filtered order. |
| Views.FilteredTiesKeepCatalogOrder | ai-tools-directory.tsx:51-55 | Two listed tools that the comparator ties appear in the same order as in the catalog. |
| Views.SortedPair | ai-tools-directory.tsx:51-55 | Any earlier listed tool compares no later than any later one under the chosen sort. |
| Views.ByPopularity | ai-tools-directory.tsx:53 | With "popularity", popularity never increases down the list, and equally popular tools keep catalog order. |
| Views.ByName | ai-tools-directory.tsx:52 | With "name", names ascend in code-point order, and tools with the same name keep catalog order. |
| Views.OtherSortKeepsCatalogOrder | ai-tools-directory.tsx:54 | Any other sort value returns 0 for every pair, so the grid is exactly the filtered tools in catalog order. |
| Views.ToolOrderValid | ai-tools-directory.tsx:51-55 | All three comparator branches are consistent: they are antisymmetric and transitive. |
| Views.EmptyQueryListsAll | ai-tools-directory.tsx:47-50 | An empty search with "All" selected lists every catalog tool, as a permutation of the catalog. |
| Views.SearchIgnoresCase | ai-tools-directory.tsx:48-49 | Lower-casing the search term first changes nothing in the grid. |
| Views.FilteredToolsUniqueIds | ai-tools-directory.tsx:167 | If the catalog's ids are unique, the grid lists no tool twice and its ids, used as element keys, are unique. |
| Views.FeaturedTools | ai-tools-directory.tsx:58 | The featured row holds exactly the featured catalog tools, each as often as in the catalog, in catalog order. |
| Views.FeaturedToolsDetermined | ai-tools-directory.tsx:58 | For a catalog with unique ids, any sequence holding exactly the featured tools, each as often as in the catalog, in catalog order, is the featured row. So those three facts fix the row exactly. |
| Views.FeaturedInCatalogOrder | ai-tools-directory.tsx:58 | Any two positions of the featured row are in catalog order. |
| CategoryCounts.Tally | ai-tools-directory.tsx:40 | One reduce step increments an existing key's count and leaves every other entry unchanged. A new key is appended with count 1, so an absent key counts as `|| 0`. |
| CategoryCounts.TallyDistinct | ai-tools-directory.tsx:40 | A reduce step never creates a second entry for a key. |
| CategoryCounts.TallyTotal | ai-tools-directory.tsx:40 | A reduce step adds exactly one to the sum of the counts. |
| CategoryCounts.CountCategories | ai-tools-directory.tsx:39-42 | The reduced object has one entry per category that occurs in the catalog. Each count is that category's true count. The entries are in order of each category's first occurrence, and the counts sum to the catalog's length. |
| CategoryCounts.Categories | ai-tools-directory.tsx:43 | The sidebar list is a permutation of the object's entries. Counts never increase down the list, and equal counts keep first-occurrence order. |
| CategoryCounts.CategoriesOrder | ai-tools-directory.tsx:43 | A stable sort by `b[1] - a[1]` orders the entries by count, largest first, with ties in insertion order. |
| CategoryCounts.CategoriesCounts | ai-tools-directory.tsx:38-44 | Every sidebar entry's count is the number of catalog tools in its category, and is positive. No category appears twice. |
| CategoryCounts.CategoriesKeys | ai-tools-directory.tsx:38-44 | A category appears in the sidebar if and only if some catalog tool has it. |
| CategoryCounts.CategoriesLookup | ai-tools-directory.tsx:38-44 | Reading the sorted entries by key gives each category's count of catalog tools, and 0 for a category with no tools. |
| CategoryCounts.CategoriesTotal | ai-tools-directory.tsx:123 | The sidebar counts sum to `tools.length`, the "All" badge. |
| CategoryCounts.CountOrder | ai-tools-directory.tsx:43 | The comparator `(a, b) => b[1] - a[1]` on entries. `CategoryCounts.CountOrderValid` states that it is consistent, and `CategoryCounts.CategoriesOrder` what sorting by it gives. |
| CategoryCounts.CountOrderValid | ai-tools-directory.tsx:43 | The comparator `b[1] - a[1]` is consistent. |
| CategoryCounts.FirstIndex | ai-tools-directory.tsx:39-42 | The position of a category's first tool: before it no tool has the category, and it exists exactly when the count is positive. |
| CategoryCounts.Lookup | ai-tools-directory.tsx:40 | `acc[c] \|\| 0`: the count stored under a key, or 0 when the object has no entry for it. `CategoryCounts.LookupFinds` states what it reads. |
| CategoryCounts.TallyLookup | ai-tools-directory.tsx:40 | After one reduce step for category `c`, reading `c` gives one more than `acc[c] \|\| 0` did, and every other key reads as before. |
| CategoryCounts.LookupFinds | ai-tools-directory.tsx:40 | Reading a key of an object with distinct keys gives that key's count, and 0 for a missing key. |
| CategoryCounts.TotalPermutation | ai-tools-directory.tsx:43 | Reordering entries does not change the sum of their counts. |
| StableSort.Sort | ai-tools-directory.tsx:51-55 | `Array.prototype.sort` with a consistent comparator returns a permutation of its input that is sorted and stable. |
| StableSort.SortIsUnique | ai-tools-directory.tsx:51-55 | Any sorted, stable permutation equals `Sort`'s result, so the result does not depend on the engine's algorithm. |
| StableSort.StableKeepsOrder | ai-tools-directory.tsx:51-55 | In a stable arrangement, two tied elements keep their input order. |
| StableSort.SortAllTiedIsIdentity | ai-tools-directory.tsx:54 | A comparator that ties everything leaves the sequence unchanged. |
| StableSort.Insert | ai-tools-directory.tsx:51-55 | Inserting into a sorted sequence adds exactly one element, keeps the sequence sorted, and puts the new element at the front of its tie class. |
| Seqs.Filter | ai-tools-directory.tsx:47 | `Array.prototype.filter`: the result is no longer than the input and every element it holds passes the callback. `Seqs.FilterMultiplicity`, `Seqs.FilterOrderedIn` and `Seqs.FilterPairForth` state the rest. |
| Seqs.OrderedInDetermines | ai-tools-directory.tsx:58 | Two sequences with the same elements, each ordered by a distinct sequence, are equal. This is what fixes an order-preserving filter's result. |
| Seqs.FilterMultiplicity | ai-tools-directory.tsx:47 | `filter` keeps each accepted element exactly as often as it occurs and drops every rejected one. |
| Seqs.FilterMembership | ai-tools-directory.tsx:47 | `filter` keeps exactly the accepted elements. |
| Seqs.FilterOrderedIn | ai-tools-directory.tsx:47 | `filter` never reverses two elements. |
| Seqs.FilterPairForth | ai-tools-directory.tsx:47 | Two accepted input positions appear in the result in the same order. |
| Seqs.FilterAll | ai-tools-directory.tsx:47 | A filter that accepts everything returns its input. |
| Seqs.FilterExtensional | ai-tools-directory.tsx:47-50 | Callbacks that agree on every element give the same filter result. |
| Text.LowerChar | ai-tools-directory.tsx:48-49 | Lower-casing one character gives no upper-case ASCII letter. It moves A-Z by 32 and leaves every other character alone. |
| Text.ToLower | ai-tools-directory.tsx:48-49 | `toLowerCase` keeps the length and maps each upper-case ASCII letter to its lower-case letter. |
| Text.ToLowerIdempotent | ai-tools-directory.tsx:48-49 | Lower-casing twice is the same as lower-casing once. |
| Text.Includes | ai-tools-directory.tsx:48-49 | `String.prototype.includes`: the needle is a prefix of the haystack or is included in its tail. `Text.IncludesIffOccurs` states it as "occurs at some position". |
| Text.IncludesIffOccurs | ai-tools-directory.tsx:48-49 | `includes` holds if and only if the needle occurs at some position of the haystack. |
| Text.IncludedCharsOccur | ai-tools-directory.tsx:48-49 | If `includes` holds, every character of the needle occurs in the haystack, and the needle's first two characters occur there side by side. |
| Text.IncludesEmpty | ai-tools-directory.tsx:48-49 | Every string includes the empty string. |
| Text.StrCompare | ai-tools-directory.tsx:52 | The stand-in for `localeCompare`: lexicographic comparison by code point, negative when the first string sorts first. `Text.StrCompareAntisymmetric` and `Text.StrCompareTransitive` state that it is a consistent order. |
| Text.StrCompareAntisymmetric | ai-tools-directory.tsx:52 | The name comparison is 0 exactly for equal names, and swapping its arguments negates it. |
| Text.StrCompareTransitive | ai-tools-directory.tsx:52 | The name comparison is transitive. |
| SampleCatalog.Catalog | ai-tools-directory.tsx:11-21 | The `tools` array: the eight tools with their ids, names, categories, descriptions, images, featured flags, popularities and links, in source order. |
| SampleCatalog.CategoryColors | ai-tools-directory.tsx:24-31 | The `categoryColors` object: one badge class string for each of the six categories. |
| SampleCatalog.CatalogIdsUnique | ai-tools-directory.tsx:12-21 | The catalog's ids are 1 to 8 in order, so no two tools share one. |
| SampleCatalog.CatalogPopularityInRange | ai-tools-directory.tsx:12-21 | Every popularity lies between 0 and 100. |
| SampleCatalog.CatalogCategoriesColoured | ai-tools-directory.tsx:24-31 | Every catalog category has an entry in the colour table. |
| SampleCatalog.ListedBadgesColoured | ai-tools-directory.tsx:181 | Whatever the query, no badge in the grid or the featured row lacks a colour. |
| SampleCatalog.CatalogFeaturedCount | ai-tools-directory.tsx:58 | Exactly four tools are featured. |
| SampleCatalog.CatalogCountOf | ai-tools-directory.tsx:12-21 | "Machine Learning" has three tools, each of the other five categories has one, and no other category has any. |
| SampleCatalog.CatalogCategoriesHead | ai-tools-directory.tsx:38-44 | The first sidebar entry is "Machine Learning" with count 3. |
| SampleCatalog.CatalogAllBadge | ai-tools-directory.tsx:123 | The "All" badge shows 8, and it equals the sum of the sidebar counts. |
| SampleQueries.LearningMatchesAt | ai-tools-directory.tsx:47-50 | A catalog entry matches the search "learning" if and only if it is TensorFlow, PyTorch or Scikit-learn (positions 0, 1 and 7). No other name or category contains "learning" in any case. |
| SampleQueries.LearningByPopularity | ai-tools-directory.tsx:46-56 | Searching "learning" with "All" selected and the popularity sort lists exactly TensorFlow, Scikit-learn, PyTorch, in that order. |
| SampleQueries.GridOfThree | ai-tools-directory.tsx:46-56 | If exactly three catalog entries match and the sort is by popularity, the grid is those three, most popular first. |
| SampleQueries.RoboticsMatchesAt | ai-tools-directory.tsx:47-50 | With an empty search and "Robotics" selected, only ROS (position 4) matches. |
| SampleQueries.RoboticsByName | ai-tools-directory.tsx:46-56 | Selecting "Robotics" with an empty search and the name sort lists exactly ROS. |
| SampleQueries.GridOfOne | ai-tools-directory.tsx:46-56 | If exactly one catalog entry matches, the grid is that entry alone, whatever the sort. |

## Left out

- The rendering (JSX, layout, dialogs, icons, images) and the event handlers are left out. The model treats the three state values as inputs.
- React's `useState` and `useMemo` are left out. Each memoised value is modelled as a pure function of its inputs, because memoisation does not change the value.
- Text.ToLower: folds only the ASCII letters A-Z. Other letters are not folded, because JavaScript's full Unicode case mapping is not modelled. The catalog itself is ASCII.
- Text.StrCompare: this stands in for `localeCompare`. It compares lexicographically by code point rather than by locale collation, because locale collation is not modelled. The ordering theorems (`Views.ByName`) are therefore stated for code-point order.
- Strings are Dafny strings: sequences of Unicode scalar values, not JavaScript's UTF-16 code units. Lengths, positions and the name order therefore differ from JavaScript's for characters outside the Basic Multilingual Plane. The catalog has no such characters.
- The badge class string at ai-tools-directory.tsx:95 is rendering, so it is not modelled. `SampleCatalog.ListedBadgesColoured` states that the shipped catalog never looks up a category missing from the colour table. A lookup of a name such as "constructor" would read an `Object.prototype` member; that case is not modelled.
- The object built by `reduce` is an insertion-ordered list of entries. Two things are left out, and the catalog contains neither:
  - JavaScript lists integer-like keys (such as "42") before the other keys;
  - keys that clash with `Object.prototype` members (such as "constructor") behave differently.
- Tools.Tool: `id` and `popularity` are JavaScript numbers (IEEE doubles) but are modelled as unbounded integers. Fractional values (such as 92.5), NaN, infinities and integers beyond 2^53 are not modelled. With NaN, `b.popularity - a.popularity` is NaN, the sort reads it as 0, and the comparator is no longer consistent. So `Views.ByPopularity`, `Views.CompareToolsOrders` and `Views.ToolOrderValid` describe the page only for exactly representable integer popularities. The catalog's popularities, 70 to 95, are such integers.
- `image` and `link` are carried as strings and never interpreted. `description` is carried but not searched, as in the page's code.
- The engine's own sorting algorithm is not modelled. The result depends only on the comparator, by `StableSort.SortIsUnique`.
- SampleCatalog.CatalogFeaturedCount: states how many tools are featured (4), not the exact list of four. The exact list follows from `Views.FeaturedTools` (each featured tool exactly once, in catalog order) but is not proved as one sequence equality.
- Only two sample queries are worked out to concrete grids (`SampleQueries`). Every other query is covered by the general theorems in `Views`.
