# App idea generator: a Dafny model of the generation and saved-idea logic

The application is a single React page. It asks a remote service for one
"app idea" in each of three randomly chosen categories and shows the ideas.
The user can star an idea to keep it in a saved list, which is stored in the
browser. This project models the pure logic inside that page, `src/App.js`,
in four modules:

- `Categories`: the fixed list of twenty categories and the map from each
  category to the slug the service expects.
- `Sampler`: picking three categories by repeated draw-and-remove from a copy
  of the list. The random draws are an index oracle: `picks[i]` is the index
  drawn in round `i`, and it is below the copy's length at that round.
- `Fetcher`: turning each sampled category into one idea. The network is an
  oracle too: `outcomes[k]` is what the request for the `k`-th category gave.
  It is a non-2xx status, an exception, or a parsed body whose `name` and
  `description` may be missing. Any failure gives the fixed fallback idea.
  A missing service URL aborts the whole generation with an error.
- `SavedStore`: the saved list, newest first. It has save-by-prepend,
  remove-by-id, the triple-based "already saved" check, the star button's
  guarded click, and the load from storage with a parse oracle.

`Options` and `Seqs` hold the option type, JavaScript string truthiness and
some sequence facts (splice, distinctness, subsequence).

A category is a value of an enumeration. `Categories.Name` gives its display
string, spelled as in the source ("Data and Vizualization",
"Developer and Creative Utiltiies").

`saveIdea` itself always prepends. Only the star button's handler
(src/App.js:210) checks `isIdeaSaved` first. `SaveIdea` and `ClickStar` model
the two separately, and `SaveAloneDuplicates` shows that `SaveIdea` alone does
not deduplicate.

## Model

| member | source | states |
|---|---|---|
| `Categories.CategoriesDistinct` | src/App.js:3-24 | the category list has twenty entries and no category appears twice |
| `Categories.CategoryNamesDistinct` | src/App.js:3-24 | no display string appears twice in the list |
| `Categories.NameInjective` | src/App.js:3-24 | different categories have different display strings, so comparing categories is comparing the source's strings |
| `Categories.ApiSlug` | src/App.js:27-48 | looking up any category's display string in the string-keyed slug map finds a non-empty slug, so the "no mapping" skip never fires |
| `Seqs.RemoveAt` | src/App.js:118 | `splice(i, 1)` shortens the copy by one, keeps the entries before `i` and shifts the later ones down |
| `Seqs.RemoveAtMultiset` | src/App.js:118 | splicing removes exactly one occurrence of the chosen entry and nothing else |
| `Sampler.DrawAndRemove` | src/App.js:112-119 | draw-and-remove yields one entry per pick and leaves the copy shorter by the number of picks |
| `Sampler.DrawIsPermutation` | src/App.js:113-119 | the drawn entries plus what remains of the copy are a permutation of the original list |
| `Sampler.DrawPartitions` | src/App.js:112-119 | from a list without repeats, the draw is repeat-free, comes from the list, and shares nothing with the remainder |
| `Sampler.DrawRounds` | src/App.js:115-119 | the loop of push-and-splice rounds computes exactly the reference draw-and-remove |
| `Sampler.SampleCategories` | src/App.js:111-119 | sampling gives three distinct categories, leaves 17 in the copy, and the two together are a permutation of the list |
| `Fetcher.IdeaFor` | src/App.js:139-163 | the idea for a category always carries that category and a non-empty name and description |
| `Fetcher.IdeaForOutcome` | src/App.js:139-163 | a non-2xx status, an exception, or a missing or empty field gives exactly the fallback idea; otherwise the fetched pair is used |
| `Fetcher.BuildBatch` | src/App.js:121-165 | the loop yields at most one idea per category and one request per idea, each idea's category among the sampled ones |
| `Fetcher.BatchOnePerCategory` | src/App.js:124-163 | when every category has a slug, the batch has exactly one idea per category, in sampling order, from its own outcome, and requests that category's slug |
| `Fetcher.SampledBatch` | src/App.js:111-165 | any valid three-pick sample yields three ideas and three requests, one per sampled category, in order |
| `Fetcher.Generate` | src/App.js:96-174 | without a URL nothing is requested, the ideas stay empty, the error is the configuration message and loading ends; with one, there are three ideas in sample order, three requests, no error |
| `Fetcher.SampledCategoriesDistinct` | src/App.js:112-163 | ideas built from a draw over a repeat-free list have pairwise different categories, all from the list |
| `Fetcher.GeneratedCategoriesDistinct` | src/App.js:111-167 | the three ideas of a successful generation are in three different categories |
| `Fetcher.ScenarioSample` | src/App.js:115-119 | picks 1, 9, 11 draw "Audio & Music", "Retro Web", "Accessibility" |
| `Fetcher.ScenarioBatch` | src/App.js:124-165 | a success, a throw and an empty body give the fetched idea followed by two fallbacks |
| `Fetcher.MixedOutcomesScenario` | src/App.js:96-174 | the worked generation: all three ideas shown, the second and third equal to their fallback templates, three slugs requested |
| `SavedStore.IsIdeaSaved` | src/App.js:87-94 | the check holds exactly when some entry matches the idea on name, description and category |
| `SavedStore.SaveIdea` | src/App.js:74-81 | the new head carries the idea's triple with the given id and timestamp; the tail is the previous list |
| `SavedStore.RemoveSavedIdea` | src/App.js:83-85 | no entry with the id is left, every other entry keeps its multiplicity, and the result is an order-preserving subsequence |
| `SavedStore.ClickStar` | src/App.js:210 | after a star click the idea is saved, an already-saved idea leaves the list alone, and triple (and, with a fresh id, id) uniqueness survives |
| `SavedStore.ClicksKeepTriplesUnique` | src/App.js:210 | any sequence of star clicks keeps a list without duplicate triples free of them |
| `SavedStore.RepeatedClicksSaveOnce` | src/App.js:210 | clicking the same idea's star any number of times adds at most one entry, made by the first click |
| `SavedStore.AlreadySavedClicksNoop` | src/App.js:210 | clicks on an idea that is already saved never change the list |
| `SavedStore.SavedAfterSave` | src/App.js:74-94 | right after `saveIdea`, `isIdeaSaved` holds for that idea |
| `SavedStore.SaveAloneDuplicates` | src/App.js:74-81 | `saveIdea` alone on a saved idea produces a duplicate triple |
| `SavedStore.RemoveAbsentIsNoop` | src/App.js:83-85 | removing an id no entry has leaves the list unchanged |
| `SavedStore.RemoveUndoesSave` | src/App.js:74-85 | saving with a fresh id and then removing that id restores the list |
| `SavedStore.RemovePresentShrinksByOne` | src/App.js:83-85 | with unique ids, removing a present id shrinks the list by exactly one |
| `SavedStore.RemoveUnsaves` | src/App.js:83-94 | in a list without duplicate triples, removing an entry makes its idea unsaved |
| `SavedStore.RemoveKeepsInvariants` | src/App.js:83-85 | removal keeps triples unique and ids unique |
| `SavedStore.Load` | src/App.js:56-67 | a missing or empty stored value or a parse failure gives the empty list; a successful parse gives the parsed list |

## Left out

- Rendering, JSX markup and the `useState`/`useEffect` wiring are not modelled. The `disabled={loading}` gating is reduced to the final loading flag in `Fetcher.Generate`.
- `fetch`, URL building with `encodeURIComponent` and `response.json()` are network I/O. Each request is an abstract `FetchOutcome`, and the requested slugs are recorded instead of URLs.
- A JSON body whose `name` or `description` is truthy but not a string (a number, an object) is not modelled. Fields are absent, null or strings.
- Persistence is not modelled: the effect that writes the whole list to `localStorage` on every change (src/App.js:69-72) and `JSON.stringify`. Loading takes the stored value and a parse oracle. A parse that yields a value other than an array is not modelled.
- Saved entries loaded from storage can only name categories of the enumeration. Stored data with an unknown category string has no counterpart.
- Ids come from `Date.now() + Math.random()` and timestamps from `toISOString()`. Both are parameters. Lemmas that need a fresh id require one.
- Uniformity of `Math.random`-based sampling is probabilistic and is not stated. The sampler takes its indices from an oracle.
- `console.error` logging is not modelled.
- `isIdeaSaved` reads the list of the current render. The model applies each click to the list produced by the previous click, as React does once the state update has landed.
