# Portfolio page script: verified model of its logic

The page script `main.js` of a one-page portfolio site does a few things that have real logic:

- **Repository panel.** It loads the owner's GitHub repositories. A list cached in browser storage is served if it is younger than 30 minutes. Otherwise the list is fetched from the GitHub API and cached. The panel then shows it as cards. Repositories on a skip list and forks are dropped, and the rest are sorted by stars, then by size.
- **Cards.** Each card gets a colour for its language, a placeholder when there is no description, a "Live" link only when there is a homepage, and a display name with a zero-width space after each hyphen.
- **Terminal.** A scripted terminal answers `help`, `about`, `skills` and `clear`. It echoes what was typed and reports unknown commands.
- **Contact form.** The form refuses to send unless the trimmed name, email and message are all non-empty.

The Dafny modules follow these parts:

- `Wrappers`: `Option`, used for JSON fields that may be null or missing.
- `Text`: `String.prototype.trim`, using the exact ECMAScript whitespace set, and `toLowerCase`.
- `Repos`: the repository record, the filter (`Filter`), the source's comparator (`Compare`) and a stable sort (`Sort`). `Select` is the list the panel draws. The lemmas cover filter membership, order and idempotence, and show that the sort is a sorted permutation that keeps tied entries in input order.
- `Cards`: the fields a card carries. This includes the hyphen rewrite of the name and its inverse, which removes the zero-width spaces.
- `RepoPanel`: the cache and fetch decision as pure functions (`CachedRepos`, `AfterFetch`, `Load`) with lemmas about them. It also has the class `Page`, which holds browser storage, the grid, the stagger hook and the pending request. `Page.RenderRepos` fills the grid in a loop. `Page.RunScript` follows the script's order: the load call at main.js:327, the hook installed at main.js:372, and then the continuation of the request.
- `Terminal`: the command table and the reply of one Enter press (`Respond`). The class `Console` holds the transcript and the input field, and its keydown handler is proved against `Respond`.
- `ContactForm`: the field check of the submit handler.

Browser storage, the network and the clock are inputs to the model:
- The stored value is `Missing`, `Unparsable` or an `Entry(timestamp, data)`.
- The request's result is `Fetched(repos)` or `FetchFailed`.
- `now` is the time of the freshness test and `fetchedAt` the time written with a new entry.
- `writeOk` says whether the storage write succeeds.

Behaviour of `main.js` that the model keeps as written:
- The stagger hook `window.__staggerCards` runs at the end of `renderRepos` (main.js:324) only when it is installed and the selected list is not empty. A fresh cache entry is rendered synchronously by the load call at main.js:327, before main.js:372 installs the hook, so a list served from the cache is never staggered; a fetched non-empty list renders after the first `await`, once the hook is installed, and is staggered.
- An empty description, homepage or language string counts as absent, as JavaScript truthiness makes it (main.js:289-292, main.js:309).
- Without a language the card has no language badge at all (main.js:309); the default colour only matters for a language missing from `LANG_COLORS`.
- Entries tied on both sort keys keep their input order, because `Array.prototype.sort` is stable (section 23.1.3.30 of ECMA-262).

## Model

| member | source | states |
|---|---|---|
| Text.TrimStart | main.js:139 | the result is the longest suffix of the input that does not start with whitespace; everything cut off is whitespace |
| Text.TrimEnd | main.js:139 | the result is the longest prefix that does not end with whitespace; everything cut off is whitespace |
| Text.Trim | main.js:183-185 | the trimmed string neither starts nor ends with whitespace and is no longer than the input |
| Text.TrimDropsOnlyWhitespace | main.js:183-185 | trim returns a slice s[i..j] of the input, and only whitespace lies outside it |
| Text.TrimAllWhitespace | main.js:187 | a string made only of whitespace trims to the empty string |
| Text.TrimIdempotent | main.js:183-185 | trimming twice gives the same result as trimming once |
| Text.ToLower | main.js:139 | each character is lower-cased in place, the length is kept and no upper-case ASCII letter is left |
| Text.ToLowerIdempotent | main.js:139 | lower-casing twice gives the same result as lower-casing once |
| Text.LowerKeepsWhitespace | main.js:139 | lower-casing turns no character into whitespace and no whitespace into anything else |
| Repos.Filter | main.js:277 | the filter `!SKIP_REPOS.includes(r.name) && !r.fork`; its contract is stated by Repos.FilterContents, Repos.FilterKeepsListed and Repos.FilterIdempotent |
| Repos.FilterContents | main.js:276-277 | a repository survives the filter iff it is in the input, its name is not in SKIP_REPOS and it is not a fork; survivors keep their multiplicity and their input order (the result is a subsequence) |
| Repos.FilterKeepsListed | main.js:277 | a list whose entries all pass the filter is returned unchanged |
| Repos.FilterIdempotent | main.js:277 | filtering twice gives the same list as filtering once |
| Repos.Compare | main.js:278 | the comparator: the stars difference b - a, or when that is zero the size difference b - a; its meaning is stated by Repos.CompareMeaning and Repos.CompareTransitive |
| Repos.CompareMeaning | main.js:278 | the comparator puts a first iff it has more stars, or equal stars and a larger size; it is zero iff both keys tie; it is antisymmetric |
| Repos.CompareTransitive | main.js:278 | "not after" under the comparator is transitive, so the comparator is a consistent total preorder |
| Repos.SortedRanked | main.js:278 | in a sorted list the stars of adjacent entries never increase, and with equal stars the size never increases |
| Repos.InsertContents | main.js:278 | one insertion step adds exactly the new entry and loses nothing |
| Repos.InsertSorted | main.js:278 | one insertion step keeps a sorted list sorted |
| Repos.Sort | main.js:278 | the stable sort under Compare; Repos.SortContents states it is a sorted permutation, Repos.SortStable that ties keep input order, Repos.SortOfSorted that sorted input is unchanged |
| Repos.SortContents | main.js:278 | the sort returns a sorted permutation of its input |
| Repos.InsertTies | main.js:278 | an insertion step puts the new entry ahead of every entry it ties with |
| Repos.SortStable | main.js:278 | entries tied on both stars and size come out in their input order (stable sort) |
| Repos.SortOfSorted | main.js:278 | sorting an already sorted list changes nothing |
| Repos.Select | main.js:276-278 | the list renderRepos draws, filter then sort; its contract is stated by Repos.SelectContents, Repos.SelectIdempotent and Repos.SelectKeepsTieOrder |
| Repos.SelectContents | main.js:276-278 | the drawn list holds exactly the listed repositories of the input (never a skipped name or a fork), as a permutation of the filtered list, in sorted order |
| Repos.SelectIdempotent | main.js:276-278 | selecting from an already selected list gives the same list |
| Repos.SelectKeepsTieOrder | main.js:278 | entries tied on both keys are drawn in the order the API returned them |
| Repos.SelectExample | main.js:276-278 | repositories with (5 stars, size 10), (5, 20) and (10, 1) are drawn as (10, 1), (5, 20), (5, 10) |
| Cards.LangColor | main.js:224-229 | a language in LANG_COLORS gets its colour; an absent or unknown language gets '#8A2BE2' |
| Cards.Description | main.js:289 | a non-empty description is shown as is; an absent or empty one becomes 'No description provided.'; the text is never empty |
| Cards.DisplayName | main.js:305 | the display name is longer than the name by the number of hyphens, and every hyphen in it is followed by U+200B |
| Cards.StripBreaks | main.js:305 | removing U+200B leaves no U+200B and shortens the string by exactly the number removed |
| Cards.DisplayNameCounts | main.js:305 | the display name holds exactly the name's hyphens, and exactly one more U+200B per hyphen than the name |
| Cards.StripDisplayName | main.js:305 | removing U+200B from the display name gives back the repository name |
| Cards.CardOf | main.js:288-318 | the fields of one card; its contract is stated by Cards.CardFields |
| Cards.CardFields | main.js:288-318 | a card links to html_url and shows the stars. The description falls back to the placeholder. The language badge appears iff the language is non-empty, coloured from the table. The live link appears iff the homepage is non-empty. A name without U+200B round-trips through the hyphen rewrite, and the displayed name is longer by the number of hyphens |
| RepoPanel.CachedRepos | main.js:242-251 | a stored entry is served iff it exists, parses and is younger than 30*60*1000 ms, and then exactly its stored data is served |
| RepoPanel.StaleStaysStale | main.js:246 | an entry that is stale at some time is stale at every later time |
| RepoPanel.GridView | main.js:280-321 | what renderRepos leaves in the grid; its contract is stated by RepoPanel.GridViewShape, and Page.RenderRepos is proved to produce it |
| RepoPanel.GridViewShape | main.js:280-321 | the grid holds only the "No public repositories found." placeholder iff nothing survives the filter. Otherwise it holds one card per surviving repository, in sorted order, and every card comes from a listed input repository |
| RepoPanel.AfterFetch | main.js:254-272 | a failed request leaves the cache as it was and shows only the failure message. A successful request renders the fetched list. A successful request with a successful write stores exactly the fetched list and its time, one with a failed write keeps the old value, and the cache changes in no other case |
| RepoPanel.Load | main.js:237-272 | one whole panel load, cache test then request; its contract is stated by RepoPanel.CacheHit, CacheMiss, FetchFailureKeepsCache, FetchSuccessRenders and CachedLoadShowsSameGrid, and Page.RunScript is proved to end in it |
| RepoPanel.CacheHit | main.js:242-249 | a fresh entry is rendered as stored and the cache is not changed. The result does not depend on the request's outcome, so no request is made |
| RepoPanel.CacheMiss | main.js:242-258 | a missing, unparsable or stale entry raises no error and the load proceeds to the request |
| RepoPanel.FetchFailureKeepsCache | main.js:259-271 | after a cache miss, a failing request leaves the cache unchanged and the grid holds only the failure message |
| RepoPanel.FetchSuccessRenders | main.js:259-267 | after a cache miss, a successful request renders the fetched list. The new entry is written when storage accepts it, and a failed write leaves the cache as it was, and the fetched list is rendered all the same |
| RepoPanel.CachedLoadShowsSameGrid | main.js:242-267 | a list fetched and cached at t is served, with the same grid and no request, by any later load before t + 30 minutes |
| RepoPanel.Page.RenderRepos | main.js:275-325 | the grid becomes the view of the selected list (the placeholder or one card per repository) and the stagger hook runs once iff it is installed and the list is non-empty |
| RepoPanel.Page.FetchAndRenderRepos | main.js:237-258 | without a grid nothing happens. A fresh cache entry is rendered synchronously. Otherwise the request is started and nothing else changes |
| RepoPanel.Page.InstallStaggerHook | main.js:372 | the stagger hook is installed |
| RepoPanel.Page.ResumeFetch | main.js:259-272 | the request's continuation changes storage and grid exactly as AfterFetch says; the stagger hook runs only for a fetched non-empty list |
| RepoPanel.Page.RunScript | main.js:324-372 | the load call, then the hook installation, then the request's continuation end in the state Load describes. The hook runs only when the list was fetched, not served from the cache, and is non-empty |
| Terminal.NotFound | main.js:155 | the "command not found" line starts with "bash: " followed by the command |
| Terminal.ClearsScreenOnlyClear | main.js:96-115 | the only command mapped to CLEAR_SCREEN is 'clear' |
| Terminal.Respond | main.js:141-160 | the transcript after one Enter; its contract is stated by Terminal.RespondShape, KnownCommand, UnknownCommand and EmptyCommand, and Console.Run is proved to produce it |
| Terminal.RespondShape | main.js:137-165 | Enter leaves an empty transcript iff the command is 'clear'; any other command keeps every earlier line and appends its echo after them |
| Terminal.KnownCommand | main.js:146-152 | a known command other than 'clear' appends its echo and then its table text |
| Terminal.UnknownCommand | main.js:154-156 | a non-empty unknown command appends its echo and then the "command not found" line naming it |
| Terminal.EmptyCommand | main.js:157-160 | an empty or all-whitespace input appends one empty echo line |
| Terminal.Normalize | main.js:139 | `trim().toLowerCase()` of the input; its contract is stated by Terminal.NormalizeShape and Terminal.NormalizeIdempotent |
| Terminal.NormalizeShape | main.js:139 | the normalised command has no surrounding whitespace and no upper-case ASCII letter |
| Terminal.NormalizeIdempotent | main.js:139 | normalising a normalised command changes nothing |
| Terminal.Console.AddLine | main.js:117-135 | addTerminalLine appends exactly one line after the existing ones |
| Terminal.Console.RemoveLines | main.js:149-150 | removing every line, one at a time, leaves the transcript empty |
| Terminal.Console.Run | main.js:141-160 | the transcript after a command is exactly Respond of the old transcript and the command |
| Terminal.Console.KeyDown | main.js:137-165 | Enter sets the transcript to Respond of the old transcript and the trimmed, lower-cased input, and resets the input to ''. Any other key changes nothing |
| ContactForm.Submit | main.js:183-191 | the submission is refused, with the "All fields required" status, iff a trimmed field is empty. Otherwise the trimmed fields go on to be sent |
| ContactForm.BlankFieldRefused | main.js:183-191 | a field of only whitespace blocks the submission with the "All fields required" status |
| ContactForm.TransmittedFields | main.js:183-191 | every field that goes on to be sent is non-empty and already trimmed |

## Left out

- The network. The GitHub request (main.js:255-260) and the Formspree POST (main.js:199-212) are foreign I/O. The request is the abstract outcome `Fetched(repos)` / `FetchFailed`. The form check stops at the decision to send.
- Browser storage and JSON. Storage is the value `Stored`. `JSON.parse` and `JSON.stringify` are not modelled: a value that fails to parse or destructure is `Unparsable`, and a storage quota error is `writeOk == false`.
- Malformed data inside a parsed value is not modelled:
  - A cached `data` that is not an array makes `renderRepos` throw inside the cache `try`, so the script falls through to the request.
  - A fetched body that is not an array (or any other throw inside `renderRepos` after the write) is written to the cache first (main.js:263-265); `renderRepos` then throws (main.js:267, main.js:277) and the catch shows the failure message. So in that case a failed load does change the cache, unlike `FetchFailed` in the model, which stands for a thrown request or a non-ok status (main.js:255-260). For the next 30 minutes the cached body makes the cache-hit render throw inside the first `try`, so every load requests again.
  - A non-numeric timestamp compares as stale.
  The model's entries always hold a list, and a missing timestamp is folded into `Unparsable`.
- The clock. Both `Date.now()` readings are the parameters `now` and `fetchedAt`.
- JavaScript numbers are doubles. Stars and size are modelled as unbounded integers, with no `NaN` for missing fields.
- The request's `per_page=20` limit is the API's business. The model accepts a fetched list of any length.
- The HTML markup of cards, notices and terminal lines is not modelled, and neither is `console.error`. Only the fields a card carries and the kind of each line are modelled. Markup in a repository field or a typed command is not escaped in the source; that HTML interpretation is not modelled.
- The canvas token stream (main.js:19-75) and its frame throttle (main.js:78-88) depend on `Math.random`, the canvas and floating-point timestamps.
- Scroll and viewport effects are float arithmetic or DOM class toggles:
  - parallax (main.js:4-15)
  - the nav class (main.js:331-338)
  - the `IntersectionObserver` reveal and the stagger delays (main.js:341-368)
- The contact form's later UI effects are not modelled: the button state, the status texts of the request, the 6-second timeout and `contactForm.reset()` (main.js:193-219).
- The terminal's scroll-to-bottom and focus-on-click (main.js:134, main.js:167-170) are not modelled.
- Text.ToLower: lower-cases only A-Z. JavaScript's full Unicode lower-casing is not modelled, so a command spelled with non-ASCII letters is treated as unknown. For example, "sKills" with KELVIN SIGN lower-cases to "skills" in JavaScript but not in the model.
- Cards.LangColor: a language named like an inherited `Object.prototype` property (for example "constructor") reads a non-string from `LANG_COLORS` in JavaScript. The model gives such a name the default colour.
