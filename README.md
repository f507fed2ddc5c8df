# Pokédex catalog view and preference store, modelled in Dafny

This project models the client-side logic of a Pokédex browser application:

- the catalog list (`PokemonList`): it picks the type listing when a type is selected and the full listing otherwise, filters it by a case-insensitive name search, reveals the results twenty at a time as the scroll sentinel comes into view, and shows a loading, empty or ready view;
- the persisted preference store (`usePokedexStore`): favourites, search term, selected type, the settings and sound toggles, the theme, and the snapshot handed to storage;
- the small rules inside the UI files: the `#0025` id label and `capitalize`, the header's theme cycle and dark-mode decision, the type-chip toggle and Clear button, the card's favourite toggle and colour and image fallbacks, and the recursive rendering of the evolution tree.

Modules follow the source files:

| module | file | source |
|---|---|---|
| `Common` | `common.dfy` | nullable values, JavaScript truthiness and `||`, ASCII `toLowerCase`/`toUpperCase`, `includes`, stable subsequences |
| `Utils` | `utils.dfy` | `src/lib/utils.ts` |
| `Store` | `store.dfy` | `src/store/pokedex.ts` |
| `PokemonList` | `pokemon_list.dfy` | `src/components/pokemon/PokemonList.tsx` |
| `Header` | `header.dfy` | `src/components/layout/Header.tsx` |
| `TypeFilter` | `type_filter.dfy` | `src/components/pokemon/TypeFilter.tsx` |
| `PokemonCard` | `pokemon_card.dfy` | `src/components/pokemon/PokemonCard.tsx` |
| `EvolutionChain` | `evolution_chain.dfy` | `src/components/pokemon/EvolutionChain.tsx` |

Modelling choices:

- Each store action is a zustand `set` call that maps the current state to new field values. So each action is a pure function on the value `Store.State`. The class `Store.PokedexStore` holds the same fields as mutable state, and each of its methods ensures `Snapshot() == <action>(old(Snapshot()))`.
- `displayedCount` is mutable state of the mounted list. It is the field of the class `PokemonList.ListWindow`. Its `Grow` method is the infinite-scroll effect and `SyncFilter` is the reset effect. `Commit` runs both effects of one render in their declared order, so that a filter change wins over growth.
- The query results (`allPokemon`, `typePokemon`, a card's detail record, the evolution chain, a sprite) are model inputs: `Option` data plus an `isLoading` flag. "The sentinel is in view" is a boolean input. The colour table `TYPE_COLORS` is a `map<string, string>` parameter.
- JavaScript truthiness is modelled exactly where the code relies on it. A `selectedType` of `null` or `''` counts as "no type". So does a colour or sprite URL that is `null`, `undefined` or `''`.

The model keeps these behaviours of the code:

- `addFavorite` appends without de-duplicating.
- `selectedType` is persisted. Only `searchTerm` is dropped from the snapshot.
- A filter change resets `displayedCount` to exactly 20, even when fewer results exist. `displayedCount` can therefore exceed the filtered length. The view clamps it with `min`.
- The list has no separate error state. A listing query that fails and stops loading leaves its data undefined, and the list then shows the empty view.

## Model

| member | source | states |
|---|---|---|
| `Common.Contains` | src/components/pokemon/PokemonList.tsx:42 | `includes` holds exactly when the term occurs at some position of the name (the empty term always occurs) |
| `Common.Lower` | src/components/pokemon/PokemonList.tsx:42 | lower-casing keeps the length, maps each character by ASCII `toLowerCase` and leaves no upper-case letter |
| `Common.LowerIdempotent` | src/components/pokemon/PokemonList.tsx:42 | lower-casing twice is lower-casing once |
| `Common.Or` | src/components/pokemon/PokemonCard.tsx:39 | the JavaScript `or` of two nullable strings is `a` when `a` is truthy and `b` otherwise (so `'' || null` is `null`), and is truthy iff either operand is |
| `Common.SpriteUrl` | src/components/pokemon/PokemonCard.tsx:84 | the image is the official artwork when truthy, else `front_default`; it is truthy iff one of them is (the same rule as src/components/pokemon/EvolutionChain.tsx:27) |
| `Common.UpperChar` | src/lib/utils.ts:14 | ASCII `toUpperCase` turns a lower-case letter into its capital and leaves every other character alone |
| `PokemonList.FilterByName` | src/components/pokemon/PokemonList.tsx:40-44 | the test at lines 41-42 is `PokemonList.Matches`; every kept entry is from the source and has a lower-cased name containing the lower-cased term; every matching source entry is kept |
| `PokemonList.FilterByNameIsStable` | src/components/pokemon/PokemonList.tsx:40-44 | the search result is a subsequence of the source: the relative order is kept |
| `PokemonList.FilterByNameCounts` | src/components/pokemon/PokemonList.tsx:40-44 | each matching entry is kept as many times as it occurs; a non-matching one never occurs |
| `PokemonList.FilterByNameIgnoresCase` | src/components/pokemon/PokemonList.tsx:41-43 | two search terms that agree after lower-casing give the same result |
| `PokemonList.Filtered` | src/components/pokemon/PokemonList.tsx:33-47 | the source choice at line 36 is `PokemonList.Source`; empty while the full listing is unresolved, whatever type is selected; empty while the chosen source is unresolved; the source is the type listing when a type is selected, else the full listing; an empty term returns the source unchanged; otherwise the result is exactly `FilterByName` of the source, so `FilterByNameIsStable` and `FilterByNameCounts` apply: every match is kept as often as it occurs, in source order |
| `PokemonList.FilteredUsesTypeListing` | src/components/pokemon/PokemonList.tsx:36-38 | with a type selected, every result comes from the type listing, and an unresolved type listing gives no result |
| `PokemonList.ContainsLetter` | src/components/pokemon/PokemonList.tsx:42 | a one-letter needle occurs in a name exactly when the name holds that letter |
| `PokemonList.MatchesLetter` | src/components/pokemon/PokemonList.tsx:41-43 | a one-letter term matches a name exactly when the name holds that letter, ignoring case |
| `PokemonList.SearchScenario` | src/components/pokemon/PokemonList.tsx:40-46 | the term `A` over `abra, geodude, onix, aron` yields `abra, aron`, in that order |
| `PokemonList.ScenarioSearch` | src/components/pokemon/PokemonList.tsx:41-43 | the name filter with term `A` keeps `abra` and `aron` of that listing, in order |
| `PokemonList.EmptyTypeScenario` | src/components/pokemon/PokemonList.tsx:61-77 | type `fire` with listing `ponyta, vulpix` and term `z` gives the empty view, not the loading view |
| `PokemonList.GrowStep` | src/components/pokemon/PokemonList.tsx:50-54 | in view and below the length, the count grows strictly, by at most 20 and never past the length, and by exactly 20 unless it reaches the length; otherwise it is unchanged |
| `PokemonList.GrowReachesTotal` | src/components/pokemon/PokemonList.tsx:52 | from any count up to the length, ceil((length − count) / 20) sightings are enough to reach exactly the length, and further sightings stay there |
| `PokemonList.GrowMonotone` | src/components/pokemon/PokemonList.tsx:50-54 | repeated growth never shrinks the count and never passes the length |
| `PokemonList.GrowScenario` | src/components/pokemon/PokemonList.tsx:52 | with 45 results the count goes 20, 40, 45, 45 |
| `PokemonList.ListView` | src/components/pokemon/PokemonList.tsx:61-97 | loading iff the full listing is loading or a type is selected and its listing is loading; otherwise empty iff no result; otherwise the visible entries are the prefix of length `min(displayedCount, length)`, the "Showing" count is that length, and the sentinel is rendered iff not everything is shown, i.e. iff growth could still change the count |
| `PokemonList.ListWindow.constructor` | src/components/pokemon/PokemonList.tsx:13 | the count starts at 20 |
| `PokemonList.ListWindow.Grow` | src/components/pokemon/PokemonList.tsx:50-54 | the count becomes `GrowStep` of the old count and keeps at least 20; the remembered filter is unchanged |
| `PokemonList.ListWindow.SyncFilter` | src/components/pokemon/PokemonList.tsx:56-59 | when the search term or the type differs from the previous render, the count becomes exactly 20; otherwise it is unchanged |
| `PokemonList.ListWindow.Commit` | src/components/pokemon/PokemonList.tsx:49-59 | after one render's effects, a changed filter leaves the count at 20; an unchanged filter leaves `GrowStep` of the old count |
| `PokemonList.ListWindow.ShowsFirstPage` | src/components/pokemon/PokemonList.tsx:79-88 | under the window's invariant `Valid()` (the count never drops below 20: it starts at 20, resets to 20 and only grows), a ready list always shows at least `min(20, length)` entries, the first ones of the filtered list |
| `Store.Without` | src/store/pokedex.ts:34 | the filtered list never holds `id`, holds every other id that was there and nothing new |
| `Store.WithoutKeepsOthers` | src/store/pokedex.ts:34 | the filtered list is a subsequence of the old one and keeps every other id as often as before |
| `Store.WithoutAbsent` | src/store/pokedex.ts:34 | removing an absent id changes nothing |
| `Store.WithoutAppended` | src/store/pokedex.ts:33-34 | removing `id` after appending it equals removing it from the list before |
| `Store.FavoriteAdded` | src/store/pokedex.ts:33 | `addFavorite` appends `id` at the end unconditionally: length plus one, the old list as prefix, `id` is then a favourite, and no other field changes |
| `Store.FavoriteRemoved` | src/store/pokedex.ts:34 | `removeFavorite` makes `id` not a favourite, keeps the membership of every other id, and changes no other field |
| `Store.FavoriteRemovedAbsent` | src/store/pokedex.ts:34 | removing an id that is not a favourite leaves the state unchanged |
| `Store.SearchTermSet` | src/store/pokedex.ts:38 | `setSearchTerm` overwrites only `searchTerm` |
| `Store.SelectedTypeSet` | src/store/pokedex.ts:41 | `setSelectedType` overwrites only `selectedType` |
| `Store.ThemeSet` | src/store/pokedex.ts:49 | `setTheme` overwrites only `theme` |
| `Store.SettingsToggled` | src/store/pokedex.ts:44 | `toggleSettings` negates `isSettingsOpen` and nothing else |
| `Store.SoundToggled` | src/store/pokedex.ts:46 | `toggleSound` negates `soundEnabled` and nothing else |
| `Store.TogglesAreInvolutions` | src/store/pokedex.ts:44-46 | applying either toggle twice restores the state |
| `Store.PartializeDropsOnlySearchTerm` | src/store/pokedex.ts:53-56 | `partialize` is `Store.Partialize`; two states give the same snapshot iff they differ at most in `searchTerm` |
| `Store.Merge` | src/store/pokedex.ts:50-57 | rehydration restores every persisted field and keeps the current `searchTerm` |
| `Store.RestartRestores` | src/store/pokedex.ts:53-56 | a restart from a saved snapshot gives back the saved state with `searchTerm` set to `''` |
| `Store.PokedexStore.constructor` | src/store/pokedex.ts:32-48 | the initial state is `Store.Initial`: no favourites, `''`, no type, settings closed, sound on, theme `'system'` |
| `Store.PokedexStore.Rehydrated` | src/store/pokedex.ts:50-57 | a store started from a snapshot holds that snapshot merged over the initial state |
| `Store.PokedexStore.AddFavorite` | src/store/pokedex.ts:33 | the store's state becomes `FavoriteAdded` of the old state |
| `Store.PokedexStore.RemoveFavorite` | src/store/pokedex.ts:34 | the store's state becomes `FavoriteRemoved` of the old state |
| `Store.PokedexStore.IsFavorite` | src/store/pokedex.ts:35 | `isFavorite(id)` is exactly membership of `id` in the favourites |
| `Store.PokedexStore.SetSearchTerm` | src/store/pokedex.ts:38 | the store's state becomes `SearchTermSet` of the old state |
| `Store.PokedexStore.SetSelectedType` | src/store/pokedex.ts:41 | the store's state becomes `SelectedTypeSet` of the old state |
| `Store.PokedexStore.SetTheme` | src/store/pokedex.ts:49 | the store's state becomes `ThemeSet` of the old state |
| `Store.PokedexStore.ToggleSettings` | src/store/pokedex.ts:44 | the store's state becomes `SettingsToggled` of the old state |
| `Store.PokedexStore.ToggleSound` | src/store/pokedex.ts:46 | the store's state becomes `SoundToggled` of the old state |
| `Store.PokedexStore.Persist` | src/store/pokedex.ts:53-56 | the persisted blob is `partialize` of the current state |
| `Utils.Decimal` | src/lib/utils.ts:9 | `toString` of a natural number is a non-empty string of digits without a leading zero |
| `Utils.PadStart` | src/lib/utils.ts:9 | `padStart` keeps the string as its suffix, fills the front with the pad character, and has length `max(width, length)` |
| `Utils.FormatId` | src/lib/utils.ts:8-10 | the label starts with `#`, the decimal digits of `id` end it, the part after `#` has length `max(4, digits(id))`, and only `'0'` stands between |
| `Utils.DecimalLength` | src/lib/utils.ts:9 | an id has at least four digits exactly from 1000 on |
| `Utils.FormatIdUnpadded` | src/lib/utils.ts:9 | from 1000 on the label is `#` followed by the digits, without padding |
| `Utils.FormatIdPadded` | src/lib/utils.ts:9 | below 1000 the label is five characters long and its first digit is `0` |
| `Utils.FormatIdRoundTrip` | src/lib/utils.ts:9 | the part after `#` is all digits and reads back as `id` |
| `Utils.ParseDecimalOfDecimal` | src/lib/utils.ts:9 | reading the digits of `toString(n)` gives back `n` |
| `Utils.Capitalize` | src/lib/utils.ts:12-15 | the length is kept, the first character is upper-cased and the rest is unchanged |
| `Utils.CapitalizeEmpty` | src/lib/utils.ts:13 | `capitalize('')` is `''` |
| `Utils.CapitalizeIdempotent` | src/lib/utils.ts:14 | capitalising twice is capitalising once |
| `Header.NextTheme` | src/components/layout/Header.tsx:22-26 | light becomes dark, dark becomes system, system becomes light; no theme maps to itself |
| `Header.NextThemeCycle` | src/components/layout/Header.tsx:22-26 | three clicks return to the starting theme, and two clicks never do |
| `Header.IsDark` | src/components/layout/Header.tsx:17-20 | false before mounting whatever the theme; once mounted, true for dark, false for light, and the system preference for system |
| `Header.ShowsMoon` | src/components/layout/Header.tsx:50 | the Moon icon is shown iff `isDark` (which already implies mounted) |
| `Header.CycleTheme` | src/components/layout/Header.tsx:22-26 | the click writes `NextTheme` of the current theme through `setTheme` and changes nothing else |
| `TypeFilter.ChipClicked` | src/components/pokemon/TypeFilter.tsx:32-38 | `isActive` (line 32) is `TypeFilter.IsActive`; clicking the selected chip clears the selection; clicking another chip selects it, replacing any previous one; no other chip is then active |
| `TypeFilter.ChipClickedTwice` | src/components/pokemon/TypeFilter.tsx:38 | starting from no selection or another one, two clicks on the same chip leave no selection |
| `TypeFilter.ClearFollowsChips` | src/components/pokemon/TypeFilter.tsx:17-22 | the guard at line 17 is `TypeFilter.ShowsClear`; after a chip click the Clear button is shown iff the click selected the chip; with no selection it is hidden |
| `TypeFilter.ActiveCount` | src/components/pokemon/TypeFilter.tsx:32-41 | some chip is pressed iff the selection is one of the chips |
| `TypeFilter.AtMostOneActive` | src/components/pokemon/TypeFilter.tsx:32-41 | with distinct chips at most one is pressed, and exactly one iff the selection is among them |
| `TypeFilter.OnChipClick` | src/components/pokemon/TypeFilter.tsx:38 | the store's selection becomes `ChipClicked` of the old one, nothing else changes |
| `TypeFilter.OnClear` | src/components/pokemon/TypeFilter.tsx:22 | the Clear button sets the selection to null, nothing else changes |
| `PokemonCard.CardColor` | src/components/pokemon/PokemonCard.tsx:38-39 | the card colour is the table colour of the first listed type when present and non-empty, else `#A8A77A`; it is never empty |
| `PokemonCard.TagColors` | src/components/pokemon/PokemonCard.tsx:101 | one colour per type tag, in order: its own table colour, falling back to the card colour |
| `PokemonCard.TagColorsAgreeWithCard` | src/components/pokemon/PokemonCard.tsx:38-39 | the first tag always has the card colour, and no tag colour is empty |
| `PokemonCard.FavoriteToggled` | src/components/pokemon/PokemonCard.tsx:44-48 | for a favourite the list becomes `Without` of the old one (`removeFavorite`), otherwise the id is appended at the end (`addFavorite`); the id's membership flips, every other id's membership and every other field are unchanged |
| `PokemonCard.ToggleBackRestores` | src/components/pokemon/PokemonCard.tsx:44-48 | toggling a non-favourite twice restores the favourites exactly |
| `PokemonCard.ToggleFavorite` | src/components/pokemon/PokemonCard.tsx:44-48 | the handler calls `removeFavorite` for a favourite and `addFavorite` otherwise: the store's state becomes `FavoriteToggled` of the old state |
| `PokemonCard.Render` | src/components/pokemon/PokemonCard.tsx:29-105 | the placeholder is rendered iff loading or no data; otherwise the card shows `formatId(id)`, the favourite state, the card colour, the tag colours `TagColors` gives (each tag its own table colour, else the card colour; the first equal to the card colour), and the sprite fallback |
| `EvolutionChain.Size` | src/components/pokemon/EvolutionChain.tsx:13-16 | a tree has at least one species |
| `EvolutionChain.PreOrder` | src/components/pokemon/EvolutionChain.tsx:60-79 | the pre-order walk lists one name per species |
| `EvolutionChain.ItemNamesConcat` | src/components/pokemon/EvolutionChain.tsx:60-79 | the rendered items and arrows of two fragments placed one after the other are those of each fragment in turn |
| `EvolutionChain.RenderIsPreOrder` | src/components/pokemon/EvolutionChain.tsx:60-79 | `ChainNode` is modelled by `RenderNode` (the node's item, then a group) and `RenderBranches` (an arrow and a child's rendering per entry of `evolves_to`); the items they render are the species in pre-order: the node, then each child subtree in `evolves_to` order |
| `EvolutionChain.RenderBranchesIsPreOrder` | src/components/pokemon/EvolutionChain.tsx:67-74 | the descendants' renderings, in order, list the pre-order of each child subtree in turn |
| `EvolutionChain.ArrowsBetweenItems` | src/components/pokemon/EvolutionChain.tsx:63-72 | a tree renders one item per species and one arrow per species but the root |
| `EvolutionChain.BranchArrows` | src/components/pokemon/EvolutionChain.tsx:67-72 | the descendants' renderings hold exactly as many arrows as there are species below the node |
| `EvolutionChain.ArrowBeforeEachDescendant` | src/components/pokemon/EvolutionChain.tsx:60-79 | the rendering of a tree opens with the root's item, and every other item stands immediately after an arrow |
| `EvolutionChain.BranchesOpenWithArrow` | src/components/pokemon/EvolutionChain.tsx:67-74 | the descendants' renderings open with an arrow, and every item in them stands immediately after an arrow |
| `EvolutionChain.LeafRendersItemOnly` | src/components/pokemon/EvolutionChain.tsx:65 | a species with no `evolves_to` renders its item alone, with no nested group |
| `EvolutionChain.ItemFrame` | src/components/pokemon/EvolutionChain.tsx:40-50 | the frame shows the sprite iff it is truthy, else a spinner |
| `EvolutionChain.ItemSprite` | src/components/pokemon/EvolutionChain.tsx:27 | an evolution item shows an image iff the artwork or `front_default` is truthy: the artwork when it is truthy, else `front_default` |
| `EvolutionChain.RenderChain` | src/components/pokemon/EvolutionChain.tsx:91-99 | a spinner while loading; nothing when there is no chain; otherwise the rendering opens with the root's item, its items are the chain in pre-order, it holds one arrow per species below the root, and every item but the first stands immediately after an arrow |

## Left out

- The network client in `src/lib/api.ts` is not part of this model. Its results enter as inputs: a listing is a sequence of name and URL entries, and the type listing is its projection of the type response. Its page arithmetic and its log-and-rethrow of species errors are not modelled.
- React Query behaviour is not modelled: caching, staleness windows, retries, request de-duplication and the discarding of stale responses. It is library code and asynchronous.
- The storage side of zustand's `persist` is not modelled, only the snapshot (`partialize`) and the rehydration merge. The storage key name, storage I/O and versioning are left out.
- The `ThemeProvider` in `src/app/providers.tsx` is not modelled. It covers DOM class toggling and `matchMedia` listeners, and its dark decision repeats `isDark`.
- `window.matchMedia` is the input `prefersDark`. Where there is no `window`, that input is false.
- Viewport detection (`useInView`) is the boolean input `inView`. Animations, markup, the search bar's keyboard handling, the settings modal and the page layout are presentation only.
- `cn` is not modelled: it only merges CSS class names.
- `TYPE_COLORS` comes from `src/types/pokemon.ts` (imported at TypeFilter.tsx:4), which is not modelled. It is a map parameter, and its key order gives the chip row (`AtMostOneActive` assumes the keys are distinct, as object keys are).
- `Common.Lower`: only ASCII letters change case. Full Unicode case mapping is not modelled.
- `Common.UpperChar`: only ASCII letters change case. Unicode upper-casing can lengthen a string (`ß` becomes `SS`), so `Utils.Capitalize` keeps the length only under this ASCII model.
- `Utils.Decimal`: writes every digit of any natural number. JavaScript's `toString` of a number switches to exponent form from 10^21 (`"1e+21"`), and integers above 2^53 are not exact, so `Utils.FormatId` and `Utils.FormatIdRoundTrip` describe the code only below 2^53. Pokédex ids are far below that.
- `Utils.FormatId`: only natural-number ids are modelled. A negative id would put its `-` inside the padding.
- `PokemonCard.CardColor`, `PokemonCard.Render`: require a non-empty type list (for `Render`, once the detail record is there), because `types[0].type.name` throws on an empty one.
- `PokemonCard.ToggleFavorite`, `Header.CycleTheme`, `TypeFilter.OnChipClick`: each decides on the store's current value at click time (`favorites`, `theme`, `selectedType`). The source decides on the values read when the component rendered: `isFav` (PokemonCard.tsx:44-48), `theme` (Header.tsx:10, 22-26) and `isActive` (TypeFilter.tsx:32, 38). The two agree because every store change re-renders the component before the next click.
- Detail and species fetching for the detail page (`src/app/pokemon/[name]/page.tsx`) is not part of this model.
