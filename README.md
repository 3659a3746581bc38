# PAC-MOD front end: navigation, configuration and settings, in Dafny

PAC-MOD is a browser Pac-Man game with a React front end. This project models
the parts of that front end that decide what happens when a player moves
around its screens:

- **Configuration** (`config.dfy`, module `Config`). The stored
  configuration is kept in one storage slot as JSON text. `loadConfig` merges
  the stored object over `DEFAULT_CONFIG`. The merge is shallow, so a stored
  `settings` object replaces the default one wholesale. `saveConfig` merges a
  partial configuration over what it loads, stores the result and announces
  it as a `pacman.config.changed` event. `getDiscordWebhook` prefers the
  environment variable, then the stored value, then the default.
- **The keyboard-navigation hook** (`keyboard_navigation.dfy`). It keeps a
  focus index over a list of `length` items and a modality of
  `auto`/`mouse`/`keyboard`. Keys of the chosen control scheme (arrows or
  W/S) move the index with wrap-around. Home and End jump to the first and
  last item. Enter and Space activate the focused item. Once one modality
  takes over, the other is ignored.
- **The main menu** (`menu.dfy`). There are three buttons: start, settings and
  credits. The menu has its own key handler, its own hover handling, and a
  `starting` latch that lets the game start at most once.
- **The credits screen** (`credits.dfy`). It keeps an unbounded focus index
  and reduces it into the list of focusable elements with JavaScript's `%`.
  That list is recomputed on every use. Focusing an element marks it
  `data-focused`.
- **The application shell** (`app.dfy`). It holds a route, a history stack and
  the chosen game options. Escape always goes back.
- **The settings screen** (`settings_page.dfy`). It builds sections from the
  settings metadata: an `all` section, then the known categories in priority
  order, then the other categories in the order they first occur. It stages
  edits in a local copy. A few audio keys are autosaved, Apply saves
  everything and Reset saves the defaults. Each setting is rendered as a
  control.
- **The number spinner** (`number_input.dfy`): a value in `[0, 99]` moved by
  one.
- **The defaults-consistency script** (`check_defaults.dfy`). It cuts the
  `settings:` block out of the defaults source and reports every setting id
  without a default key. It exits with 2, 1 or 0.
- **The repository's data** (`settings_table.dfy`): the 52 metadata entries and
  the 16 default keys, with what the script makes of them.

Shared pieces live in `base.dfy`, `seqs.dfy` and `json.dfy`:

- JavaScript's truncating `%` and ASCII lower-casing;
- the two control schemes;
- `filter`, and de-duplication through `Array.from(new Set(...))`;
- JSON values, truthiness, `String()`, `trim()` and optional chaining.

State that React components keep in `useState` is modelled as a `class`. Each
class method is tied to a pure step function (`ensures State() ==
OnKey(old(State()), key).next`), and the properties are proved as lemmas
about those step functions. The DOM attributes written in place are arrays
updated by loops: `MarkSlot`, `CreditsPage.FocusByIndex`.

### Where the code and its description differ

The model follows the code in each of these cases.

- **Saving.** The description says settings are committed only on Apply, and
  that Reset persists nothing until Apply. In the code, `sound`, `music`,
  `volume` and `maxLives` are saved on every change (src/pages/Settings/index.tsx:30-32).
  Reset also saves the default settings at once (src/pages/Settings/index.tsx:80).
- **Re-clamping.** The description says the hook re-clamps its focus index when the list length
  changes. The code never does. After a shrink the index can lie out of range
  until the next key press. A shrink never makes it negative, and one Up or
  Down press brings any non-negative index back into range
  (src/hooks/useKeyboardNavigation.ts:41-42). Only a negative index could
  stay out of range after that press.
- **Hover.** The description mentions a global mouse-move listener and a window during which
  hover is suppressed after keyboard use. The hook has neither. It ignores
  hover for as long as the modality is `keyboard`
  (src/hooks/useKeyboardNavigation.ts:53). The menu's hover handler checks
  only `mouseNavigation` (src/components/Menu/index.tsx:150).

## Model

| member | source | states |
|---|---|---|
| Base.JsRem | src/pages/Credits/index.tsx:49 | JavaScript's `%`: the remainder has the sign of the dividend and is smaller than the divisor in size |
| Base.JsRemAgainstEuclid | src/pages/Credits/index.tsx:49 | JavaScript's `%` equals the Euclidean remainder for non-negative dividends or exact divisions, and is that remainder minus the divisor otherwise |
| Base.ToLower | src/hooks/useKeyboardNavigation.ts:38 | `toLowerCase` keeps the length and lowers exactly the ASCII capitals |
| Base.SchemeExclusive | src/hooks/useKeyboardNavigation.ts:39-40 | no key is an up key in both schemes, a down key in both, or up and down at once |
| Seqs.Filter | src/pages/Settings/index.tsx:87 | `filter` keeps exactly the elements satisfying the predicate |
| Seqs.FilterIsSubseq | src/pages/Settings/index.tsx:87 | `filter` keeps the survivors in their original order |
| Seqs.FilterKeepsAll | src/pages/Settings/index.tsx:105 | a filter every element passes returns the array unchanged |
| Seqs.FilterExt | src/pages/Settings/index.tsx:105 | filters by two predicates that agree on every element give the same array |
| Seqs.FilterNoDup | src/pages/Settings/index.tsx:87 | filtering a duplicate-free array gives a duplicate-free array |
| Seqs.FilterKeepsOrder | src/pages/Settings/index.tsx:87 | survivors of a filter appear in the order of their positions in the input |
| Seqs.Dedupe | src/pages/Settings/index.tsx:86 | `Array.from(new Set(xs))` holds every value of `xs` exactly once and nothing else |
| Seqs.DedupeFirstSeen | src/pages/Settings/index.tsx:86 | the de-duplicated values are ordered by their first occurrence |
| Json.Member | src/components/Menu/index.tsx:27-29 | `x?.key` is defined exactly when `x` is an object holding `key`, and is then that field |
| Json.NatToDecimal | src/config/index.ts:44 | `String(n)` of a natural number is a non-empty digit string |
| Json.TrimStart | src/config/index.ts:39 | the result is a suffix that drops only white space and does not start with white space |
| Json.TrimEnd | src/config/index.ts:39 | the result is a prefix that drops only white space and does not end with white space |
| Json.TrimSpec | src/config/index.ts:39 | `trim()` is a slice that neither starts nor ends with white space, and is empty exactly when the text is all white space |
| Config.LoadFrom | src/config/index.ts:5-15 | defaults when reading throws, the slot is empty or the text does not parse; otherwise the stored keys over the defaults, every default key still present |
| Config.ShallowSettingsMerge | src/config/index.ts:9 | a stored `settings` object replaces the default one wholesale, so a default setting it lacks is absent |
| Config.DefaultsAbsorbed | src/config/index.ts:9 | merging the defaults under a configuration that already has every default key changes nothing |
| Config.SaveThenLoad | src/config/index.ts:17-27 | after a save whose JSON round-trips, loading gives the merged configuration that the save returned |
| Config.Setting | src/components/Menu/index.tsx:27-29 | `cfg.settings?.key` is defined exactly when `settings` is an object holding `key` |
| Config.ControlSchemeOf | src/components/Menu/index.tsx:29 | the scheme is WASD exactly when the setting is the string `wasd`, arrows otherwise |
| Config.DefaultFlags | src/config/defaults.ts:21-26 | the defaults enable keyboard and mouse navigation and choose WASD |
| Config.WebhookFrom | src/config/index.ts:34-48 | the trimmed environment value if it is non-empty, else `String` of a truthy stored value, else the default |
| Config.WebhookAlwaysFound | src/config/index.ts:46-47 | because the default is non-empty, the `null` branch is never reached, even for an all-blank environment value |
| Config.ConfigStore.constructor | src/config/index.ts:3 | a store over one slot with the given parse and serialise, nothing announced yet |
| Config.ConfigStore.LoadConfig | src/config/index.ts:5-15 | the loaded configuration holds every default key; an empty slot gives the defaults |
| Config.ConfigStore.DiscordWebhook | src/config/index.ts:34-48 | always finds a webhook, chosen as in `WebhookFrom` |
| Config.ConfigStore.SaveConfig | src/config/index.ts:17-32 | stores and announces the loaded configuration merged with the argument and returns it; when writing throws, nothing changes and the loaded configuration is returned; a round-tripping save is what the next load sees |
| KeyboardNavigation.OnKey | src/hooks/useKeyboardNavigation.ts:33-46 | disabled, starting, mouse modality or empty list: nothing happens; a handled key sets keyboard modality; activation reports the current index; an in-range index stays in range; while listening, the default is prevented exactly for the scheme's up and down keys, `home`, `end`, `enter` and space (after lower-casing), and any other key changes nothing |
| KeyboardNavigation.OnMouseEnter | src/hooks/useKeyboardNavigation.ts:51-56 | hover is ignored when disabled or in keyboard modality, and otherwise focuses the item under mouse modality |
| KeyboardNavigation.UpWraps | src/hooks/useKeyboardNavigation.ts:41 | up moves to the previous item, from the first to the last |
| KeyboardNavigation.DownWraps | src/hooks/useKeyboardNavigation.ts:42 | down moves to the next item, from the last to the first |
| KeyboardNavigation.HomeAndEnd | src/hooks/useKeyboardNavigation.ts:38-44 | any key that lower-cases to `home` focuses the first item, and one that lower-cases to `end` the last, under keyboard modality, without activating |
| KeyboardNavigation.ActivateKeepsFocus | src/hooks/useKeyboardNavigation.ts:38-45 | any key that lower-cases to `enter` or space activates the focused index and leaves it in place |
| KeyboardNavigation.SchemeExclusivity | src/hooks/useKeyboardNavigation.ts:39-40 | the other scheme's movement keys do not move the focus |
| KeyboardNavigation.RepeatDown | src/hooks/useKeyboardNavigation.ts:42 | `k` presses of down land on `(i + k) mod length` |
| KeyboardNavigation.RepeatUp | src/hooks/useKeyboardNavigation.ts:41 | `k` presses of up land on `(i - k) mod length` |
| KeyboardNavigation.FullCircle | src/hooks/useKeyboardNavigation.ts:41-42 | `length` presses of one direction return to the starting item |
| KeyboardNavigation.IndexRecoversAfterShrink | src/hooks/useKeyboardNavigation.ts:41-42 | from any non-negative index, even one past a shrunk list's end, one up or down press lands in range, on `(i - 1) mod length` or `(i + 1) mod length` |
| KeyboardNavigation.MouseLock | src/hooks/useKeyboardNavigation.ts:36 | once the modality is mouse, keys have no effect: any event sequence behaves as its hovers alone |
| KeyboardNavigation.KeyboardLock | src/hooks/useKeyboardNavigation.ts:53 | once the modality is keyboard, hovers have no effect: any event sequence behaves as its keys alone |
| KeyboardNavigation.MarkSlot | src/hooks/useKeyboardNavigation.ts:25-28 | every set element is marked exactly when its position is the focus index; unset ones keep their mark |
| KeyboardNavigation.Navigator.constructor | src/hooks/useKeyboardNavigation.ts:14-16 | starts at the initial index in `auto` modality |
| KeyboardNavigation.Navigator.Rerender | src/hooks/useKeyboardNavigation.ts:14 | new options keep the focus index and modality |
| KeyboardNavigation.Navigator.HandleKey | src/hooks/useKeyboardNavigation.ts:33-46 | the new state, activation and prevented default are those of `OnKey` |
| KeyboardNavigation.Navigator.MouseEnter | src/hooks/useKeyboardNavigation.ts:51-56 | the new state is that of `OnMouseEnter` |
| KeyboardNavigation.Navigator.SetFocusIndex | src/hooks/useKeyboardNavigation.ts:58 | sets the index, keeps the modality |
| KeyboardNavigation.Navigator.SetActiveInput | src/hooks/useKeyboardNavigation.ts:58 | sets the modality, keeps the index |
| KeyboardNavigation.Navigator.MarkFocused | src/hooks/useKeyboardNavigation.ts:19-30 | with no items nothing changes; otherwise the marks follow `MarkSlot`, and the element focused is the present one at the focus index |
| Menu.HandleStart | src/components/Menu/index.tsx:123-128 | sets the `starting` latch and starts the game only if the latch was clear |
| Menu.Activate | src/components/Menu/index.tsx:111-117 | activation triggers start, settings or credits exactly for index 0, 1 or 2 |
| Menu.OnKey | src/components/Menu/index.tsx:83-118 | ignored while disabled or starting; keeps the index among the three buttons; only starting sets the latch; flags and scheme unchanged |
| Menu.UpDownCycle | src/components/Menu/index.tsx:91-100 | up and down cycle through the three buttons with wrap-around |
| Menu.MenuHomeAndEnd | src/components/Menu/index.tsx:101-110 | Home focuses start and End focuses credits |
| Menu.EnterTriggersFocused | src/components/Menu/index.tsx:111-117 | Enter triggers exactly the focused button's action |
| Menu.OnHover | src/components/Menu/index.tsx:150-166 | hovering focuses the button when mouse navigation is on, and is ignored otherwise |
| Menu.OnConfig | src/components/Menu/index.tsx:41-50 | keyboard and mouse navigation are on unless set to `false`; the scheme is WASD exactly for `wasd`; focus and latch unchanged |
| Menu.StepKeepsLatch | src/components/Menu/index.tsx:85 | one event keeps the focus on a button, never starts the game while starting and never clears the latch |
| Menu.StartsAtMostOnce | src/components/Menu/index.tsx:123-128 | over any sequence of keys, hovers, clicks and configuration changes the game starts at most once, never after the latch is set, and the latch stays set |
| Menu.MenuScreen.constructor | src/components/Menu/index.tsx:13-29 | starts on the first button, not starting, with the flags read from the configuration |
| Menu.MenuScreen.HandleKey | src/components/Menu/index.tsx:83-118 | the new state, action and prevented default are those of `OnKey` |
| Menu.MenuScreen.Start | src/components/Menu/index.tsx:123-128 | the new state is that of `HandleStart`; reports whether the game starts |
| Menu.MenuScreen.MouseEnter | src/components/Menu/index.tsx:150-166 | the new state is that of `OnHover` |
| Menu.MenuScreen.ConfigChanged | src/components/Menu/index.tsx:41-50 | the new state is that of `OnConfig` |
| Menu.MenuScreen.MarkFocused | src/components/Menu/index.tsx:75-80 | every set button is marked exactly when it is the focused one |
| Credits.FocusablePrefix | src/pages/Credits/index.tsx:42-43 | the eligible positions among the first `k`, all of them, in increasing order |
| Credits.GetFocusable | src/pages/Credits/index.tsx:39-44 | nothing while unmounted; otherwise exactly the matching, non-disabled elements in document order |
| Credits.DisabledNeverFocusable | src/pages/Credits/index.tsx:43 | a disabled element is never focusable |
| Credits.NormalizeIsResidue | src/pages/Credits/index.tsx:49 | `((i % n) + n) % n` lies in `[0, n)` and is `i mod n`, negative `i` included |
| Credits.UpFromFirstWraps | src/pages/Credits/index.tsx:49-58 | up from index 0 focuses the last focusable element |
| Credits.OnKey | src/pages/Credits/index.tsx:54-61 | no handler while disabled; up and down move the stored index by one and focus it; activation clicks a valid position and changes nothing else |
| Credits.StoredIndexSteps | src/pages/Credits/index.tsx:58-59 | the stored index moves by exactly one and is never wrapped |
| Credits.ActivateClicksFocused | src/pages/Credits/index.tsx:60 | Enter and Space click the element at the stored index modulo the count |
| Credits.DownPressesAccumulate | src/pages/Credits/index.tsx:59 | `k` presses of down add `k` to the stored index |
| Credits.OnConfig | src/pages/Credits/index.tsx:24-31 | keyboard navigation is on unless set to `false`; the scheme is WASD exactly for `wasd`; the index is kept |
| Credits.CreditsPage.constructor | src/pages/Credits/index.tsx:13-21 | index 0, nothing marked or focused, flags read from the configuration |
| Credits.MarkOnly | src/pages/Credits/index.tsx:51 | among the focusable elements exactly the one at the chosen position is marked; every other element keeps its mark |
| Credits.CreditsPage.FocusByIndex | src/pages/Credits/index.tsx:46-52 | with no focusable element nothing changes; otherwise the element at the normalised position gets focus and is the only focusable element marked, while other elements keep their marks |
| Credits.CreditsPage.HandleKey | src/pages/Credits/index.tsx:54-61 | the new state is that of `OnKey`; a click is recorded on the element at the clicked position; without a focus request focus and marks are unchanged; with one, the element at the normalised position gets focus and is the only focusable element marked, and elements that are not focusable keep their marks |
| Credits.CreditsPage.ConfigChanged | src/pages/Credits/index.tsx:24-31 | the new state is that of `OnConfig` |
| App.Navigate | src/App.tsx:17-20 | shows the new route and pushes the current one |
| App.Back | src/App.tsx:23-31 | pops the last route, or shows the menu with an empty history |
| App.HandlePlay | src/App.tsx:35-38 | records the options and navigates to the game |
| App.OnKey | src/App.tsx:41-45 | exactly the key `Escape` goes back and prevents the default; other keys change nothing |
| App.Screen | src/App.tsx:57 | the game is drawn only once options exist; other routes are always drawn |
| App.NavigateThenBack | src/App.tsx:17-31 | going somewhere and back restores route and history |
| App.NavigationsUndone | src/App.tsx:17-31 | `n` navigations grow the history by `n` and `n` backs undo them |
| App.BackPastStartIsMenu | src/App.tsx:25 | backing more times than the history holds ends on the menu with an empty history |
| App.BackShrinks | src/App.tsx:26-29 | each back drops exactly one history entry while there is one |
| App.Shell.constructor | src/App.tsx:12-14 | starts on the menu with no history and no options |
| App.Shell.NavigateTo | src/App.tsx:17-20 | the new state is that of `Navigate` |
| App.Shell.GoBack | src/App.tsx:23-31 | the new state is that of `Back` |
| App.Shell.HandleStart | src/App.tsx:33 | navigates to the setup screen |
| App.Shell.Play | src/App.tsx:35-38 | the new state is that of `HandlePlay` |
| App.Shell.KeyDown | src/App.tsx:41-45 | the new state and prevented default are those of `OnKey` |
| NumberInput.Dec | src/components/Controls/NumberInput.tsx:17 | nothing when disabled; otherwise one less, never below 0 |
| NumberInput.Inc | src/components/Controls/NumberInput.tsx:18 | nothing when disabled; otherwise one more, never above 99 |
| NumberInput.OnKey | src/components/Controls/NumberInput.tsx:20-26 | the scheme's up key increments, its down key decrements, both prevent the default; other keys do nothing |
| NumberInput.EmitsInBounds | src/components/Controls/NumberInput.tsx:13-18 | from an in-range value every emitted value is in `[0, 99]` |
| NumberInput.IncThenDec | src/components/Controls/NumberInput.tsx:17-18 | plus then minus, or minus then plus, give the value back away from the bounds |
| NumberInput.SchemeKeys | src/components/Controls/NumberInput.tsx:21-25 | under WASD `w` increments and `S` decrements (case is ignored); under arrows the arrow keys do; the other scheme's keys do nothing |
| NumberInput.IncTimesSaturates | src/components/Controls/NumberInput.tsx:18 | `k` presses of plus reach `min(99, value + k)` |
| CheckDefaults.FirstPiece | scripts/check-settings-defaults.js:19 | `split(sep)[0]`: the longest prefix without the separator, ending where it first occurs |
| CheckDefaults.SecondPiece | scripts/check-settings-defaults.js:17 | `split(sep)[1]`: absent without a separator, else the text between its first and second occurrences |
| CheckDefaults.MissingSpec | scripts/check-settings-defaults.js:24 | the missing ids are exactly the ids without a key, in their order |
| CheckDefaults.DefaultsBody | scripts/check-settings-defaults.js:17-19 | no body when the `settings:` section is absent or empty; otherwise the text up to the first `},` |
| CheckDefaults.Check | scripts/check-settings-defaults.js:17-30 | exit 2 without a body; otherwise exit 1 exactly when some id is missing and 0 exactly when none is |
| CheckDefaults.ExitOneIffSomeIdLacksKey | scripts/check-settings-defaults.js:24-30 | the script fails exactly when some id lacks a key, succeeds exactly when all have one, and names every missing id |
| CheckDefaults.NoSettingsBlockExitsTwo | scripts/check-settings-defaults.js:17-18 | without any `settings:` in the text the script exits with 2 |
| SettingsPage.CategoryOf | src/pages/Settings/index.tsx:86 | a non-empty category is kept; a missing or empty one becomes `general` |
| SettingsPage.Categories | src/pages/Settings/index.tsx:86 | one category per setting, position by position |
| SettingsPage.Ids | src/pages/Settings/index.tsx:89 | one id per setting, position by position |
| SettingsPage.OrderByNoDup | src/pages/Settings/index.tsx:87 | ordering duplicate-free lists gives a duplicate-free list |
| SettingsPage.OrderByMembers | src/pages/Settings/index.tsx:87 | ordering keeps exactly the found categories |
| SettingsPage.OrderByKnownFirst | src/pages/Settings/index.tsx:87 | known categories precede unknown ones and follow the priority order |
| SettingsPage.OrderByUnknownKeepOrder | src/pages/Settings/index.tsx:87 | unknown categories keep the order in which they were found |
| SettingsPage.OrderByDedupe | src/pages/Settings/index.tsx:86-87 | each occurring category once; known ones first in priority order, then the others by first occurrence |
| SettingsPage.OrderedCategoriesSpec | src/pages/Settings/index.tsx:85-87 | the same for the metadata's own categories: every section id is a category some setting has |
| SettingsPage.CategorySection | src/pages/Settings/index.tsx:90 | a category's section carries that category's id |
| SettingsPage.SectionsOf | src/pages/Settings/index.tsx:88-91 | `all` with every id first, then one section per given category, in order; `SECTIONS` is this over the ordered categories |
| SettingsPage.TwoOfOneCategory | src/pages/Settings/index.tsx:90 | two settings of one category and one of another: the section lists the two ids in order |
| SettingsPage.IdInOwnCategory | src/pages/Settings/index.tsx:90 | a setting's id is in its own category's section |
| SettingsPage.IdOnlyInOwnCategory | src/pages/Settings/index.tsx:90 | with unique ids, a setting's id is in no other category's section |
| SettingsPage.EachIdInOneCategorySection | src/pages/Settings/index.tsx:88-91 | with unique ids, each id is in exactly one category section, the one of its category |
| SettingsPage.FindSection | src/pages/Settings/index.tsx:104 | `find` returns the first section with the id, or none when no section has it |
| SettingsPage.ActiveSection | src/pages/Settings/index.tsx:104 | the first section with the chosen id (so a section with that id), or `all` when there is none |
| SettingsPage.CategoryShowsItsSettings | src/pages/Settings/index.tsx:88-105 | with unique ids, choosing a category other than `all` shows exactly that category's settings, in metadata order |
| SettingsPage.UnknownSectionShowsAll | src/pages/Settings/index.tsx:104-105 | choosing `all` or an unknown section shows every setting |
| SettingsPage.SectionCount | src/pages/Settings/index.tsx:116-117 | a section's count is at most the number of settings |
| SettingsPage.OffCount | src/pages/Settings/index.tsx:118 | the "off" count is at most the count, and zero exactly when no member is marked unimplemented |
| SettingsPage.RenderControl | src/pages/Settings/index.tsx:45-76 | disabled exactly when marked unimplemented, badged exactly when last autosaved; toggle, select, range and number controls take the defaults `false`, first option, 70 and 3 |
| SettingsPage.ResetRestoresDefaults | src/pages/Settings/index.tsx:78-80 | after saving `{settings: defaults}` every default setting is back and other keys are kept |
| SettingsPage.SavedKeyAfterTimerAsWritten | src/pages/Settings/index.tsx:34 | the timer clears the badge only if the captured key equals its own key |
| SettingsPage.StaleTimerKeepsBadge | src/pages/Settings/index.tsx:33-34 | the first autosave of `sound` leaves its badge on after the timer fires |
| SettingsPage.SavedKeyAfterTimer | src/pages/Settings/index.tsx:34 | the timer clears the badge exactly when the current key is its own |
| SettingsPage.TimerClearsOwnBadge | src/pages/Settings/index.tsx:34 | a timer clears its own badge and leaves a later key's badge alone |
| SettingsPage.SettingsScreen.constructor | src/pages/Settings/index.tsx:15-19 | empty local copy, section `all`, no badge |
| SettingsPage.SettingsScreen.Mount | src/pages/Settings/index.tsx:21-24 | the local copy holds every stored setting |
| SettingsPage.SettingsScreen.Update | src/pages/Settings/index.tsx:26-37 | stages the value; an autosave key is saved with the whole copy, announced and badged, and starts a timer that captures the previous badge; other keys touch no storage and start no timer |
| SettingsPage.SettingsScreen.Apply | src/pages/Settings/index.tsx:39-43 | saves and announces the whole copy, and requests a language switch when the locale is truthy |
| SettingsPage.SettingsScreen.Reset | src/pages/Settings/index.tsx:78-82 | the local copy becomes the defaults, which are saved and announced at once |
| SettingsPage.SettingsScreen.TimerFiresAsWritten | src/pages/Settings/index.tsx:34 | a pending timer fires once and tests the badge value its closure captured, as the code does |
| SettingsPage.SettingsScreen.TimerFires | src/pages/Settings/index.tsx:34 | a pending timer fires once and clears the badge exactly when it still shows the timer's key |
| SettingsPage.SettingsScreen.SelectSection | src/pages/Settings/index.tsx:120 | the chosen section becomes the current one |
| SettingsTable.DefaultKeysMatchDefaults | src/config/defaults.ts:11-28 | the transcribed default keys are exactly the keys of the default settings |
| SettingsTable.RepositoryCheckFails | src/config/settings.ts:32 | `retroFilter` has no default, so the script names it and exits with 1 |

## Left out

- Timers are left out: the 600 ms delay before the menu starts the game, the 50 ms initial focus on the credits screen and the 1500 ms delay of the badge timer. Pending badge timers are kept in the screen and may fire in any order, which includes the order they were started in. Their effects are the step functions and methods above, applied when the timer fires.
- Audio (menu ambience, chomp sound, volume as a fraction) and all sound playback, because they are side effects with no state the navigation reads.
- Translations, section labels, setting labels, descriptions and toasts (src/pages/Settings/index.tsx:42, 93-102), because they depend on translation tables that are not part of this model.
- JSON parsing and serialisation are the store's abstract `parse` and `serialize`. `SaveThenLoad` assumes that they round-trip.
- Numbers are integers. Floating point, `NaN` and the volume division by 100 are not modelled.
- The Discord webhook in the defaults is a credential. The model keeps a placeholder URL in its place. Only its being non-empty matters.
- `import.meta.env` is a parameter (`env`), and storage exceptions are the flags `getThrows` and `setThrows` of the store.
- The event bus is a list of announced configurations, and listeners are called explicitly (`ConfigChanged`).
- The React effect scheduling and re-subscription of listeners are left out. Each handler sees the state current when it runs, except the badge timer, which is the subject of a finding.
- The regular-expression scans of the script are left out. The ids are given, and the keys are a function of the cut-out body.
- The Toggle, Select and Range components and `handleError`/`onError` are left out. Only what the settings screen passes to the controls is modelled.
- The selector match of the credits screen is reduced to the tag, `href`, `tabindex` and `disabled` fields of each element.
- The sections of the real 52-entry table are not computed concretely. The general lemmas cover them, but the concrete evaluation is too large for the verifier.
- SettingsPage.SettingsScreen.Mount: a `settings` value that is not an object gives an empty copy. JavaScript would spread a string's characters or an array's indices.
- NumberInput.Dec: the value is an integer, so `Number(value)` of a non-numeric value (`NaN`) is not modelled. The same holds for NumberInput.Inc.
- Base.ToLower: lowers ASCII letters only, not the full Unicode case mapping of `toLowerCase`.
- KeyboardNavigation.Navigator.Rerender: the focus index is not re-clamped when the length changes, as in the code.

## Findings

| source | as written | input that shows it | evidently intended | confidence | as-written member | corrected member |
|---|---|---|---|---|---|---|
| src/pages/Settings/index.tsx:34 | the badge timer compares the `savedKey` captured when the change was made, not the current one | the first autosave of `sound` while no badge is shown: the timer sees `null` and never clears the `sound` badge | the timer clears the badge when it still shows the timer's own key | medium, not executed | SettingsPage.StaleTimerKeepsBadge | SettingsPage.TimerClearsOwnBadge |
