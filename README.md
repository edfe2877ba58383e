# boil, modelled in Dafny

boil is a command-line scaffolder for static front-end projects. Given a CSS
framework, it creates a project directory with the following files:

- an index page;
- a stylesheet;
- an optional script and package.json;
- an optional `.gitignore` and `git init`;
- a README.

It can also write single page templates (about, contact, landing, …) and
component snippets (navbar, hero, card, …). It keeps the following local
stores:

- a history of what it generated, capped at ten entries, which the `undo`
  command consumes;
- named presets of generation options;
- usage counters, which can be switched off through the user settings;
- the user settings themselves, which the `config` command edits.

This project models that core in Dafny and proves properties of the model.
It has one module per source file:

- **Validator**, **LegacyValidate**: the option validators. The current
  project-name rule (a letter first, then `[A-Za-z0-9_-]`) and the three
  legacy prompt validators (any non-empty answer) are total functions with
  iff-contracts.
- **History**, **Presets**, **Analytics**, **UserConfig**: the persisted
  stores. Each is a class whose fields hold the store's contents, and its
  methods update those fields in place. JavaScript plain objects used as
  dictionaries are modelled by **OrderedDict**. It keeps the key order of
  ECMA-262 (section 10.1.11.1, OrdinaryOwnPropertyKeys): keys that are
  array indices ("0", "7", "2024") first, in ascending numeric order, then
  the other keys in the order they were first assigned. `Object.keys` and
  `Object.entries` list keys in that order.
- **Undo**: the `undo` command. It is a pure step function over the history
  and an abstract disk, plus a method over a `HistoryStore` and a
  `FileSystem` (in **Files**) that is proved to follow it. How a removal
  ends is a parameter. A failed removal may have taken part of the tree,
  but nothing outside it, and it keeps the history entry.
- **ConfigCommand**: the `config set/get/list` dispatcher, including its
  usage errors and exit codes, and `stats`.
- **Component**, **Page**: the template generators. They are pure functions
  over the archetype and framework, with the fallback to the navbar and
  about templates for unknown types. Lemmas prove the following:
  - the Bootstrap variants are used exactly for Bootstrap;
  - the framework only reaches the opening comment;
  - distinct archetypes give distinct markup.
- **Meta**, **Theme**, **Icons**: the helper generators. Meta covers the
  meta-tag list (built by a method, pushed tag by tag) and its
  presence/absence rules. Theme covers the theme stylesheet, which contains
  the dark-mode media block exactly for `dark` and `auto`. Icons covers the
  icon-library snippets.
- **Boilerplate**: `generateBoilerplate` as a method that builds the
  ordered plan of directory creations, file writes and `git init`. The file
  texts are functions, and lemmas state what the plan creates and writes
  under each option. **Json** models the `JSON.stringify` string escaping
  used for package.json and proves that it round-trips.

Some inputs are taken as parameters instead of being read:

- the clock (`Date.now()` for history and analytics, and the current year
  for the footer and script banner);
- the answer to undo's confirmation prompt.

File-system effects are modelled as values: a plan of `Step`s for the
generators, and an abstract `Disk` for undo.

One behaviour worth noting is proved as `Boilerplate.ScriptReferencedWithoutJs`.
The index page always loads `assets/js/main.js`, but that file is written
only when JavaScript is requested.

## Model

| member | source | states |
|---|---|---|
| Validator.ValidateProjectName | src/utils/validator.ts:37-53 | accepted iff non-empty, all characters in `[A-Za-z0-9_-]` and an ASCII letter first; each of the three messages is returned exactly when its check is the first to fail (blank after trimming, a bad character, a bad first character) |
| Validator.ProjectNameExamples | src/utils/validator.ts:37-53 | concrete verdicts: "my-app" accepted, "1abc" rejected for its first letter, "bad name" for a character, "   " as empty |
| Validator.ValidateFramework | src/utils/validator.ts:55-57 | true exactly for the seven listed frameworks |
| Validator.ValidatePageType | src/utils/validator.ts:59-61 | true exactly for the eight page archetypes |
| Validator.ValidateComponentType | src/utils/validator.ts:63-65 | true exactly for the seven component archetypes |
| Validator.GetValidFrameworks | src/utils/validator.ts:67-69 | seven distinct names, exactly those ValidateFramework accepts |
| Validator.GetValidPageTypes | src/utils/validator.ts:71-73 | eight distinct names, exactly those ValidatePageType accepts |
| Validator.GetValidComponentTypes | src/utils/validator.ts:75-77 | seven distinct names, exactly those ValidateComponentType accepts |
| LegacyValidate.NonEmpty | src/lib/validate.js:8-27 | accepts iff the answer is non-empty, otherwise rejects with the given message |
| LegacyValidate.ValidatePageName | src/lib/validate.js:8-13 | accepts iff non-empty; the rejection says "Please enter a file name!" |
| LegacyValidate.ValidateBoilerplate | src/lib/validate.js:15-20 | accepts iff non-empty; the rejection says "Please select a css framework!" |
| LegacyValidate.ValidateProjectName | src/lib/validate.js:22-27 | accepts iff non-empty; the rejection says "Please enter the project name!" |
| LegacyValidate.LegacyAcceptsMore | src/lib/validate.js:22-27 | every name the current validator accepts the legacy one accepts, and "1abc" and "bad name" show the converse fails |
| History.Stamp | src/utils/history.ts:21-24 | the stored entry copies the draft's fields and carries the clock reading |
| History.Take | src/utils/history.ts:30-32 | `splice(MAX)`: the first MAX elements in order, or all of them |
| History.Pushed | src/utils/history.ts:19-35 | the new entry first, the previous entries after it in order, at most ten in all |
| History.Popped | src/utils/history.ts:50-57 | for an empty history None and nothing stored; otherwise the head, with the rest stored |
| History.Reversed | src/utils/history.ts:27 | the sequence in reverse order (the order repeated `unshift`s leave) |
| History.TakeOfTake | src/utils/history.ts:30-32 | cutting to MAX before or after prepending gives the same list |
| History.ReplayKeepsNewest | src/utils/history.ts:19-35 | after any run of additions the history is the newest additions, most recent first, then the older entries, cut to ten |
| History.ElevenAddsEvictFirst | src/utils/history.ts:11 | eleven additions to an empty history keep the last ten, most recent first, and evict the first |
| History.HistoryStore.constructor | src/utils/history.ts:42-44 | an unset history reads as empty |
| History.HistoryStore.Add | src/utils/history.ts:19-35 | the stored list becomes Pushed(old list, stamped draft) |
| History.HistoryStore.GetLast | src/utils/history.ts:37-40 | None iff the history is empty, otherwise its first entry |
| History.HistoryStore.GetAll | src/utils/history.ts:42-44 | returns the stored list |
| History.HistoryStore.Clear | src/utils/history.ts:46-48 | the history becomes empty |
| History.HistoryStore.RemoveLast | src/utils/history.ts:50-57 | returns and drops the most recent entry; on an empty history returns None and changes nothing |
| Presets.SaveLoadRoundTrip | src/utils/preset-manager.ts:24-33 | loading a just-saved name gives the saved data; other names are unaffected |
| Presets.PresetManager.constructor | src/utils/preset-manager.ts:15-20 | the presets object starts empty |
| Presets.PresetManager.Save | src/utils/preset-manager.ts:24-28 | the name now maps to the data, no other name changes, and an existing name keeps its position |
| Presets.PresetManager.Load | src/utils/preset-manager.ts:30-33 | the saved data iff the name is saved, otherwise null |
| Presets.PresetManager.Delete | src/utils/preset-manager.ts:35-43 | true iff the name was saved; the name is gone afterwards; nothing changes when it returns false |
| Presets.PresetManager.List | src/utils/preset-manager.ts:45-48 | every saved name exactly once, in `Object.keys` order: array-index names first, in ascending numeric order, then the others |
| Presets.PresetManager.GetAll | src/utils/preset-manager.ts:50-52 | returns the stored presets object |
| Presets.PresetManager.Exists | src/utils/preset-manager.ts:54-57 | true iff a preset is saved under the name |
| OrderedDict.Dict.Get | src/utils/preset-manager.ts:30-33 | `obj[k]`: Some value iff the key is present |
| OrderedDict.Dict.Put | src/utils/preset-manager.ts:24-28 | `obj[k] = v`: the entry is set. An existing key keeps its place. A new array-index key joins the array-index keys, which stay in ascending order. Any other new key goes after all keys |
| OrderedDict.Dict.KeysOrder | src/utils/preset-manager.ts:45-48 | `Object.keys` lists every key once; no array-index key follows another key, and the array-index keys are in ascending numeric order |
| OrderedDict.IndexKeyListedFirst | src/utils/preset-manager.ts:45-48 | after assigning "b" and then "1", `Object.keys` gives ["1", "b"] |
| OrderedDict.Dict.Remove | src/utils/preset-manager.ts:35-43 | `delete obj[k]`: the key leaves the entries, and the key order loses exactly that key, the others keeping theirs |
| OrderedDict.Dict.Items | src/cli/commands/config.ts:67-69 | `Object.entries`: one pair per key, in key order, with that key's value |
| OrderedDict.Dict.SizeIsKeyCount | src/cli/commands/config.ts:59 | `Object.keys(obj).length` counts exactly the entries |
| OrderedDict.Empty | src/utils/preset-manager.ts:15-20 | the empty object `{}`: no keys, no entries |
| UserConfig.Truthy | src/utils/analytics.ts:22-25 | JavaScript truthiness of a stored setting: a boolean as itself, a string iff non-empty |
| UserConfig.ConfigStore.Set | src/cli/commands/config.ts:43 | the key now maps to the value, other keys unchanged |
| UserConfig.ConfigStore.Get | src/cli/commands/config.ts:48 | the stored value iff the key is set, otherwise undefined (None) |
| Analytics.IsEnabled | src/utils/analytics.ts:22-25 | on when the `analytics` setting is unset, otherwise as the stored value reads in a condition |
| Analytics.Bump | src/utils/analytics.ts:31 | `counts[key] = (counts[key] \|\| 0) + 1`: one more for the key, a new non-index key listed last, every other count unchanged |
| Analytics.BumpOnlyIncrements | src/utils/analytics.ts:31 | no counter ever decreases, and exactly the bumped one grows by one |
| Analytics.Analytics.constructor | src/utils/analytics.ts:13-18 | the declared defaults: empty usage maps, zero generations, last used 0 |
| Analytics.Analytics.TrackCommand | src/utils/analytics.ts:27-34 | disabled: nothing changes; enabled: the command's count is bumped and lastUsed set to now, the rest unchanged |
| Analytics.Analytics.TrackGeneration | src/utils/analytics.ts:36-47 | disabled: nothing changes; enabled: one more generation in all, and one more for a named (non-empty) framework only |
| Analytics.Analytics.GetStats | src/utils/analytics.ts:49-56 | the four stored values |
| Analytics.Analytics.Clear | src/utils/analytics.ts:58-60 | back to the declared defaults |
| Files.RemoveTree | src/utils/file.ts:57-63 | after `fs.remove(p)` neither p nor anything beneath it exists, and every other path survives |
| Files.FileSystem.FileExists | src/utils/file.ts:31-38 | true iff the path is present |
| Files.PartlyRemoved | src/utils/file.ts:57-63 | after `fs.remove(p)` threw, the disk has lost only paths beneath p, keeping the given survivors |
| Files.EveryFailureCovered | src/utils/file.ts:57-63 | every disk that lost only paths beneath p is one of the outcomes PartlyRemoved describes |
| Files.FileSystem.DeleteFile | src/utils/file.ts:57-63 | succeeds as the environment decides. On success the tree is removed. On failure part of the tree may be gone. Either way every path outside it survives |
| Undo.ExitCode | src/cli/commands/undo.ts:50-53 | exit code 1 exactly for a failed deletion |
| Undo.UndoStep | src/cli/commands/undo.ts:7-54 | The step does the following: empty history, nothing happens; declined, nothing changes; path already gone, the entry is dropped without a deletion; deletion fails, the entry is kept and the disk has lost at most paths beneath the entry's path; the outcome is Deleted exactly when the path is present, the user confirmed and the removal succeeds, and then the tree is removed and the entry dropped. Only the head entry is ever dropped, and the disk changes only after confirmation |
| Undo.FailureAllowsRetry | src/cli/commands/undo.ts:47-53 | after a failed deletion the history is unchanged and the next undo acts on the same entry; if the path itself went, the next undo drops the entry as missing |
| Undo.SuccessMovesToNext | src/cli/commands/undo.ts:47-49 | after a successful undo the history is one shorter and the next undo acts on the following entry |
| Undo.UndoCommand | src/cli/commands/undo.ts:7-54 | the command's effect on the history store and the file system, and its outcome, are exactly UndoStep's |
| ConfigCommand.ExitCode | src/cli/commands/config.ts:8-35 | exit code 1 exactly for usage errors and unknown actions |
| ConfigCommand.ParseValue | src/cli/commands/config.ts:37-41 | "true" and "false" become booleans (each iff), every other text is kept as a string |
| ConfigCommand.ParseValueDisplays | src/cli/commands/config.ts:44 | the confirmation message shows back exactly the text typed |
| ConfigCommand.SetConfig | src/cli/commands/config.ts:37-45 | stores the parsed value under the key and reports "Set key = value" |
| ConfigCommand.GetConfig | src/cli/commands/config.ts:47-54 | the stored value when the key is set, otherwise the not-found warning |
| ConfigCommand.ListConfig | src/cli/commands/config.ts:56-70 | "No configuration set" iff there is no key, otherwise every setting in key order |
| ConfigCommand.Run | src/cli/commands/config.ts:8-35 | set without a key or value and get without a key are usage errors; set stores the parsed value; get gives the stored value or not-found; list gives the items in key order or "no configuration"; an unknown action is reported; every exit-code-1 path and every action other than set leave the settings unchanged |
| ConfigCommand.StatsCommand | src/cli/commands/config.ts:72-106 | only the disabled warning iff analytics is off; otherwise the total, the stored lastUsed value when it is non-zero (none otherwise), and both usage lists in key order |
| ConfigCommand.DisableThenStats | src/cli/commands/config.ts:72-77 | after `config set analytics false`, `stats` shows only the disabled warning |
| Component.Key | src/generators/component.ts:18-26 | each archetype's key is a valid component type |
| Component.KindOf | src/generators/component.ts:18-29 | an archetype is found iff the type is valid, and it is the one with that key |
| Component.FooterBody | src/generators/component.ts:98-105 | the footer body contains the year |
| Component.NavbarComponent | src/generators/component.ts:32-66 | the Bootstrap markup iff the framework is bootstrap, otherwise the "Navbar Component for <framework>" comment first |
| Component.HeroComponent | src/generators/component.ts:68-75 | starts with the "Hero Component for <framework>" comment |
| Component.CardComponent | src/generators/component.ts:77-96 | the Bootstrap card iff bootstrap, otherwise the "Card Component for <framework>" comment first |
| Component.FooterComponent | src/generators/component.ts:98-105 | starts with the footer comment and contains the current year |
| Component.SidebarComponent | src/generators/component.ts:107-119 | starts with the "Sidebar Component for <framework>" comment |
| Component.ModalComponent | src/generators/component.ts:121-150 | the Bootstrap modal iff bootstrap, otherwise the "Modal Component for <framework>" comment first |
| Component.FormComponent | src/generators/component.ts:152-169 | starts with the "Form Component for <framework>" comment |
| Component.ComponentHTML | src/generators/component.ts:17-30 | a valid type uses its own generator, any other type the navbar's |
| Component.FallbackIsNavbar | src/generators/component.ts:28 | an unknown type yields exactly the navbar snippet |
| Component.BootstrapShape | src/generators/component.ts:32-150 | with Bootstrap, navbar, card and modal are their fixed Bootstrap markup, which does not open with a comment |
| Component.GenericShape | src/generators/component.ts:32-169 | otherwise a snippet is its comment line followed by a framework-independent body |
| Component.CommentUnlessBootstrap | src/generators/component.ts:32-169 | a snippet opens with an HTML comment iff it is not a Bootstrap variant |
| Component.FrameworkOnlyInComment | src/generators/component.ts:32-169 | two non-Bootstrap frameworks give the same snippet after the comment line |
| Component.DistinctArchetypes | src/generators/component.ts:17-30 | two different archetypes never produce the same snippet, for any framework |
| Component.ComponentTemplate | src/generators/component.ts:9-15 | writes ComponentHTML to the output path |
| Page.Key | src/generators/page.ts:20-29 | each archetype's key is a valid page type |
| Page.KindOf | src/generators/page.ts:20-31 | an archetype is found iff the type is valid, and it is the one with that key |
| Page.FrameworkLinks | src/generators/page.ts:209-224 | never empty; the local stylesheet link exactly for frameworks without a CDN |
| Page.Layout | src/generators/page.ts:34-52 | every page starts with the shared head (title, links) and ends with the closing tags |
| Page.AboutBody | src/generators/page.ts:46 | the about body names the framework |
| Page.PageFor | src/generators/page.ts:34-207 | each page is the shared head with its title and the framework links, and ends with the closing tags |
| Page.PageHTML | src/generators/page.ts:19-32 | a valid type gets its own page, any other type the about page |
| Page.FallbackIsAbout | src/generators/page.ts:31 | an unknown type yields exactly the about page |
| Page.LinksEmbedded | src/generators/page.ts:41 | every page contains the framework's links |
| Page.AboutNamesFramework | src/generators/page.ts:46 | the about page contains the framework's name |
| Page.DistinctPages | src/generators/page.ts:19-32 | two different archetypes never produce the same page |
| Page.PageTemplate | src/generators/page.ts:9-17 | writes PageHTML to the output path |
| Theme.ThemeCSS | src/utils/theme-generator.ts:3-59 | starts with the light `:root` variables, ends with the theme rules, and is longer by exactly the media block when it has one |
| Theme.DarkBlockIff | src/utils/theme-generator.ts:14-32 | the dark-mode media block follows the light variables iff the theme is dark or auto |
| Theme.DarkBlockPresent | src/utils/theme-generator.ts:15-30 | for dark and auto the media block sits right after the light variables |
| Theme.DarkBlockAbsent | src/utils/theme-generator.ts:31 | for any other theme it does not |
| Theme.ThemeVariants | src/utils/theme-generator.ts:3-59 | dark equals auto, every other theme equals light, dark is light with the media block spliced in, and they differ |
| Theme.ThemeToggleScript | src/utils/theme-generator.ts:61-97 | the script opens with a line comment |
| Icons.GetIconCDN | src/utils/icon-manager.ts:3-12 | non-empty iff heroicons or fontawesome; a script tag iff heroicons, a stylesheet link iff fontawesome |
| Icons.GetIconExample | src/utils/icon-manager.ts:14-29 | non-empty iff a known library, and then it starts with an HTML comment |
| Icons.GetIconsComment | src/utils/icon-manager.ts:31-40 | non-empty iff a known library, and then an HTML comment |
| Meta.WithDefaults | src/utils/meta-generator.ts:13-22 | each absent option takes its default (no keywords, no author, website, no image, summary_large_image, #3b82f6); a supplied one is kept as is |
| Meta.RenderAll | src/utils/meta-generator.ts:24-58 | one rendered tag per tag, in order |
| Meta.HeadTags | src/utils/meta-generator.ts:24-38 | five tags plus one for keywords and one for an author, the five fixed leading tags first |
| Meta.TrailingTags | src/utils/meta-generator.ts:40-58 | seven tags plus two when there is an image |
| Meta.TagList | src/utils/meta-generator.ts:24-58 | twelve tags plus one for keywords, one for an author and two for an image, the five fixed leading tags first |
| Meta.HeadTagsWith | src/utils/meta-generator.ts:24-38 | for given joined keywords: five tags plus one for keywords and one for an author, the five fixed leading tags first |
| Meta.HeadWithKinds | src/utils/meta-generator.ts:32-38 | for any joined keywords text, the keywords and author tags are there exactly when they have values, and no image tag |
| Meta.HeadTagKinds | src/utils/meta-generator.ts:24-38 | the tags up to the author hold the keywords and author tags exactly when they have values, and no image tag |
| Meta.TrailingTagKinds | src/utils/meta-generator.ts:40-58 | the later tags hold no keywords or author tag, and both image tags exactly when there is an image |
| Meta.KeywordsTag | src/utils/meta-generator.ts:32-34 | the keywords tag is present iff there are keywords, and lists them joined by ", " |
| Meta.AuthorTag | src/utils/meta-generator.ts:36-38 | the author tag is present iff the author is non-empty |
| Meta.ImageTags | src/utils/meta-generator.ts:47-58 | the og:image and twitter:image tags are present iff the image is non-empty |
| Meta.PushHeadTags | src/utils/meta-generator.ts:24-38 | the pushes up to the author leave exactly the head of TagList, starting with the charset tag |
| Meta.PushTrailingTags | src/utils/meta-generator.ts:40-58 | the remaining pushes append exactly the colour, Open Graph and Twitter tags, the image tags only for a non-empty image |
| Meta.GenerateMetaTags | src/utils/meta-generator.ts:12-61 | the tags pushed one by one are exactly TagList, rendered and joined with the line separator; the output opens with the charset tag |
| Meta.FaviconLinks | src/utils/meta-generator.ts:63-68 | the favicon block opens with a link tag |
| Text.Join | src/utils/meta-generator.ts:33 | `join`: empty for no parts, the part itself for one, otherwise starts with the first and ends with the last part and contains the separator |
| Text.Capitalize | src/generators/boilerplate.ts:110 | `charAt(0).toUpperCase() + slice(1)`: same length, only the first character upper-cased |
| Text.NatToString | src/generators/component.ts:102 | the year's decimal digits, one digit iff below ten |
| Text.NatToStringRoundTrip | src/generators/component.ts:102 | reading the digits back gives the number |
| Json.EscapeChar | src/generators/boilerplate.ts:82-85 | a character is copied as is iff it is printable and neither a quote nor a backslash; otherwise it is escaped |
| Json.Escape | src/generators/boilerplate.ts:82-85 | the escaped text never has an unescaped quote |
| Json.EscapeRoundTrip | src/generators/boilerplate.ts:82-85 | unescaping the escaped text gives back the original string |
| Json.QuoteRoundTrip | src/generators/boilerplate.ts:82-85 | a quoted JSON string reads back as the original |
| Boilerplate.FrameworkCDN | src/generators/boilerplate.ts:185-200 | empty exactly for frameworks without a CDN |
| Boilerplate.IndexHTML | src/generators/boilerplate.ts:136-183 | the head opens with the meta tags, favicon links, framework CDN and stylesheet link in that order; the page contains the project name, the icon snippets and the main.js script tag |
| Boilerplate.VanillaCSS | src/generators/boilerplate.ts:202-277 | opens with the reset rules and contains the theme stylesheet |
| Boilerplate.FrameworkCSS | src/generators/boilerplate.ts:279-286 | opens with the "<Framework> Custom Styles" comment and contains the theme stylesheet |
| Boilerplate.MainCss | src/generators/boilerplate.ts:53-57 | the vanilla sheet for vanilla and html5, the framework sheet otherwise; contains the theme stylesheet either way |
| Boilerplate.JavaScript | src/generators/boilerplate.ts:288-296 | opens with a comment carrying the year and contains the theme toggle script |
| Boilerplate.PackageJson | src/generators/boilerplate.ts:68-86 | opens with the JSON-quoted project name as `name` |
| Boilerplate.GettingStarted | src/generators/boilerplate.ts:114 | the install step is present iff JavaScript is requested, and the preview step is numbered 2 then, 1 otherwise |
| Boilerplate.ScriptTreeEntry | src/generators/boilerplate.ts:123 | main.js appears in the project tree iff JavaScript is requested |
| Boilerplate.Readme | src/generators/boilerplate.ts:105-133 | opens with "# <name>" and contains the getting-started steps and the tree entry for the options |
| Boilerplate.GenerateBoilerplate | src/generators/boilerplate.ts:18-134 | the steps taken, in order, are exactly Plan(options, year) |
| Boilerplate.PushSteps | src/generators/boilerplate.ts:21-133 | for rendered texts, the pushes give the fixed steps, then the script steps, the git steps and the README, as Steps does |
| Boilerplate.RenderIndex | src/generators/boilerplate.ts:30-51 | the index page built from the generated meta tags; it contains the main.js script and the project name |
| Boilerplate.FixedStepsWrite | src/generators/boilerplate.ts:21-59 | the unconditional steps create the five directories and write index.html and main.css, and run no `git init` |
| Boilerplate.ScriptStepsWrite | src/generators/boilerplate.ts:61-87 | the script steps write main.js and package.json with JavaScript and nothing otherwise |
| Boilerplate.GitStepsWrite | src/generators/boilerplate.ts:88-103 | the Git steps write .gitignore and run `git init` iff Git is requested |
| Boilerplate.OptionalSteps | src/generators/boilerplate.ts:18-134 | the written files are index.html, main.css and README.md, plus main.js and package.json with JavaScript, plus .gitignore with Git; the created directories are always the same five |
| Boilerplate.AlwaysCreated | src/generators/boilerplate.ts:21-28 | the five directories are always created, no others, and index.html, main.css and README.md are always written |
| Boilerplate.ScriptFilesIff | src/generators/boilerplate.ts:61-87 | main.js and package.json are written iff JavaScript is requested |
| Boilerplate.GitStepsIff | src/generators/boilerplate.ts:88-133 | .gitignore is written and `git init` run iff Git is requested, and the README is written last |
| Boilerplate.LeadingSteps | src/generators/boilerplate.ts:21-59 | the five directories come first in order, then index.html, then main.css |
| Boilerplate.ScriptReferencedWithoutJs | src/generators/boilerplate.ts:177-180 | without JavaScript the index page still loads assets/js/main.js, which the plan never writes |
| Boilerplate.IndexMetaTags | src/generators/boilerplate.ts:31-36 | the index page's tag list has a keywords tag "<framework>, frontend, boilerplate", no author tag, and thirteen tags |
| Boilerplate.IndexTags | src/generators/boilerplate.ts:31-36 | for those settings: the keywords tag, no author tag, thirteen tags |
| Boilerplate.KeywordsText | src/generators/boilerplate.ts:34 | the three keywords joined read "<framework>, frontend, boilerplate" |

## Left out

- UserConfig.ConfigStore.Set: `conf` reads a dotted key such as "a.b" as a nested path and stores `{a: {b: value}}`. The model stores the key flat, so nested objects and the top-level key "a" that `config list` would show are not modelled.
- UserConfig.ConfigStore.Get: a dotted key is looked up flat. `conf` would walk the nested path, and `config get a` after `config set a.b x` would print an object. Nested values are not modelled.
- Persistence: the `conf` stores are modelled as in-memory fields. Reading a file, writing it back and concurrent processes are not modelled.
- JavaScript prototype lookups: `templates[type]`, `presets[name]` and `name in presets` are modelled as own-key lookups. A key such as "constructor" or "toString" would find an inherited member in JavaScript.
- Presets.PresetManager.Load: JavaScript's `presets[name] || null` would also return null for a falsy stored value. Stored presets are always objects, so this case cannot arise.
- Paths: `path.join(projectPath, …)` is modelled as paths relative to the project directory ("." is the directory itself). The project path and path normalisation are not modelled.
- I/O failures: a failing `createDirectory` or `writeFile` would abort `generateBoilerplate`. The plan takes every write to succeed. Undo's deletion failure is modelled: how a removal ends is a parameter, and a failure may leave any part of the tree.
- `git init` is a plan step. Running it, and its failure (which the source ignores), are not modelled.
- The clock and prompts are parameters: the time (`Date.now()`, the current year) and undo's confirmation answer.
- Logging, colours, spinners and the printed layout of `stats` and undo's entry summary are left out. Outcomes are datatypes, and messages are modelled only where they are returned.
- The command wrappers that only prompt and call these functions (`new`, `generate`, `page`, `component`, `preset`, `preview`, `deploy`) are not part of this model, and neither is the legacy downloader in src/lib.
- Text.Capitalize: only ASCII lower-case letters are upper-cased. `toUpperCase` also maps other scripts.
- Validator.ValidateProjectName: `trim()` is modelled by the ECMAScript white-space and line-terminator set. Lone surrogates and case folding are not modelled.
- Json.Escape: characters outside the Basic Multilingual Plane and lone surrogates are copied as single characters. The well-formed `JSON.stringify` escaping of lone surrogates is not modelled.
- Meta.Render: values are interpolated without HTML escaping, as in the source, so a quote in a title yields malformed markup.
- Theme.ThemeToggleScript: states only that the script opens with a line comment. The script itself is a fixed text, kept verbatim as a constant.
- Meta.FaviconLinks: states only that the block opens with a link tag. The four links are kept verbatim as a constant.
- Icons.GetIconExample: states only that each example opens with an HTML comment, and when it is present. The example markup is kept verbatim.
- Boilerplate.PackageJson: states only the opening `name` field. The rest of the `JSON.stringify(…, null, 2)` layout is written out verbatim in the function.
- Boilerplate.JavaScript: states the banner and that the toggle script is embedded. The trailing lines are kept verbatim.
- Boilerplate.IndexHTML: states the order of the head's first pieces, and that the body contains the project name, icon snippets and script tag. The full page is the verbatim template.
- Component.NavbarComponent, Component.CardComponent, Component.ModalComponent: the Bootstrap variants are stated as equal to their verbatim markup constants. No property of their content beyond that is proved.
