# FireCrawl App Generator: page state machine and code viewer

This project models the interactive core of the FireCrawl App Generator front
end in Dafny:

- **`Home`** (`home.dfy`, modelling `pages/index.tsx`) covers the page record
  `AppState` (prompt, selected template, `isGenerating`, generated code, preview
  mode). It also covers the handlers that replace that record:
  - prompt edit
  - template pick
  - the guarded Generate
  - the preview-mode toggle

  It includes the deferred completion that Generate schedules, and the
  template catalogue.
- **`CodePreview`** (`code_preview.dfy`, modelling
  `components/GeneratedCodePreview.tsx`) covers the viewer:
  - the file-name → highlighting-language table
  - the preview excerpt (first five lines plus `"\n..."`)
  - the initially active file and the tab switch
  - one tab per key, with an icon chosen by the file name
  - the dispatch on the display mode
- **`Text`** (`text.dfy`) holds the string operations these use:
  `endsWith`, `includes`, and `split`/`join` on one character. It also holds
  the round trips between split and join.

The page is a class `Home.HomePage` with the `useState` record as a field. The
timer becomes a queue of snapshots (`pending`) and an explicit
`Complete()` event. Each method is specified against the pure transition
function `Home.Step`. The state-machine properties are lemmas about `Step`
and `Run`.

The completion callback closes over the `state` value captured when Generate
ran (`index.tsx:97-108`). It writes back that captured record, with
`isGenerating` cleared and the mock files installed. So it puts back the
submission-time prompt, template and preview mode: any edit, template pick or
mode toggle made while it was pending is undone, and the generated `index.js`
embeds the submission-time inputs.

The preview excerpt always ends in `"\n..."` (`GeneratedCodePreview.tsx:42`),
even for a file of fewer than five lines, where nothing was cut.

`Home.HomePage.HandleGenerateCode` has no
`isGenerating` guard: only the button is disabled. So several completions can
be pending at once. They all wait the same fixed delay, so they fire in the
order they were scheduled, and the last one wins
(`Home.LastCompletionWins`). The first one already clears `isGenerating`
while the second is still pending (`Home.OverlappingGenerations`).

## Model

| member | source | states |
|---|---|---|
| `Home.Templates` | firecrawl/src/pages/index.tsx:42-78 | the catalogue has the ids nextjs, react, vue, express, mobile in this order |
| `Home.TemplateIdsDistinct` | firecrawl/src/pages/index.tsx:42-78 | the catalogue ids are pairwise distinct and non-empty |
| `Home.HomePage.constructor` | firecrawl/src/pages/index.tsx:33-39 | the page starts with an empty prompt, no template, not generating, no code, code mode, and nothing scheduled |
| `Home.HomePage.HandlePromptChange` | firecrawl/src/pages/index.tsx:81-83 | replaces the prompt and keeps the page invariant and the schedule |
| `Home.HomePage.HandleTemplateSelect` | firecrawl/src/pages/index.tsx:86-88 | replaces the selected template and keeps the page invariant and the schedule |
| `Home.PromptChanged` | firecrawl/src/pages/index.tsx:81-83 | a prompt edit sets `prompt` to the new value and leaves every other field as it was |
| `Home.TemplateSelected` | firecrawl/src/pages/index.tsx:86-88 | a template pick sets `selectedTemplate` to the id and leaves every other field as it was |
| `Home.CanGenerate` | firecrawl/src/pages/index.tsx:92 | past the guard a template is selected, so the mock `index.js` embeds its id and never `null` |
| `Home.Submitted` | firecrawl/src/pages/index.tsx:94 | a Generate that passes the guard sets `isGenerating`, changes no other field, and leaves the button disabled |
| `Home.HomePage.HandleGenerateCode` | firecrawl/src/pages/index.tsx:91-97 | when the guard fails, state and schedule are unchanged; otherwise `isGenerating` is set and the pre-submit record is queued |
| `Home.GenerateGuard` | firecrawl/src/pages/index.tsx:92 | Generate leaves the page unchanged if and only if the prompt is empty or the template is null or empty |
| `Home.GenerateSchedules` | firecrawl/src/pages/index.tsx:92-97 | a Generate that passes the guard sets `isGenerating`, changes no other field, and appends the old record to the schedule |
| `Home.HomePage.Complete` | firecrawl/src/pages/index.tsx:97-109 | the oldest scheduled completion installs its snapshot with the mock files and leaves the schedule |
| `Home.CompleteInstalls` | firecrawl/src/pages/index.tsx:97-108 | a completion clears `isGenerating`, installs exactly `index.js` then `package.json`, and restores the snapshot's prompt, template and mode |
| `Home.Completed` | firecrawl/src/pages/index.tsx:97-108 | the completion record is the captured snapshot with `isGenerating` cleared and code with the keys `index.js`, `package.json`; every other field is the snapshot's |
| `Home.Step` | firecrawl/src/pages/index.tsx:81-118 | prompt edits, template picks and toggles leave the schedule, `isGenerating` and the generated code as they were |
| `Home.MockIndexJs` | firecrawl/src/pages/index.tsx:100 | the mock `index.js` starts with a fixed five-line head followed by a line break, whatever the prompt and template |
| `Home.MockCode` | firecrawl/src/pages/index.tsx:99-102 | the mock result has the keys `index.js`, `package.json` in that order, and they are distinct |
| `Home.MockIndexJsMentionsInputs` | firecrawl/src/pages/index.tsx:100 | the mock `index.js` contains the prompt and the template id as substrings |
| `Home.CompletedMentionsSnapshot` | firecrawl/src/pages/index.tsx:97-108 | the installed `index.js` contains the snapshot's prompt and template id |
| `Home.MockIndexJsPreview` | firecrawl/src/pages/index.tsx:100 | the preview excerpt of the mock `index.js` is its first five lines, which do not depend on prompt or template |
| `Home.MockCodeFirstPreview` | firecrawl/src/components/GeneratedCodePreview.tsx:16-43 | over a fresh mock result the viewer starts on `index.js`, and preview mode shows those five lines plus the ellipsis |
| `Home.MockCodeTabs` | firecrawl/src/components/GeneratedCodePreview.tsx:59-92 | over the mock result, code mode shows a folder-icon JavaScript tab `index.js` and then a file-icon JSON tab `package.json` |
| `Home.CompletionRestoresSnapshot` | firecrawl/src/pages/index.tsx:97-108 | after Generate from an idle page, any edits, picks, toggles or further Generates before the completion are undone by it |
| `Home.LastCompletionWins` | firecrawl/src/pages/index.tsx:91-110 | when all scheduled completions fire, the final page is the last snapshot's completion and nothing stays scheduled |
| `Home.OverlappingGenerations` | firecrawl/src/pages/index.tsx:91-110 | with two overlapping Generates, the first completion clears `isGenerating` while the second is pending, and the second decides the template |
| `Home.GeneratingPersists` | firecrawl/src/pages/index.tsx:91-109 | once generating, the page stays generating through any edits, picks, toggles and further Generates until a completion fires |
| `Home.NoCodeBeforeCompletion` | firecrawl/src/pages/index.tsx:94-107 | generated code stays absent until some completion fires |
| `Home.TodoAppScenario` | firecrawl/src/pages/index.tsx:81-108 | pick "react", type "todo app", Generate: the page is generating at once, and after completion `index.js` mentions both strings |
| `Home.HomePage.TogglePreviewMode` | firecrawl/src/pages/index.tsx:113-118 | flips the preview mode and keeps the rest of the record and the schedule |
| `Home.Toggled` | firecrawl/src/pages/index.tsx:113-118 | the toggle changes the preview mode and no other field |
| `Home.ToggleFlips` | firecrawl/src/pages/index.tsx:113-118 | applying the toggle twice is the identity, and each toggle switches the viewer between the preview pane and the tabs |
| `Home.ButtonEnabled` | firecrawl/src/pages/index.tsx:171 | a click on an enabled button always passes the handler's guard, and no generation is running |
| `Home.ButtonEnabledIff` | firecrawl/src/pages/index.tsx:171 | the button is enabled if and only if Generate would pass its guard and no generation runs |
| `Home.ReachableValid` | firecrawl/src/pages/index.tsx:33-118 | every reachable page has only guard-passing snapshots scheduled, is generating only while something is scheduled, and holds as code only the mock result for some record that passed the guard |
| `CodePreview.Language` | firecrawl/src/components/GeneratedCodePreview.tsx:18-26 | the classification is total: every name gets one of six language names |
| `CodePreview.LanguageIsFirstMatch` | firecrawl/src/components/GeneratedCodePreview.tsx:18-25 | the result is the first matching row of the table .js/.jsx, .ts/.tsx, .css, .html, .json, .md, or `javascript` when no row matches |
| `CodePreview.SuffixOfSuffix` | firecrawl/src/components/GeneratedCodePreview.tsx:19-24 | when a name ends with two strings, the shorter ends the longer |
| `CodePreview.AtMostOneSuffix` | firecrawl/src/components/GeneratedCodePreview.tsx:19-24 | no file name ends with two different suffixes of the table |
| `CodePreview.LanguageBySuffix` | firecrawl/src/components/GeneratedCodePreview.tsx:18-25 | each language is chosen if and only if the name ends with one of that language's suffixes; `javascript` is chosen if and only if no other row matches |
| `CodePreview.Lookup` | firecrawl/src/components/GeneratedCodePreview.tsx:41 | `code[name]` is absent if and only if `name` is not a key; a present result is that key's content |
| `CodePreview.InitialActiveFile` | firecrawl/src/components/GeneratedCodePreview.tsx:16 | the initial active file is the first key, or `''` when there is none; a non-empty choice names a file |
| `CodePreview.Viewer.constructor` | firecrawl/src/components/GeneratedCodePreview.tsx:12-16 | on mount, `activeFile` is the initial choice for the given code |
| `CodePreview.Viewer.SelectTab` | firecrawl/src/components/GeneratedCodePreview.tsx:56 | a tab change sets `activeFile` to the chosen tab and changes nothing else |
| `CodePreview.Viewer.Rerender` | firecrawl/src/components/GeneratedCodePreview.tsx:12-16 | new props replace code and mode but keep `activeFile` |
| `CodePreview.Snippet` | firecrawl/src/components/GeneratedCodePreview.tsx:42 | the excerpt is always a leading part of the content |
| `CodePreview.SnippetIsLeadingLines` | firecrawl/src/components/GeneratedCodePreview.tsx:42 | the excerpt holds min(4, #breaks) line breaks: the whole content if it has at most five lines, otherwise ending just before the fifth break |
| `CodePreview.SnippetOfLongContent` | firecrawl/src/components/GeneratedCodePreview.tsx:42 | if `head` has four line breaks, the excerpt of `head + "\n" + tail` is exactly `head` |
| `CodePreview.ShowsFile` | firecrawl/src/components/GeneratedCodePreview.tsx:41 | a file is shown only when the active name is a key of the code |
| `CodePreview.PreviewText` | firecrawl/src/components/GeneratedCodePreview.tsx:41-43 | the pane reads "No file selected" if and only if no file with content is active |
| `CodePreview.PreviewTextSpec` | firecrawl/src/components/GeneratedCodePreview.tsx:41-43 | the pane reads "No file selected" if and only if no file with content is active; otherwise it shows the excerpt and then always `"\n..."` |
| `CodePreview.TabIcon` | firecrawl/src/components/GeneratedCodePreview.tsx:65-69 | the file icon is used if and only if the name ends with `.json` |
| `CodePreview.Tabs` | firecrawl/src/components/GeneratedCodePreview.tsx:59-92 | there is one tab per file |
| `CodePreview.TabsFollowKeys` | firecrawl/src/components/GeneratedCodePreview.tsx:59-92 | one tab per key in key order, each with its own content, highlighted in the language `getLanguage` gives its name; distinct keys give distinct tabs |
| `CodePreview.Display` | firecrawl/src/components/GeneratedCodePreview.tsx:50-95 | preview mode, and only preview mode, renders the preview pane with the preview text; code mode renders the tabs with the active file as default |
| `Text.Join` | firecrawl/src/components/GeneratedCodePreview.tsx:42 | `join('\n')` of one or more pieces starts with the first piece |
| `Text.Split` | firecrawl/src/components/GeneratedCodePreview.tsx:42 | `split('\n')` gives one more piece than there are separators, and no piece contains a separator |
| `Text.JoinSplit` | firecrawl/src/components/GeneratedCodePreview.tsx:42 | joining the pieces of a split gives back the content |
| `Text.SplitJoin` | firecrawl/src/components/GeneratedCodePreview.tsx:42 | splitting a join of separator-free pieces gives back the pieces |

## Left out

- Layout, CSS classes, animation, SVG icons and the template icons are presentation only and not modelled.
- The 2000 ms `setTimeout` is replaced by the explicit `Complete` event. Completions are taken to fire in scheduling order, because they share one fixed delay.
- The model has no wall clock, so it does not capture that a completion fires "only after" the delay.
- `Home.Step` treats a completion with nothing scheduled as a no-op. That event cannot occur in the program, and `Home.HomePage.Complete` requires a scheduled completion.
- The handlers other than the completion are applied to the live record. React's batching of several updates in one event is not modelled.
- The model accepts prompt edits and toggles at any time:
  - The textarea is disabled while generating (`PromptInput.tsx:40`), so the page never sends prompt edits then.
  - The toggle button is only shown once code exists.
  - These UI restrictions sit outside the handlers.
- Syntax highlighting and the internals of the Tabs component come from libraries whose code is not available. A tab change is modelled only as the `onValueChange` call.
- The viewer is not wired into the page's render cycle. `CodePreview.Viewer` models its mount and re-render separately.
- JavaScript orders integer-like object keys before the others. The file map is modelled as a list in insertion order, which matches for the mock keys.
- A lookup of a name inherited from `Object.prototype` (for example `constructor`) is not modelled.
- The header theme toggle, the footer links, `next.config.js`, the prompt editor's focus styling, the catalogue's highlight and the Export and GitHub buttons have no logic to model.
