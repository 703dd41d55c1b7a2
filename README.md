# Mermaid AI: a verified model of the client core

Mermaid AI is a web application for drawing Mermaid diagrams with help from a
generative model. Users sign in and keep projects. Each project holds
diagrams, and each diagram has a history of saved versions. A new diagram is
generated from a prompt, and an existing one is refined with a second prompt.
The code is edited next to a live rendering with pan and zoom, the layout and
theme are picked from menus, and the code can be exported as a `.mmd` file.
A small Node script checks the `.env` configuration before start-up.

This project models the parts of that client that hold decisions, and proves
what they promise:

- **`ai.dfy` (`Ai`).** How a generation request picks its prompt, and how the
  model's raw reply is cleaned. Fences are stripped, prose before the first
  diagram keyword is dropped, and an empty reply or one without a keyword is
  rejected. The search loop and the step-by-step reassignments are a method,
  `PostProcess`. It is proved equal to a specification function, `Sanitized`,
  and the lemmas state what that function means.
- **`check_config.dfy` (`CheckConfig`).** The `.env` line parser, a loop
  proved against the function `Parsed`. Also the placeholder test, the display
  truncation, and the exit status.
- **`store.dfy` (`Store`), with `lists.dfy` (`Lists`).** The application store
  as a class whose actions reassign its fields. Lemmas state what each update
  and delete means for the lists and for the current project or diagram.
- **`history_drawer.dfy` (`HistoryDrawer`).** The relative-time label, the
  timeline numbering, the loading state and the restore button.
- **`i18n.dfy` (`I18n`).** The start-up language choice, the hook that saves
  every language change, and the date locale of each language.
- **`markdown_editor.dfy` (`MarkdownEditor`).** Template insertion, and the
  guard and busy flag around the PDF export.
- **`paging.dfy` (`Paging`).** The page arithmetic shared by the two list
  pages, with lemmas relating scrolling to the table on the server.
- **`diagram_list.dfy` (`DiagramList`) and `project_list.dfy`
  (`ProjectList`).** The two list pages as classes. They cover paged loading,
  load-more, create and confirmed delete.
- **`mermaid_renderer.dfy` (`MermaidRenderer`).** The render session as a
  class. The pan-zoom library is seen through the log of calls made on it.
  The session keeps the invariant that the instance it holds is the only live
  one.
- **`diagram_editor_page.dfy` (`DiagramEditorPage`) and `diagram_editor.dfy`
  (`DiagramEditor`).** The two editors. The page keeps its own copy of the
  diagram, and the panel works through the store. Both cover save, refine,
  restore and export.
- **`model.dfy` (`Model`) and `text.dfy` (`Text`).** The shared records,
  patches and writes. The JavaScript string operations used throughout:
  `trim`, `split`, `join`, `startsWith`, `slice`, and decimal formatting.

Every outside effect is a parameter.

- A backend query becomes a `Reply` (failed, or answered with optional data).
- An update or delete becomes an optional error message.
- The generator becomes a function from prompt to reply text or failure.
- `mermaid.render` becomes a `Result` of rendered markup.
- The clock becomes a `now` parameter.

What a page sends to the backend is returned as a sequence of `Write`s, in
order. Alerts and toasts are returned or kept as fields.

Some facts about the code that the model keeps:

- The code rewrites no direction into the diagram source. The layout and the
  theme go only into the renderer's configuration.
- The render id is `mermaid-<renderKey>-<time>`.
- The pan-zoom instance is attached with `fit: false` and `center: true`.
- A failed history load keeps the previous list.

`MermaidRenderer.tsx` calls `setError` and reads `error` (lines 140, 150, 325
and 489) but never declares them. As written, reading `error` at line 325
throws a `ReferenceError` on every render, so the component never mounts and
none of the effects modelled here would run. The model reads them as the
evidently intended reset of an error display, and keeps no error state.
Failures are reported only through the alert at line 184.

## Model

| member | source | states |
|---|---|---|
| Ai.FirstTypedLine | src/services/ai.ts:229-239 | the index of the first line whose trimmed text starts with one of the nine keywords; every earlier line has none; the number of lines when no line has one |
| Ai.HasDiagramType | src/services/ai.ts:229-235 | a trimmed line names a diagram type when it starts with one of the nine keywords; `KeywordLineIsTyped` and `ProseLineIsNotTyped` prove which lines do and do not |
| Ai.StripMermaidFence | src/services/ai.ts:223 | the tagged opening fence and one newline after it go, the tag in any case; `MermaidTagIsDropped` proves it |
| Ai.StripFence | src/services/ai.ts:224 | a bare opening fence and one newline after it go; `NoBareFenceLeft` and `BareFenceIsDropped` prove when it acts and when it does not |
| Ai.StripClosingFence | src/services/ai.ts:225 | a closing fence at the very end goes, with the newline before it; `ClosingFenceIsDropped` proves it |
| Ai.Unfenced | src/services/ai.ts:220-225 | the reply trimmed and rid of its fences, before any line is dropped; `MermaidFenceIsStripped` and `BareFenceIsStripped` prove that a fenced body comes back exactly |
| Ai.Cleaned | src/services/ai.ts:228-258 | accepted code is already trimmed, and a rejection is only ever for an empty reply or a missing diagram type; `CleanedCases` and `RejectedIffNoTypedLine` say when each happens |
| Ai.Sanitized | src/services/ai.ts:220-258 | the whole post-processing of a raw reply: accepted code is non-empty, trimmed, and its first line names a diagram type; `PostProcess` is proved equal to it |
| Ai.FindCodeStart | src/services/ai.ts:230-239 | the search loop returns -1 or an index in range; the line at that index is typed, and every line before it (all lines, for -1) is not |
| Ai.CodeStartIsFirstTypedLine | src/services/ai.ts:230-239 | the loop's index is -1 exactly when no line is typed, and otherwise it is the first typed line of the specification |
| Ai.CleanedFirstLine | src/services/ai.ts:241-256 | after the slice, a text with no typed line trims to empty iff it is blank, and otherwise its first line is untyped; with a typed line at k, the code is lines k.. re-joined, non-empty, and its first trimmed line is typed |
| Ai.PostProcess | src/services/ai.ts:220-258 | the step-by-step post-processing (trim, three fence replacements, search, slice, two checks, trim) returns exactly the specification `Sanitized(raw)` |
| Ai.AcceptedCodeIsWellFormed | src/services/ai.ts:229-258 | an accepted reply is non-empty and already trimmed, and its first line, trimmed, starts with a diagram keyword |
| Ai.CleanedCases | src/services/ai.ts:241-256 | a reply is accepted iff some line is typed; it is rejected as empty iff no line is typed and the text is blank |
| Ai.RejectedIffNoTypedLine | src/services/ai.ts:233-256 | a reply is rejected iff none of its lines is typed (both directions), and rejected as empty iff it is blank |
| Ai.NothingDroppedWhenFirstLineTyped | src/services/ai.ts:241-243 | when the first line is already typed, nothing is dropped: the result is the whole unfenced reply, trimmed |
| Ai.ProseBeforeCodeIsDropped | src/services/ai.ts:228-243 | when line k is the first typed line, lines 0..k-1 are dropped and lines k.. are kept verbatim, and only the ends of the whole text are trimmed |
| Ai.KeywordLineIsTyped | src/services/ai.ts:229-235 | matching is by prefix: any keyword followed by anything (`stateDiagram-v2`, `graph LR`) names a diagram type |
| Ai.ProseLineIsNotTyped | src/services/ai.ts:233-235 | a line whose first character begins none of the keywords (a sentence of prose) is not typed |
| Ai.TypedLineIsNotBlank | src/services/ai.ts:235-247 | a typed line always has a visible character, so a reply with a typed line is never rejected as empty |
| Ai.MermaidFenceIsStripped | src/services/ai.ts:220-225 | a reply fenced as `` ```mermaid `` (the tag in any case), a newline, the body, a newline and `` ``` `` is unwrapped to exactly the body |
| Ai.MermaidTagIsDropped | src/services/ai.ts:223 | the first replacement removes the tagged opening fence and the newline after it |
| Ai.NoBareFenceLeft | src/services/ai.ts:224 | the second replacement leaves a text that does not start with a fence unchanged |
| Ai.ClosingFenceIsDropped | src/services/ai.ts:225 | the third replacement removes a closing fence at the very end, together with the newline before it when there is one |
| Ai.BareFenceIsStripped | src/services/ai.ts:220-225 | a reply in a bare fence, with the closing fence right after the code, is unwrapped to exactly the body |
| Ai.BareFenceIsDropped | src/services/ai.ts:223-224 | a bare fence is not taken for a tagged one, and the second replacement removes it with its newline, once |
| Ai.PromptFor | src/services/ai.ts:210-215 | the revision template is chosen iff a non-empty current code is given, and it carries that code; both templates carry the user's request |
| Ai.Generated | src/services/ai.ts:200-263 | without an API key the result is `NotConfigured` and the model is not asked; any code returned is non-empty and trimmed |
| Ai.GenerateMermaidCode | src/services/ai.ts:200-263 | fails with `NotConfigured` without an API key before the model is asked; otherwise it returns the specification `Generated`; any code returned is non-empty and its first line names a diagram type |
| Ai.RefineMermaidCode | src/services/ai.ts:265-270 | refinement is generation with the feedback as the request and the current code passed on, and its code is well-formed in the same sense |
| Ai.EmptyCodeRefinesAsNew | src/services/ai.ts:211-215 | an empty current code takes the new-diagram template, exactly as no code does |
| CheckConfig.ParseEnv | check-config.js:31-39 | the loop over the lines builds exactly the dictionary `Parsed` gives for the lines of the file |
| CheckConfig.LineEntry | check-config.js:32-36 | what one line adds to the dictionary; `EntryOfLine` proves that blank lines, comments, lines without `=` and lines starting with `=` add nothing, and that otherwise the key is the text before the first `=` and the value is the rest |
| CheckConfig.Parsed | check-config.js:31-39 | the dictionary after the lines in order; `LastDefinitionWins` proves that a key is defined iff some line defines it, with the value of the last such line |
| CheckConfig.EntryOfLine | check-config.js:32-36 | a line contributes nothing iff its trimmed text is empty, a `#` comment, has no `=`, or starts with `=`; otherwise the key is the trimmed text before the first `=` and the value is all the text after it, trimmed, `=` included |
| CheckConfig.IgnoredLine | check-config.js:32-33 | a blank or comment line leaves the dictionary unchanged |
| CheckConfig.LastDefining | check-config.js:31-36 | the last line that sets a key: that line sets it and no later line does; -1 when no line sets it |
| CheckConfig.LastDefinitionWins | check-config.js:31-39 | a key is defined iff some line sets it, and its value is the one from the last such line |
| CheckConfig.Lookup | check-config.js:51 | a variable's value is present iff the key was parsed, and then it is the parsed value |
| CheckConfig.IsConfigured | check-config.js:52-54 | a value is configured when it is present, non-empty and none of the three placeholders; `ReportFor` and `Check` state what follows from it |
| CheckConfig.Display | check-config.js:59-61 | a value of at most 20 characters is shown whole; a longer one shows its first 20 characters followed by `...` |
| CheckConfig.ReportFor | check-config.js:51-66 | a variable is reported ready iff it is configured (present, non-empty, not one of the three placeholders), and then its displayed value is shown |
| CheckConfig.Check | check-config.js:20-79 | without a `.env` file the status is 1 and nothing is reported; otherwise there is one report line per required variable, in order, and the status is 0 iff all three are configured, and 1 otherwise |
| Lists.MapWhere | src/store/useStore.ts:43-45 | the mapped list has the same length; each element is rewritten iff it is a hit, and the rest are kept in place |
| Lists.Filter | src/store/useStore.ts:53 | the filtered list keeps exactly the elements that pass, and no others |
| Lists.FilterAppend | src/store/useStore.ts:53 | filtering distributes over concatenation, so the kept elements stay in their original order |
| Lists.FilterIdempotent | src/store/useStore.ts:76 | filtering twice with the same test removes nothing more |
| Store.ProjectUpdateIsPointwise | src/store/useStore.ts:41-45 | `updateProject` keeps the length; exactly the projects with the id are merged with the patch, and the others are unchanged in place |
| Store.UpdatedProjects | src/store/useStore.ts:43-45 | the list keeps its length, and every project with another id stays where it was, unchanged |
| Store.UpdatedDiagrams | src/store/useStore.ts:66-68 | the list keeps its length, and every diagram with another id stays where it was, unchanged |
| Store.ProjectsWithout | src/store/useStore.ts:53 | what is left is no longer than before, and every project in it was there before and has another id |
| Store.DiagramsWithout | src/store/useStore.ts:76 | what is left is no longer than before, and every diagram in it was there before and has another id |
| Store.CurrentProjectAfterUpdate | src/store/useStore.ts:46-49 | an update never sets or clears the current project, and one with another id is kept as it was |
| Store.CurrentDiagramAfterUpdate | src/store/useStore.ts:69-72 | an update never sets or clears the current diagram, and one with another id is kept as it was |
| Store.ProjectUpdateOfUnknownId | src/store/useStore.ts:41-45 | updating an id no project has leaves the list unchanged |
| Store.DiagramUpdateOfUnknownId | src/store/useStore.ts:64-68 | updating an id no diagram has leaves the list unchanged |
| Store.ProjectDeleteRemovesExactlyTheId | src/store/useStore.ts:51-53 | after `deleteProject` no project has the id, every other project is kept, and the order is kept |
| Store.DiagramDeleteRemovesExactlyTheId | src/store/useStore.ts:74-76 | the same for `deleteDiagram` |
| Store.DiagramDeleteIdempotent | src/store/useStore.ts:74-76 | deleting the same id twice is the same as deleting it once |
| Store.DeleteAfterAddDiagram | src/store/useStore.ts:62-63 | adding a diagram and then deleting its id gives what the delete alone would give |
| Store.AppStore.constructor | src/store/useStore.ts:33-36 | the store starts with empty lists, nothing current, and not generating |
| Store.AppStore.SetProjects | src/store/useStore.ts:37 | replaces the projects and nothing else |
| Store.AppStore.SetCurrentProject | src/store/useStore.ts:38 | replaces the current project and nothing else |
| Store.AppStore.AddProject | src/store/useStore.ts:39-40 | appends one project at the end; everything else is unchanged |
| Store.AppStore.UpdateProject | src/store/useStore.ts:41-50 | the projects are updated by id, and the current project is merged iff its id matches; diagrams and history are unchanged |
| Store.AppStore.DeleteProject | src/store/useStore.ts:51-55 | removes the projects with the id and clears the current project iff its id matches; diagrams, the current diagram, history and the flag are unchanged |
| Store.AppStore.SetDiagrams | src/store/useStore.ts:60 | replaces the diagrams and nothing else |
| Store.AppStore.SetCurrentDiagram | src/store/useStore.ts:61 | replaces the current diagram and nothing else |
| Store.AppStore.AddDiagram | src/store/useStore.ts:62-63 | appends one diagram at the end; everything else is unchanged |
| Store.AppStore.UpdateDiagram | src/store/useStore.ts:64-73 | the diagrams are updated by id, and the current diagram is merged iff its id matches |
| Store.AppStore.DeleteDiagram | src/store/useStore.ts:74-78 | removes the diagrams with the id and clears the current diagram iff its id matches |
| Store.AppStore.SetHistory | src/store/useStore.ts:82 | replaces the history and nothing else |
| Store.AppStore.AddHistory | src/store/useStore.ts:83-84 | appends one record at the end of the history; everything else is unchanged |
| Store.AppStore.SetIsGenerating | src/store/useStore.ts:88 | sets the flag and nothing else |
| HistoryDrawer.RelativeLabelThresholds | src/components/HistoryDrawer.tsx:218-231 | "just now" iff under a minute (future times included); minutes iff under an hour; hours iff under a day; days iff under a week; the absolute date otherwise. Each count is the number of whole units elapsed (1-59, 1-23, 1-6) |
| HistoryDrawer.RelativeLabel | src/components/HistoryDrawer.tsx:218-231 | the label of an elapsed time; every count shown is at least 1 and below the next unit (minutes below 60, hours below 24, days below 7); `RelativeLabelThresholds` states each branch in terms of the elapsed time |
| HistoryDrawer.FloorBelow | src/components/HistoryDrawer.tsx:222-229 | the floor of `x / d` is below k iff x is below `k * d` |
| HistoryDrawer.SampleLabels | src/components/HistoryDrawer.tsx:218-231 | 30 seconds and -5 seconds are "just now", two hours is `HoursAgo(2)`, and three days is `DaysAgo(3)` |
| HistoryDrawer.PromptTitle | src/components/HistoryDrawer.tsx:326 | an entry shows its prompt when it has a non-empty one, and the manual-save title otherwise |
| HistoryDrawer.Timeline | src/components/HistoryDrawer.tsx:301-359 | one row per version, in the order loaded, each showing that version's code and its title (the prompt, or the manual-save title); the numbering and connectors are stated by `TimelineNumbering` |
| HistoryDrawer.TimelineNumbering | src/components/HistoryDrawer.tsx:311-316 | the numbers run from the number of versions down to 1, strictly decreasing, and only the row numbered 1 has no connector |
| HistoryDrawer.Drawer.constructor | src/components/HistoryDrawer.tsx:173-174 | the drawer starts with no history and is not loading |
| HistoryDrawer.Drawer.LoadHistory | src/components/HistoryDrawer.tsx:183-200 | loading ends false in every case; an answer replaces the history (with `[]` when it has no rows), and a failure leaves it |
| HistoryDrawer.Drawer.OnOpen | src/components/HistoryDrawer.tsx:177-181 | the history is loaded only when the drawer is open for a diagram; otherwise nothing changes |
| HistoryDrawer.Drawer.HandleRestore | src/components/HistoryDrawer.tsx:366-370 | restore passes exactly the entry's code to the editor, then closes the drawer |
| I18n.ToLower | src/i18n.ts:21 | lower-casing keeps the length and lower-cases each character |
| I18n.GetSavedLanguage | src/i18n.ts:16-18 | a non-empty saved value is returned as it is, with no validation |
| I18n.FirstMatchingCode | src/i18n.ts:20-27 | without a saved value, the result is the first of `zh`, `en`, `ja`, `ko` that the browser language starts with (ignoring case), and `zh` when none matches |
| I18n.SavedOrSupported | src/i18n.ts:16-28 | the result is always the saved value or one of the four codes |
| I18n.BrowserLanguageCaseIgnored | src/i18n.ts:21-25 | lower-casing the browser language first does not change the choice |
| I18n.RegionalTagSelectsLanguage | src/i18n.ts:18-25 | `ZH-TW` selects `zh`; an empty saved value falls through, so `en-GB` selects `en` |
| I18n.LocaleFor | src/pages/ProjectList.tsx:274-278 | each supported language's locale starts with its code; every language other than `zh`, `ja` and `ko` gets `en-US` |
| I18n.LocalesAreDistinct | src/components/HistoryDrawer.tsx:204-206 | the four languages get four different locales |
| I18n.LanguageStore.constructor | src/i18n.ts:30-39 | the language at start-up is the one `getSavedLanguage` chooses from what is stored |
| I18n.LanguageStore.ChangeLanguage | src/i18n.ts:42-44 | after a change, the stored value is the new language, so the next start-up picks it whatever the browser says (when it is non-empty) |
| MarkdownEditor.InsertTemplate | src/pages/MarkdownEditorPage.tsx:19-25 | the previous text is a prefix of the result, which ends with the template and a newline; an empty editor gets just the template and a newline, and any other text (blank included) gets a blank line first |
| MarkdownEditor.InsertionsAccumulate | src/pages/MarkdownEditorPage.tsx:21-24 | a second insertion only appends to what the first produced |
| MarkdownEditor.MarkdownEditorPage.HandleInsertTemplate | src/pages/MarkdownEditorPage.tsx:19-25 | the text becomes the insertion result; the export state is unchanged |
| MarkdownEditor.MarkdownEditorPage.BeginExport | src/pages/MarkdownEditorPage.tsx:27-33 | the export starts iff the preview is present and the text is not blank; a refused export sets the warning toast and leaves `isExporting` |
| MarkdownEditor.MarkdownEditorPage.FinishExport | src/pages/MarkdownEditorPage.tsx:233-245 | a success or error toast (the error message appended), and `isExporting` false in every case |
| Paging.PageRange | src/pages/DiagramList.tsx:102-103 | page n asks for rows 10n to 10n+9 inclusive: ten rows |
| Paging.PagesAreContiguous | src/pages/ProjectList.tsx:47-48 | each page starts right after the previous one ends |
| Paging.PagesAreDisjoint | src/pages/ProjectList.tsx:47-48 | different pages share no row |
| Paging.RowIsOnOnePage | src/pages/DiagramList.tsx:102-103 | a row is on a page iff that page is `row / 10` |
| Paging.Loaded | src/pages/DiagramList.tsx:117-122 | append mode puts the page after the previous list, keeping it; replace mode gives the page alone |
| Paging.HasMore | src/pages/DiagramList.tsx:123 | there is more to load exactly when the page came back full; `ShortPageMeansEverythingShown` proves that a short page means the whole table is shown |
| Paging.ServerPage | src/pages/DiagramList.tsx:105-110 | a page from the server has at most ten rows |
| Paging.ScrolledIsPrefix | src/pages/DiagramList.tsx:48-55 | loading page 0 afresh and appending pages 1..k shows exactly the first 10(k+1) rows of the table, in order |
| Paging.ShortPageMeansEverythingShown | src/pages/DiagramList.tsx:123 | once a page comes back short, the whole table is shown; while pages come back full, there are really that many rows |
| DiagramList.ThumbnailCurve | src/pages/DiagramList.tsx:453-460 | the curve is `linear` iff the layout (`TB` when unset) is `TB` or `BT`, and `basis` otherwise |
| DiagramList.ThumbnailTheme | src/pages/DiagramList.tsx:456 | the thumbnail uses the diagram's theme, or `default` when it is unset |
| DiagramList.EditorRoute | src/pages/DiagramList.tsx:163 | the editor route of a new diagram; `HandleCreateDiagram` navigates there exactly when the diagram was generated and returned |
| DiagramList.DiagramListPage.constructor | src/pages/DiagramList.tsx:16-29 | the page starts on page 0, loading, with more to load and the dialog closed |
| DiagramList.DiagramListPage.LoadProject | src/pages/DiagramList.tsx:82-97 | the project is set from an answer when there is a project id; an error leaves it |
| DiagramList.DiagramListPage.LoadDiagrams | src/pages/DiagramList.tsx:99-125 | asks for the page's range; rows are appended or replace the list, and `hasMore` is true iff the page was full; an error or an empty reply changes neither |
| DiagramList.DiagramListPage.LoadData | src/pages/DiagramList.tsx:38-46 | page 0 afresh with the project, which is kept when its query fails or there is no id; `isLoading` false at the end; the form, the generation flag and the dialog are untouched |
| DiagramList.DiagramListPage.LoadMore | src/pages/DiagramList.tsx:48-56 | nothing while loading more or with nothing more; otherwise the page number goes up by one whatever the reply, and the next page is appended; the project, the form, the flags and the dialog are untouched |
| DiagramList.DiagramListPage.HandleCreateDiagram | src/pages/DiagramList.tsx:127-171 | nothing for a blank prompt or without a project; a failed generation writes nothing and raises the alert; the page navigates iff generation succeeds and the backend returns the new row. It then stores the row under the prompt's first 50 characters, records a history version with the same code, puts the diagram first and clears the form. When generation succeeds but no row comes back, only the diagram insert is written, the alert is raised iff the insert failed, and the list and the form stay. `isGenerating` ends false; the project, paging, loading flags and dialog are untouched |
| DiagramList.DiagramListPage.RecordGenerated | src/pages/DiagramList.tsx:134-164 | the row is inserted under the first 50 characters of the prompt; when it is returned, the first version is recorded with the same code, the diagram goes first and the editor opens; an insert error raises the alert and changes nothing; the project, paging, loading flags, generation flag and dialog are untouched |
| DiagramList.DiagramListPage.HandleDeleteDiagram | src/pages/DiagramList.tsx:173-176 | opens the confirmation dialog for that diagram; nothing else changes |
| DiagramList.DiagramListPage.ConfirmDelete | src/pages/DiagramList.tsx:178-195 | nothing without a pending id; on success exactly the diagrams with the id leave the list, in order, and the dialog closes; on error the list and dialog stay and the alert is raised; the project, paging, flags and prompt are untouched |
| ProjectList.ProjectListPage.constructor | src/pages/ProjectList.tsx:18-32 | the page starts empty, loading, on page 0, with more to load and the dialog closed |
| ProjectList.ProjectListPage.LoadProjects | src/pages/ProjectList.tsx:38-75 | nothing without a user; only a fresh load resets the page to 0 and toggles `isLoading`, which ends false; rows are appended or replace the list, and `hasMore` is true iff the page was full; an error leaves both |
| ProjectList.ProjectListPage.LoadMore | src/pages/ProjectList.tsx:77-85 | nothing while loading more or with nothing more; otherwise the page goes up by one and the next page is appended; the fresh-load flag, the form, the dialog, the toast and `isDeleting` are untouched |
| ProjectList.ProjectListPage.HandleCreateProject | src/pages/ProjectList.tsx:88-113 | nothing for a blank name or without a user; otherwise one row is inserted under the name as typed; a returned project goes first and the form is cleared and closed; an error sets the error toast and changes nothing else; an answer with no row changes nothing |
| ProjectList.ProjectListPage.HandleDeleteProject | src/pages/ProjectList.tsx:115-118 | opens the confirmation dialog for that project; nothing else changes |
| ProjectList.ProjectListPage.ConfirmDelete | src/pages/ProjectList.tsx:120-144 | nothing without a pending id; on success the paging restarts at page 0 with more to load, the first page is reloaded (`isLoading` ending false when there is a user) and the dialog closes; on error the error toast is set and the rest stays; `isDeleting` is false afterwards in every case |
| MermaidRenderer.MermaidConfig | src/components/MermaidRenderer.tsx:43-132 | ELK gets padding 30, node spacing 60, rank spacing 80, diagram padding 20, the ELK renderer and the ELK block; every other layout gets 40/80/100/30 with neither; the custom palette is included iff the theme is `base` |
| MermaidRenderer.NonElkLayoutsAgree | src/components/MermaidRenderer.tsx:48-77 | all layouts other than `elk` give the same configuration |
| MermaidRenderer.RenderId | src/components/MermaidRenderer.tsx:158 | the render id starts with `mermaid-` |
| MermaidRenderer.RenderIdInjective | src/components/MermaidRenderer.tsx:157-158 | equal render ids have equal render keys and times: the key and the time can be read back from the id |
| MermaidRenderer.LiveAfterDestroy | src/components/MermaidRenderer.tsx:152-155 | destroying the only live instance leaves none alive |
| MermaidRenderer.LiveAfterAttach | src/components/MermaidRenderer.tsx:170-178 | attaching an instance adds it to the live ones |
| MermaidRenderer.ViewCallsKeepLive | src/components/MermaidRenderer.tsx:211-237 | zoom, reset, centre and fit calls leave the set of live instances unchanged |
| MermaidRenderer.AtMostOneInstance | src/components/MermaidRenderer.tsx:141-155 | in a valid session at most one pan-zoom instance is live, and it is the one held |
| MermaidRenderer.RenderSession.constructor | src/components/MermaidRenderer.tsx:24-41 | the state before the mount effects: render key 0, no instance held, no call made |
| MermaidRenderer.RenderSession.CurrentConfig | src/components/MermaidRenderer.tsx:79-131 | the ELK block is present iff the layout is `elk`, and the palette iff the theme is `base` |
| MermaidRenderer.RenderSession.DropInstance | src/components/MermaidRenderer.tsx:142-145 | the held instance, if any, is destroyed and forgotten, and no instance is left live |
| MermaidRenderer.RenderSession.Render | src/components/MermaidRenderer.tsx:134-189 | without a container or with blank code: the container is emptied, the instance dropped, and nothing rendered. Otherwise the old instance is destroyed first and the id embeds the render key. Success installs the markup and attaches one new instance with the fixed options iff it holds an `svg`. Failure alerts with the error's message and empties the container. The invariant is kept |
| MermaidRenderer.RenderSession.Install | src/components/MermaidRenderer.tsx:159-188 | the part after `mermaid.render`: install and attach, or alert and empty, from a state with no instance held |
| MermaidRenderer.RenderSession.Cleanup | src/components/MermaidRenderer.tsx:196-203 | the effect's cleanup destroys and forgets the held instance |
| MermaidRenderer.RenderSession.BumpKey | src/components/MermaidRenderer.tsx:196-209 | the key-bump effect: the render effect under the old key is cleaned up and the key goes up by exactly one; nothing else changes |
| MermaidRenderer.RenderSession.Mount | src/components/MermaidRenderer.tsx:34-209 | the key-bump effect also runs on mount, cancelling the render scheduled under key 0, so the first diagram is rendered under key 1 |
| MermaidRenderer.RenderSession.SetProps | src/components/MermaidRenderer.tsx:204-209 | a change of code, layout or theme cleans up the old instance and raises the render key by exactly one; the same values change nothing; the container and the instance count stay |
| MermaidRenderer.RenderSession.Perform | src/components/MermaidRenderer.tsx:211-237 | view calls on the held instance are logged and keep the invariant |
| MermaidRenderer.RenderSession.HandleZoomIn | src/components/MermaidRenderer.tsx:212-216 | one zoom-in on the held instance; no other field changes, so without an instance it is a no-op |
| MermaidRenderer.RenderSession.HandleZoomOut | src/components/MermaidRenderer.tsx:218-222 | one zoom-out on the held instance; no other field changes, so without an instance it is a no-op |
| MermaidRenderer.RenderSession.HandleReset | src/components/MermaidRenderer.tsx:224-230 | reset, centre and fit, in that order, on the held instance; no other field changes, so without an instance it is a no-op |
| MermaidRenderer.RenderSession.HandleFit | src/components/MermaidRenderer.tsx:232-237 | fit, then centre, on the held instance; no other field changes, so without an instance it is a no-op |
| MermaidRenderer.RenderSession.ExportMmd | src/components/MermaidRenderer.tsx:311-320 | the file holds the code unchanged, named `mermaid-diagram-<time>.mmd` |
| DiagramEditorPage.LayoutOrDefault | src/pages/DiagramEditorPage.tsx:49 | the stored layout when it is non-empty, `dagre` otherwise; never empty |
| DiagramEditorPage.ThemeOrDefault | src/pages/DiagramEditorPage.tsx:51 | the stored theme when it is non-empty, `default` otherwise; never empty |
| DiagramEditorPage.Opened | src/pages/DiagramEditorPage.tsx:43-51 | the editor opens a diagram with its code and a non-empty layout and theme |
| DiagramEditorPage.Saved | src/pages/DiagramEditorPage.tsx:89-95 | the saved record keeps the diagram's identity, name and creation time, and takes the edited code, layout, theme and time |
| DiagramEditorPage.SaveThenOpen | src/pages/DiagramEditorPage.tsx:43-51 | opening a saved record gives back exactly what was being edited |
| DiagramEditorPage.ExportFileName | src/pages/DiagramEditorPage.tsx:109 | the name ends in `.mmd`; before it comes the diagram's name when non-empty, else `diagram` |
| DiagramEditorPage.EditorPage.constructor | src/pages/DiagramEditorPage.tsx:15-21 | no diagram, empty code, layout `dagre`, theme `default` |
| DiagramEditorPage.EditorPage.LoadDiagram | src/pages/DiagramEditorPage.tsx:29-53 | with an id and a returned row, the diagram is kept and opened with the defaults; otherwise nothing changes |
| DiagramEditorPage.EditorPage.SetLayout | src/pages/DiagramEditorPage.tsx:240 | the layout menu sets only the layout |
| DiagramEditorPage.EditorPage.SetTheme | src/pages/DiagramEditorPage.tsx:241 | the theme menu sets only the theme |
| DiagramEditorPage.EditorPage.HandleSave | src/pages/DiagramEditorPage.tsx:55-102 | nothing without a diagram; the row is updated with the code, layout and theme. On failure: the save alert, no history row, and the record unchanged. Otherwise a manual-save version with the same content is inserted (its failure ignored) and the record takes the saved content. `isSaving` ends false and the editor is unchanged |
| DiagramEditorPage.EditorPage.HandleExport | src/pages/DiagramEditorPage.tsx:104-112 | the file holds the code unchanged and is named after the diagram |
| DiagramEditorPage.EditorPage.HandleAIRefine | src/pages/DiagramEditorPage.tsx:114-158 | nothing without a diagram; a generation failure is passed on with nothing changed. Otherwise the code becomes the generated, well-formed code; the row update and a version with the prompt are written, their errors unchecked; the record takes the new content; layout and theme stay |
| DiagramEditorPage.EditorPage.HandleRestoreHistory | src/pages/DiagramEditorPage.tsx:160-162 | only the code changes; the record, layout and theme stay and nothing is written |
| DiagramEditor.EditorPanel.constructor | src/components/DiagramEditor.tsx:15-18 | empty code, layout `dagre`, theme `default`, not saving |
| DiagramEditor.EditorPanel.SyncFromStore | src/components/DiagramEditor.tsx:20-29 | a current diagram in the store is opened with the defaults; without one nothing changes |
| DiagramEditor.EditorPanel.HandleSave | src/components/DiagramEditor.tsx:31-78 | nothing without a current diagram: no write, and the store's lists and current diagram unchanged. A failed update gives the alert and leaves the store and history untouched. Otherwise the store's diagram takes the saved content before the history insert, so opening it again shows what the panel shows. The new version joins the store's history only when the backend returned it. `isSaving` ends false |
| DiagramEditor.EditorPanel.HandleAIRefine | src/components/DiagramEditor.tsx:90-137 | nothing without a current diagram: no write, and the code and the store's lists and current diagram unchanged. A generation failure is passed on with nothing changed. Otherwise the code becomes the generated code, the update and the version are written, the version joins the store's history only when returned, and then the store's diagram takes the new content |
| DiagramEditor.EditorPanel.HandleRestoreHistory | src/components/DiagramEditor.tsx:139-141 | only the code changes; the store is untouched |
| DiagramEditor.EditorPanel.HandleExport | src/components/DiagramEditor.tsx:80-88 | the file holds the code unchanged, named after the current diagram or `diagram` |
| Text.TrimEmptyIffBlank | src/services/ai.ts:246-247 | `trim()` gives the empty string iff the text is only white space |
| Text.TrimIdempotent | src/services/ai.ts:246-258 | trimming a trimmed text changes nothing |
| Text.JoinSplit | src/services/ai.ts:228-242 | joining the parts of a split with the same separator gives back the text |
| Text.SplitAtFirst | check-config.js:34 | splitting at a separator gives the text before its first occurrence, then the split of the rest |
| Text.Take | src/pages/DiagramList.tsx:138 | `slice(0, n)` is a prefix whose length is the smaller of n and the text's length |
| Text.NatToStringValue | src/components/MermaidRenderer.tsx:158 | the decimal digits of a number read back as that number |
| Text.NatToStringInjective | src/components/MermaidRenderer.tsx:158 | different numbers have different decimal forms |

## Left out

- The network. Supabase queries, the Gemini call and `mermaid.render` are replaced by their outcomes, passed in as parameters. A returned row is not tied to the values that were inserted.
- The text of the system prompt and of the two prompt templates. A `Prompt` records only which template was chosen and what was filled into it.
- The model name and any other settings of the Gemini call.
- Async interleaving. The render queues of the history drawer and the thumbnails, the `mounted` flags, the `setTimeout` delays, and replies arriving after unmount or out of order are not modelled.
- The render effect's work after the `await`, which assumes the container is still mounted.
- An exception thrown by `svgPanZoom` itself.
- PDF, PNG and SVG export. These use canvas, floating-point page maths, base64 and downloads. Only the PDF export's guard, busy flag and final toasts are modelled.
- The history preview renderer inside the drawer.
- The limit of 50 rows in the history query. It is a property of the server's reply, which is a parameter.
- Authentication, routing, and the purely visual components: toasts, dialogs, chat panel, sidebar and Monaco wrappers.
- The `isCreating` form toggle of the two list pages. It is modelled only where create clears it.
- Date parsing and formatting. The elapsed time is a parameter in milliseconds; NaN dates and `toLocaleString` output are not modelled.
- `new Date().toISOString()` is called twice in each save. Both calls are one `now` parameter.
- Strings are sequences of Unicode scalar values, while JavaScript counts UTF-16 code units. So `slice(0, 50)`, `length > 20` and `substring(0, 20)` differ for text outside the Basic Multilingual Plane.
- I18n.ToLower: only the characters that can lower-case to an ASCII letter are folded, which is all the two-letter prefix test can see; the rest of `toLowerCase` is not modelled.
- CheckConfig.ParseEnv: a key such as `__proto__`, which a plain JavaScript object treats specially, is stored like any other key.
- The console messages of the configuration check are reduced to one report line per variable.
- DiagramEditorPage.EditorPage.SetLayout: the menus can only offer the layouts and themes listed in the renderer. The TypeScript types restrict them too, so both setters require a listed value.
- MermaidRenderer.RenderSession.Render: the undeclared `setError`/`error` are read as a reset with no state. As written, the read of `error` at line 325 throws on every render, so no effect would ever run; the model describes the component as intended. The controls shown only when `error` is null are not modelled.

