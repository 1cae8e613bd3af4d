# StoryIsland, modelled in Dafny

StoryIsland is a browser app in which a child picks an age group, a theme and a
hero. A generative-AI backend then writes the opening of an illustrated story
that ends at a decision point. Each choice continues the story; the story can be
read aloud and saved to a personal library of storybooks.

This project models the app's own logic, with the backend, the speech platform
and the browser's key-value store as inputs and outputs. That logic is:

- the session controller (screens, redirects, the saved-collection upsert, the
  read-only rule);
- the creation wizard (theme and hero steps, the generation guard and outcome,
  the loading-message rotation);
- the story viewer (continuation, save, the choices panel, paragraph display);
- the narration hook (the speaking state and voice selection);
- the generation client (prompt assembly, reply validation, error mapping, image
  fallback);
- the configuration tables.

Modules, one per source file, plus two helpers:

| module | file | models |
|---|---|---|
| `Results` | results.dfy | `Option` and `Result` |
| `Js` | js.dfy | the JavaScript built-ins the rules use: `split`, `trim`, `includes`, `startsWith`, `indexOf`, template literals |
| `Types` | types.dfy | types.ts |
| `Constants` | constants.dfy | constants.ts |
| `GeminiService` | gemini_service.dfy | services/geminiService.ts |
| `SpeechSynthesis` | speech_synthesis.dfy | hooks/useSpeechSynthesis.ts |
| `StoryCreator` | story_creator.dfy | components/StoryCreator.tsx |
| `StoryViewer` | story_viewer.dfy | components/StoryViewer.tsx |
| `App` | app.dfy | App.tsx |

How the model is built:

- **Backend replies are parameters.**
  - A text reply is a transport failure, an unparseable reply, or a parsed
    record whose fields may be missing.
  - An image reply is a failure, or a response whose image list may be missing
    or empty. Each entry's `image` may be missing, and so may that image's
    `imageBytes`.
  - Each component records the requests it sends, in order. This shows that
    the text request precedes the image request.
- **Async handlers are split in two.** `handleGenerateStory` becomes
  `StartGeneration` (up to the text request) and `FinishGeneration` (once the
  replies are in). `handleChoice` becomes `StartContinuation` and
  `FinishContinuation`. This makes the in-between state (`isLoading`,
  `isContinuing`) observable. `HandleGenerateStory` and `HandleChoice` run the
  two halves in sequence.
- **Components with state are classes.** `App.AppState`,
  `StoryCreator.Creator`, `StoryViewer.Viewer` and `SpeechSynthesis.Narrator`
  hold the source's state variables as fields.
- **The key-value store is a field.** `AppState.store` is a
  `map<string, Stored>`. `AppState.Valid()` says the in-memory age group and
  storybooks are the persisted ones.
- **Preconditions reflect the UI.**
  - `FinishGeneration` requires the wizard to be loading, and `FinishContinuation`
    requires a continuation to be running: each finishes what its first half
    started.
  - `HandleGenerateStory` requires the wizard not to be loading. While loading,
    the wizard is replaced by the loading screen (components/StoryCreator.tsx,
    lines 73-80), and its button is disabled (line 139).

## Model

| member | source | states |
|---|---|---|
| `Types.AgeGroupKeyInjective` | types.ts:2 | the four age-group strings are pairwise different, so an age group is recovered from its string |
| `Types.ThemeKeyInjective` | types.ts:4 | the four theme strings are pairwise different |
| `Constants.AgeGroupKeysExact` | constants.ts:19-48 | the age-group record has exactly one entry for each of the four age groups, and the keys are `3-5`, `5-7`, `7-9`, `9-12` |
| `Constants.ThemesCoverTheme` | constants.ts:4-9 | the theme table offers every theme, and no theme twice |
| `Constants.CharacterDescriptionsDistinct` | constants.ts:11-17 | no two preset heroes share a description |
| `Constants.LoadingMessagesDistinct` | constants.ts:50-57 | there are six loading messages and they are pairwise distinct |
| `Constants.SplitColorClass` | constants.ts:25 | a class `bg-<name>-400` with a dash-free name splits on `-` into `bg`, the name and `400` |
| `Constants.ColorShape` | constants.ts:25-46 | every age group's colour splits on `-` into three pieces, the second being its colour name: green, yellow, orange or blue |
| `Js.IndexOf` | components/StoryCreator.tsx:29 | `indexOf` gives -1 exactly when the value is absent, and otherwise the first position holding it |
| `Js.TrimEmpty` | components/StoryViewer.tsx:93 | a line's `trim()` is empty exactly when every character is whitespace |
| `GeminiService.StoryPromptMentions` | services/geminiService.ts:60-72 | the opening instruction contains the hero, the age group, the theme, the age group's language guidance and the no-scary-content rule |
| `GeminiService.ContinuePromptMentions` | services/geminiService.ts:101-117 | the continuation instruction contains the whole story so far, the chosen path, the age group and its language guidance |
| `GeminiService.ImagePromptShape` | services/geminiService.ts:145 | the image prompt starts with the caller's prompt, contains the age group's illustration style and ends with the child-safety suffix |
| `GeminiService.CheckOpening` | services/geminiService.ts:84-95 | a reply is accepted exactly when it parsed and title, content, illustration prompt and choices are all truthy; the accepted fields are the reply's; every failure is the one generic generation error |
| `GeminiService.CheckPart` | services/geminiService.ts:129-140 | the same for a continuation, without the title, with the generic continuation error |
| `GeminiService.PartCheckIsOpeningCheckWithoutTitle` | services/geminiService.ts:87-91 | an opening is accepted exactly when the continuation check accepts and the title is truthy, with the same content, prompt and choices |
| `GeminiService.AcceptedOpeningShape` | services/geminiService.ts:87-91 | accepted strings are never empty, while an empty list of choices is accepted |
| `GeminiService.GenerateImage` | services/geminiService.ts:143-145 | the image request carries the decorated prompt |
| `GeminiService.PlaceholderNamesColor` | services/geminiService.ts:163 | the placeholder is the URL built from `color.split('-')[1]`, and that piece is one of the four colour names, never `undefined` |
| `GeminiService.ImageOutcome` | services/geminiService.ts:158-169 | the image operation never fails; it returns a data URI exactly when the first entry has an `image`, carrying its bytes, or `undefined` when `imageBytes` is missing; it returns the same placeholder on a failure, an empty or missing list, and a first entry without `image` (the property read throws and the catch answers) |
| `SpeechSynthesis.FindIndex` | hooks/useSpeechSynthesis.ts:37 | `find` stops at the first voice that passes the test, and finds nothing exactly when no voice passes |
| `SpeechSynthesis.FindNamed` | hooks/useSpeechSynthesis.ts:37 | searching by name finds a voice exactly when some voice has the name, and then a voice with that name |
| `SpeechSynthesis.FindSpec` | hooks/useSpeechSynthesis.ts:42-44 | a search finds nothing exactly when no voice passes, and otherwise a voice from the list that passes |
| `SpeechSynthesis.FirstPreferredSpec` | hooks/useSpeechSynthesis.ts:30-39 | the preferred-name search finds nothing exactly when no name is present, and otherwise a voice named by the earliest present name |
| `SpeechSynthesis.ChooseVoiceSpec` | hooks/useSpeechSynthesis.ts:30-46 | the chosen voice is from the list; a present preferred name wins, the earliest first; otherwise the voice is English, and female whenever an English female voice exists; without a preferred name the tiers apply in order (first English female voice, else first `en-US` voice, else first English voice, else none); there is no voice exactly when no preferred name is present and no language starts with `en` |
| `SpeechSynthesis.SelectVoice` | hooks/useSpeechSynthesis.ts:35-46 | the selection loop with its early exit and the fallback chain compute the voice `ChooseVoiceSpec` describes |
| `SpeechSynthesis.Narrator.constructor` | hooks/useSpeechSynthesis.ts:5-14 | the hook starts idle, with the platform's current voices and no platform calls |
| `SpeechSynthesis.Narrator.VoicesChanged` | hooks/useSpeechSynthesis.ts:9-11 | a voice-list change replaces the voices and nothing else |
| `SpeechSynthesis.Narrator.Speak` | hooks/useSpeechSynthesis.ts:22-58 | speaking cancels the platform first exactly when already speaking, then hands over the text with the chosen voice; the speaking flag waits for the start event |
| `SpeechSynthesis.Narrator.Cancel` | hooks/useSpeechSynthesis.ts:60-63 | cancelling always cancels the platform and leaves the hook idle |
| `SpeechSynthesis.Narrator.OnStart` | hooks/useSpeechSynthesis.ts:53 | the start event sets the speaking flag |
| `SpeechSynthesis.Narrator.OnEnd` | hooks/useSpeechSynthesis.ts:54 | the end event clears it |
| `SpeechSynthesis.Narrator.OnError` | hooks/useSpeechSynthesis.ts:55 | the error event clears it |
| `StoryCreator.CharacterPromptIsTheFilledField` | components/StoryCreator.tsx:58 | with one hero field filled, the prompt's hero is that field and is not empty |
| `StoryCreator.AtMostOnePresetHighlighted` | components/StoryCreator.tsx:114 | at most one preset button shows as selected |
| `StoryCreator.Generated` | components/StoryCreator.tsx:61-70 | a generation succeeds exactly when the opening is accepted; the story carries the given id, the returned non-empty title and content, the returned choices and the generated picture; a failure shows the fizzle message |
| `StoryCreator.NextMessage` | components/StoryCreator.tsx:28-32 | the next loading message is always one of the list |
| `StoryCreator.NextMessageAt` | components/StoryCreator.tsx:29-31 | in a list without repeats the rotation moves from each position to the next, wrapping round |
| `StoryCreator.RotationFollowsPosition` | components/StoryCreator.tsx:27-33 | from the first message, each tick moves one position on |
| `StoryCreator.PositionIsRemainder` | components/StoryCreator.tsx:30 | stepping `(i + 1) % n` from 0 for `k` ticks reaches `k mod n` |
| `StoryCreator.RotationCycles` | components/StoryCreator.tsx:27-33 | in a list without repeats, tick `k` shows entry `k mod n`: every message in turn, back to the first after `n` ticks |
| `StoryCreator.LoadingMessagesCycle` | components/StoryCreator.tsx:22-33 | the loading screen shows message `k mod 6` at tick `k` |
| `StoryCreator.Creator.constructor` | components/StoryCreator.tsx:16-22 | the wizard starts at the theme step with nothing selected, not loading, no error, the first loading message |
| `StoryCreator.Creator.HandleThemeSelect` | components/StoryCreator.tsx:38-41 | choosing a theme records it and moves to the hero step, keeping the hero fields |
| `StoryCreator.Creator.Back` | components/StoryCreator.tsx:134 | Back returns to the theme step and keeps every selection |
| `StoryCreator.Creator.HandleCharacterSelect` | components/StoryCreator.tsx:43-46 | choosing a preset sets it and clears the typed hero, so at most one is filled |
| `StoryCreator.Creator.HandleCustomCharacterChange` | components/StoryCreator.tsx:48-51 | typing a hero sets it and clears the preset, so at most one is filled |
| `StoryCreator.Creator.StartGeneration` | components/StoryCreator.tsx:53-58 | without a theme and a hero nothing changes; otherwise loading starts, the error clears, and the opening request names the theme and the chosen hero |
| `StoryCreator.Creator.FinishGeneration` | components/StoryCreator.tsx:60-70 | the outcome is `Generated` for the age group the handler started with: on an accepted opening the image request goes out and exactly that story is handed up; otherwise nothing is handed up and the error is set; loading ends either way and the selections are kept |
| `StoryCreator.Creator.HandleGenerateStory` | components/StoryCreator.tsx:53-71 | the whole generation: refused without theme and hero, text request before image request, one story or one error, and not loading afterwards; the step, theme, hero fields and loading message are kept, so a failed generation can be retried |
| `StoryCreator.Creator.AgeGroupChanged` | components/StoryCreator.tsx:14 | a new age group passed down while the wizard stays on screen (the settings dialog's age choice, App.tsx lines 29-34 and 76) replaces the age group and keeps the step, selections, loading state, message and error |
| `StoryCreator.Creator.Tick` | components/StoryCreator.tsx:27-33 | one timer tick moves the loading message to the next one and changes nothing else |
| `StoryViewer.NonBlank` | components/StoryViewer.tsx:92-94 | the kept lines are not blank and no more than the input |
| `StoryViewer.NonBlankAppend` | components/StoryViewer.tsx:92-94 | filtering lines distributes over concatenation, so their order is kept |
| `StoryViewer.ParagraphsAreNonBlankLines` | components/StoryViewer.tsx:92-94 | a line is kept exactly when it is one of the lines and its `trim()` is not empty |
| `StoryViewer.ParagraphsSpec` | components/StoryViewer.tsx:92-94 | a paragraph shows exactly when it is a line of the content whose `trim()` is not empty, and no paragraph holds a line break |
| `StoryViewer.ParagraphsAppend` | components/StoryViewer.tsx:60 | joining a part with a blank line shows the old paragraphs followed by the new ones |
| `StoryViewer.AppendPart` | components/StoryViewer.tsx:58-63 | a continuation keeps the id and title, extends the old content (old paragraphs then new ones), and replaces the picture and choices |
| `StoryViewer.ChoicesPanelShown` | components/StoryViewer.tsx:100 | the choice buttons show exactly when the story is not read-only, no continuation is running, and there is at least one choice to show |
| `StoryViewer.ForSavingSpec` | components/StoryViewer.tsx:130 | the saved copy equals the story except that it has no choices; saving it again changes nothing; it never shows the choice buttons |
| `StoryViewer.Viewer.constructor` | components/StoryViewer.tsx:26-28 | the viewer starts on the given story, not continuing, with no error |
| `StoryViewer.Viewer.HandleToggleSpeech` | components/StoryViewer.tsx:42-48 | when speaking, narration is cancelled; otherwise the current content is handed to the narrator |
| `StoryViewer.Viewer.StartContinuation` | components/StoryViewer.tsx:50-55 | a choice marks the continuation as running, clears the error, cancels narration before the request, and asks with the story so far and the path |
| `StoryViewer.Viewer.FinishContinuation` | components/StoryViewer.tsx:55-69 | an accepted part is appended with its new picture; otherwise the story is untouched and the crystal-ball message shows; the continuation ends either way |
| `StoryViewer.Viewer.HandleChoice` | components/StoryViewer.tsx:50-70 | the whole continuation, text request before image request, ending with no continuation running; the narration is cancelled once and its voice list is untouched |
| `StoryViewer.Viewer.Save` | components/StoryViewer.tsx:130 | the save payload is the current story with its choices emptied and every other field kept |
| `App.StoreRoundTrip` | App.tsx:22-31 | a value saved under one key reads back, and the other key is untouched |
| `App.WithoutId` | App.tsx:56 | the filter keeps exactly the entries with another id |
| `App.CountIdPositive` | App.tsx:87 | the `some` test holds exactly when the id occurs |
| `App.WithoutIdAppend` | App.tsx:56 | the filter keeps the relative order of the entries |
| `App.WithoutIdCounts` | App.tsx:56 | the filter removes every entry with the id and keeps every other id's count |
| `App.WithoutIdIdempotent` | App.tsx:56 | filtering twice by an id is filtering once |
| `App.WithoutIdKeepsDistinct` | App.tsx:56 | filtering keeps ids distinct |
| `App.UpsertSpec` | App.tsx:56 | after saving a story it is first; exactly one entry has its id; other ids keep their counts; the entries are the story and the old entries with other ids; an id is saved exactly when it is the story's or was saved before |
| `App.UpsertKeepsDistinct` | App.tsx:56 | saving keeps ids pairwise distinct |
| `App.UpsertOverwrites` | App.tsx:56 | saving a second story with the same id replaces the first, and saving twice equals saving once |
| `App.Route` | App.tsx:67-94 | the view changes exactly when the creator lacks an age group or the viewer lacks a story or an age group, and then nothing is shown and the view goes back to age selection; otherwise each view shows its screen; the viewer is read-only exactly when a saved story has the viewed id |
| `App.RedirectSettles` | App.tsx:72-81 | after a redirect the next render shows a screen and changes the view no more |
| `App.SavedStoryIsReadOnly` | App.tsx:55-87 | once a story is saved, viewing it is read-only and its choice buttons are hidden |
| `App.AppState.constructor` | App.tsx:15-27 | start-up reads the storybooks; a persisted age group is restored and moves to the creator, and otherwise the app stays at age selection |
| `App.AppState.HandleAgeSelect` | App.tsx:29-34 | choosing an age group (also from the settings dialog, line 113) records and persists it, moves to the creator and closes the dialog |
| `App.AppState.HandleStoryGenerated` | App.tsx:36-39 | a generated story goes on screen in the viewer |
| `App.AppState.HandleReset` | App.tsx:41-44 | New Story clears the story and goes to the creator |
| `App.AppState.HandleResetAll` | App.tsx:46-53 | the logo clears the story and goes to the creator when an age group is persisted, else to age selection |
| `App.AppState.HandleSaveStory` | App.tsx:55-58 | the collection becomes the upsert of the old one and that whole collection is persisted; nothing else changes |
| `App.AppState.ViewStorybook` | App.tsx:62-65 | opening a saved story puts it on screen in the viewer |
| `App.AppState.OpenSettings` | App.tsx:100 | the settings button opens the dialog and changes nothing else |
| `App.AppState.CloseSettings` | App.tsx:111 | closing the dialog changes nothing else |
| `App.AppState.OpenMyStorybooks` | App.tsx:101 | the library button moves to the library and changes nothing else |
| `App.AppState.Render` | App.tsx:67-94 | one render shows the screen `Route` gives and leaves the view `Route` gives |

## Left out

- The generative-AI backend calls, and the `JSON.parse` of their text, are not modelled. Their outcomes are parameters. A parsed field of the wrong JSON type (a number for a title, say) is not represented: a field is a string or list, or missing.
- The module-load check for the API key is not modelled: it is environment set-up.
- utils/storage.ts is not part of this model. The store is a map in which writes always succeed. A stored value of the wrong shape reads as absent. Read and write failures, which the wrapper reports to the console and swallows, are left out.
- The platform speech synthesis, the `voiceschanged` listener and its removal, and the cancel on unmount are left out. The hook's calls on the platform are recorded instead, and the platform's events are methods.
- Pitch, rate and volume (the sliders, `parseFloat`, `toFixed` and the age groups' voice settings) are floating point and are left out.
- `SpeechSynthesis.Narrator.Speak` does not carry pitch and rate in the recorded utterance, because they are floating point.
- `StoryViewer.Viewer.HandleToggleSpeech` does not pass pitch and rate to the narrator, for the same reason.
- Timers and async scheduling are left out. The loading-message interval is modelled as `Tick` steps that run only while loading, and its clean-up is left out. Async handlers are modelled as their two halves, and interleavings are left out.
- Effects and unmounting are left out: the viewer's reset of its story when the story passed in changes, and its cancel of narration on unmount or story change.
- The `Date.now()` story id is a parameter.
- `alert` and `console.error` are output only and are left out.
- The presentation components (header, settings dialog, age selector, library list, spinner), markup and styling are left out.
- The choices panel's test that `choices` is truthy is left out: in this model a story always has a list of choices.
