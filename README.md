# Picture-book generator: client state machines in Dafny

This project models the client-side logic of a browser picture-book
generator. A user logs in with a phone number and a mock verification code.
They pick or type a theme and get a six-page story. They choose illustration
settings, stamp every page with a scene image, and then view and delete the
stories kept in browser storage. The model covers the parts that the
storage, the session and the page handlers share:

- `Storage.LocalStorage` is the browser's `localStorage` with its three keys:
  `token`, `userPhone` and `stories`. Every service and page holds a reference
  to one store object, so a login, a save and a delete all act on the same
  state. An absent `stories` key and an empty list read the same, because the
  code reads the key as `|| '[]'`.
- `StoryService` holds `saveStory`, `getUserStories` and `getStory`.
  `AuthService` holds `sendCode`, `verifyLogin`, `logout`, `isAuthenticated`
  and `getUserInfo`. The reads are functions that read the store. The writes
  are methods whose `ensures` give the whole new store.
- `CreatePage.CreateWizard`, `MyStoriesPage.MyStoriesView`,
  `StoryView.StoryViewer` and `LoginPage.LoginForm` each model one page
  component as a class. The class fields are the component's state, and
  each handler or effect is a method. Each class has a `Valid()` predicate
  that its handlers keep between events. The arithmetic and list transforms the handlers apply are pure
  functions, and lemmas state their properties.
- JavaScript details are written out: truthiness of stored strings
  (`Common.Truthy`), `trim` with the ECMAScript whitespace set
  (`Common.Trim`), `filter` and `find`, the decimal rendering of numbers in
  template strings (`Common.DecimalString`, proved injective), and the phone
  regular expression `^1[3-9]\d{9}$` (`LoginPage.Matches` over a char-class
  pattern, proved equal to a plain predicate).

Time is a parameter. `nowMs` stands for `Date.now()` and `nowIso` for
`new Date().toISOString()`; these are two separate clock reads in the code.
`window.confirm` is a boolean parameter. Each `alert` and `navigate` call is
recorded in a field (`lastAlert`, `navigatedTo`). Each timer callback is one
atomic method: `CreateWizard.FinishGeneration` and `LoginForm.CountdownTick`.

Some behaviour of the code shows up directly in the contracts:

- Deleting on the "my stories" page writes back only the current user's
  remaining stories. As a result, every other user's stories are dropped
  from storage (`MyStoriesPage.DeleteDropsOtherOwners`).
- The page's owner filter compares against the raw stored phone, while
  `getUserStories` first rejects an empty phone. The two agree unless the
  stored phone is the empty string (`MyStoriesPage.LoadedAgreesWithService`).
- The viewer's load effect resets neither the page cursor nor an earlier
  error when the route's id changes. Its `ensures` say when the cursor is on
  a page afterwards.
- `handlePrevPage` and `handleNextPage` in the creation wizard are defined
  but no control calls them. On an empty story, "next" moves the cursor to
  -1.
- The wizard never saves a story; nothing in it calls the story store.

## Model

| member | source | states |
|---|---|---|
| `Common.Filter` | src/services/storyService.ts:51 | the result holds exactly the elements that satisfy the callback, and is no longer than the input |
| `Common.FilterConcat` | src/pages/MyStories.tsx:31 | filtering distributes over concatenation, so kept elements stay in their stored order |
| `Common.DecimalString` | src/services/storyService.ts:26 | the rendering of a number in a template string is non-empty, all digits, with no leading zero |
| `Common.DecimalRoundTrip` | src/services/storyService.ts:26 | parsing the rendered numeral gives back the number |
| `Common.DecimalStringInjective` | src/services/storyService.ts:26 | two numbers render the same exactly when they are equal |
| `Common.TrimStart` | src/pages/Create.tsx:94 | the result is a suffix of the input, everything dropped is whitespace, and it does not start with whitespace |
| `Common.TrimEnd` | src/pages/Create.tsx:94 | the result is a prefix of the input, everything dropped is whitespace, and it does not end with whitespace |
| `Common.TrimEmptyIffBlank` | src/pages/Create.tsx:94 | `theme.trim()` is empty exactly when the theme is all whitespace |
| `Storage.LocalStorage.constructor` | src/services/storyService.ts:32 | a fresh store has no token, no phone and an empty story list |
| `StoryService.StoryId` | src/services/storyService.ts:26 | a story id is `story_` followed by a numeral |
| `StoryService.StoryIdInjective` | src/services/storyService.ts:26 | two saves get the same id exactly when they happen in the same millisecond |
| `StoryService.GetUserStories` | src/services/storyService.ts:44-52 | no stories when no phone is stored or the phone is empty; otherwise exactly the stored stories owned by that phone; reads only |
| `StoryService.FindStory` | src/services/storyService.ts:55-58 | nothing exactly when no stored story has the id; otherwise the story at the first position with that id |
| `StoryService.GetStory` | src/services/storyService.ts:55-58 | null exactly when no stored story has the id; otherwise the stored story at the first position with that id; reads only |
| `StoryService.FindAfterAppend` | src/services/storyService.ts:55-58 | after an append, looking up the new id still finds an earlier story with the same id, if any; otherwise it finds the new story |
| `StoryService.Stamped` | src/services/storyService.ts:24-29 | the saved record takes id, createdAt and userId from the save; every other field comes from the input |
| `StoryService.SaveStory` | src/services/storyService.ts:17-41 | with no phone, or an empty one, it fails and the store is unchanged; otherwise it appends exactly the stamped record and returns it, the session keys stay, the user's list gains that record at the end, and `getStory` on its id follows FindAfterAppend |
| `AuthService.MockToken` | src/services/authService.ts:28 | the token starts with `mock_token_` |
| `AuthService.MockTokenInjective` | src/services/authService.ts:28 | two tokens are equal exactly when phone and login time are equal |
| `AuthService.SendCode` | src/services/authService.ts:11-16 | sending a code changes nothing in storage |
| `AuthService.VerifyLogin` | src/services/authService.ts:19-39 | a code other than `1234` fails and writes nothing; `1234` stores the token `mock_token_<phone>_<now>` and the phone, returns both, keeps the stories, and leaves the user authenticated |
| `AuthService.Logout` | src/services/authService.ts:41-44 | both session keys are absent afterwards and the stories stay, whatever the state before, so a second logout changes nothing; not authenticated afterwards |
| `AuthService.IsAuthenticated` | src/services/authService.ts:46-48 | true exactly when a non-empty token is stored |
| `AuthService.GetUserInfo` | src/services/authService.ts:50-54 | the stored phone, or null when none is stored; reads only |
| `CreatePage.NoTransitionIntoTheme` | src/pages/Create.tsx:145 | no step transition leads back to the theme step |
| `CreatePage.NextThemeIndex` | src/pages/Create.tsx:214-216 | the next carousel index is always in `[0, 5)`: one more, or 0 after the last theme |
| `CreatePage.PrevThemeIndex` | src/pages/Create.tsx:218-222 | for an index in range, the previous index is `(i + 4) mod 5`, wrapping 0 to 4 |
| `CreatePage.ThemeStepsInverse` | src/pages/Create.tsx:214-222 | next then previous, and previous then next, return to the same index |
| `CreatePage.NextThemeTimesWraps` | src/pages/Create.tsx:214-216 | `k` steps forward from an index in range reach `(i + k) mod 5` |
| `CreatePage.PrevPageIndex` | src/pages/Create.tsx:178-180 | `max(0, p - 1)` |
| `CreatePage.NextPageIndex` | src/pages/Create.tsx:182-184 | `min(len - 1, p + 1)` |
| `CreatePage.PageCursorStaysInRange` | src/pages/Create.tsx:178-184 | on a non-empty story, both moves keep a cursor that is in range in range |
| `CreatePage.NextPageOnEmptyStory` | src/pages/Create.tsx:182-184 | on an empty story, "next" moves the cursor to -1 |
| `CreatePage.SceneUrl` | src/pages/Create.tsx:161-164 | the image path is longer than its fixed prefix and suffix |
| `CreatePage.SceneUrlInjective` | src/pages/Create.tsx:161-164 | different pages get different scene images |
| `CreatePage.WithIllustrations` | src/pages/Create.tsx:166-171 | same length; every page keeps its texts, page `i` gets `/picbook/scene_{i+1}.png`, and all pages get the one settings snapshot |
| `CreatePage.RegenerationOverwrites` | src/pages/Create.tsx:166-173 | a second illustration pass replaces the images and snapshot of the first pass |
| `CreatePage.CreateWizard.constructor` | src/pages/Create.tsx:18-30 | the initial state: theme step, empty story, cursor 0, carousel 0, default settings `model1` and `16:9` |
| `CreatePage.CreateWizard.GenerateEnabled` | src/pages/Create.tsx:350 | the start button is enabled exactly when the theme is not blank and no generation runs |
| `CreatePage.CreateWizard.EnterTheme` | src/pages/Create.tsx:274 | typing sets the theme and nothing else |
| `CreatePage.CreateWizard.SelectSuggestedTheme` | src/pages/Create.tsx:309 | clicking the card copies the current recommended title into the theme |
| `CreatePage.CreateWizard.ClearTheme` | src/pages/Create.tsx:370 | the clear button empties the theme |
| `CreatePage.CreateWizard.HandleNextTheme` | src/pages/Create.tsx:214-216 | the carousel index becomes NextThemeIndex of the old one and stays in range |
| `CreatePage.CreateWizard.HandlePrevTheme` | src/pages/Create.tsx:218-222 | the carousel index becomes PrevThemeIndex of the old one and stays in range |
| `CreatePage.CreateWizard.SelectThemeDot` | src/pages/Create.tsx:333 | clicking a dot selects that index |
| `CreatePage.CreateWizard.HandleGenerate` | src/pages/Create.tsx:93-95 | on a blank theme nothing changes; otherwise generation starts; no other field changes |
| `CreatePage.CreateWizard.FinishGeneration` | src/pages/Create.tsx:97-146 | the timer callback sets the six-page story, clears the flag and moves from the theme step to the story step |
| `CreatePage.CreateWizard.OpenIllustrationSettings` | src/pages/Create.tsx:384 | the story step moves to the settings step |
| `CreatePage.CreateWizard.BackToStory` | src/pages/Create.tsx:505 | the settings step moves back to the story step |
| `CreatePage.CreateWizard.HandleUpdateIllustrationSettings` | src/pages/Create.tsx:149-154 | the key gets the value; every other key keeps its value and no other key appears |
| `CreatePage.CreateWizard.HandleGenerateIllustrations` | src/pages/Create.tsx:156-176 | the pages become WithIllustrations of the old pages with the current settings; cursor 0, loading flag false, settings step to illustration step |
| `CreatePage.CreateWizard.HandlePrevPage` | src/pages/Create.tsx:178-180 | the cursor becomes PrevPageIndex of the old cursor |
| `CreatePage.CreateWizard.HandleNextPage` | src/pages/Create.tsx:182-184 | the cursor becomes NextPageIndex of the old cursor and the story length |
| `CreatePage.CreateWizard.SelectPreviewPage` | src/pages/Create.tsx:566 | clicking a preview thumbnail moves the cursor to that page |
| `MyStoriesPage.LoadedStories` | src/pages/MyStories.tsx:20-22 | exactly the stored stories whose owner equals the stored phone; none when no phone is stored |
| `MyStoriesPage.LoadedAgreesWithService` | src/pages/MyStories.tsx:20-22 | unless the stored phone is the empty string, the page's list equals `getUserStories`; with no phone both are empty |
| `MyStoriesPage.AfterDelete` | src/pages/MyStories.tsx:31 | exactly the shown stories whose id differs from the deleted id |
| `MyStoriesPage.DeleteAbsentIdKeepsList` | src/pages/MyStories.tsx:31 | a delete leaves the list unchanged exactly when no shown story has the id |
| `MyStoriesPage.DeleteDropsOtherOwners` | src/pages/MyStories.tsx:21-33 | what a delete writes back is exactly the user's stories except the deleted id, so no other owner's story is kept |
| `MyStoriesPage.DeleteKeepsOrder` | src/pages/MyStories.tsx:31 | deleting commutes with concatenation, so the remaining stories keep their order |
| `MyStoriesPage.CoverUrl` | src/pages/MyStories.tsx:82 | the first page's non-empty image, otherwise `/default-book-cover.png`; never empty |
| `MyStoriesPage.DisplayTitle` | src/pages/MyStories.tsx:88 | the title, or the placeholder when the title is empty; never empty |
| `MyStoriesPage.ZeroPagesIffViewerRefuses` | src/pages/MyStories.tsx:90 | a card shows 0 pages exactly when the viewer refuses the story as having no pages; a card with pages opens that story |
| `MyStoriesPage.MyStoriesView.constructor` | src/pages/MyStories.tsx:9-10 | no story shown, loading; nothing is listed while loading |
| `MyStoriesPage.MyStoriesView.Load` | src/pages/MyStories.tsx:12-26 | not authenticated: redirect to `/login` and load nothing; otherwise show LoadedStories and stop loading |
| `MyStoriesPage.MyStoriesView.HandleDeleteStory` | src/pages/MyStories.tsx:28-35 | callable only once loading has finished; not confirmed: nothing changes; confirmed: the shown list becomes AfterDelete of it, the `stories` key is overwritten with the same list, and the session keys stay |
| `StoryView.Classify` | src/pages/Story.tsx:16-25 | "not found" exactly when the lookup gives null; "no pages" exactly when the story's pages are missing or empty; otherwise the story is shown |
| `StoryView.NextViewerPage` | src/pages/Story.tsx:60-64 | one page on when the cursor is before the last page; otherwise unchanged |
| `StoryView.PrevViewerPage` | src/pages/Story.tsx:66-70 | one page back when the cursor is after the first page; otherwise unchanged |
| `StoryView.ViewerCursorStaysInRange` | src/pages/Story.tsx:60-70 | both moves keep a cursor in `[0, len)` in `[0, len)` |
| `StoryView.ViewerNextThenPrev` | src/pages/Story.tsx:60-70 | before the last page, next then previous returns to the same page |
| `StoryView.NextViewerTimesStops` | src/pages/Story.tsx:60-64 | repeated "next" from the first page reaches the last page and stays there |
| `StoryView.StoryViewer.constructor` | src/pages/Story.tsx:9-11 | no story, cursor 0, no error |
| `StoryView.StoryViewer.Load` | src/pages/Story.tsx:13-31 | no id: nothing changes; otherwise the Classify outcome of `getStory(id)` either sets the error and leaves the story unset, or sets the story; the cursor is untouched, so it is on a page exactly when the old cursor fits the loaded story |
| `StoryView.StoryViewer.GoToNextPage` | src/pages/Story.tsx:60-64 | the cursor becomes NextViewerPage of the old one; a cursor on a page stays on a page |
| `StoryView.StoryViewer.GoToPreviousPage` | src/pages/Story.tsx:66-70 | the cursor becomes PrevViewerPage of the old one; a cursor on a page stays on a page |
| `StoryView.StoryViewer.SelectPage` | src/pages/Story.tsx:144 | clicking a thumbnail puts the cursor on that page |
| `LoginPage.MatchesPositionwise` | src/pages/Login.tsx:14 | an anchored char-class pattern matches exactly the strings of its length whose every character fits its class |
| `LoginPage.PhonePatternIsValidPhone` | src/pages/Login.tsx:14 | the regular expression accepts exactly 11 characters: `1`, then `3`-`9`, then nine digits |
| `LoginPage.Tick` | src/pages/Login.tsx:26-34 | a tick never goes below 0, gives 0 exactly when the old value is at most 1, and otherwise subtracts one |
| `LoginPage.TicksCountDown` | src/pages/Login.tsx:26-34 | after `n` ticks from `p` the countdown is `max(0, p - n)` |
| `LoginPage.CountdownReachesZero` | src/pages/Login.tsx:25-34 | from 60 the countdown stays positive for 59 ticks and is 0 from the 60th on |
| `LoginPage.LoginForm.constructor` | src/pages/Login.tsx:6-9 | empty inputs, countdown 0, not loading, no timer |
| `LoginPage.LoginForm.SendDisabled` | src/pages/Login.tsx:99 | when not loading, the send button is disabled exactly while the countdown is positive; between events, exactly while the countdown interval runs |
| `LoginPage.LoginForm.EnterPhone` | src/pages/Login.tsx:77 | typing sets the phone input |
| `LoginPage.LoginForm.EnterCode` | src/pages/Login.tsx:94 | typing sets the code input |
| `LoginPage.LoginForm.HandleSendCode` | src/pages/Login.tsx:12-40 | an invalid phone raises the alert and leaves countdown and timer as they were; a valid phone starts the countdown at 60 and disables the send button; storage never changes |
| `LoginPage.LoginForm.CountdownTick` | src/pages/Login.tsx:26-34 | the countdown becomes Tick of the old one and strictly decreases; the timer runs exactly while it is positive |
| `LoginPage.LoginForm.HandleSubmit` | src/pages/Login.tsx:42-56 | a wrong code alerts and writes nothing; `1234` stores token and phone and navigates to `/`; loading is false afterwards either way |

## Left out

- `src/services/recraftService.ts`: HTTP calls to the image and text providers, auth headers, random mock selection and object URLs. It is a thin network wrapper with no logic of its own to model.
- `src/pages/Home.tsx`, `src/components/Navigation.tsx`, `src/App.tsx` and `vite.config.ts`: static markup, routing and build configuration.
- All rendering and class-name computation in every page. So are the Create wizard's model and aspect-ratio option lists, which only feed buttons that call `handleUpdateIllustrationSettings`.
- Timers: the 1-second delays in `sendCode` and `verifyLogin` are dropped. The story-generation timeout and each countdown interval firing are one atomic method each. Concurrently pending callbacks are not modelled.
- JSON encoding of storage: the store holds typed values. `JSON.parse` can never fail here, so the viewer's `catch` branch ("error while loading") and the login form's "send failed" alert are unreachable and not modelled. `sendCode` never rejects.
- `console.log` in `sendCode` and `console.error` in the viewer are not modelled.
- `handleEditStory` and `handleViewStory` on the list page, and the viewer's back button, only navigate. They are not modelled.
- The canned story texts: the six pages keep their titles, but their long narrative and prompt texts are short placeholders.
- `CreatePage.CreateWizard.HandleGenerate`: it requires the theme step and no running generation. Its only button is rendered in the theme step and is disabled while generating. Called from elsewhere, the code would start a second timer; that case is not modelled.
- Handlers that are rendered only in one step or state require it: `OpenIllustrationSettings`, `BackToStory`, `HandleGenerateIllustrations` and `SelectPreviewPage` on the wizard; the viewer's page moves require a loaded story. The theme, carousel and settings handlers carry no step requirement.
- `LoginPage.LoginForm.HandleSendCode`: it requires the send button to be enabled. While the countdown runs, the button cannot be clicked, so a second interval is not modelled.
- `LoginPage.LoginForm.HandleSubmit`: it requires both inputs to be non-empty. The inputs carry the HTML `required` attribute, so the browser does not submit the form otherwise.
- The `loading` flag of the login form and the `isGeneratingImages` flag of the wizard: in the application, the login form's `loading` stays true while the awaited 1-second `sendCode` and `verifyLogin` delays run, and that is when the send button's `loading` half and the submit button's `disabled={loading}` apply. The model drops those delays, so each flag is set and cleared within one handler and is false between events. The model therefore never exercises the `loading` half of the button rules.
- `MyStoriesPage.MyStoriesView.HandleDeleteStory`: it requires loading to have finished, because the delete buttons are rendered only after the list has loaded.
