# AI Thumbnail Generator: generation lifecycle

This project models the one piece of logic in the thumbnail page `App.tsx`: the
lifecycle of a generation run and the rules that decide what the page shows.

The component keeps three state cells: `generatedImage` (`string | null`), `isLoading`
and `error` (`string | null`). Clicking "Generate Thumbnail" runs `handleGenerate`,
which takes four steps:

- Begin: it sets loading and clears the error and the image.
- Succeed: it awaits the remote image service and stores `data:image/jpeg;base64,` + payload.
- Fail: it stores the thrown `Error`'s message, or `An unknown error occurred.` for any other thrown value.
- Settle: its `finally` block clears loading.

The page then shows one panel, chosen in priority order:

- loading, if the run is still in progress;
- otherwise a truthy error;
- otherwise a truthy image;
- otherwise the placeholder.

The generate button is disabled while loading. A link that downloads the image as
`ai-thumbnail.jpg` is present when there is a truthy image and loading is over.

Layout:

- `wrappers.dfy`: module `Wrappers`, the `Option` type. `None` stands for `null`.
- `app_state.dfy`: module `AppState`. It holds the cells (`UiState`), the events, the step
  function `Step`, one complete run `Generate`, and a sequence of runs `RunAll`. It also holds
  the four-valued lifecycle (`Idle | Loading | Succeeded | Failed`) that consistent cells encode,
  with `Encode` and `Decode`.
- `app_view.dfy`: module `AppView`. It holds the display panel `View`, the download link
  `Download` and the button rule `TriggerDisabled`. JavaScript truthiness is modelled by
  `Truthy`, so `null` and `""` are both falsy.
- `app_controller.dfy`: module `AppController`. It holds a class `Controller` whose fields are
  the three cells. Its methods `Begin`, `Succeed`, `Fail` and `Settle` update the fields, and
  `HandleGenerate` runs them in the order of the try/catch/finally.

The remote call `generateImage` is not modelled. Its result becomes the parameter
`Outcome`: either `Resolved(payload)`, or `Rejected(thrown)`, where `thrown` is an `Error`
with a message or any other value.

Three behaviours of the code are easy to miss, and the model keeps them:

- An `Error` with an empty message is stored as `""`. There is no fallback message for it.
  The error cell is then non-null but falsy, so the page shows the placeholder and gives no
  sign of the failure (`AppView.EmptyErrorMessageShowsPlaceholder`).
- The image cell holds the full data URI, not the bare payload.
- The download link depends on a truthy image and loading being off. It does not depend on
  a "succeeded" state as such.

## Model

| member | source | states |
|---|---|---|
| AppController.Controller.constructor | App.tsx:7-9 | the cells start with no image, loading off and no error, which is the Idle lifecycle |
| AppController.Controller.Begin | App.tsx:14-16 | callable only while the trigger is enabled; afterwards loading is on and both the image and the error are null, whatever they held before |
| AppController.Controller.Succeed | App.tsx:18-19 | the image becomes `data:image/jpeg;base64,` followed by the payload; loading and the error are unchanged |
| AppController.Controller.Fail | App.tsx:20-21 | the error becomes the `Error`'s message when an `Error` was thrown, and otherwise the fixed fallback text; the image and loading are unchanged |
| AppController.Controller.Settle | App.tsx:23-25 | loading is off afterwards; the image and the error are unchanged |
| AppController.Controller.HandleGenerate | App.tsx:13-26 | one run ends in the state `Generate` gives: consistent and not loading, with the payload's URI and no error on success, or the error message and no image on failure |
| AppState.Generate | App.tsx:13-26 | a complete run from a non-loading state ends in the outcome's settled state, whatever the state before; loading is off; the image is set exactly on success and the error exactly on failure |
| AppState.RunAll | App.tsx:13-26 | a sequence of runs, each started after the previous one settled, never ends loading |
| AppState.RunAllKeepsLastOutcome | App.tsx:13-26 | after a non-empty sequence of runs the cells are exactly the settled state of the last outcome; nothing from earlier runs survives |
| AppState.DataUri | App.tsx:19 | the stored image is the template literal `data:image/jpeg;base64,${imageB64}` |
| AppState.ErrorMessage | App.tsx:21 | the stored error is the `Error`'s message, or the fixed fallback text for any other thrown value |
| AppState.Step | App.tsx:14-25 | each of the four steps writes only the cells the source sets: Begin all three, Succeed the image, Fail the error, Settle loading |
| AppState.BeginClearsStaleResults | App.tsx:14-16 | Begin yields loading with no image and no error from any state |
| AppState.SettleStopsLoading | App.tsx:23-25 | the finally step turns loading off and keeps the image and the error as they are, on both paths |
| AppState.DataUriDeterminesPayload | App.tsx:19 | a stored data URI is never the empty string, and two payloads give the same URI only when they are equal |
| AppState.Decode | App.tsx:7-9 | consistent cells encode exactly one lifecycle value (Idle, Loading, Succeeded, Failed) |
| AppState.DecodeEncode | App.tsx:7-9 | every lifecycle value is encoded by consistent cells and decodes back to itself |
| AppState.RunLifecycle | App.tsx:13-26 | while loading the cells are the Loading lifecycle; a run settles in Succeeded with the payload's URI or in Failed with the thrown value's message, never in both |
| AppState.RunAllConsistent | App.tsx:13-26 | from a consistent, non-loading state any sequence of runs keeps the cells consistent and ends in Succeeded or Failed once at least one run happened |
| AppState.Scenarios | App.tsx:18-21 | payload `QUJD` gives `data:image/jpeg;base64,QUJD`; `Error("rate limited")` gives `rate limited`; a non-`Error` gives the fallback; `Error("")` gives `""` |
| AppView.View | App.tsx:50-68 | the loading panel exactly while loading; otherwise the error panel exactly for a truthy error; otherwise the image panel exactly for a truthy image; otherwise the placeholder; the shown text or source is the cell's value |
| AppView.Download | App.tsx:81-84 | the link exists iff the image is truthy and loading is off; its href is the image cell and its file name is `ai-thumbnail.jpg` |
| AppView.TriggerDisabled | App.tsx:74 | the button's `disabled` attribute is the loading cell |
| AppView.TriggerDisabledWhileLoadingShown | App.tsx:74 | the button is disabled exactly while the loading panel is shown, and never while the download link is present |
| AppView.ViewOfLifecycle | App.tsx:50-68 | per lifecycle value, which panel is shown; an empty message or URI falls through to the placeholder |
| AppView.DownloadMatchesShownImage | App.tsx:61-84 | in consistent cells the download link is present exactly when the image panel is shown, and it points at the displayed image |
| AppView.IntermediateShowsLoading | App.tsx:18-21 | after the `try` or `catch` step and before the `finally` block, the page would show the loading panel and no download link |
| AppView.NothingStaleWhileLoading | App.tsx:50-84 | right after Begin the page shows the loading panel, no download link, and a disabled trigger |
| AppView.ShownAfterRun | App.tsx:50-84 | after a run the page shows the payload's image with a download link, or the error message with no link; an empty `Error` message shows the placeholder; the trigger is enabled again |
| AppView.EmptyErrorMessageShowsPlaceholder | App.tsx:21 | an `Error` with an empty message leaves the error cell `""`, the placeholder panel and no download link |

## Left out

- The remote image service `generateImage` (App.tsx:2) is a network call whose code is not part of this model. Its settlement is the `Outcome` parameter of `HandleGenerate` and `Generate`.
- A service result that is not a string is left out. The template literal would turn it into text such as `undefined`; the model takes the payload to be a string.
- Overlapping runs and the last-settlement-wins race are not modelled. The button's `disabled` attribute (App.tsx:74) is modelled as the precondition "not loading" on `Begin`, `HandleGenerate` and `Generate`.
- React machinery is not modelled: `useState`, `useCallback` memoisation, re-render scheduling, and the JSX layout and class strings (App.tsx:28-95).
- `Consistent` is not promised for the moment after Succeed or Fail and before Settle, when the image or error is already stored but loading is still on. Whether React renders that moment depends on how it batches updates, which is not modelled. If it is rendered, it shows the loading panel and no download link (`AppView.IntermediateShowsLoading`).
- The `Spinner`, `DownloadIcon` and `SparklesIcon` components and the button's label text (App.tsx:3-4, 77-78) are presentational.
- Logging with `console.error` (App.tsx:22) is I/O.
- The prompt text (App.tsx:11) is an opaque constant handed to the service.
- An `Error` whose `message` property has been replaced by a value that is not a string is left out; the model's `Error` always carries a string message.
