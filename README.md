# Hamori root layout: session gate and shared UI state

A Dafny model of the logic in the root layout of the Hamori mobile app
(`app/_layout.tsx`). That logic has two parts.

- **Session gate** (`AuthenticatedLayout`). Whenever the session or the location changes, the guard does one of three things:
  - sends a visitor who is not signed in and is outside the auth area to `/auth/login`;
  - sends a signed-in user who is in the auth area to `/`;
  - does nothing.
  It does nothing while the session is still loading. Both redirects are *replace* navigations, so the back history does not grow.
- **Shared UI state** (`AppContext`). It holds nine independent values: the voice overlay, its text, tags and tag descriptions, the restaurant-search and mode-selector overlays, the active group id, the active group's display information, and the app mode. Each value has a setter that replaces it. The context's default value has the same initial values, but its setters do nothing.

Files:

- `wrappers.dfy`: `Option`, which stands for TypeScript's `T | null`.
- `routing.dfy`: the router as the layout uses it.
  - A location is a list of path segments.
  - `SplitPath` turns a path into its segments. `SplitJoin` proves it undoes `JoinPath` on well-formed segment lists.
  - The `Router` class holds the current segments and the back history. `Replace` changes only the segments.
- `session_gate.dfy`: the guard.
  - `Decide` is the decision as a pure function.
  - `Consistent` is the state the guard drives the app towards.
  - The lemmas cover the branch conditions, the fixed point after a redirect, and repeated evaluation.
  - `Evaluate` performs the effect on a `Router`.
- `app_state.dfy`: the `UiState` value and its defaults.
  - The `Store` class models the `useState` slots of `RootLayoutNav`. Each setter's frame is its own field.
  - The `DefaultContext` class models the default value with no-op setters.
  - Three client scenarios use both classes.

The guard reads `segments[0] === 'auth'`. On an empty segment list that read is `undefined`, so a location with no segments counts as outside the auth area (`InAuthArea`). The user is treated as opaque: only whether it is present matters.

Callers are expected to set group information only while a group id is set; nothing in `app/_layout.tsx` enforces it, because lines 93-94 are two independent `useState` slots. `GroupPaired` states the convention. `PairingNotEnforced` and `ClearingIdAloneUnpairs` show that the setters can break it.

## Model

| member | source | states |
|---|---|---|
| `SessionGate.Decide` | app/_layout.tsx:63-73 | While loading there is no redirect. The result is the login screen exactly when no user is present, the session is resolved and the location is outside the auth area. It is home exactly when a user is present, the session is resolved and the location is inside the auth area. So at most one redirect is issued per evaluation. |
| `SessionGate.DecideActsIffInconsistent` | app/_layout.tsx:65-73 | Once the session is resolved, the guard redirects exactly when the screen disagrees with the session (a user inside the auth area, or no user outside it). |
| `SessionGate.TargetArea` | app/_layout.tsx:65-72 | `/auth/login` has `auth` as its first segment. `/` has no segments, so it is outside the auth area. |
| `SessionGate.RedirectSettles` | app/_layout.tsx:65-72 | Fixed point: at the screen a redirect leads to, the screen agrees with the session, and re-running the guard with the same session issues nothing. |
| `SessionGate.ReplayRedirectsAtMostOnce` | app/_layout.tsx:62-74 | Any number of evaluations with an unchanged session issue exactly one redirect if the first one redirects, and none otherwise. After at least one evaluation the guard has nothing left to do. |
| `SessionGate.Evaluate` | app/_layout.tsx:62-74 | One run of the effect. It returns the decision and moves the router to the target's segments only when there is one. It leaves the back history unchanged and ends at a location where the guard issues nothing. |
| `Routing.Router.Replace` | app/_layout.tsx:69-72 | A replace navigation sets the location to the segments of the given path and leaves the back history exactly as it was. |
| `Routing.SplitPath` | app/_layout.tsx:59 | Every segment of a path is non-empty and contains no `/`. |
| `Routing.SplitJoin` | app/_layout.tsx:69 | Splitting the canonical path of well-formed segments gives the same segments back. |
| `AppState.Store.constructor` | app/_layout.tsx:87-95 | A fresh store holds the defaults: the voice-input flag off, empty text, no tags, no descriptions, both overlays hidden, no active group id or information, mode `normal`. |
| `AppState.Store.SetVoiceInputVisible` | app/_layout.tsx:87 | The voice-input flag becomes the given value. The other eight fields are unchanged. |
| `AppState.Store.SetVoiceText` | app/_layout.tsx:88 | The voice text becomes the given value. The other eight fields are unchanged. |
| `AppState.Store.SetVoiceTags` | app/_layout.tsx:89 | The tag list becomes the given list. The other eight fields are unchanged. |
| `AppState.Store.SetVoiceTagDescriptions` | app/_layout.tsx:90 | The tag-description map becomes the given map. The other eight fields are unchanged. |
| `AppState.Store.SetRestaurantSearchVisible` | app/_layout.tsx:91 | The search-overlay flag becomes the given value. The other eight fields are unchanged. |
| `AppState.Store.SetModeSelectorVisible` | app/_layout.tsx:92 | The mode-selector flag becomes the given value. The other eight fields are unchanged. |
| `AppState.Store.SetActiveGroupId` | app/_layout.tsx:93 | The active group id becomes the given value. The group information and the other seven fields are unchanged. |
| `AppState.Store.SetActiveGroupInfo` | app/_layout.tsx:94 | The group information becomes the given value. The active group id and the other seven fields are unchanged. |
| `AppState.Store.SetAppMode` | app/_layout.tsx:95 | The app mode becomes the given value. The other eight fields are unchanged. |
| `AppState.DefaultContext.constructor` | app/_layout.tsx:32-51 | The default context carries the same defaults as a fresh store. |
| `AppState.DefaultContext.SetVoiceInputVisible` | app/_layout.tsx:34 | A no-op: the whole state is unchanged. |
| `AppState.DefaultContext.SetVoiceText` | app/_layout.tsx:36 | A no-op: the whole state is unchanged. |
| `AppState.DefaultContext.SetVoiceTags` | app/_layout.tsx:38 | A no-op: the whole state is unchanged. |
| `AppState.DefaultContext.SetVoiceTagDescriptions` | app/_layout.tsx:40 | A no-op: the whole state is unchanged. |
| `AppState.DefaultContext.SetRestaurantSearchVisible` | app/_layout.tsx:42 | A no-op: the whole state is unchanged. |
| `AppState.DefaultContext.SetModeSelectorVisible` | app/_layout.tsx:44 | A no-op: the whole state is unchanged. |
| `AppState.DefaultContext.SetActiveGroupId` | app/_layout.tsx:46 | A no-op: the whole state is unchanged. |
| `AppState.DefaultContext.SetActiveGroupInfo` | app/_layout.tsx:48 | A no-op: the whole state is unchanged. |
| `AppState.DefaultContext.SetAppMode` | app/_layout.tsx:50 | A no-op: the whole state is unchanged. |
| `AppState.PairingNotEnforced` | app/_layout.tsx:93-94 | The defaults satisfy the pairing convention. Setting group information without a group id gives a state that breaks it. |
| `AppState.ClearingIdAloneUnpairs` | app/_layout.tsx:93-94 | Clearing the group id while its information is set also breaks the pairing, because the info setter is separate. |
| `AppState.AppModeScenario` | app/_layout.tsx:95 | A fresh store starts in mode `normal`. After `setAppMode("voice")` the mode reads `voice` and no other field has changed. |
| `AppState.ActiveGroupScenario` | app/_layout.tsx:93-94 | After setting group id `g1` and then its information, both read back exactly as set. The state is paired, and every other field keeps its default. |
| `AppState.EarlyWritesScenario` | app/_layout.tsx:32-51 | Calling every setter of the default context, before a provider is mounted, leaves the defaults in place. |

## Left out

- Font loading, the splash screen, the `console.warn` on a font error, the theme and the status bar (app/_layout.tsx:54, 81-109, 132-135). These are I/O and presentation.
- The internals of the authentication provider and `useAuth`. That module is not part of this model. Only the `{user, loading}` values it produces are modelled, as `Session`.
- Route resolution by the router. This includes route groups, dynamic segments and `Slot` rendering. A path's segments are modelled as its non-empty `/`-separated pieces (`SplitPath`).
- React scheduling. An effect re-runs when its dependencies change; this is modelled only as `Replay`, which repeats evaluation under an unchanged session. Context propagation and re-rendering are not modelled.
- React applies state updates on the next render. The model's setters take effect at once.
- Aliasing and key order. The source holds `voiceTags` (an array), `voiceTagDescriptions` (a record) and `activeGroupInfo` (an object) by reference (app/_layout.tsx:89-90, 94). The model holds them as a sequence, a map and a datatype value. A caller mutating the array after setting it, and the insertion order of the record's keys, are not represented; nothing in the layout depends on either.
- `GroupInfo.members` is a JavaScript `number`. It is modelled as an unbounded integer, so fractional and non-finite values are not represented.
- The parallax scroll header (`components/ParallaxScrollView.tsx`). It is floating-point animation and styling.
- The auth stack layout (`app/auth/_layout.tsx`). It is screen configuration with no logic.
