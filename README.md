# Employee filter and voice-note screen, modelled in Dafny

The repository has two React Native screens. This project models the logic inside them, without the rendering.

- **User management** (`app/employees.tsx`). The screen keeps a list of user records fetched from a REST API and three filter inputs (ID number, role, name). It shows only the users that pass the filter. It appends the user returned by a successful POST and then clears the add-user form. It accepts a fetched list only when the reply carries an array under `users`.
- **Voice notes** (`components/screens/HomeScreen.jsx`). The screen keeps a list of recorded notes, the recording in progress, the entered note name and the sound being played. Every change to the list writes the whole list to the device's key/value store under the key `voiceNotes`. On mount, the screen reloads the list from that key.

Files:

- `wrappers.dfy`: `Option`, which stands for a value that JavaScript may leave `undefined` or `null`.
- `sequences.dfy`: `Array.prototype.filter` and a subsequence predicate, with their lemmas.
- `strings.dfy`: `String.prototype.includes`, proved equal to "occurs at some offset", and ASCII `toLowerCase`.
- `employees.dfy`: the filter predicate and the `UserManagement` class. The class holds the component state `users`, `error`, `newUser` and `filters`.
- `voice_notes.dfy`: note construction and deletion, the `KeyValueStore` class (AsyncStorage) and the `HomeScreen` class. `HomeScreen` holds `recording`, `voiceNotes`, `name` and `playing`, plus the set of sounds whose status callback is registered. Its predicate `Synced()` says the stored list equals the list in memory. Every handler preserves it. Stopping a recording and deleting a note establish it outright.

Each asynchronous handler is one atomic step. Each call into the network or the audio library becomes an outcome parameter of that step: `FetchReply`, `PostReply`, `StartOutcome`, `StopOutcome`, `PlayOutcome`. The note id (`uuidv4()`) and the date string (`new Date().toLocaleString()`) are parameters. No uniqueness of ids is assumed.

Behaviour of the code that a reader might not expect:

- Unlike app/(tabs)/index.tsx, HomeScreen.jsx has no rename and no recording timer.
- `startRecording` has no "already recording" guard of its own. The screen's one button sends presses to `stopRecording` while a recording is set (components/screens/HomeScreen.jsx:113-116). So `StartRecording` requires that nothing is recording.
- A null URI from `getURI()` is stored as is.
- Tapping a note while another is playing stops the playing one and does not start the tapped one.

## Model

| member | source | states |
|---|---|---|
| `Sequences.Filter` | app/employees.tsx:50 | `Filter` is `Array.prototype.filter`. The result of `filter` is no longer than the input, holds only accepted elements, and holds only elements of the input |
| `Sequences.FilterIsSubsequence` | app/employees.tsx:50 | `filter` only drops elements and keeps the relative order of the rest |
| `Sequences.FilterCount` | components/screens/HomeScreen.jsx:99 | An accepted value keeps every one of its occurrences; a rejected value keeps none |
| `Sequences.FilterMembership` | app/employees.tsx:50 | A value is in the filtered list iff it is in the input and accepted |
| `Sequences.FilterKeepsAll` | components/screens/HomeScreen.jsx:99 | When every element is accepted, `filter` returns its input unchanged |
| `Sequences.FilterIdempotent` | components/screens/HomeScreen.jsx:99 | Filtering twice with the same test equals filtering once |
| `Strings.IncludesIffOccurs` | app/employees.tsx:52-56 | `Strings.Includes`, which is `String.prototype.includes`, holds iff the part occurs at some offset of the text; so the empty part is included everywhere |
| `Strings.LowerChar` | app/employees.tsx:55-56 | An upper-case ASCII letter becomes its lower-case letter (code point plus 32); every other character is unchanged; the result is never upper-case |
| `Strings.ToLower` | app/employees.tsx:55-56 | `toLowerCase` keeps the length, leaves no upper-case ASCII letter and changes no other character |
| `Strings.LowerCharEqualIff` | app/employees.tsx:55-56 | Two characters lower-case to the same character iff they are equal or the same ASCII letter in the two cases |
| `Strings.ToLowerEqualIff` | app/employees.tsx:55-56 | Two strings lower-case to the same string iff they agree character by character up to ASCII case, against a separately defined case-insensitive equality |
| `Strings.ToLowerIdempotent` | app/employees.tsx:55-56 | Lower-casing twice equals lower-casing once |
| `Strings.ToLowerKeepsIncludes` | app/employees.tsx:55-56 | If the text includes the part, the lower-cased text includes the lower-cased part |
| `Employees.WithFilter` | app/employees.tsx:98-100 | The filter update sets the chosen key to the value and leaves the other two keys as they were |
| `Employees.FilteredUsersIsSubsequence` | app/employees.tsx:50-59 | The shown users (`FilteredUsers`) are a subsequence of `users`: entries are only dropped, order is kept |
| `Employees.FilteredUsersMembership` | app/employees.tsx:50-59 | Specifies `FilteredUsers` (the `filteredUsers` expression) and `Matches` (its callback). A user is shown iff it is in `users`, its ID is non-empty and includes the ID filter, its role is non-empty and includes the role filter, and its lower-cased name or surname includes the lower-cased name filter. Every occurrence of a shown user is kept |
| `Employees.NoFiltersShowsComplete` | app/employees.tsx:21-59 | With the initial empty filters, a user is shown iff its ID and role are non-empty and its name or surname is non-empty |
| `Employees.IncompleteUsersHidden` | app/employees.tsx:52-53 | A user whose ID or role is missing or empty is never shown, whatever the filters |
| `Employees.NameFilterIgnoresCase` | app/employees.tsx:54-57 | Two name filters that agree after lower-casing show the same users |
| `Employees.NameFieldIgnoresCase` | app/employees.tsx:55-56 | Whether the name filter accepts a name or surname does not depend on that field's case |
| `Employees.IdFilterMissesLowerCase` | app/employees.tsx:52 | For every user whose ID has no lower-case letter, an ID filter containing a lower-case letter hides the user |
| `Employees.RoleFilterMissesLowerCase` | app/employees.tsx:53 | For every user whose role has no lower-case letter, a role filter containing a lower-case letter hides the user |
| `Employees.IdFilterIsCaseSensitive` | app/employees.tsx:52-56 | One example user with ID `AB7`, role `Dev` and name `Ann`. Filters `AB`/`Dev`/`ANN` show it. Lower-casing the ID filter or the role filter hides it, while the upper-case name filter still matches |
| `Strings.IncludesNeedsEveryChar` | app/employees.tsx:52-53 | Every character of an included part occurs in the text |
| `Employees.UserManagement.constructor` | app/employees.tsx:5-25 | Starts with no users, no error, an empty form and empty filters |
| `Employees.UserManagement.Shown` | app/employees.tsx:50-59 | The rendered list is a subsequence of `users` and holds exactly the users that pass the filter, each as many times as it occurs in `users` |
| `Employees.UserManagement.FetchUsers` | app/employees.tsx:29-44 | `users` is replaced only when the reply carries an array under `users`, and an empty array counts. Otherwise `users` is unchanged and `error` is set. Nothing else changes |
| `Employees.UserManagement.AddUser` | app/employees.tsx:62-95 | On an ok reply whose body parsed, the added user is appended at the end and the form is reset to all-empty fields. Otherwise `users` and the form are unchanged and `error` is set |
| `Employees.UserManagement.ChangeFilter` | app/employees.tsx:98-100 | Sets exactly one filter key to the value; the other filters, the users, the error and the form are unchanged |
| `VoiceNotes.NoteName` | components/screens/HomeScreen.jsx:61 | The note name is the entered name when non-empty, `Unnamed Note` otherwise, and never empty |
| `VoiceNotes.NewNote` | components/screens/HomeScreen.jsx:59-64 | A new note carries the given id, URI and date, and its name is the entered one when there is one and `Unnamed Note` otherwise |
| `VoiceNotes.WithoutIdSpec` | components/screens/HomeScreen.jsx:99 | Specifies `WithoutId`, the delete `filter`. Deletion keeps a subsequence. A note survives iff its id differs from the deleted id, and each survivor keeps all of its occurrences |
| `VoiceNotes.WithoutAbsentId` | components/screens/HomeScreen.jsx:99 | Deleting an id that no note carries leaves the list unchanged |
| `VoiceNotes.WithoutIdIdempotent` | components/screens/HomeScreen.jsx:98-102 | Deleting the same id twice equals deleting it once |
| `VoiceNotes.KeyValueStore.GetItem` | components/screens/HomeScreen.jsx:25 | Returns the stored value iff the key is present |
| `VoiceNotes.KeyValueStore.SetItem` | components/screens/HomeScreen.jsx:33 | Stores the value under the key and leaves every other key as it was |
| `VoiceNotes.HomeScreen.constructor` | components/screens/HomeScreen.jsx:17-20 | Starts with no recording, no notes, an empty name, nothing playing and no status callbacks |
| `VoiceNotes.HomeScreen.LoadVoiceNotes` | components/screens/HomeScreen.jsx:23-29 | Takes the stored list when the key is present and otherwise keeps the current list. Starting from the empty list, memory and store agree afterwards |
| `VoiceNotes.HomeScreen.SaveVoiceNotes` | components/screens/HomeScreen.jsx:32-34 | Writes the whole list under `voiceNotes`, so a reload yields exactly that list |
| `VoiceNotes.HomeScreen.StartRecording` | components/screens/HomeScreen.jsx:37-52 | Called only while nothing is recording, as the button guarantees. `recording` is set only when permission was granted and capture started. On denial or a failure it stays unset, and nothing else changes |
| `VoiceNotes.HomeScreen.StopRecording` | components/screens/HomeScreen.jsx:55-73 | With a recording that stopped, exactly one note is appended at the end, the whole new list is stored, and `name` and `recording` are cleared. Without a recording, or when stopping fails, neither the list, the store, the name nor the recording changes. Memory and store agree afterwards on success and stay in agreement otherwise |
| `VoiceNotes.HomeScreen.DeleteVoiceNote` | components/screens/HomeScreen.jsx:98-102 | The list loses exactly the notes with the id, the whole new list is stored, and memory and store agree |
| `VoiceNotes.HomeScreen.PlayVoiceNote` | components/screens/HomeScreen.jsx:76-95 | Toggle, for the freshly created sound object. While a sound plays, it is stopped and `playing` is cleared (kept if stopping threw), and the tapped note is not started. Otherwise the loaded sound becomes `playing`, and its status callback is registered once it plays |
| `VoiceNotes.HomeScreen.OnPlaybackStatusUpdate` | components/screens/HomeScreen.jsx:86-90 | A registered sound reporting `isPlaying == false` clears `playing`; any other report leaves it |
| `VoiceNotes.RecordThenReload` | components/screens/HomeScreen.jsx:23-73 | A note recorded with no entered name is found by a fresh screen loading the same store, as the last note, named `Unnamed Note` and equal in every other field |
| `VoiceNotes.TapTwice` | components/screens/HomeScreen.jsx:76-95 | Two taps with no status report in between: the first starts the sound, the second stops it without starting a second one |

## Left out

- Network: `fetch` (app/employees.tsx:31, 64). `fetchUsers` never reads `response.ok`, so a failing status with a well-formed body is accepted. The model keeps that.
- JSON encoding and decoding (app/employees.tsx:32, 69; components/screens/HomeScreen.jsx:26, 33). The store holds decoded lists. A stored value that is not valid JSON would make `JSON.parse` throw inside the mount effect. That case is not modelled.
- LoadVoiceNotes: the check `if (storedNotes)` also treats a stored empty string as absent. Stored values are decoded lists here, so that case cannot arise in the model.
- Field values of other JavaScript types: user fields are strings or absent. A numeric `idNumber` or a `null` array element would make the filter throw. That is not modelled.
- Employees.Matches, Strings.ToLower: `toLowerCase` is modelled for ASCII letters only. Unicode case mapping is not modelled.
- The add-user form's per-field bindings and the `formVisible` toggle (app/employees.tsx:151-230) are rendering concerns. `newUser` is sent as the POST body, which is not modelled.
- Rendering, styles, `Alert` popups, `console.error` (app/employees.tsx:102-301; components/screens/HomeScreen.jsx:104-165).
- The audio library (permissions, `setAudioModeAsync`, `createAsync`, `stopAndUnloadAsync`, `getURI`, `Sound` loading and playback). Each is an outcome parameter. The `uri` passed to `PlayVoiceNote` only affects the load outcome.
- Asynchronous interleaving. The un-awaited `saveVoiceNotes` calls (components/screens/HomeScreen.jsx:67, 101) are one atomic step with the handler, and a failing `setItem` is not modelled.
- `uuidv4()` and the clock are parameters. Id uniqueness is not claimed.
