# Maverick Marketplace — a Dafny model of the client core

Maverick Marketplace is a campus marketplace app (React Native on an Appwrite
backend). Students sign in with a university address, post listings with
photos, browse them with search filters, and chat with sellers. This project
models the client's core logic in Dafny and proves what that logic
guarantees. The core covers:

- the authentication contexts: the current one, which caches the user in
  AsyncStorage and runs the e-mail one-time-code flow, and the older one,
  which only lets university addresses register;
- the login, sign-in and e-mail verification screens;
- the chat context, with its five-minute caches in memory and in
  AsyncStorage, the merged and sorted chat list, and optimistic message
  sending;
- the listing form, the profile form and the search filter panel;
- the server function that creates or reuses a chat;
- the image preview URL builder and the "NEW" badge rule of the listing grid.

Each backend or SDK call is a parameter holding its answer: `Outcome` or
`Result<T>` for success or failure, with the error's message. Each use of
the clock is an integer parameter (milliseconds, or the ISO string the code
stores). AsyncStorage is one shared object, `Storage.Store`, holding a map
from keys to stored values. React state becomes the fields of a class per
component or context, and each handler becomes a method that changes those
fields.

The modules:

- `Wrappers`: `Option`, `Result`, `Outcome` and `e.message || fallback`.
- `Text`: the JavaScript `trim` and its whitespace set, `startsWith` and
  `endsWith`.
- `Numbers`: decimal literals, `parseFloat`, and integer-to-string.
- `Documents`: the backend's documents.
- `Storage`: AsyncStorage.
- `AuthSession` and `LegacyAuth`: the two authentication contexts.
- `ChatCache`: the chat context.
- `VerifyEmail`, `LoginScreen`, `SignIn`, `ListingForm`, `ProfileForm` and
  `SearchFilters`: the screens.
- `CreateChat`: the server function.
- `ImageUrl` and `ListingGrid`: the image URL and the "NEW" badge.

## Model

| member | source | states |
|---|---|---|
| Wrappers.MessageOr | app/verify-email.jsx:93 | `e.message \|\| fallback`: the error's own message when it has one, the fallback exactly when it is empty |
| Text.TrimStart | app/login.tsx:42-44 | the result is no longer than the input and does not start with whitespace |
| Text.TrimStartIsSuffix | app/login.tsx:42-44 | trimming the front leaves a suffix of the input |
| Text.TrimStartDropsWhitespace | app/login.tsx:42-44 | everything cut from the front is whitespace |
| Text.TrimEnd | app/login.tsx:42-44 | the result is no longer than the input and does not end with whitespace |
| Text.TrimEndIsPrefix | app/login.tsx:42-44 | trimming the end leaves a prefix of the input |
| Text.TrimEndDropsWhitespace | app/login.tsx:42-44 | everything cut from the end is whitespace |
| Text.Trim | app/components/ListingForm.jsx:99-104 | `trim()` neither starts nor ends with whitespace and is no longer than its input |
| Text.TrimCutsWhitespace | app/components/ListingForm.jsx:99-104 | `trim()` is a slice of the input and everything cut on either side is whitespace |
| Text.TrimBlank | app/components/ListingForm.jsx:71-74 | `!s.trim()` holds exactly when the string is all whitespace (or empty) |
| Text.TrimIdempotent | app/components/UserProfileForm.jsx:15-25 | trimming twice gives the same string as trimming once |
| Text.EndsWith | context/AuthContext.js:44 | `endsWith`: the last characters of the text are the suffix, one by one |
| Numbers.NatToString | app/contexts/ChatContext.jsx:262 | the decimal text of a natural number has only digits, no leading zero, and reads back as the number |
| Numbers.IntToString | app/contexts/ChatContext.jsx:262 | the text of an integer is non-empty and starts with '-' exactly for a negative integer, otherwise with a digit |
| Numbers.DigitRun | app/components/ListingForm.jsx:221 | the digit run at the front of a string fits in the string |
| Numbers.DigitRunIsMaximal | app/components/ListingForm.jsx:221 | the run is all digits and is followed by a non-digit or the end |
| Numbers.DigitRunOfDigits | app/components/ListingForm.jsx:221 | the run of an all-digit string is the whole string |
| Numbers.ParseFloat | app/components/ListingForm.jsx:221 | a text starting with a digit always reads as a number, and never with more fraction digits than the text has characters |
| Numbers.ParseLiteral | app/components/ListingForm.jsx:221 | an empty literal is NaN, one starting with a digit is a number, and the number of fraction digits read is less than the literal's length |
| Numbers.ToNumber | app/components/SearchFilters.jsx:38-39 | `parseFloat` of a text starting with a digit is a number, never NaN |
| Numbers.ParseFloatBlank | app/components/ListingForm.jsx:224-227 | `parseFloat` of a blank string is NaN |
| Numbers.ParseFloatSkipsWhitespace | app/components/ListingForm.jsx:221 | leading whitespace does not change what `parseFloat` reads |
| Numbers.ParseIntToString | app/components/SearchFilters.jsx:26 | `parseFloat` reads back every printed integer |
| Numbers.NumberToString | app/components/SearchFilters.jsx:26-29 | `toString` of a number is never empty |
| Numbers.ZeroPad | app/components/SearchFilters.jsx:26 | padding reaches at least the width and never shortens the text |
| Numbers.Normalize | app/components/SearchFilters.jsx:26 | `toString` never adds fraction digits and leaves no trailing zero in the fraction |
| Numbers.WholeNumberRoundTrip | app/components/SearchFilters.jsx:26-38 | printing a whole number and reading it back gives the same number |
| Storage.Store.constructor | app/contexts/AuthContext.jsx:40 | AsyncStorage starts with the given entries |
| Storage.Store.Get | app/contexts/AuthContext.jsx:40 | `getItem` finds a value exactly for a stored key, and the value is the one stored |
| Storage.Store.SetItem | app/contexts/AuthContext.jsx:52 | `setItem` overwrites one key and leaves the others unchanged |
| Storage.Store.RemoveItem | app/contexts/AuthContext.jsx:56 | `removeItem` deletes one key and leaves the others unchanged |
| Storage.Store.MultiRemove | app/contexts/ChatContext.jsx:57 | `multiRemove` deletes exactly the given keys |
| AuthSession.IsEmailVerified | app/contexts/AuthContext.jsx:30 | with no user the address is never verified |
| AuthSession.PendingTarget | app/contexts/AuthContext.jsx:142-148 | the user to verify: the pending id if set, else the stored one, else the signed-in user; never empty |
| AuthSession.Prefer | app/contexts/AuthContext.jsx:112-113 | `arg \|\| fallback`: the argument when truthy, none exactly when both are falsy |
| AuthSession.AuthProvider.StoredText | app/contexts/AuthContext.jsx:144 | a stored text entry is present under its key |
| AuthSession.AuthProvider.constructor | app/contexts/AuthContext.jsx:26-27 | no user, loading, no pending verification |
| AuthSession.AuthProvider.LoadCachedUser | app/contexts/AuthContext.jsx:37-65 | a non-empty cached entry that is not JSON ends the load in the catch block: no user and the entry removed, without a session check; otherwise the user ends as the fresh account if the session check and the fetch succeed, else none; only the cached-user key changes; loading ends |
| AuthSession.AuthProvider.Login | app/contexts/AuthContext.jsx:67-77 | a failure is passed on with nothing changed; success sets the user and caches it |
| AuthSession.AuthProvider.Logout | app/contexts/AuthContext.jsx:79-90 | the user and the cached user are cleared whether or not the server call fails |
| AuthSession.AuthProvider.RefreshUser | app/contexts/AuthContext.jsx:92-104 | success sets and caches the user; failure clears both and is passed on |
| AuthSession.AuthProvider.SendVerificationCode | app/contexts/AuthContext.jsx:109-138 | no e-mail is exactly the 'No email provided' error; a code is requested exactly when there is an address, and only success records and stores the pending user id |
| AuthSession.AuthProvider.VerifyCode | app/contexts/AuthContext.jsx:140-172 | no target fails with its message and changes nothing; a rejected code changes nothing; an accepted code clears the pending id; the fetched user is set and cached exactly on full success |
| AuthSession.AuthProvider.DeleteAccount | app/contexts/AuthContext.jsx:174-188 | without a user, 'No user logged in'; the user is cleared exactly when the status update succeeds |
| LegacyAuth.IsUniversityEmail | context/AuthContext.js:44 | an accepted address is long enough for the domain and has its '@' right before it |
| LegacyAuth.UniversityEmailCases | context/AuthContext.js:44 | every address ending in '@mavs.uta.edu' passes and is local part plus domain; nothing shorter than the domain passes |
| LegacyAuth.CheckedUser | context/AuthContext.js:24-32 | a user is kept exactly when the lookup succeeds and finds one: a failed lookup and a lookup that finds nobody both leave no user |
| LegacyAuth.LegacyAuthProvider.constructor | context/AuthContext.js:10-11 | no user, loading |
| LegacyAuth.LegacyAuthProvider.CheckUserStatus | context/AuthContext.js:19-36 | the user is the one found (none on error) and loading ends |
| LegacyAuth.LegacyAuthProvider.Register | context/AuthContext.js:39-59 | succeeds exactly for a university address the backend accepts; a non-university address gets the 'Invalid Email' alert and the backend is not asked; loading ends |
| LegacyAuth.LegacyAuthProvider.Login | context/AuthContext.js:62-75 | succeeds exactly when the backend accepts; failure shows 'Invalid email or password' and keeps the user; loading ends |
| LegacyAuth.LegacyAuthProvider.Logout | context/AuthContext.js:78-91 | succeeds exactly when the backend call does; only success clears the user |
| ChatCache.IsFresh | app/contexts/ChatContext.jsx:187 | a message entry is fresh until five minutes after its timestamp, and one stamped now or later is always fresh |
| ChatCache.IsExpired | app/contexts/ChatContext.jsx:78 | a stored chat list expires only once more than five minutes after its timestamp, so never before it |
| ChatCache.FiveMinuteBoundary | app/contexts/ChatContext.jsx:32-187 | an entry exactly five minutes old is neither fresh nor expired; any other age is exactly one of them |
| ChatCache.IsChatCacheKey | app/contexts/ChatContext.jsx:53-55 | a cache key is at least as long as one of the two prefixes |
| ChatCache.ChatCacheKeys | app/contexts/ChatContext.jsx:52-55 | the keys kept are exactly those with a chat-list or message-list prefix |
| ChatCache.CacheKeysClassified | app/contexts/ChatContext.jsx:53-55 | chat and message cache keys are classified as cache keys; the cached-user and pending-verification keys are not |
| ChatCache.ReplaceById | app/contexts/ChatContext.jsx:325-327 | `map(m => m.$id === id ? r : m)`: same length, each matching message replaced, the rest unchanged |
| ChatCache.MarkFailed | app/contexts/ChatContext.jsx:359-361 | same length; each matching message becomes not sending and failed, the rest are unchanged |
| ChatCache.ReplaceAbsentId | app/contexts/ChatContext.jsx:333-335 | replacing an id the list lacks changes nothing |
| ChatCache.SwapInPlace | app/contexts/ChatContext.jsx:283-327 | the appended optimistic message is swapped for the server's message in the same place |
| ChatCache.FailedStays | app/contexts/ChatContext.jsx:283-361 | the appended optimistic message stays, marked failed |
| ChatCache.LastWithIdFound | app/contexts/ChatContext.jsx:119-122 | the value a Map keeps for an id is a chat of the input with that id; none exactly when no chat has it |
| ChatCache.FirstSeenIdsProperties | app/contexts/ChatContext.jsx:119-122 | the Map's keys are exactly the ids of the input, each once |
| ChatCache.Deduplicated | app/contexts/ChatContext.jsx:119-123 | one entry per key of the Map |
| ChatCache.DeduplicatedProperties | app/contexts/ChatContext.jsx:119-123 | the values hold distinct ids, cover every input id, and each is the last chat received with its id |
| ChatCache.MapSetStep | app/contexts/ChatContext.jsx:121 | one `chatMap.set` adds the id at the end if new and makes the chat the value for its id |
| ChatCache.MergeChats | app/contexts/ChatContext.jsx:119-123 | the loop over both lists builds exactly the Map's values in insertion order |
| ChatCache.InsertByRecency | app/contexts/ChatContext.jsx:123-125 | inserting adds one element |
| ChatCache.InsertByRecencyAddsOne | app/contexts/ChatContext.jsx:123-125 | inserting adds exactly the new chat to the multiset |
| ChatCache.InsertByRecencyKeepsOrder | app/contexts/ChatContext.jsx:123-125 | inserting into a newest-first list keeps it newest first |
| ChatCache.InsertByRecencyKeepsDistinct | app/contexts/ChatContext.jsx:123-125 | inserting a new id keeps the ids distinct |
| ChatCache.SortByRecency | app/contexts/ChatContext.jsx:123-125 | sorting keeps the length |
| ChatCache.SortByRecencyProperties | app/contexts/ChatContext.jsx:123-125 | the sort is a permutation, newest `updatedAt` first, and keeps ids distinct |
| ChatCache.OtherUserId | app/contexts/ChatContext.jsx:130 | for a participant of a chat between two people, the other participant |
| ChatCache.DisplayName | app/contexts/ChatContext.jsx:139-154 | the profile's display name when it has one, otherwise 'Unknown User'; never empty |
| ChatCache.Annotate | app/contexts/ChatContext.jsx:128-157 | one entry per chat, in the same order, each the chat itself with the other participant's id and display name |
| ChatCache.AnnotatedNames | app/contexts/ChatContext.jsx:139-155 | the other participant's display name is the profile's non-empty name, else 'Unknown User' |
| ChatCache.ChatList | app/contexts/ChatContext.jsx:119-159 | the list has one entry per distinct chat id received |
| ChatCache.ChatListProperties | app/contexts/ChatContext.jsx:119-159 | the chat list holds every chat id of both lists exactly once, newest first, each the last copy received, each with the other participant, whose display name is the profile's non-empty name or 'Unknown User' |
| ChatCache.ChatProvider.constructor | app/contexts/ChatContext.jsx:27-29 | no chats, loading, empty message cache |
| ChatCache.ChatProvider.GetCachedMessages | app/contexts/ChatContext.jsx:177-214 | no user gives []; a fresh in-memory entry is returned as is; otherwise the stored entry is loaded into memory and returned, or [] |
| ChatCache.ChatProvider.RefreshMessages | app/contexts/ChatContext.jsx:217-256 | on success both caches hold the fetched messages with the time and they are returned; otherwise [] and nothing changes |
| ChatCache.ChatProvider.SendMessage | app/contexts/ChatContext.jsx:259-374 | no user or blank content sends nothing; otherwise the optimistic message has a `temp_` id, the trimmed content and 'sending', and `Delivered` describes the rest |
| ChatCache.ChatProvider.Deliver | app/contexts/ChatContext.jsx:279-372 | with no cached list nothing local changes; otherwise the message is appended, then swapped for the server's message or marked failed; the stored copy is written from the list as it was before the send |
| ChatCache.ChatProvider.RefreshChats | app/contexts/ChatContext.jsx:93-174 | on success the chats are the merged, sorted, annotated list and are stored under the user's key; on failure nothing changes; loading ends |
| ChatCache.ChatProvider.LoadCachedChats | app/contexts/ChatContext.jsx:65-90 | refreshes exactly when there is a user and the stored list is missing or expired; otherwise shows the stored list; a refresh with both queries answered shows and stores the merged list, and a failed refresh keeps the stored list (or the old one) with storage unchanged; loading ends |
| ChatCache.ChatProvider.ClearCacheOnLogout | app/contexts/ChatContext.jsx:49-62 | exactly the chat and message cache keys are removed |
| ChatCache.ChatProvider.ClearCache | app/contexts/ChatContext.jsx:377-395 | with a user: the user's chat key and every message key are removed, and both in-memory lists are emptied |
| ChatCache.ChatProvider.OnUserChanged | app/contexts/ChatContext.jsx:35-47 | on logout everything is cleared in memory and in storage, and loading ends; on login the cached list is loaded and refreshed exactly as `LoadCachedChats` states |
| ChatCache.PersistedCopyLacksSentMessage | app/contexts/ChatContext.jsx:321-342 | the stored copy after a send is the pre-send list unchanged, while the in-memory list holds the server's message |
| VerifyEmail.DigitsOnly | app/verify-email.jsx:142 | `replace(/[^0-9]/g, '')` leaves only digits and never lengthens |
| VerifyEmail.SanitizeCode | app/verify-email.jsx:142 | the kept code is all digits, at most six, and a prefix of the digits typed: all of them or exactly six |
| VerifyEmail.DigitsOnlyOfDigits | app/verify-email.jsx:142 | a digit string passes the filter unchanged |
| VerifyEmail.SanitizeCodeIdempotent | app/verify-email.jsx:142 | sanitizing twice is sanitizing once; a code of up to six digits is kept as typed |
| VerifyEmail.ShownEmail | app/verify-email.jsx:134 | the pending profile's address if any, then the user's, then 'your email'; never empty |
| VerifyEmail.PendingProfileIn | app/verify-email.jsx:59-61 | the pending profile is found exactly when a profile is stored under 'pendingProfile', and it is that profile |
| VerifyEmail.PendingProfileUnaffected | app/verify-email.jsx:55-61 | verifying the code (clearing the pending id, caching the user) leaves the pending profile as it was |
| VerifyEmail.VerifyEmailScreen.constructor | app/verify-email.jsx:15-19 | empty code, nothing in flight, no messages |
| VerifyEmail.VerifyEmailScreen.OnChangeCode | app/verify-email.jsx:140-165 | the code becomes the sanitized text and the error is cleared; the verify button is then enabled exactly when at least six digits were typed and no verification is in flight |
| VerifyEmail.ShouldRedirect | app/verify-email.jsx:39-43 | the screen leaves only with a signed-in user |
| VerifyEmail.VerifyEmailScreen.HandleVerifyCode | app/verify-email.jsx:45-97 | a code that is not six characters only sets 'Please enter a 6-digit code' and leaves the context alone; otherwise the context's verification runs and its error is shown as `message \|\| 'Invalid or expired code'`; with no target or a refused code the user, the pending id and storage stay as they were; an accepted code clears the pending id, and a failed fetch then leaves the user and removes only the stored pending id; success sets the user, creates the pending profile and reports it, and the screen then redirects exactly when the fetched account's e-mail is verified (`isEmailVerified`) |
| VerifyEmail.VerifyEmailScreen.TakePendingProfile | app/verify-email.jsx:58-88 | the stored pending profile is returned, and its entry is removed only when its document was created |
| VerifyEmail.VerifyEmailScreen.HandleResendCode | app/verify-email.jsx:99-113 | success shows 'New code sent!', clears the code and stores the pending id; failure shows `message \|\| 'Failed to send code'` and changes nothing else |
| ListingForm.RequiredError | app/components/ListingForm.jsx:186-190 | a required field's error, when present, is its own message |
| ListingForm.RequiredErrorIffBlank | app/components/ListingForm.jsx:186-190 | the error is present exactly when the text is blank |
| ListingForm.LivePriceError | app/components/ListingForm.jsx:220-233 | the live price error is one of the three price messages |
| ListingForm.LivePriceErrorCases | app/components/ListingForm.jsx:220-233 | blank gives 'Enter a valid price.', no number gives 'Price must be a number.', a negative number gives 'Price cannot be negative.', and a non-negative number gives no error |
| ListingForm.ValidPrice | app/components/ListingForm.jsx:73 | the form accepts a price exactly when the price field shows no live error |
| ListingForm.FormErrors | app/components/ListingForm.jsx:68-79 | every flagged field carries a non-empty message |
| ListingForm.FormErrorsAgreeWithLiveErrors | app/components/ListingForm.jsx:68-79 | submit-time validation flags the same fields as the live checks, with the same required-field messages |
| ListingForm.FormValidIffNoLiveErrors | app/components/ListingForm.jsx:68-79 | the form is valid exactly when no live check reports an error |
| ListingForm.SpliceOne | app/components/ListingForm.jsx:62-66 | `splice(index, 1)` on a copy: at the position the index selects, exactly that element goes (one fewer, as a multiset) and the others keep their order; an index past the end leaves the list as it was |
| ListingForm.RemoveExactlyOne | app/components/ListingForm.jsx:62-66 | removing a valid index drops exactly that image and keeps the others in order |
| ListingForm.SpliceIndexRules | app/components/ListingForm.jsx:62-66 | a negative index counts from the end, one before the start removes the first image, one past the end removes nothing, and a negative index on a non-empty list always removes one image |
| ListingForm.ImageRecords | app/components/ListingForm.jsx:111-163 | at most one record per image |
| ListingForm.ImageRecordsOrder | app/components/ListingForm.jsx:150-158 | each record names the listing, the uploaded file and its image's index; records are in image order, and every successful upload has one |
| ListingForm.Outcomes | app/components/ListingForm.jsx:112 | one upload outcome per image, as given |
| ListingForm.ListingFormScreen.constructor | app/components/ListingForm.jsx:20-28 | every field empty, no images, not submitting, no errors |
| ListingForm.ListingFormScreen.OnChangeTitle | app/components/ListingForm.jsx:186-190 | the title changes and only its error is recomputed |
| ListingForm.ListingFormScreen.OnChangeDescription | app/components/ListingForm.jsx:201-205 | the description changes and only its error is recomputed |
| ListingForm.ListingFormScreen.OnChangePrice | app/components/ListingForm.jsx:220-233 | the price changes and only its live error is recomputed |
| ListingForm.ListingFormScreen.OnChangeCategory | app/components/ListingForm.jsx:246-250 | the category changes and only its error is recomputed |
| ListingForm.ListingFormScreen.ValidateForm | app/components/ListingForm.jsx:68-79 | the errors become those of the form, and the result is true exactly when there are none |
| ListingForm.ListingFormScreen.PickImage | app/components/ListingForm.jsx:30-60 | with permission and a picked asset the image is appended; a refusal or an error shows its alert; a cancel does nothing |
| ListingForm.ListingFormScreen.RemoveImage | app/components/ListingForm.jsx:62-66 | the images become the spliced list |
| ListingForm.ListingFormScreen.SubmitListing | app/components/ListingForm.jsx:81-176 | an invalid form sends nothing; a valid one has a valid price, sends the trimmed listing and the image records, and alerts success or failure |
| LoginScreen.Toggle | app/login.tsx:189 | the mode button always switches mode |
| LoginScreen.FailureMessage | app/login.tsx:88-93 | the login failure text is shown exactly in login mode, the registration text otherwise |
| LoginScreen.FormErrors | app/login.tsx:39-55 | login mode never flags the name, and every flagged field has a non-empty message |
| LoginScreen.FormErrorsCases | app/login.tsx:39-55 | e-mail and password are required; the name only when registering, blank before short |
| LoginScreen.LoginNeedsNoName | app/login.tsx:44-50 | in login mode the name is never checked |
| LoginScreen.LoginForm.constructor | app/login.tsx:19-29 | login mode, empty fields, no errors |
| LoginScreen.LoginForm.ToggleMode | app/login.tsx:189 | switches the mode and keeps the fields |
| LoginScreen.LoginForm.ValidateForm | app/login.tsx:39-55 | the errors become those of the form, and the result is true exactly when there are none |
| LoginScreen.LoginForm.HandleAuth | app/login.tsx:57-97 | an invalid form does nothing; otherwise it navigates exactly when every step succeeds, with the user set and cached under 'currentUser'; on failure it alerts the mode's failure message and the user and storage stay as they were; it creates the profile with the trimmed name on registration, still navigates when that profile creation fails, never touches the pending verification, and loading ends |
| SignIn.RegisterBlocker | app/sign-in.tsx:61-72 | a rejected address is always the first alert, and registration goes ahead only with a non-blank name and a password of at least 8 characters |
| SignIn.ShouldRedirect | app/sign-in.tsx:26-34 | the screen redirects exactly when a user is present (neither null nor undefined) |
| SignIn.RegisterBlockerCases | app/sign-in.tsx:61-72 | registration goes ahead exactly for an accepted address, a non-blank name and a password of at least 8 characters, and the first failing check picks the alert |
| SignIn.SignInScreen.constructor | app/sign-in.tsx:18-21 | empty fields, signing in |
| SignIn.SignInScreen.ToggleForm | app/sign-in.tsx:85-87 | flips between registering and signing in |
| SignIn.SignInScreen.HandleLogin | app/sign-in.tsx:27-58 | a rejected address shows its alert and the context is not asked; otherwise it navigates exactly when the login succeeds, the redirect effect fires only when the status check then finds a user, and the context's loading ends |
| SignIn.SignInScreen.HandleRegister | app/sign-in.tsx:61-82 | a failed check shows its alert and the context is not asked; a refused registration shows 'Registration Failed' with the backend's message; success shows 'Registration successful!' and returns to signing in; once the context is asked its loading ends |
| SignIn.SignInScreen.Submit | app/sign-in.tsx:145 | the button registers while registering (never navigating) and signs in otherwise |
| ProfileForm.OrEmpty | app/components/UserProfileForm.jsx:7-10 | `field \|\| ''`: the field when present, '' when absent |
| ProfileForm.DisplayNameError | app/components/UserProfileForm.jsx:15-16 | every rejection has a message, and a name passes only with at least two characters after trimming |
| ProfileForm.DisplayNameErrorCases | app/components/UserProfileForm.jsx:15-16 | the name passes exactly with at least two characters after trimming; blank gives 'Display name is required', one character the length message |
| ProfileForm.UserProfileForm.constructor | app/components/UserProfileForm.jsx:6-11 | each field starts from the existing profile or '' |
| ProfileForm.UserProfileForm.SaveProfile | app/components/UserProfileForm.jsx:14-36 | a bad name only alerts; otherwise all four fields are sent trimmed for the current user's document, success alerts and calls the callback, failure alerts `message \|\| 'Failed to save profile.'`, and loading ends |
| SearchFilters.OrDefault | app/components/SearchFilters.jsx:24-32 | `value \|\| fallback`: an absent or empty value gives the fallback |
| SearchFilters.PriceText | app/components/SearchFilters.jsx:25-30 | `null` gives '', a number its non-empty text, and an absent price the TypeError |
| SearchFilters.InitialState | app/components/SearchFilters.jsx:24-32 | missing filters are the TypeError; an opened panel applied as is gives a null minimum exactly when the given minimum was null |
| SearchFilters.InitialStateCases | app/components/SearchFilters.jsx:24-32 | the panel opens exactly when filters are given with both prices null or numbers; a price text is empty exactly when that price is null |
| SearchFilters.ReadPrice | app/components/SearchFilters.jsx:38-39 | an empty price text is `null` and any other goes through `parseFloat` |
| SearchFilters.Apply | app/components/SearchFilters.jsx:35-44 | the applied filters keep the chips and make each price null exactly when its text is empty |
| SearchFilters.ApplyAfterReset | app/components/SearchFilters.jsx:47-53 | applying after a reset gives 'All', no prices, 'All', 'recent' |
| SearchFilters.NaNRoundTrip | app/components/SearchFilters.jsx:26-38 | a NaN price survives `toString` and `parseFloat` |
| SearchFilters.ReopenAndApply | app/components/SearchFilters.jsx:24-44 | opening on filters and applying without edits hands back the same filters (whole-number, NaN or null prices) |
| SearchFilters.PriceRoundTrip | app/components/SearchFilters.jsx:26-38 | such a price reads back as itself |
| SearchFilters.Choices | app/components/SearchFilters.jsx:79-133 | the chips are 'All' followed by the offered choices in order |
| SearchFilters.SearchFiltersPanel.constructor | app/components/SearchFilters.jsx:24-32 | the panel holds its initial state |
| SearchFilters.SearchFiltersPanel.SelectCategory | app/components/SearchFilters.jsx:83 | only the category changes |
| SearchFilters.SearchFiltersPanel.EditMinPrice | app/components/SearchFilters.jsx:104 | only the minimum price text changes |
| SearchFilters.SearchFiltersPanel.EditMaxPrice | app/components/SearchFilters.jsx:117 | only the maximum price text changes |
| SearchFilters.SearchFiltersPanel.SelectCondition | app/components/SearchFilters.jsx:137 | only the condition changes |
| SearchFilters.SearchFiltersPanel.SelectSort | app/components/SearchFilters.jsx:151-159 | one of the three sort values is chosen and only the sort changes |
| SearchFilters.SearchFiltersPanel.HandleReset | app/components/SearchFilters.jsx:47-53 | back to the reset state |
| SearchFilters.SearchFiltersPanel.HandleApply | app/components/SearchFilters.jsx:35-44 | hands on the filters `Apply` gives for the current state |
| CreateChat.Matching | functions/create-chat/src/main.js:62-70 | the existing chats are exactly the rows with this listing, buyer and seller |
| CreateChat.HandleCreateChat | functions/create-chat/src/main.js:9-118 | success is exactly status 200, and a chat is created only on the paths that end in 200 or 500 |
| CreateChat.UnauthenticatedFirst | functions/create-chat/src/main.js:11-16 | with no user id the reply is 401 'Authentication required', whatever else is sent |
| CreateChat.GuardOrder | functions/create-chat/src/main.js:18-40 | a bad body, a missing field or chatting with oneself gives 400 with its own message, checked in that order |
| CreateChat.SellerMismatchRefused | functions/create-chat/src/main.js:56-59 | a seller who does not own the listing gives 400 'Invalid seller for this listing' |
| CreateChat.ExistingChatReused | functions/create-chat/src/main.js:72-79 | an existing chat is returned with `existing: true` and nothing is created |
| CreateChat.ChatPermissions | functions/create-chat/src/main.js:95-104 | only the buyer and the seller get permissions; both may read and update, and only the buyer may delete |
| CreateChat.NewChatShape | functions/create-chat/src/main.js:81-105 | a created chat names the caller as buyer and the listing's owner as seller; both may read and update it, only the buyer may delete it |
| CreateChat.SucceedsExactly | functions/create-chat/src/main.js:9-118 | the reply succeeds exactly when the request is well formed, the seller owns the listing, the lookup works, and a chat exists or is created |
| CreateChat.DatabaseFailure500 | functions/create-chat/src/main.js:114-117 | a failing database call gives 500 with its message |
| ImageUrl.GetImageUrl | appwrite.ts:44-69 | the URL is empty exactly when tunnel mode is off and a parameter is missing |
| ImageUrl.UrlShape | appwrite.ts:58-68 | a URL is the base, the preview path of the bucket and file, then the requested or default width and height, and ends with the project parameter |
| ImageUrl.UrlSize | appwrite.ts:58-68 | between that prefix and that suffix the URL holds the requested width and height, or 400 and 300 where they are omitted |
| ImageUrl.DefaultSize | appwrite.ts:47-48 | omitted sizes are 400 by 300 |
| ImageUrl.TunnelIgnoresEndpoint | appwrite.ts:54-59 | in tunnel mode the endpoint is not used and a URL is always produced |
| ImageUrl.DirectUrlHasNoExtraVersion | appwrite.ts:67-68 | the direct URL is the endpoint followed by `/storage/`, with no extra `/v1` |
| ListingGrid.IsNew | app/components/ListingGrid.jsx:61-67 | a listing whose date does not parse never gets the badge |
| ListingGrid.IsNewWithinThreeDays | app/components/ListingGrid.jsx:61-67 | a listing is new exactly when it is at most three whole days (in milliseconds) from now |
| ListingGrid.IsNewSymmetric | app/components/ListingGrid.jsx:64 | past and future dates the same distance away are treated alike |
| ListingGrid.IsNewAtZero | app/components/ListingGrid.jsx:61-67 | a listing created now is new |
| ListingGrid.IsNewMonotone | app/components/ListingGrid.jsx:61-67 | a date closer to now than a new one is new |
| ListingGrid.IsNewBoundary | app/components/ListingGrid.jsx:65-66 | exactly three days is new; one millisecond more is not |

## Left out

- Network, SDK and storage I/O are not modelled as effects. Each call's answer is a parameter, so concurrency, `Promise.all` interleavings and React's asynchronous state updates are not modelled.
- AsyncStorage itself never fails in this model. JSON text is not modelled: a stored value is kept as the typed record that was serialised into it. For 'currentUser', a non-empty plain text entry is the one `JSON.parse` rejects; a record of another kind parses in the source and is shown until the session check replaces it, so the model treats it like an absent entry. For the chat list and message keys, an entry of the wrong kind counts as unparsable.
- Dates: ISO timestamps are strings passed in, and `Date.now()` and `Date` differences are integer milliseconds. `ListingGrid.IsNew` takes an already parsed date, with None for an unparsable one.
- `ChatCache.SortByRecency`: the sort's stability is not proved; only the order, the permutation and distinct ids are. The comparator's behaviour on unparsable dates (NaN) is left out, since `updatedAt` is an integer here.
- `ChatCache.ChatProvider.RefreshChats`: each profile lookup is a map from user ids to display names. A lookup that fails counts as a missing id, which is also what the source does.
- `ListingForm.ListingFormScreen.SubmitListing`: each image upload (the HTTP POST and the image record) is one outcome parameter holding the file id, and `fileData.$id || fileId` is folded into it. The upload request's form data is left out.
- `Numbers.ParseLiteral`: it covers leading whitespace, sign, digits and one fraction. Exponents, `Infinity`, hexadecimal and other forms are left out.
- `Numbers.ParseLiteral` keeps the exact decimal that was read instead of the nearest IEEE-754 double. Rounding to the nearest double, underflow to ±0 and loss of precision beyond 17 significant digits are not modelled. For example, "-0." followed by 400 zeros and a 1 reads as -0 in JavaScript and passes the price checks, while the model counts it as negative. Likewise "9007199254740993" reaches `onApplyFilters` as 9007199254740992 in JavaScript but unchanged here. The listing's stored `price` is the exact decimal, not the rounded double.
- `Numbers.ToNumber` and `Numbers.ParseFloat` inherit that exact-decimal reading, and so do the members built on them: `ListingForm.LivePriceError`, `ListingForm.ValidPrice`, `SearchFilters.ReadPrice` and `SearchFilters.Apply`.
- `Numbers.NumberToString`: it prints plain decimals, never exponent notation.
- `SearchFilters.ReopenAndApply`: it is proved for whole-number, NaN and null prices only. A fractional price such as 2.50 comes back as the same value but with a different written scale.
- String lengths count characters, not UTF-16 code units, so the length checks in the login, sign-in, profile and verification forms differ from the source for characters outside the Basic Multilingual Plane.
- `isValidUTAEmail`, `registerUser`, `loginUser`, `logoutUser` and `getCurrentUser` (lib/appwrite) are not part of this model. Their answers are parameters.
- Navigation (`router.replace`) is an output flag. The redirect effects are stated as conditions on the state, not as navigation: `ShouldRedirect` on the verification and sign-in screens. The login screen's redirect on a present user is covered only by `HandleAuth` setting the user on success.
- UI-only state and rendering are left out: `passwordVisible`, the loading screens, styles and themes. The resend button's `disabled` flag is the `CanResend` predicate, and no property is stated about it.
- The admin and setup scripts, `app/chat/new.jsx`, `appwrite/config.ts` and every screen outside the files above are left out.
- Logging (`console.*`) is left out.
- `SearchFilters.SearchFiltersPanel.HandleApply` returns the filters but does not model the `onClose()` call that follows them: the panel's visibility belongs to the screen that opens it.
- `CreateChat.HandleCreateChat` takes the request body as already parsed fields. A body that parses to JSON `null` makes the destructuring in main.js throw, and that path is not modelled.
