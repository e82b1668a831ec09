# DocRank client rules, modelled in Dafny

DocRank is a browser client for finding, reviewing and bookmarking doctors.
Most of it renders pages. This project models the small sequential rules
underneath that rendering and proves what they promise:

- the **saved-doctor store** (`SavedProvider`). It keeps the bookmarked ids
  and the ids with a toggle request in flight. A toggle is guarded per id,
  flips membership optimistically, reverts on failure and clears the
  in-flight mark when the request settles. The store also refreshes the
  list when the sign-in state changes.
- the **session store** (`AuthProvider`): login, logout and restore over
  the three local-storage keys `access_token`, `refresh_token` and
  `user_data`. `isAuthenticated` depends on the token alone.
- the **request interceptor**: it signs each request with the token it
  reads from storage at that moment.
- the **doctor detail view**: it puts the viewer's review first, prefills
  the review form, chooses PATCH or POST on submit, and resets after a
  delete.
- the **registration page**: password-strength flags, the order of the
  checks, error-message selection, and the OTP step.
- the **password-reset page**: the step change and the checks on the new
  password.
- the **saved-doctors page**: extracting the doctor records and the
  case-insensitive search over name, specialty and hospital.
- the **my-reviews page**: delete by id and editing.

Layout: one module per source file (`Saved`, `Auth`, `Http`,
`DoctorDetails`, `Register`, `SavedDoctors`, `ForgotPassword`, `MyReviews`),
plus these helper modules:

- `Common`: Option and JavaScript truthiness.
- `Seqs`: a generic `Filter`, `Subsequence` and `AnyOf`, with their lemmas.
- `Text`: ASCII lower-casing, `includes`, and UTF-16 length.
- `Storage`: local storage as a `map<string, string>`, and the session keys.

Each component whose state the source updates step by step is a class.
Its methods take network outcomes as parameters: an `ok` flag, or the
response body as an `Option` (`None` means the request failed). Each method
states the new state it leaves behind. What callers rely on is proved as
lemmas about the specification functions these methods use.

Two facts about the code that a reader might not expect:

- `logout` does not reset a default authorization header and does not
  reload the page. `login` does not set a default header either; requests
  are signed only by the interceptor.
- A session whose stored user data is missing is still authenticated. The
  first render already takes the token from storage, and `isAuthenticated`
  looks only at the token, so a stored token without user data gives an
  authenticated session with no user (`Auth.TokenWithoutUser`).

## Model

| member | source | states |
|---|---|---|
| Saved.ExtractIds | src/context/SavedContext.tsx:26 | one id per fetched record, in order: the record's `doctor` when present and non-zero, otherwise its `id` |
| Saved.Without | src/context/SavedContext.tsx:49 | the result holds exactly the ids of the input other than `d` |
| Saved.Optimistic | src/context/SavedContext.tsx:47-50 | membership of `d` becomes the negation of `wasSaved`; membership of every other id is unchanged |
| Saved.Rollback | src/context/SavedContext.tsx:57-60 | membership of `d` becomes `wasSaved` again; membership of every other id is unchanged |
| Saved.WithoutIsSubsequence | src/context/SavedContext.tsx:62 | clearing the in-flight mark keeps the other in-flight ids in their order |
| Saved.WithoutAbsent | src/context/SavedContext.tsx:49 | filtering out an id that is absent returns the list unchanged |
| Saved.WithoutAppended | src/context/SavedContext.tsx:44-62 | appending an absent id and then filtering it out gives back the original list exactly |
| Saved.FailedAddRestoresList | src/context/SavedContext.tsx:47-60 | a failed add of an unsaved id restores the saved list exactly |
| Saved.FailedRemoveRestoresMembership | src/context/SavedContext.tsx:47-60 | a failed remove restores every id's membership; `d` reappears once, at the end |
| Saved.SavedStore.IsSaved | src/context/SavedContext.tsx:38 | definition, no contract of its own: membership of the id in `savedIds`; the toggle contracts are stated through it |
| Saved.SavedStore.constructor | src/context/SavedContext.tsx:16-18 | both lists start empty |
| Saved.SavedStore.Refresh | src/context/SavedContext.tsx:20-36 | signed out: list emptied; fetch succeeded: list replaced by the extracted ids; fetch failed: list unchanged |
| Saved.SavedStore.BeginToggle | src/context/SavedContext.tsx:40-50 | signed out, or `d` already in flight: no request and no change. Otherwise the request is sent, `wasSaved` is the prior membership, `d` is appended to the in-flight list, and the saved list is flipped optimistically |
| Saved.SavedStore.SettleToggle | src/context/SavedContext.tsx:52-63 | success leaves the list alone; failure rolls it back; `d` leaves the in-flight list and the other in-flight ids stay |
| Saved.SavedStore.ToggleSave | src/context/SavedContext.tsx:40-64 | a whole toggle: membership of `d` is negated exactly when the request was sent and succeeded; no other id changes; the in-flight list ends as it began; the in-flight list never holds an id twice |
| Saved.DoubleToggle | src/context/SavedContext.tsx:41-44 | from any valid state: the first of two toggles of the same id is sent iff signed in and the id is not already in flight; the second, before the first settles, never sends a request |
| Auth.Initial | src/context/AuthContext.tsx:20-21 | the first-render token is `access_token` as stored, with no user |
| Auth.Authenticated | src/context/AuthContext.tsx:49 | definition, no contract of its own: the token is truthy; the user is ignored |
| Auth.Startup | src/context/AuthContext.tsx:20-30 | a page load keeps the stored `access_token` as the token and is authenticated iff that token is truthy; the user is the stored user data exactly when both stored values are truthy, and null otherwise |
| Auth.Restored | src/context/AuthContext.tsx:23-30 | the stored token and user are taken only when both are truthy; otherwise the state is unchanged |
| Auth.LoginWrites | src/context/AuthContext.tsx:32-36 | the three session keys hold the access token, the refresh token and the user data; every other key is unchanged |
| Auth.LogoutClears | src/context/AuthContext.tsx:40-44 | the three session keys are absent; every other key is unchanged |
| Auth.ReloadAfterLogin | src/context/AuthContext.tsx:20-38 | reloading after login gives back the same token, and the same user when the access token is non-empty |
| Auth.ReloadAfterLogout | src/context/AuthContext.tsx:20-46 | reloading after logout gives no token and no user, so the session is signed out |
| Auth.TokenWithoutUser | src/context/AuthContext.tsx:20-30 | a stored token without user data is authenticated with a null user |
| Auth.AuthStore.IsAuthenticated | src/context/AuthContext.tsx:49 | definition, no contract of its own: `Authenticated` of the current token and user; `Login` and `Logout` state their results through it |
| Auth.AuthStore.constructor | src/context/AuthContext.tsx:20-21 | token read from `access_token`, no user |
| Auth.AuthStore.Restore | src/context/AuthContext.tsx:23-30 | the state after the mount effect is `Restored` of the state before |
| Auth.AuthStore.Login | src/context/AuthContext.tsx:32-38 | storage becomes `LoginWrites`; token and user are set; authenticated iff the access token is non-empty |
| Auth.AuthStore.Logout | src/context/AuthContext.tsx:40-46 | storage becomes `LogoutClears`; token and user are null; not authenticated |
| Http.Signed | src/api/axios.ts:12-17 | a truthy stored token sets `Authorization` to `Bearer <token>`; an absent or empty token leaves the headers as given; no header other than `Authorization` changes |
| Http.RequestConfig.constructor | src/api/axios.ts:12 | the config the interceptor receives: a URL and a header map, stored as given |
| Http.Intercept | src/api/axios.ts:12-18 | the same config object is returned, with its headers signed from the storage passed in for this request |
| Http.SignedAfterLogin | src/api/axios.ts:12-16 | the first request after a login with a non-empty token carries `Bearer` plus that token |
| Http.UnsignedAfterLogout | src/api/axios.ts:12-17 | after logout, requests keep the headers they were given |
| DoctorDetails.FirstIndexBy | src/components/DoctorDetails.tsx:79 | the index of the first review by the viewer, or the length when there is none |
| DoctorDetails.FindMine | src/components/DoctorDetails.tsx:79 | a found review is in the list and was written by the viewer; nothing is found iff no review in the list is the viewer's |
| DoctorDetails.Others | src/components/DoctorDetails.tsx:80 | the result holds exactly the reviews of the list whose author is not the viewer |
| DoctorDetails.Arrange | src/components/DoctorDetails.tsx:78-88 | definition, no contract of its own: the viewer's review first, then `Others`, or the list as fetched; its properties are `ArrangeMineFirst` and `ArrangeNoMatch`, and `FetchReviews`, `SubmitReview` and `DeleteMyReview` are stated through it |
| DoctorDetails.ArrangeMineFirst | src/components/DoctorDetails.tsx:78-84 | the viewer's first review is marked as theirs and shown first. The rest is the order-preserving subsequence of the other authors' reviews, each as often as fetched, with no further review by the viewer |
| DoctorDetails.ArrangeNoMatch | src/components/DoctorDetails.tsx:85-88 | with no review by the viewer, nothing is theirs and the list is shown exactly as fetched |
| DoctorDetails.SubmitRequest | src/components/DoctorDetails.tsx:116-124 | no request without a doctor; PATCH of the viewer's review id when they have one; otherwise POST with the doctor's id |
| DoctorDetails.SubmitAfterOwnReviewUpdates | src/components/DoctorDetails.tsx:78-121 | once the fetched list holds the viewer's review, submit sends a PATCH of that review, not a second POST |
| DoctorDetails.DetailView.constructor | src/components/DoctorDetails.tsx:57-68 | no reviews, dialogs closed, rating 10, empty comment |
| DoctorDetails.DetailView.FetchReviews | src/components/DoctorDetails.tsx:71-95 | no doctor or failed fetch: nothing changes. Signed-in viewer: the state is `Arrange` of the fetched list. Otherwise: the list is replaced and `myReview` is kept |
| DoctorDetails.DetailView.OpenWrite | src/components/DoctorDetails.tsx:104-113 | the form is prefilled from the viewer's review, or set to 10 and empty; the writer opens |
| DoctorDetails.DetailView.SubmitReview | src/components/DoctorDetails.tsx:116-133 | exactly the request of `SubmitRequest`; without a doctor no state changes. Success closes the writer, opens the success dialog and refetches. Failure keeps the dialogs and list. `loading` ends false |
| DoctorDetails.DetailView.DeleteMyReview | src/components/DoctorDetails.tsx:136-149 | nothing without the viewer's review. Otherwise DELETE of its id. Success clears it before the refetch: the list then is `Arrange` of the refetch for a signed-in viewer, the refetched list for a signed-out one, and unchanged without a doctor or when the refetch fails. Failure changes nothing but `loading`, which ends false |
| DoctorDetails.CreateThenUpdate | src/components/DoctorDetails.tsx:104-127 | creating a review for doctor 12 with no prior review posts it; repeating the action patches that review |
| Register.StrengthOf | src/pages/Register.tsx:47-54 | `length` iff the UTF-16 length is at least 8; `number`, `special` and `upper` iff some character is 0-9, one of `!@#$%^&*(),.?":{}|<>`, or A-Z |
| Register.LengthFlagOfBmp | src/pages/Register.tsx:49 | for a password made only of Basic Multilingual Plane characters, the `length` flag means at least 8 characters |
| Register.RegisterCheck | src/pages/Register.tsx:62-70 | a mismatch is reported before weakness; the request goes out iff the passwords match and all four flags hold |
| Register.RegisterErrorMessage | src/pages/Register.tsx:82-85 | the first username error if truthy, else the first email error if truthy, else the fixed default; never empty |
| Register.VerifyNext | src/pages/Register.tsx:103-115 | log in and go home iff the verify call succeeded with truthy access and refresh tokens; stay with an error iff it failed; otherwise go to the login page |
| Register.RegisterForm.constructor | src/pages/Register.tsx:16-39 | step 1, empty form, all flags false, consistent with the empty password |
| Register.RegisterForm.HandleChange | src/pages/Register.tsx:42-55 | the field named by `id` takes the value. Flags are recomputed only for the password field. The flags always describe the password in the form |
| Register.RegisterForm.HandleRegister | src/pages/Register.tsx:58-89 | sent iff the passwords match and the password meets all four rules; otherwise the check's message is shown and the step is unchanged. On success the step becomes 2; on rejection the selected error is shown; `loading` ends false |
| Register.RegisterForm.HandleVerify | src/pages/Register.tsx:92-118 | the outcome is `VerifyNext` of the response; a failure sets the fixed error; the step is unchanged; `loading` ends false |
| Register.RegisterForm.Back | src/pages/Register.tsx:277 | the back button returns to step 1 |
| SavedDoctors.ExtractDoctors | src/pages/SavedDoctors.tsx:44 | the result holds exactly the present `doctor_details` of the entries |
| SavedDoctors.ExtractConcat | src/pages/SavedDoctors.tsx:44 | extraction works entry by entry, preserving order |
| SavedDoctors.ExtractAllPresent | src/pages/SavedDoctors.tsx:44 | when every entry has details, the result is those details one for one |
| SavedDoctors.Matches | src/pages/SavedDoctors.tsx:72-76 | definition, no contract of its own: the lower-cased query is included in the lower-cased name, specialty or hospital, missing fields read as empty; its meaning is `MatchesMeansOccurs` |
| SavedDoctors.FilterDoctors | src/pages/SavedDoctors.tsx:65-79 | definition, no contract of its own: all doctors for an empty search, otherwise `Filter` by `Matches`; its properties are `FilterDoctorsSpec` |
| SavedDoctors.FilterDoctorsSpec | src/pages/SavedDoctors.tsx:65-79 | an empty search gives the doctors unchanged. Otherwise the result holds exactly the doctors, each as often as in the input, whose lower-cased name, specialty or hospital (missing means empty) contains the lower-cased search. Either way it is a subsequence of the doctors |
| SavedDoctors.MatchesMeansOccurs | src/pages/SavedDoctors.tsx:71-76 | a doctor matches iff the lower-cased query occurs at some position of one of its three lower-cased fields |
| SavedDoctors.SavedDoctorsPage.constructor | src/pages/SavedDoctors.tsx:28-33 | empty lists, empty search, loading, nothing selected |
| SavedDoctors.SavedDoctorsPage.FetchSaved | src/pages/SavedDoctors.tsx:36-58 | an array response sets both lists to the extracted doctors; a non-array response or a failed request empties both; `loading` ends false |
| SavedDoctors.SavedDoctorsPage.ApplySearch | src/pages/SavedDoctors.tsx:65-79 | the filtered list is `FilterDoctors` of the doctors and the search, a subsequence of the doctors |
| SavedDoctors.SavedDoctorsPage.CloseModal | src/pages/SavedDoctors.tsx:82-85 | the selection is cleared and the list is fetched again |
| ForgotPassword.RequestOtpMessage | src/pages/ForgotPassword.tsx:46-51 | the message names the e-mail address whether or not the request succeeded |
| ForgotPassword.ResetCheck | src/pages/ForgotPassword.tsx:62-70 | a mismatch is reported before the length rule; the request goes out iff the passwords match and the UTF-16 length is at least 8 |
| ForgotPassword.ResetForm.constructor | src/pages/ForgotPassword.tsx:21-31 | step 1, empty fields and messages |
| ForgotPassword.ResetForm.RequestOtp | src/pages/ForgotPassword.tsx:38-55 | step 2 on either outcome; only the message differs; error cleared; `loading` ends false |
| ForgotPassword.ResetForm.ResetPassword | src/pages/ForgotPassword.tsx:58-89 | sent iff `ResetCheck` passes, otherwise its message is shown. Success opens the success dialog; failure sets the fixed error; `loading` ends false |
| MyReviews.RemoveById | src/pages/MyReviews.tsx:50 | definition, no contract of its own: `Filter` by a different id; its properties are `RemoveByIdSpec` |
| MyReviews.RemoveByIdSpec | src/pages/MyReviews.tsx:50 | removing by id keeps exactly the reviews with other ids, each as often as before, in order; nothing changes if none has that id |
| MyReviews.MyReviewsPage.constructor | src/pages/MyReviews.tsx:21-27 | empty list, loading, nothing being edited, rating 10 |
| MyReviews.MyReviewsPage.FetchReviews | src/pages/MyReviews.tsx:30-40 | success replaces the list; failure keeps it; `loading` ends false |
| MyReviews.MyReviewsPage.Delete | src/pages/MyReviews.tsx:46-54 | a declined confirmation sends nothing. A successful delete removes every review with the id; a failed one leaves the list unchanged |
| MyReviews.MyReviewsPage.OpenEdit | src/pages/MyReviews.tsx:56-60 | the review becomes the one being edited, and its rating and comment are copied into the edit fields |
| MyReviews.MyReviewsPage.Update | src/pages/MyReviews.tsx:62-74 | nothing without a review being edited; otherwise PATCH with the edited fields. Success clears the edit and refetches; failure keeps both |
| Text.Lower | src/pages/SavedDoctors.tsx:71 | `toLowerCase` on ASCII: same length, and each character is mapped to its lower-case letter when it is one of A-Z and kept otherwise |
| Text.Contains | src/pages/SavedDoctors.tsx:73-75 | definition, no contract of its own: `includes`, the query is a prefix of the text or of one of its suffixes; its meaning is `ContainsMeansOccurs` |
| Text.ContainsMeansOccurs | src/pages/SavedDoctors.tsx:73-75 | `includes` holds iff the query occurs at some position |
| Text.Utf16Length | src/pages/Register.tsx:49 | the length JavaScript reports lies between the character count and twice it |
| Seqs.AnyOf | src/pages/Register.tsx:50-52 | a regular-expression test for a character class holds iff some character is in the class |
| Seqs.Filter | src/pages/SavedDoctors.tsx:72-76 | each element occurs in the result as often as in the input when it satisfies the predicate, and not at all otherwise |
| Seqs.FilterIsSubsequence | src/pages/SavedDoctors.tsx:72-76 | filtering never adds or reorders elements |

## Left out

- Rendering, styling, dialogs' presentation, tooltips, the visibility toggles of password fields, and routing (`App.tsx`, `Navbar.tsx`, `Layout.tsx`, `DoctorCard.tsx`): no logic to state.
- `Login.tsx`, `Home.tsx`, `Doctors.tsx`, `ResetPassword.tsx`: they are not part of this model. They only fetch and display, or they repeat flows modelled here.
- The directory search debounce: it depends on timers.
- Floating-point display: star filling and rating colours.
- HTTP itself: the axios instance and its base URL, and the backend. Each call is an `ok` flag or a supplied response.
- Concurrency: async interleaving and React's stale closures are not modelled. A toggle is two sequential steps, `BeginToggle` and `SettleToggle`, and effects are methods that the caller invokes. The mount and dependency triggers of `useEffect` are not modelled.
- JSON: `JSON.stringify` and `JSON.parse` of the user record are treated as an exact round trip. A user is identified with its serialized text (`Auth.UserJson`). For that reason the detail view receives the viewer's username as a parameter. Malformed stored user data, which would make `JSON.parse` throw during restore, is not modelled.
- Unicode: lower-casing covers the ASCII letters A-Z only. Character classes are matched on Unicode characters, which gives the same answers as matching on UTF-16 units for these classes.
- `window.confirm` and `alert`: the confirmation is a boolean input, and alerts are not modelled.
- The saved store's `loading` flag: it is never changed from `false`.
- Saved.SavedStore.Refresh: a response whose body is not an array, or whose mapping throws, is modelled as a failed fetch (`None`).
- Register.RegisterForm.HandleVerify: does not model what the `login` call does to the session. The page calls `login` with three positional arguments (access, refresh, user) while `login` takes a token pair and a user. The model records the arguments in `LoginAndGoHome` and does not reinterpret them.
- SavedDoctors.SavedDoctorsPage.FetchSaved: sets the filtered list to all extracted doctors, as the code does. The search is reapplied only when the caller runs `ApplySearch`, which stands for the effect that follows.
