# Smart Circular: a verified model of its report-and-reward core

Smart Circular is a citizen-reporting web app. A signed-in citizen reports waste, flooding or
electricity problems with a photo, a label and a location. Each report is kept in a per-category
list in the browser store and earns reward points (waste 10, flood 15, electricity 12), which are
credited to the profile. An admin dashboard lists users and reports.

This project models the logic of that app in Dafny and proves what it promises:

- **Session and reward store** (`auth.dfy`, over `browser.dfy`): the browser store is a map from
  key to value. `login`, `register`, `logout`, `updateUser` and `addRewardPoints` change it step
  by step. Each call to the remote profile service is a parameter saying what it returned.
- **Report pages** (`reports.dfy`, `waste_page.dfy`, `flood_page.dfy`, `electricity_page.dfy`):
  - each page is a class holding its component state;
  - `handleSubmit` gates on the required inputs, builds the report and prepends it;
  - it then persists the whole list and credits the report's own points.
- **Admin dashboard** (`admin_page.dfy`): the access gate, which lists each decision reloads,
  the user-name lookup, the status badge and which rows offer decisions.
- **Forms and helpers**:
  - `auth_form.dfy`: validation, error clearing and the submit gate;
  - `toast.dfy`: toast list operations, the id counter and the facade;
  - `image_recognition.dfy` and the two `*_recommendations.dfy` files: waste classification and
    the advice tables;
  - `navbar.dfy`: initials and active link;
  - `user_profile_card.dfy`: the profile editor;
  - `profile_script.dfy`: the static profile page script.
- **Shared pieces**: `records.dfy` (value types) and `text.dfy`. `text.dfy` models the JavaScript
  string operations the app relies on: `String(n)`, `toUpperCase`/`toLowerCase`, `includes`,
  `slice`/`substring` and the `\s` class.

The admin dashboard imports `isAdmin`, `getAllUsers`, `getAllReports`, `updateReportStatus` and
`getUserById`. None of them is defined in `src/utils/auth.ts`. The model follows the code that
exists: their results are parameters, and no pending/approved/rejected transition system is
assumed.

Where a handler as written does not do what it evidently means to, the model has two versions.
`...AsWritten` is the code as it stands; the unsuffixed member is the intended behaviour. Each
pair comes with a concrete scenario that shows the difference (see "Findings").

## Model

| member | source | states |
|---|---|---|
| Text.Upper | src/components/Navbar.tsx:56 | `toUpperCase` keeps the length and maps every character through the ASCII upper-case map |
| Text.Lower | src/utils/imageRecognition.ts:45 | `toLowerCase` keeps the length and maps every character through the ASCII lower-case map |
| Text.Prefix | src/components/Navbar.tsx:57 | `substring(0, n)` / `slice(0, n)`: the first `min(n, length)` elements, unchanged |
| Text.Decimal | src/pages/Waste.tsx:97 | `Date.now().toString()` is a non-empty string of digits without a leading zero |
| Text.DecimalRoundTrip | src/pages/Waste.tsx:97 | reading the decimal text back as a number gives the number again |
| Text.DecimalInjective | src/pages/Waste.tsx:97 | different clock readings give different decimal texts |
| Text.PrefixedDecimalInjective | src/pages/Waste.tsx:97 | a fixed prefix followed by the decimal text still tells different numbers apart |
| Browser.LocalStorage.SetItem | src/utils/auth.ts:87-88 | `setItem` sets exactly that key and leaves every other key as it was |
| Browser.LocalStorage.RemoveItem | src/utils/auth.ts:146-147 | `removeItem` drops exactly that key and leaves every other key as it was |
| Auth.OrElse | src/utils/auth.ts:79-83 | `x \|\| fallback` on a string: an absent value and `''` both take the fallback |
| Auth.IsAuthenticated | src/utils/auth.ts:40-42 | `isAuthenticated` holds exactly when the token key is present, whatever it holds, the empty token included |
| Auth.AuthenticatedByTokenAlone | src/utils/auth.ts:40-42 | storing any token signs in, removing it signs out, and the user record never affects `isAuthenticated` |
| Auth.CurrentUser | src/utils/auth.ts:45-48 | `getCurrentUser` returns the record stored under `sb-user`, or null when the key is absent |
| Auth.SignedIn | src/utils/auth.ts:87-88 | after login/register, `isAuthenticated` holds, the current user is the new user, the token is stored, and other keys are untouched |
| Auth.SignedOut | src/utils/auth.ts:146-147 | after logout, `isAuthenticated` is false and the current user is null; every remaining key keeps its value |
| Auth.SignedOutIdempotent | src/utils/auth.ts:144-148 | logging out twice leaves the store as logging out once |
| Auth.SessionToken | src/utils/auth.ts:87 | a missing session stores the empty token, which still counts as authenticated |
| Auth.ProfileUser | src/utils/auth.ts:76-84 | login's user: id and e-mail from the auth reply, profile columns with defaults `''`, 0 and now |
| Auth.NewUser | src/utils/auth.ts:126-134 | a registered user starts with 0 points and carries the form's fields |
| Auth.MergeUser | src/utils/auth.ts:176-177 | the local copy takes every supplied field, the empty string included; absent fields keep the current value |
| Auth.RemoteWrite | src/utils/auth.ts:159-168 | the remote row falls back to the current name/pincode/address when the value is empty or absent; points fall back only when absent |
| Auth.MergeRulesDisagreeOnEmpty | src/utils/auth.ts:162-177 | the local and remote merge rules differ on a field exactly when the patch supplies `''` for a non-empty current value |
| Auth.Credited | src/utils/auth.ts:190-204 | a credit raises the balance by exactly `points` and leaves every other user field unchanged |
| Auth.CreditedIsMerge | src/utils/auth.ts:203 | a credit is the merge of a patch that supplies only the new balance |
| Auth.CreditsAdd | src/utils/auth.ts:190 | two successive credits add up to one credit of the sum |
| Auth.CreditKeepsSession | src/utils/auth.ts:203-204 | a successful credit keeps the session and every other key, and the stored balance is the old one plus `points` |
| Auth.Login | src/utils/auth.ts:51-91 | errors: the service's message, 'User not found', 'User profile not found', each leaving the store untouched; success signs the user in |
| Auth.Register | src/utils/auth.ts:94-141 | errors: the service's message, 'Registration failed', 'Error creating user profile', store untouched; success signs in a user with 0 points |
| Auth.Logout | src/utils/auth.ts:144-148 | the store becomes the signed-out store |
| Auth.UpdateUser | src/utils/auth.ts:151-179 | no user: 'No user is logged in'; remote failure: 'Failed to update user profile' with `sb-user` untouched; success stores and returns the local merge; the remote row is the fallback merge |
| Auth.AddRewardPoints | src/utils/auth.ts:182-207 | no user: 'No user is logged in', store unchanged; remote failure: 'Failed to update reward points', store unchanged; success stores the credited user |
| Reports.PointsFor | src/pages/Waste.tsx:103 | a report is worth 10 (waste), 15 (flood, Flood.tsx:105) or 12 (electricity, Electricity.tsx:72) points |
| Reports.ListKey | src/pages/Waste.tsx:108 | each category's list key differs from both session keys |
| Reports.ListKeysDistinct | src/pages/Flood.tsx:111 | the three categories persist under three different keys |
| Reports.MissingInfo | src/pages/Waste.tsx:85 | `!image \|\| !type \|\| !location`: a submission is refused when the image or type is absent or empty, or the location is absent |
| Reports.NewReport | src/pages/Waste.tsx:96-104 | the new report carries the category's points and an id that is the category prefix followed by the clock reading, plus the inputs as given |
| Reports.NewReportIdsDiffer | src/pages/Waste.tsx:97 | reports built at different clock readings have different ids |
| Reports.Prepend | src/pages/Waste.tsx:106 | the new report is at index 0, the earlier reports follow in order, and the length grows by one |
| Reports.LoadedList | src/pages/Waste.tsx:60-63 | the mount effect replaces the list with the stored one, and keeps it when nothing, or no list, is stored |
| Reports.RecentReports | src/pages/Waste.tsx:242 | the recent-reports card shows the first `min(3, n)` reports, unchanged and in order |
| Reports.NewestShownFirst | src/pages/Waste.tsx:242 | after a submission the new report is shown first, followed by what was shown before minus the last |
| Reports.ShownComment | src/pages/Waste.tsx:260 | a comment of at most 50 characters is shown whole; a longer one as its first 50 plus '...' |
| WastePage.WastePage.constructor | src/pages/Waste.tsx:40-47 | the initial state: user from the store, empty form, empty list, not submitting |
| WastePage.WastePage.Mount | src/pages/Waste.tsx:49-64 | no session: redirect to /login and load nothing; otherwise refresh the user and load the stored list |
| WastePage.WastePage.HandleImageProcessed | src/pages/Waste.tsx:71-74 | the image and its label are set |
| WastePage.WastePage.HandleLocationSelected | src/pages/Waste.tsx:76-78 | the location is set |
| WastePage.WastePage.HandleCommentChange | src/pages/Waste.tsx:80-82 | the comment is set |
| WastePage.WastePage.SubmitReport | src/pages/Waste.tsx:84-117 | missing image/type/location changes nothing; otherwise one report is prepended and persisted, and its own points are credited only with a user and a successful remote update |
| WastePage.WastePage.ResetForm | src/pages/Waste.tsx:125-129 | image, type and location become null, the comment '', and the button is enabled |
| WastePage.WastePage.HandleSubmit | src/pages/Waste.tsx:84-130 | the submission is recorded as above, then the form is cleared and `isSubmitting` is false |
| WastePage.WastePage.HandleSubmitAsWritten | src/pages/Waste.tsx:84-130 | the submission is recorded, but the form keeps its values and `isSubmitting` stays true |
| WastePage.SecondReportBlockedAsWritten | src/pages/Waste.tsx:218-230 | after one submission as written, a fully filled new report cannot be submitted |
| WastePage.SecondReportAllowed | src/pages/Waste.tsx:218-230 | with the intended handler, the second report can be submitted |
| FloodPage.FromOption | src/pages/Flood.tsx:41 | the page's user state holds the stored user, or nothing |
| FloodPage.FloodPage.NavbarPoints | src/pages/Flood.tsx:168 | the navigation bar shows the user's balance, or 0 when the state holds no user object |
| FloodPage.FloodPage.NavbarName | src/pages/Flood.tsx:169 | the navigation bar shows the user's name, or '' when the state holds no user object |
| FloodPage.FloodPage.constructor | src/pages/Flood.tsx:40-47 | the initial state: user from the store, empty form, empty list |
| FloodPage.FloodPage.Mount | src/pages/Flood.tsx:49-65 | no session: redirect to /login and load nothing; otherwise refresh the user and load the stored list |
| FloodPage.FloodPage.HandleImageProcessed | src/pages/Flood.tsx:72-75 | the image and the flood label are set |
| FloodPage.FloodPage.HandleLocationSelected | src/pages/Flood.tsx:77-79 | the location is set |
| FloodPage.FloodPage.HandleCommentChange | src/pages/Flood.tsx:81-83 | the comment is set |
| FloodPage.FloodPage.RecordReport | src/pages/Flood.tsx:85-111 | missing inputs change nothing; otherwise a 15-point report is prepended and the store holds exactly the new list |
| FloodPage.FloodPage.ResetForm | src/pages/Flood.tsx:127-131 | the form is cleared and the button enabled |
| FloodPage.FloodPage.HandleSubmit | src/pages/Flood.tsx:85-132 | recorded and credited as on the waste page; the page then holds the credited user, the form is cleared and the button enabled |
| FloodPage.FloodPage.HandleSubmitAsWritten | src/pages/Flood.tsx:85-132 | the credit reaches the store, but the page's user becomes a Promise (navbar 0 and ''), and the form is neither cleared nor re-enabled |
| FloodPage.NavbarLosesUserAsWritten | src/pages/Flood.tsx:114-116 | a user with 40 points reports a flood: the store holds 55, the navbar shows 0 and no name |
| FloodPage.NavbarKeepsUser | src/pages/Flood.tsx:114-116 | with the awaited credit, the navbar shows 55 and the user's name |
| ElectricityPage.ElectricityPage.constructor | src/pages/Electricity.tsx:28-31 | the initial state: user from the store, empty list, not submitting |
| ElectricityPage.ElectricityPage.Mount | src/pages/Electricity.tsx:33-49 | no session: redirect to /login and load no list; otherwise refresh the user and load the stored list |
| ElectricityPage.ElectricityPage.RecordReport | src/pages/Electricity.tsx:56-88 | every call records exactly one 12-point report, prepended and persisted; the credit happens only with a user and a successful update, and a failed one is swallowed |
| ElectricityPage.ElectricityPage.HandleSubmit | src/pages/Electricity.tsx:56-98 | as above, and `isSubmitting` is false when the handler completes |
| ElectricityPage.ElectricityPage.HandleSubmitAsWritten | src/pages/Electricity.tsx:56-98 | the report is recorded but `isSubmitting` stays true |
| AdminPage.FirstMatch | src/pages/Admin.tsx:132 | `users.find`: the index of the first user with that id, or the length when none has it |
| AdminPage.UserName | src/pages/Admin.tsx:131-134 | the name of the first user with a matching id, else 'Unknown User' |
| AdminPage.StatusBadge | src/pages/Admin.tsx:254-268 | 'pending' and 'approved' get their own badges; any other status reads as Rejected |
| AdminPage.OffersDecision | src/pages/Admin.tsx:297-318 | Approve/Reject are offered exactly for the reports whose badge is Pending |
| AdminPage.AdminPage.constructor | src/pages/Admin.tsx:56-58 | no users, no reports, loading |
| AdminPage.AdminPage.Mount | src/pages/Admin.tsx:60-100 | no session: /login and nothing loaded; no user or not admin: / and nothing loaded; otherwise the lists load (or an error toast) and loading ends either way |
| AdminPage.AdminPage.HandleApproveReport | src/pages/Admin.tsx:102-116 | a successful approval reloads both lists; a failed one changes nothing |
| AdminPage.AdminPage.HandleRejectReport | src/pages/Admin.tsx:118-129 | a successful rejection reloads only the reports; a failed one changes nothing |
| AuthForm.WithField | src/components/AuthForm.tsx:41 | the named field takes the value and every other field keeps its own |
| AuthForm.InitialData | src/components/AuthForm.tsx:25-31 | the admin login starts with 'admin' / 'admin'; every other field starts empty |
| AuthForm.LooksLikeEmail | src/components/AuthForm.tsx:57 | `/\S+@\S+\.\S+/.test`: somewhere in the text a non-space character, '@', one or more non-space characters, '.', and a non-space character follow one another |
| AuthForm.PlainAddressAccepted | src/components/AuthForm.tsx:57 | any `local@domain.tld` with three non-empty, space-free parts matches the e-mail pattern |
| AuthForm.NoAtRejected | src/components/AuthForm.tsx:57 | text without '@' never matches |
| AuthForm.NoDotRejected | src/components/AuthForm.tsx:57 | text without '.' never matches |
| AuthForm.AdminPrefillAcceptable | src/components/AuthForm.tsx:28-29 | the untouched admin form passes validation |
| AuthForm.AuthForm.constructor | src/components/AuthForm.tsx:25-37 | the prefilled data and no error messages |
| AuthForm.AuthForm.HandleChange | src/components/AuthForm.tsx:39-48 | only the named field changes; that field's error is cleared and every other message stays |
| AuthForm.AuthForm.ValidateForm | src/components/AuthForm.tsx:50-77 | valid iff e-mail present (and pattern-shaped unless admin), password present (and at least 6 unless admin), name present on registration; each failure sets its message; no message is ever cleared |
| AuthForm.AuthForm.HandleSubmit | src/components/AuthForm.tsx:79-96 | validation runs first and leaves the same per-field messages as `validateForm`; `onSubmit` receives the data exactly when it validates |
| Toast.MergeFields | src/hooks/use-toast.ts:36 | every field the update supplies wins; the others stay |
| Toast.Opened | src/hooks/use-toast.ts:25 | open appends exactly one toast with the id and props; the earlier toasts are unchanged |
| Toast.Closed | src/hooks/use-toast.ts:30 | close keeps exactly the toasts with a different id |
| Toast.Updated | src/hooks/use-toast.ts:34-38 | update keeps length, order and ids, merges into the toasts with that id and leaves the rest unchanged |
| Toast.ClosedConcat | src/hooks/use-toast.ts:30 | closing keeps the remaining toasts in their order |
| Toast.CloseUnknownId | src/hooks/use-toast.ts:30 | closing an id no toast has leaves the list unchanged |
| Toast.CloseUndoesOpen | src/hooks/use-toast.ts:23-31 | closing a freshly opened toast restores the list |
| Toast.Counter.constructor | src/hooks/use-toast.ts:18 | the counter starts at 0 |
| Toast.ToastHook.constructor | src/hooks/use-toast.ts:21 | a hook starts with no toasts and shares the counter |
| Toast.ToastHook.Open | src/hooks/use-toast.ts:23-27 | the id is the counter's decimal text, the counter grows by one, and the toast is appended |
| Toast.ToastHook.Close | src/hooks/use-toast.ts:29-31 | the list becomes the closed list |
| Toast.ToastHook.Update | src/hooks/use-toast.ts:33-39 | the list becomes the updated list |
| Toast.OpenTwice | src/hooks/use-toast.ts:18-26 | two successive opens return different ids, even on two hooks |
| Toast.ToastFacade.constructor | src/hooks/use-toast.ts:50 | no toast function is registered |
| Toast.ToastFacade.SetToastFunction | src/hooks/use-toast.ts:69-71 | registers the given hook |
| Toast.ToastFacade.Open | src/hooks/use-toast.ts:54-57 | without a registered hook: returns "" and changes nothing; otherwise it is the hook's open |
| Toast.ToastFacade.Close | src/hooks/use-toast.ts:58-61 | without a registered hook nothing changes; otherwise it is the hook's close |
| Toast.ToastFacade.Update | src/hooks/use-toast.ts:62-65 | without a registered hook nothing changes; otherwise it is the hook's update |
| ImageRecognition.ParseLabel | src/utils/imageRecognition.ts:6-15 | a string names a waste type only if it is that type's label |
| ImageRecognition.ParseLabelInvertsLabel | src/utils/imageRecognition.ts:6-15 | every type's label is read back as that type |
| ImageRecognition.IdentifyWasteType | src/utils/imageRecognition.ts:18-41 | the recogniser returns one of the eight listed labels and never 'Unknown' |
| ImageRecognition.IsRecyclable | src/utils/imageRecognition.ts:44-46 | a type name is recyclable exactly when its lower-cased text contains 'recyclable' |
| ImageRecognition.RecyclableLabels | src/utils/imageRecognition.ts:44-46 | the four 'Recyclable ...' labels are recyclable |
| ImageRecognition.NonRecyclableCountsAsRecyclable | src/utils/imageRecognition.ts:44-46 | 'Non-recyclable Waste' also passes the substring test |
| ImageRecognition.OtherLabelsNotRecyclable | src/utils/imageRecognition.ts:44-46 | 'Organic Waste', 'E-Waste', 'Hazardous Waste' and 'Unknown' are not recyclable |
| ImageRecognition.Recommendations | src/utils/imageRecognition.ts:50-104 | every type has advice: 4 items each, 3 for 'Unknown' |
| ImageRecognition.WasteRecommendations | src/utils/imageRecognition.ts:106 | a known label gets its own list; any other string gets the 'Unknown' list |
| ImageRecognition.RecommendationsByLabel | src/utils/imageRecognition.ts:49-107 | looking a type up by its label gives that type's list |
| FloodRecommendations.FloodRecommendations | src/components/flood/FloodRecommendations.tsx:10-38 | a known flood label gets its own list, anything else the fixed default; always 4 items (the same table as src/pages/Flood.tsx:134-162) |
| FloodRecommendations.KnownLabels | src/components/flood/FloodRecommendations.tsx:11-30 | the table holds exactly the three flood labels |
| FloodRecommendations.AdviceDistinguishesLabels | src/components/flood/FloodRecommendations.tsx:11-37 | different known labels get different advice, and none gets the default |
| ElectricityRecommendations.ElectricityRecommendations | src/components/electricity/ElectricityRecommendations.tsx:10-38 | a known issue label gets its own list, anything else the fixed default; always 4 items |
| ElectricityRecommendations.KnownLabels | src/components/electricity/ElectricityRecommendations.tsx:11-30 | the table holds exactly the three issue labels |
| ElectricityRecommendations.AdviceDistinguishesLabels | src/components/electricity/ElectricityRecommendations.tsx:11-37 | different known labels get different advice, and none gets the default |
| Navbar.Split | src/components/Navbar.tsx:53 | `split(' ')` gives at least one piece, and no piece contains a space |
| Navbar.JoinSplit | src/components/Navbar.tsx:53 | splitting loses nothing: joining the pieces with ' ' gives back the name |
| Navbar.Heads | src/components/Navbar.tsx:54-55 | at most one character per piece |
| Navbar.HeadsAreWordStarts | src/components/Navbar.tsx:52-55 | the joined first characters are exactly the word starts in order; empty pieces from repeated spaces add nothing |
| Navbar.Initials | src/components/Navbar.tsx:51-58 | at most 2 characters, none lower-case: the upper-cased first two word starts |
| Navbar.EmptyNameNoInitials | src/components/Navbar.tsx:51-58 | the initials of '' are '' |
| Navbar.InitialsOfTwoWords | src/components/Navbar.tsx:51-58 | a name of two or more words gives the upper-cased first letters of the first two |
| Navbar.IsActive | src/components/Navbar.tsx:67-69 | a link is active exactly when the current pathname equals its path |
| Navbar.AtMostOneActive | src/components/Navbar.tsx:60-69 | `isActive` is pathname equality, so at most one navigation link is highlighted |
| UserProfileCard.InitialForm | src/components/profile/UserProfileCard.tsx:19-24 | the form starts from the user's fields, or '' everywhere when there is no user |
| UserProfileCard.SavePatch | src/components/profile/UserProfileCard.tsx:33-37 | saving sends name, pincode and address and never the e-mail |
| UserProfileCard.SaveKeepsAccountFields | src/components/profile/UserProfileCard.tsx:33-37 | a save never changes the stored e-mail, id, balance or creation time |
| UserProfileCard.AvatarInitials | src/components/profile/UserProfileCard.tsx:87 | the avatar shows the navbar's initials of the user's name: the upper-cased first two word starts, at most 2 characters, none lower-case; none without a user (`getInitials` at lines 56-63 is the navbar's) |
| UserProfileCard.ProfileCard.constructor | src/components/profile/UserProfileCard.tsx:18-24 | not editing, form initialised from the user |
| UserProfileCard.ProfileCard.HandleInputChange | src/components/profile/UserProfileCard.tsx:26-29 | only name, pincode and address inputs change; the e-mail (disabled input, lines 123-131) never does |
| UserProfileCard.ProfileCard.SetEditing | src/components/profile/UserProfileCard.tsx:70-78 | the edit and discard buttons set the mode |
| UserProfileCard.ProfileCard.HandleSaveProfileAsWritten | src/components/profile/UserProfileCard.tsx:31-54 | the card shows the pre-update user and leaves edit mode before, and regardless of, the update's outcome |
| UserProfileCard.ProfileCard.HandleSaveProfile | src/components/profile/UserProfileCard.tsx:31-54 | awaited: success shows the updated user and leaves edit mode; failure keeps both |
| UserProfileCard.StaleNameAsWritten | src/components/profile/UserProfileCard.tsx:33-41 | after renaming as written, the store has the new name and the card still shows the old one |
| UserProfileCard.FreshNameAwaited | src/components/profile/UserProfileCard.tsx:33-41 | with the awaited update, the card shows the stored, renamed user |
| ProfileScript.WithCategory | profile.js:130 | keeps exactly the reports of that category, and never more than there were |
| ProfileScript.WithCategoryConcat | profile.js:130 | the filter keeps the original order |
| ProfileScript.WithCategoryKeepsMatching | profile.js:130 | a list of one category is kept whole |
| ProfileScript.Filtered | profile.js:128-130 | 'all' shows every report; any other tab only that category's |
| ProfileScript.CapitalizeFirstLetter | profile.js:192-194 | the first character is upper-cased, the rest unchanged, '' stays '' |
| ProfileScript.CapitalizeIdempotent | profile.js:192-194 | capitalising twice is capitalising once |
| ProfileScript.ProfilePage.constructor | profile.js:73-81 | on load the header shows the profile's name and e-mail and the list shows every report, with the empty message exactly when there are none |
| ProfileScript.ProfilePage.DisplayReports | profile.js:123-161 | the list shows exactly the filtered reports in order, and shows the "No reports found" message exactly when there are none |
| ProfileScript.ProfilePage.UpdateProfile | profile.js:164-183 | name, e-mail, pincode and address are overwritten; points, report count and location are untouched |

## Left out

- Remote calls: the profile service client and its calls (`signInWithPassword`, `signUp`,
  `signOut`, `from('profiles')...`) are parameters giving their outcome. The reply to `signOut`
  is never inspected, so `Auth.Logout` does not take it.
- JSON: stored values are structured (`Raw`, `UserJson`, `ItemsJson`), not text. A malformed
  stored string, which would make `JSON.parse` throw, is not modelled.
- Browser store failures: `setItem` quota errors are not modelled.
- Clock, randomness and timers: `Date.now()`, `new Date().toISOString()`, the 2-second delay and
  the random index in `identifyWasteType` are parameters, or a free choice.
- Floating point: location coordinates are carried along unexamined. The progress bars
  (src/components/profile/RewardPointsCard.tsx, profile.js:117-120) are not modelled.
- Async interleaving: handlers run to completion in order. A second click while a handler awaits
  is not modelled.
- Text.Upper: only ASCII letters change case. Unicode case mappings (some of which change the
  length) are not modelled.
- Text.Lower: the same, ASCII only.
- ProfileScript.CapitalizeFirstLetter: the same ASCII-only case map for `charAt(0).toUpperCase()`.
- Text.Prefix: counts characters, where JavaScript counts UTF-16 code units. Dafny strings are
  sequences of Unicode scalar values, so string length and indexing in general are per character.
  This differs from the source only for text outside the Basic Multilingual Plane, such as emoji.
  The members below depend on it.
- Navbar.Initials: `part[0]` of a word that starts with such a character is, in JavaScript, a lone
  surrogate (half the character); the model takes the whole character.
- AuthForm.AuthForm.ValidateForm: the six-character password minimum counts characters, where
  `password.length` counts code units, so such a password can pass in JavaScript with fewer
  characters. The same holds for AuthForm.AuthForm.HandleSubmit, which runs it.
- Reports.ShownComment: the 50 limit and the cut count characters, where `comment.length` and
  `substring` count code units (JavaScript can cut such a character in half).
- UserProfileCard.AvatarInitials: the same per-character reading as Navbar.Initials.
- Numbers: JavaScript numbers (reward points, `Date.now()`, the toast counter) are unbounded
  integers here. Double-precision rounding above 2^53 and non-integer values are not modelled.
- ImageRecognition.WasteRecommendations: a key such as 'constructor' or 'toString' would find an
  inherited member of the JavaScript object rather than fall back to 'Unknown'. The model falls
  back for every key that is not a label.
- FloodRecommendations.FloodRecommendations: the same inherited-key lookup is not modelled.
- ElectricityRecommendations.ElectricityRecommendations: the same inherited-key lookup is not
  modelled.
- Moderation functions: `isAdmin`, `getAllUsers`, `getAllReports`, `updateReportStatus` and
  `getUserById` are not part of this model. They are imported by src/pages/Admin.tsx but not
  defined in src/utils/auth.ts. Their results are parameters of the admin page's methods.
- Admin dashboard rendering: the user table, the points shown and the report images.
- The page-level `handleLogout` wrappers (`logout(); navigate('/')`): this is `Auth.Logout`
  followed by a route change.
- The toast provider in src/hooks/ToastProvider.tsx is not part of this model. It writes the
  hook's functions to `window.TOAST_FUNCTION`, not to the module's `TOAST_FUNCTION`, so the
  `toast` facade stays unregistered and `toast.open` returns "" (`Toast.ToastFacade.Open`).
- Toast `action` nodes and rendering: not modelled.
- The unescaped apostrophes in the 'Recyclable Glass' advice make that line a syntax error
  (src/utils/imageRecognition.ts:67). The model uses the evidently intended text.
- Rendering, scroll and menu state, routing, the image uploader's file reading, and the form
  wrapper components are not modelled.
- profile.js `formatDate` and the `alert` after an update: not modelled.

## Findings

| source | as written | input that shows it | evidently intended | confidence | as-written member | corrected member |
|---|---|---|---|---|---|---|
| src/pages/Waste.tsx:39 | `const { toast } = useToast()`, but the hook returns no `toast`, so the success `toast(...)` (line 119) throws after the report is stored and credited; the reset (lines 125-129) never runs | fill in image, type and location and submit once; then fill in a second report | the form is cleared and the button enabled again | high (reading of the code; not executed) | WastePage.SecondReportBlockedAsWritten | WastePage.SecondReportAllowed |
| src/pages/Flood.tsx:115-116 | `addRewardPoints` is not awaited and its Promise is stored as the user; `toast` is also missing (line 39), so the reset is skipped | a signed-in user with 40 points submits a flood report | the navbar shows 55 points and the user's name | high (reading of the code; not executed) | FloodPage.NavbarLosesUserAsWritten | FloodPage.NavbarKeepsUser |
| src/pages/Electricity.tsx:27 | `const { toast } = useToast()` is undefined, so `toast(...)` (line 91) throws before `setIsSubmitting(false)` (line 97) and the submit button stays disabled | any submission | `isSubmitting` is false once the handler completes | high (reading of the code; not executed) | ElectricityPage.ElectricityPage.HandleSubmitAsWritten | ElectricityPage.ElectricityPage.HandleSubmit |
| src/components/profile/UserProfileCard.tsx:33-41 | `updateUser` is not awaited: its Promise is truthy, so the card re-reads the store before the update lands and leaves edit mode even when the update fails; the facade `toast({...})` at lines 42 and 48 then throws, after both state updates | rename 'Asha' to 'Asha K' and save | the card shows 'Asha K' | high (reading of the code; not executed) | UserProfileCard.StaleNameAsWritten | UserProfileCard.FreshNameAwaited |
