# Accountable: session provider and screen decision rules

This project models the parts of the Accountable goal-tracking app (Expo / React Native) that carry decisions rather than layout:

- **Authentication provider** (`AuthContext`). It holds three state cells: `isAuthenticated`, `isLoading` and `user`. It has one persistent AsyncStorage slot under the key `'user'`. There are four transitions: bootstrap (`checkAuthStatus`), `login`, `register` and `logout`. The code is a local mock: login always signs in the fixed user `{id: '1', name: 'John Doe', username, email: 'john.doe@example.com'}`, and register signs in `{id: '1', name, username, email}`. The only things that can fail are the storage calls and, in bootstrap, the parse of the stored text; a failed parse is folded into the failed read.
  - Each transition is specified as the ordered sequence of state writes it performs (`Effect`). `Apply` gives the state those writes produce.
  - The class `AuthProvider` performs the writes one at a time. It records each one in a ghost `trace`, so "the store is written before the state" is a statement about that trace.
  - Two invariants hold over any sequence of calls (`RunPreservesValid`). First, a user is present exactly when the provider is authenticated. Second, that user is the record in the slot. Because of the second, a restart brings the same user back.
- **Start screen** (`StartScreen`): the three-way redirect decision over the provider's two flags. It is composed with the provider: bootstrap always ends in a redirect.
- **Sign-in form** (`LoginScreen.LoginForm`): empty-field validation, the error and loading transitions of `handleLogin` split at its `await`, the disabled submit button, and the password visibility toggle.
- **Reset-password form** (`ForgotPasswordScreen.ResetPasswordForm`): validation, the scheduled timer as an explicit `TimerElapsed` step, and the success view, which is never withdrawn.
- **Due-date label** (`GoalSummary.FormatDate`), **goal status tables and card view** (`GoalCard`), and the **header title** (`MobileHeader.Title`).

Storage failure is a boolean parameter of each provider operation. The JSON encoding of the stored record is taken to round-trip, so the slot holds an `Option<User>`.

The provider is a local mock: it calls no credential service, fetches no profile and inserts no records. Authentication state is two booleans, `isAuthenticated` and `isLoading`. The provider does not validate its arguments; the sign-in form checks for empty fields before it calls login (app/auth/login.tsx:18-21).

## Model

| member | source | states |
|---|---|---|
| `AuthContext.Step` | context/AuthContext.tsx:33-35 | each state setter, and a successful slot write, changes its own cell to the written value and leaves the other three cells as they were |
| `AuthContext.Apply` | context/AuthContext.tsx:33-35 | performing writes in order: a cell that no write in the sequence targets keeps its value, and isLoading ends as the last write sets it when that write is a setIsLoading |
| `AuthContext.BootstrapEffects` | context/AuthContext.tsx:39-51 | bootstrap never writes the slot, ends by clearing isLoading, and writes the user cell exactly when the read succeeds and finds a record, writing that record |
| `AuthContext.SignInEffects` | context/AuthContext.tsx:72-81 | starts by setting isLoading and ends by clearing it; the slot and user cell are only ever written with the given record; the user cell is written exactly when setItem succeeds |
| `AuthContext.LoginEffects` | context/AuthContext.tsx:57-82 | every user written by login is exactly the mock record {id '1', name 'John Doe', the caller's username, email 'john.doe@example.com'}; the user cell is written exactly when setItem succeeds |
| `AuthContext.RegisterEffects` | context/AuthContext.tsx:85-110 | every user written by register is {id '1', name, username, email}; the user cell is written exactly when setItem succeeds |
| `AuthContext.LogoutEffects` | context/AuthContext.tsx:113-124 | starts by setting isLoading and ends by clearing it; the slot and user cell are only ever cleared; the user cell is written exactly when removeItem succeeds |
| `AuthContext.InitialState` | context/AuthContext.tsx:33-35 | on mount the provider is unauthenticated, loading and has no user; the slot keeps what was persisted; both invariants hold |
| `AuthContext.LoginUser` | context/AuthContext.tsx:65-70 | the mock login record: id '1', name 'John Doe', email 'john.doe@example.com', and the caller's username |
| `AuthContext.RegisteredUser` | context/AuthContext.tsx:93-98 | the registration record: id '1', and name, username and email taken exactly from the arguments |
| `AuthContext.SignInCompletion` | context/AuthContext.tsx:76-78 | login and register reject exactly when the storage write fails (the error is rethrown) |
| `AuthContext.LogoutCompletion` | context/AuthContext.tsx:119-121 | logout always resolves: a storage error is swallowed |
| `AuthContext.BootstrapOutcome` | context/AuthContext.tsx:39-51 | bootstrap ends with isLoading false and the slot untouched; a record read from the slot becomes the user and sets isAuthenticated; an empty slot or a failed read leaves user and isAuthenticated as they were |
| `AuthContext.SignInOutcome` | context/AuthContext.tsx:72-81 | persisting then signing in a record: on success user, isAuthenticated and the slot all hold it; on a storage failure only isLoading changes (it ends false) |
| `AuthContext.LoginOutcome` | context/AuthContext.tsx:57-82 | a successful login yields user {id '1', 'John Doe', username, 'john.doe@example.com'} with isAuthenticated true, persisted; a failed one changes nothing but isLoading, which ends false |
| `AuthContext.LoginIgnoresPassword` | context/AuthContext.tsx:57-70 | the password has no influence on what login does |
| `AuthContext.RegisterOutcome` | context/AuthContext.tsx:85-110 | a successful register yields user {id '1', name, username, email} with isAuthenticated true, persisted; a failed one changes nothing but isLoading, which ends false |
| `AuthContext.LogoutOutcome` | context/AuthContext.tsx:113-124 | a successful logout empties the slot, clears the user and isAuthenticated; a failed one keeps all three; isLoading ends false |
| `AuthContext.BootstrapPreservesValid` | context/AuthContext.tsx:42-45 | bootstrap keeps "user present iff authenticated" and "the user is the persisted record" |
| `AuthContext.LoginPreservesValid` | context/AuthContext.tsx:73-75 | login keeps both invariants, on success and on failure |
| `AuthContext.RegisterPreservesValid` | context/AuthContext.tsx:101-103 | register keeps both invariants, on success and on failure |
| `AuthContext.LogoutPreservesValid` | context/AuthContext.tsx:116-118 | logout keeps both invariants, on success and on failure |
| `AuthContext.SignInWritesStoreFirst` | context/AuthContext.tsx:72-81 | the slot is written before both session cells: every user write is preceded by a slot write of the same record, every isAuthenticated write by a slot write; the last write clears isLoading; after a storage failure only isLoading is written |
| `AuthContext.LoginWritesStoreFirst` | context/AuthContext.tsx:72-81 | in login the slot is written before user and isAuthenticated, the last write clears isLoading, and after a failed setItem only isLoading is written |
| `AuthContext.RegisterWritesStoreFirst` | context/AuthContext.tsx:100-109 | in register the slot is written before user and isAuthenticated, the last write clears isLoading, and after a failed setItem only isLoading is written |
| `AuthContext.LogoutWritesStoreFirst` | context/AuthContext.tsx:115-123 | in logout the slot is removed before user and isAuthenticated are cleared, the last write clears isLoading, and after a failed removeItem only isLoading is written |
| `AuthContext.OperationPreservesValid` | context/AuthContext.tsx:38-124 | every one of the four transitions keeps both invariants and ends with isLoading false |
| `AuthContext.RunPreservesValid` | context/AuthContext.tsx:38-124 | over any sequence of calls and storage outcomes, both invariants hold throughout, and after at least one call isLoading is false |
| `AuthContext.FromMountValid` | context/AuthContext.tsx:32-54 | from mount, with anything in the slot, any sequence of calls keeps both invariants |
| `AuthContext.RestartRestoresUser` | context/AuthContext.tsx:39-45 | a signed-in user is signed in again with the identical record after a restart whose read succeeds |
| `AuthContext.LoginSurvivesRestart` | context/AuthContext.tsx:41-75 | from any prior state, bootstrap after a successful login restores the login record |
| `AuthContext.RegisterSurvivesRestart` | context/AuthContext.tsx:41-103 | from any prior state, bootstrap after a successful registration restores the registered record |
| `AuthContext.LogoutSurvivesRestart` | context/AuthContext.tsx:41-118 | after a successful logout a restart comes up signed out and not loading |
| `AuthContext.AuthProvider.constructor` | context/AuthContext.tsx:32-35 | the object starts in the mount state with an empty trace |
| `AuthContext.AuthProvider.CheckAuthStatus` | context/AuthContext.tsx:39-51 | performs exactly the bootstrap writes, in order, and reaches the state they specify |
| `AuthContext.AuthProvider.SignIn` | context/AuthContext.tsx:72-81 | sets isLoading, writes the slot, then user and isAuthenticated, then clears isLoading; on a write failure it skips to clearing isLoading and returns Rejected |
| `AuthContext.AuthProvider.Login` | context/AuthContext.tsx:57-82 | performs exactly the login writes and returns Rejected iff the storage write fails |
| `AuthContext.AuthProvider.Register` | context/AuthContext.tsx:85-110 | performs exactly the register writes and returns Rejected iff the storage write fails |
| `AuthContext.AuthProvider.Logout` | context/AuthContext.tsx:113-124 | performs exactly the logout writes and always resolves |
| `StartScreen.Index` | app/index.tsx:13-29 | redirect to /dashboard iff authenticated; to /auth/login iff neither authenticated nor loading; the loading view iff loading and not authenticated |
| `StartScreen.MountShowsLoading` | app/index.tsx:23-29 | right after mount the start screen shows the loading view |
| `StartScreen.BootstrapRedirects` | app/index.tsx:13-20 | after bootstrap the start screen redirects: to /dashboard iff a persisted user was read back, otherwise to /auth/login |
| `StartScreen.SettledNeverLoading` | app/index.tsx:13-20 | after any non-empty sequence of provider calls the loading view is not shown |
| `LoginScreen.LoginForm.constructor` | app/auth/login.tsx:9-13 | fields empty, password masked, not loading |
| `LoginScreen.LoginForm.SetEmail` | app/auth/login.tsx:60 | typing sets the email and nothing else |
| `LoginScreen.LoginForm.SetPassword` | app/auth/login.tsx:74 | typing sets the password and nothing else |
| `LoginScreen.LoginForm.TogglePassword` | app/auth/login.tsx:75-79 | flips showPassword, and with it whether the password is masked; nothing else changes |
| `LoginScreen.LoginForm.PasswordMasked` | app/auth/login.tsx:75 | the password input is masked exactly when showPassword is false |
| `LoginScreen.LoginForm.SubmitEnabled` | app/auth/login.tsx:98 | the Sign In button is enabled exactly when no submit is loading |
| `LoginScreen.LoginForm.BeginSubmit` | app/auth/login.tsx:17-24 | an empty email or password sets 'Please fill in all fields', does not call login and leaves isLoading; otherwise the error is cleared and isLoading set before login is called |
| `LoginScreen.LoginForm.FinishSubmit` | app/auth/login.tsx:26-33 | success navigates to /dashboard; failure sets 'Invalid email or password' and does not navigate; isLoading ends false either way |
| `LoginScreen.LoginForm.HandleLogin` | app/auth/login.tsx:17-34 | composes validation, the provider's login with the entered email as username, and completion; after success the provider's user is the mock record with that email as username |
| `LoginScreen.LoginForm.PressSignIn` | app/auth/login.tsx:95-98 | a press while loading starts nothing and changes nothing; otherwise it is the start of handleLogin |
| `LoginScreen.SignedInUsernameIsEmail` | app/auth/login.tsx:27 | after a successful sign-in the provider's user has the entered email as username |
| `ForgotPasswordScreen.ResetPasswordForm.constructor` | app/auth/forgot-password.tsx:8-11 | empty email and error, not loading, not sent, no timer pending |
| `ForgotPasswordScreen.ResetPasswordForm.SetEmail` | app/auth/forgot-password.tsx:68 | typing sets the email and nothing else |
| `ForgotPasswordScreen.ResetPasswordForm.ShowsSuccessView` | app/auth/forgot-password.tsx:53 | the success view replaces the form exactly when resetSent is true |
| `ForgotPasswordScreen.ResetPasswordForm.SendEnabled` | app/auth/forgot-password.tsx:53-77 | the send button is on screen and enabled exactly when the link is not yet sent and nothing is loading, so never beside the success view |
| `ForgotPasswordScreen.ResetPasswordForm.HandleResetPassword` | app/auth/forgot-password.tsx:14-28 | an empty email only sets 'Please enter your email address'; otherwise the error is cleared, isLoading set and one timer scheduled; resetSent is untouched; called from a valid state with the button enabled, it keeps the form valid |
| `ForgotPasswordScreen.ResetPasswordForm.TimerElapsed` | app/auth/forgot-password.tsx:24-27 | the timer callback clears isLoading and sets resetSent, so the success view shows and the send button is gone |
| `ForgotPasswordScreen.ResetPasswordForm.PressSendResetLink` | app/auth/forgot-password.tsx:53-77 | a press while loading, or once the success view shows, changes nothing; resetSent never returns to false |
| `GoalSummary.Decimal` | components/dashboard/GoalSummary.tsx:40 | the number in the label is the decimal numeral of n: non-empty, all digits, no leading zero, denoting exactly n, and a single digit exactly below ten |
| `GoalSummary.FormatDate` | components/dashboard/GoalSummary.tsx:37-45 | 0 gives 'Today', 1 'Tomorrow', negative 'Overdue', 2 to 6 '<n> days left', 7 or more the calendar date text |
| `GoalSummary.ShortLabelsDistinct` | components/dashboard/GoalSummary.tsx:37-40 | below a week, two day differences share a label only if equal or both overdue |
| `GoalCard.StatusColor` | components/goals/GoalCard.tsx:34-45 | completed '#10B981', in-progress '#3B82F6', missed '#EF4444', any other value '#6B7280' |
| `GoalCard.StatusText` | components/goals/GoalCard.tsx:47-58 | completed 'Completed', in-progress 'In Progress', missed 'Missed', any other value 'Unknown' |
| `GoalCard.KnownStatusesDistinct` | components/goals/GoalCard.tsx:34-58 | the three known statuses have pairwise distinct colours and labels, none equal to the fallback |
| `GoalCard.FallbacksAgree` | components/goals/GoalCard.tsx:42-56 | the grey colour goes with the label 'Unknown' and only with it, exactly for unknown statuses |
| `GoalCard.GoalPath` | components/goals/GoalCard.tsx:63 | the detail route is '/goals/' followed by the goal id |
| `GoalCard.GoalPathInjective` | components/goals/GoalCard.tsx:93 | different goal ids give different detail routes |
| `GoalCard.Card` | components/goals/GoalCard.tsx:60-98 | badge text colour and progress bar colour are the same status colour; the badge background is that colour with suffix '20'; card press and View Details go to the same detail route |
| `MobileHeader.Title` | components/layout/MobileHeader.tsx:22-37 | the title is never empty, and it is 'Accountable' exactly for routes outside the five known ones |
| `MobileHeader.KnownTitlesAreCapitalizedNames` | components/layout/MobileHeader.tsx:23-33 | each known route's title is the route name with its first letter capitalised |
| `MobileHeader.KnownTitlesDistinct` | components/layout/MobileHeader.tsx:22-37 | the five known routes have pairwise distinct titles |

## Left out

- Rendering: JSX, style sheets, icons and images. Navigation is modelled only as the returned route string.
- AsyncStorage I/O and `JSON.stringify`/`JSON.parse`. The slot is a value, a failure is a parameter, and the JSON round trip is assumed. A stored string that parses to something other than a user record is not modelled.
- The `console.error` logging in the provider's `catch` blocks, because it is output only.
- Interleaving of asynchronous calls. Each provider operation is one atomic sequence of writes. Calls that overlap, such as a logout while a login awaits its timer, are not modelled.
- Between `setUser` and `setIsAuthenticated` the two cells disagree for one write; `SessionConsistent` is stated at operation boundaries only.
- The 1000 ms delays in login and register and the 1500 ms reset timer. The delays cannot fail and are omitted. The reset timer is the explicit step `TimerElapsed`.
- The `Date`/`getTime`/`Math.ceil` day computation and `toLocaleDateString` (components/dashboard/GoalSummary.tsx:30-35, 42-45; components/goals/GoalCard.tsx:25-32). These are floating point and locale formatting, so the day difference and the calendar text are inputs. An invalid date (NaN difference) is not modelled.
- The `Math.round(progress * 100)` percentages, components/ui/ProgressBar.tsx and components/ui/ProgressCircle.tsx. These are floating-point style widths.
- The "Back to Login" buttons of the reset-password screen. It is a fixed `router.replace('/auth/login')` with no decision.
- The context's default value (context/AuthContext.tsx:22-29), used outside a provider. Its state equals `InitialState(None)`, and its operations do nothing.
- Sidebar, course, partner and activity cards, the text input, the root layout and every screen under app/(app)/. They are presentation without decision logic.
