# Ecommerce app core in Dafny

A model of the session, networking and screen-state core of an Android
ecommerce client written in Kotlin with Jetpack Compose. The model covers:

- `safeApiCall` and `ApiResult`: how each outcome of a Retrofit call becomes a
  `Loading` then `Success`/`Error` flow, with its message, code and
  `ErrorType`.
- `SecureStorage`: a key–value store of typed values, modelled as a map that
  the class's methods reassign, with the typed getters and their defaults.
- `StorageKeys` and `SessionManager`: saving, reading, checking and clearing
  the login session.
- `AuthRepositoryImpl`: the login and logout flows and their `onEach` hooks.
- `AuthInterceptor`: adding the bearer token to outgoing requests.
- `SessionExpiryInterceptor`: logging out on a 401 and raising an `IOException`.
- `BaseViewModel`: caching and observing the connectivity flag, and
  `isNetworkError`.
- `HomeViewModel`: loading the three product sections, diverting 401s and
  handling flow failures.
- `AuthViewModel`: the login, logout, session-state and restore logic.
- The decision logic of `LoginScreen`, `ConnectivityAware` /
  `ApiResultHandler`, `HomeScreen` and `DialogManager`.
- `Screen`: the navigation routes.

Flows are finite sequences, and `collect`/`onEach` are loops over them.
A launched coroutine runs to completion without interleaving; a `logout()`
launched from inside another view-model coroutine runs once the launching
coroutine has finished. Kotlin's
`String.length` (UTF-16 units), `isBlank` (JVM whitespace), `Int.toString`
and wrapping `Long` subtraction are written out in `KotlinText`.

The model proves several behaviours that differ from what the names suggest:

- A 401 passing through `SessionExpiryInterceptor` reaches `safeApiCall` as an
  I/O exception. It becomes a NETWORK error with no code, so `HomeViewModel`'s
  own 401 diversion can never fire behind it.
- Where that diversion does fire, the section stays `Loading` and the home
  screen's loading flag stays up until `loadHomeData` runs again.
- `isLoggedIn` tests for a blank token, while `isSessionValid` tests for an
  empty one. `saveSession("")` sets the logged-in flag although nobody is
  logged in.
- `AuthViewModel.logout` emits `LogoutSuccess` twice, because its logout flow
  emits `Loading` and then the terminal result.
- A TIMEOUT counts for `isNetworkError` but is shown as a dialog.
- `UserState` has no serializer, so `storeSessionState` throws before it
  writes `USER_STATE`, `getUserState` is always null and `restoreSession`
  never ends a session.
- A section placeholder is never shown, because no section is ever `Initial`.

## Model

| member | source | states |
|---|---|---|
| ApiResults.Terminal | app/src/main/java/com/example/ecommerceapp/core/network/ApiResult.kt:42-88 | the terminal value for each outcome: `Success(body)` exactly for a 2xx response with a body; a code exactly for a non-2xx response, with message "API call failed with code: " and the code in decimal; AUTH_ERROR exactly for 401/403; API_ERROR for other statuses and, with "Response body is null", for a 2xx with no body; TIMEOUT exactly for a socket timeout; NETWORK exactly for unknown host, connect and other I/O failures; UNKNOWN exactly for any other exception; each exception's fixed text, or "Network error: " / "Error: " followed by its message rendered as in a template |
| ApiResults.SafeApiCall | app/src/main/java/com/example/ecommerceapp/core/network/ApiResult.kt:39-88 | a call emits exactly two values, `Loading` first and then exactly one `Success` or `Error`; never `Initial` |
| ApiResults.ExceptionsCarryNoCode | app/src/main/java/com/example/ecommerceapp/core/network/ApiResult.kt:63-88 | an exception always ends in an `Error` with no code |
| ApiResults.FailedCodeMessageDeterminesCode | app/src/main/java/com/example/ecommerceapp/core/network/ApiResult.kt:52-60 | two non-2xx errors with the same message carry the same code |
| KotlinText.Utf16Length | app/src/main/java/com/example/ecommerceapp/feature/auth/LoginScreen.kt:76 | `String.length` counts UTF-16 units: between the number of characters and twice it, and equal to it exactly when every character is in the Basic Multilingual Plane |
| KotlinText.DecimalRoundTrip | app/src/main/java/com/example/ecommerceapp/core/network/ApiResult.kt:58 | the decimal rendering of a natural number in a string template parses back to that number |
| KotlinText.IntToStringInjective | app/src/main/java/com/example/ecommerceapp/core/network/ApiResult.kt:58 | distinct `Int` values render as distinct strings |
| KotlinText.WrapLong | app/src/main/java/com/example/ecommerceapp/feature/auth/viewmodel/AuthViewModel.kt:172 | `Long` subtraction: the exact difference when it fits in 64 bits, and congruent to it modulo 2^64 always |
| StorageKeys.SessionKeysDistinct | app/src/main/java/com/example/ecommerceapp/core/common/StorageKeys.kt:8-12 | the five session keys are pairwise distinct |
| StorageKeys.AuxiliaryKeysOutsideSession | app/src/main/java/com/example/ecommerceapp/core/common/StorageKeys.kt:8-16 | `USER_STATE`, `LAST_LOGGED_IN_EMAIL` and both timestamps lie outside the session keys; the remembered email key differs from `USER_EMAIL`; the two timestamps differ |
| StorageKeys.AllKeysDistinct | app/src/main/java/com/example/ecommerceapp/core/common/StorageKeys.kt:8-32 | all eighteen key constants are pairwise distinct |
| Storage.ObjectOr | app/src/main/java/com/example/ecommerceapp/core/common/SecureStorage.kt:160-171 | `getObject` is null for an empty or absent string and when decoding fails, and otherwise the decoded object; it never fails |
| Storage.SecureStorage.constructor | app/src/main/java/com/example/ecommerceapp/core/common/SecureStorage.kt:42-48 | the store starts with the contents found on the device |
| Storage.SecureStorage.StoreString | app/src/main/java/com/example/ecommerceapp/core/common/SecureStorage.kt:55-57 | the key now holds the string; no other key changes |
| Storage.SecureStorage.StoreBoolean | app/src/main/java/com/example/ecommerceapp/core/common/SecureStorage.kt:74-76 | the key now holds the boolean; no other key changes |
| Storage.SecureStorage.StoreInt | app/src/main/java/com/example/ecommerceapp/core/common/SecureStorage.kt:93-95 | the key now holds the int; no other key changes |
| Storage.SecureStorage.StoreLong | app/src/main/java/com/example/ecommerceapp/core/common/SecureStorage.kt:112-114 | the key now holds the long; no other key changes |
| Storage.SecureStorage.StoreFloat | app/src/main/java/com/example/ecommerceapp/core/common/SecureStorage.kt:131-133 | the key now holds the float; no other key changes |
| Storage.SecureStorage.StoreObject | app/src/main/java/com/example/ecommerceapp/core/common/SecureStorage.kt:150-153 | exactly the encoding of the object is stored as a string under the key; when encoding throws, nothing is written and the exception is reported |
| Storage.SecureStorage.Remove | app/src/main/java/com/example/ecommerceapp/core/common/SecureStorage.kt:186-188 | the key is gone, so `contains` is false for it; every other key is unchanged |
| Storage.SecureStorage.Clear | app/src/main/java/com/example/ecommerceapp/core/common/SecureStorage.kt:193-195 | no key is left |
| Storage.ReadAfterStore | app/src/main/java/com/example/ecommerceapp/core/common/SecureStorage.kt:55-143 | reading a key right after storing a value of each type under it returns that value |
| Storage.ReadAbsentKey | app/src/main/java/com/example/ecommerceapp/core/common/SecureStorage.kt:65-143 | an absent key reads as each getter's default: `""`, false, 0, 0L, 0f |
| Storage.RemoveOnlyThatKey | app/src/main/java/com/example/ecommerceapp/core/common/SecureStorage.kt:65-188 | after `remove(k)`, `contains(k)` is false and every getter reads `k` as its default; `contains` and every getter read any other key as before |
| Storage.ObjectRoundTrip | app/src/main/java/com/example/ecommerceapp/core/common/SecureStorage.kt:150-171 | `getObject` after a `storeObject` that did not throw returns the object when the codec round-trips it and its encoding is not empty |
| Storage.EmptyEncodingReadsAsNull | app/src/main/java/com/example/ecommerceapp/core/common/SecureStorage.kt:160-167 | an object whose encoding is empty is read back as null |
| Storage.NoSerializerReadsAsNull | app/src/main/java/com/example/ecommerceapp/core/common/SecureStorage.kt:160-171 | for a type with no serializer, decoding always throws and `getObject` is null whatever is stored |
| Session.NonEmpty | app/src/main/java/com/example/ecommerceapp/core/session/SessionManager.kt:38-73 | a getter yields null exactly for an empty stored string, and otherwise that string |
| Session.SaveSessionPrefs | app/src/main/java/com/example/ecommerceapp/core/session/SessionManager.kt:27-33 | after `saveSession` the four strings read back, `is_logged_in` is true, the key set gains exactly the session keys and no other key changes |
| Session.LogoutPrefs | app/src/main/java/com/example/ecommerceapp/core/session/SessionManager.kt:87-93 | after `logout` the four session strings are absent, `is_logged_in` is false and no other key changes |
| Session.LoggedInIffTokenNotBlank | app/src/main/java/com/example/ecommerceapp/core/session/SessionManager.kt:78-82 | `isLoggedIn` holds exactly when the stored token is not blank |
| Session.ValidityVersusLoggedIn | app/src/main/java/com/example/ecommerceapp/core/session/SessionManager.kt:78-120 | `isLoggedIn` implies `isSessionValid`; they differ exactly on a non-empty blank token |
| Session.WhitespaceTokenValidButLoggedOut | app/src/main/java/com/example/ecommerceapp/core/session/SessionManager.kt:27-120 | saving a one-space token sets the flag and makes the session valid, yet nobody is logged in |
| Session.GettersAfterSave | app/src/main/java/com/example/ecommerceapp/core/session/SessionManager.kt:27-73 | each getter returns what `saveSession` stored, or null for an empty string |
| Session.SaveSessionLogsIn | app/src/main/java/com/example/ecommerceapp/core/session/SessionManager.kt:27-82 | `saveSession` with a non-blank token logs in, and `getToken` returns that token |
| Session.EmptyTokenFlagDisagrees | app/src/main/java/com/example/ecommerceapp/core/session/SessionManager.kt:27-82 | `saveSession("")` sets `is_logged_in` although `isLoggedIn` is false |
| Session.LogoutEndsSession | app/src/main/java/com/example/ecommerceapp/core/session/SessionManager.kt:87-93 | after `logout` every getter is null, both checks fail and the flag reads false |
| Session.LogoutIdempotent | app/src/main/java/com/example/ecommerceapp/core/session/SessionManager.kt:87-93 | logging out twice leaves the store as logging out once |
| Session.SessionManager.SaveSession | app/src/main/java/com/example/ecommerceapp/core/session/SessionManager.kt:27-33 | the five writes leave the store as `SaveSessionPrefs` describes |
| Session.SessionManager.Logout | app/src/main/java/com/example/ecommerceapp/core/session/SessionManager.kt:87-93 | the four removes and the flag write leave the store as `LogoutPrefs` describes |
| Session.SessionManager.GetSessionData | app/src/main/java/com/example/ecommerceapp/core/session/SessionManager.kt:98-107 | the map holds exactly the session strings that are non-empty, each with its stored value, and never `is_logged_in` |
| AuthRepository.LoginWithoutSuccessKeepsStore | app/src/main/java/com/example/ecommerceapp/data/repository/AuthRepositoryImpl.kt:26-37 | emissions without a `Success` leave the store unchanged |
| AuthRepository.LoginSavesOnlyOnSuccess | app/src/main/java/com/example/ecommerceapp/data/repository/AuthRepositoryImpl.kt:23-39 | collecting `login` saves the body's token and user exactly when the call succeeds, and otherwise changes nothing |
| AuthRepository.TimedOutLoginKeepsSession | app/src/main/java/com/example/ecommerceapp/data/repository/AuthRepositoryImpl.kt:23-39 | a timed-out login keeps the previous session |
| AuthRepository.LoginScenario | app/src/main/java/com/example/ecommerceapp/data/repository/AuthRepositoryImpl.kt:23-39 | a 200 response with a token leaves that token and user stored and the user logged in |
| AuthRepository.LogoutCollectClears | app/src/main/java/com/example/ecommerceapp/data/repository/AuthRepositoryImpl.kt:41-48 | one or more logout emissions clear the session as one `logout()` does |
| AuthRepository.LogoutAlwaysClears | app/src/main/java/com/example/ecommerceapp/data/repository/AuthRepositoryImpl.kt:41-48 | whatever the logout call's outcome, the session is cleared and nobody is logged in |
| AuthRepository.AuthRepositoryImpl.OnLoginEmission | app/src/main/java/com/example/ecommerceapp/data/repository/AuthRepositoryImpl.kt:26-37 | the hook saves the session on `Success` and does nothing otherwise |
| AuthRepository.AuthRepositoryImpl.Login | app/src/main/java/com/example/ecommerceapp/data/repository/AuthRepositoryImpl.kt:23-39 | every emission of the call passes through unchanged, and the store is what the hook leaves after each |
| AuthRepository.AuthRepositoryImpl.OnLogoutEmission | app/src/main/java/com/example/ecommerceapp/data/repository/AuthRepositoryImpl.kt:44-47 | the hook clears the session whatever the emission |
| AuthRepository.AuthRepositoryImpl.Logout | app/src/main/java/com/example/ecommerceapp/data/repository/AuthRepositoryImpl.kt:41-48 | every emission passes through unchanged, and the session is cleared on each |
| AuthRepository.AuthRepositoryImpl.HandleSessionExpiry | app/src/main/java/com/example/ecommerceapp/data/repository/AuthRepositoryImpl.kt:50-56 | the session is cleared, then exactly one `Success(Unit)` is emitted |
| AuthRepository.AuthRepositoryImpl.IsSessionValid | app/src/main/java/com/example/ecommerceapp/data/repository/AuthRepositoryImpl.kt:58-61 | the blank-token test of `isLoggedIn`, which implies the empty-token test |
| AuthInterceptor.Authorize | app/src/main/java/com/example/ecommerceapp/core/network/AuthInterceptor.kt:18-22 | the forwarded request keeps method, URL and every existing header, and gains exactly one `Authorization: Bearer <token>` header at the end when there is a token |
| AuthInterceptor.Intercept | app/src/main/java/com/example/ecommerceapp/core/network/AuthInterceptor.kt:16-25 | method, URL and existing headers are forwarded as they came; exactly one `Authorization: Bearer <token>` header is added exactly when a non-empty token is stored; the response is the chain's for that one forwarded request |
| AuthInterceptor.NoTokenNoHeader | app/src/main/java/com/example/ecommerceapp/core/network/AuthInterceptor.kt:17-24 | an empty or absent token forwards the request as it came |
| AuthInterceptor.StoredTokenIsSent | app/src/main/java/com/example/ecommerceapp/core/network/AuthInterceptor.kt:17-22 | a stored token `t` is sent as `Bearer t` |
| AuthInterceptor.BlankTokenStillSent | app/src/main/java/com/example/ecommerceapp/core/network/AuthInterceptor.kt:17-22 | a whitespace-only token is still sent, though nobody is logged in |
| SessionExpiry.Decide | app/src/main/java/com/example/ecommerceapp/core/network/SessionExpiryInterceptor.kt:25-34 | only a 401 is intercepted, raising an I/O failure with "Session expired. Please login again."; every other response, 403 included, passes unchanged |
| SessionExpiry.UnauthorizedSurfacesAsNetworkError | app/src/main/java/com/example/ecommerceapp/core/network/SessionExpiryInterceptor.kt:25-31 | through `safeApiCall`, a 401 becomes `Error("Network error: Session expired. Please login again.", null, NETWORK)` |
| SessionExpiry.NoUnauthorizedCodeBehindInterceptor | app/src/main/java/com/example/ecommerceapp/core/network/SessionExpiryInterceptor.kt:25-34 | no error with code 401 gets past the interceptor; a 403 still arrives as AUTH_ERROR with its code |
| SessionExpiry.SessionExpiryInterceptor.Intercept | app/src/main/java/com/example/ecommerceapp/core/network/SessionExpiryInterceptor.kt:20-35 | on a 401 the session is logged out, so nobody is logged in, and the failure is raised; otherwise the store is unchanged and the response returned |
| Connectivity.NetworkErrorsAreIOFailures | app/src/main/java/com/example/ecommerceapp/core/base/BaseViewModel.kt:47-50 | `isNetworkError` holds for a `safeApiCall` error exactly when an I/O exception caused it |
| Connectivity.BaseViewModel.constructor | app/src/main/java/com/example/ecommerceapp/core/base/BaseViewModel.kt:20 | the cached flag starts at the probe's current answer |
| Connectivity.BaseViewModel.Observe | app/src/main/java/com/example/ecommerceapp/core/base/BaseViewModel.kt:27-34 | each value is cached and then passed to the hook, in order; the cache ends at the last value |
| Connectivity.BaseViewModel.OnNetworkConnectivityChanged | app/src/main/java/com/example/ecommerceapp/core/base/BaseViewModel.kt:40-42 | the default hook leaves the cached flag alone |
| Connectivity.BaseViewModel.IsNetworkAvailable | app/src/main/java/com/example/ecommerceapp/core/base/BaseViewModel.kt:56-58 | the probe's current answer, read without the cache |
| Home.Limit | app/src/main/java/com/example/ecommerceapp/feature/home/viewmodel/HomeViewModel.kt:67-113 | featured and new arrivals ask for 5 products, popular for 10 |
| Home.Emissions | app/src/main/java/com/example/ecommerceapp/feature/home/viewmodel/HomeViewModel.kt:67-81 | a load's `collect` sees `Loading` first and then exactly one more value, the terminal value of the outcome, when the call completes, and only `Loading` when the flow fails; never `Initial` |
| Home.CrashError | app/src/main/java/com/example/ecommerceapp/feature/home/viewmodel/HomeViewModel.kt:115-126 | `handleApiError` stores an error with no code, the throwable's message or "Unknown error occurred", typed NETWORK when no network is available, else UNKNOWN |
| Home.CollectSessionClearsOn401 | app/src/main/java/com/example/ecommerceapp/feature/home/viewmodel/HomeViewModel.kt:73-79 | the session is cleared exactly when some emission was a 401 error |
| Home.CollectSectionNeverInitial | app/src/main/java/com/example/ecommerceapp/feature/home/viewmodel/HomeViewModel.kt:73-79 | `collect` never stores `Initial` |
| Home.LoadNeverYieldsInitial | app/src/main/java/com/example/ecommerceapp/feature/home/viewmodel/HomeViewModel.kt:67-126 | a load never leaves a section `Initial` |
| Home.LoadStoresResultVerbatim | app/src/main/java/com/example/ecommerceapp/feature/home/viewmodel/HomeViewModel.kt:73-79 | a result that is not a 401 error is stored as it is |
| Home.UnauthorizedLeavesLoading | app/src/main/java/com/example/ecommerceapp/feature/home/viewmodel/HomeViewModel.kt:73-79 | a 401 leaves the section at the `Loading` stored before it, and clears the session |
| Home.DiversionUnreachableBehindInterceptor | app/src/main/java/com/example/ecommerceapp/feature/home/viewmodel/HomeViewModel.kt:74-75 | behind the session-expiry interceptor the diversion never fires and the view model does not touch the session |
| Home.HomeViewModel.constructor | app/src/main/java/com/example/ecommerceapp/feature/home/viewmodel/HomeViewModel.kt:25-32 | all three sections start as `Loading` |
| Home.HomeViewModel.HandleApiError | app/src/main/java/com/example/ecommerceapp/feature/home/viewmodel/HomeViewModel.kt:115-126 | only the given section changes, to the error `CrashError` describes |
| Home.HomeViewModel.HandleSessionExpiry | app/src/main/java/com/example/ecommerceapp/feature/home/viewmodel/HomeViewModel.kt:128-132 | the repository's expiry flow clears the session |
| Home.HomeViewModel.Load | app/src/main/java/com/example/ecommerceapp/feature/home/viewmodel/HomeViewModel.kt:67-113 | one request with the section's limit; the section ends as its emissions leave it, 401s diverted; the other sections are unchanged |
| Home.HomeViewModel.LoadHomeData | app/src/main/java/com/example/ecommerceapp/feature/home/viewmodel/HomeViewModel.kt:38-42 | featured, new arrivals and popular are loaded in that order with limits 5, 5 and 10 |
| Home.HomeViewModel.ClearError | app/src/main/java/com/example/ecommerceapp/feature/home/viewmodel/HomeViewModel.kt:45-65 | a section in `Error` is reset to `Loading` and reloaded; otherwise nothing changes; other sections are untouched |
| AuthView.LogoutStep | app/src/main/java/com/example/ecommerceapp/feature/auth/viewmodel/AuthViewModel.kt:96-115 | each logout emission removes the session strings and `USER_STATE`, stores `is_logged_in` as false and keeps every other key |
| AuthView.LogoutStepIdempotent | app/src/main/java/com/example/ecommerceapp/feature/auth/viewmodel/AuthViewModel.kt:96-115 | a second logout emission changes nothing more |
| AuthView.TimeSinceLastLogin | app/src/main/java/com/example/ecommerceapp/feature/auth/viewmodel/AuthViewModel.kt:169-174 | null exactly when no positive login time is stored; otherwise `now` minus it, wrapped to 64 bits |
| AuthView.ViewModelLogoutKeepsHistory | app/src/main/java/com/example/ecommerceapp/feature/auth/viewmodel/AuthViewModel.kt:92-115 | after the view model's logout nobody is logged in, the token is gone, `is_logged_in` reads false, there is no user state, the logout time is `now`, and the remembered email and time since last login are unchanged |
| AuthView.SessionStateReadBack | app/src/main/java/com/example/ecommerceapp/feature/auth/viewmodel/AuthViewModel.kt:75-90 | with a codec that can encode `UserState` and round-trips it, after `storeSessionState` the user state (logged in, with the stored user id), email and name read back, and the token is untouched |
| AuthView.EmptyTokenSessionIsExpiredOnRestore | app/src/main/java/com/example/ecommerceapp/feature/auth/viewmodel/AuthViewModel.kt:141-156 | with a codec that round-trips `UserState`, a session saved with an empty token plus a stored user state is what `restoreSession` treats as expired |
| AuthView.UnserializableSessionStateStopsEarly | app/src/main/java/com/example/ecommerceapp/feature/auth/viewmodel/AuthViewModel.kt:75-90 | with the app's `UserState`, which has no serializer, `storeSessionState` writes the login time, email and name and then throws, leaving `USER_STATE` as it was |
| AuthView.UnserializableUserStateNeverRestored | app/src/main/java/com/example/ecommerceapp/feature/auth/viewmodel/AuthViewModel.kt:141-182 | with the app's `UserState`, `getObject` never yields a user state, so `getUserState` is null and `restoreSession` never ends a session |
| AuthView.AuthViewModel.constructor | app/src/main/java/com/example/ecommerceapp/feature/auth/viewmodel/AuthViewModel.kt:34-38 | `loginState` starts `Initial` and `logoutEvent` false |
| AuthView.AuthViewModel.Login | app/src/main/java/com/example/ecommerceapp/feature/auth/viewmodel/AuthViewModel.kt:46-51 | `loginState` goes `Loading` then `Success(Unit)`, then `LoginSuccess` is emitted; the credentials are not used |
| AuthView.AuthViewModel.StoreSessionState | app/src/main/java/com/example/ecommerceapp/feature/auth/viewmodel/AuthViewModel.kt:75-90 | login time, email and name are written, then the user state with the stored user id when it can be encoded; otherwise the exception is reported after the three writes |
| AuthView.AuthViewModel.ClearSessionState | app/src/main/java/com/example/ecommerceapp/feature/auth/viewmodel/AuthViewModel.kt:110-115 | only `USER_STATE` is removed |
| AuthView.AuthViewModel.Logout | app/src/main/java/com/example/ecommerceapp/feature/auth/viewmodel/AuthViewModel.kt:92-105 | the logout time is stored first; each of the two emissions clears the session and `USER_STATE`, raises `logoutEvent` and emits `LogoutSuccess` |
| AuthView.AuthViewModel.ResetLogoutEvent | app/src/main/java/com/example/ecommerceapp/feature/auth/viewmodel/AuthViewModel.kt:117-119 | only `logoutEvent` changes, to false |
| AuthView.AuthViewModel.CheckAuthStatus | app/src/main/java/com/example/ecommerceapp/feature/auth/viewmodel/AuthViewModel.kt:121-128 | when the cached flag is false, `Unauthorized` and then the launched logout (the session cleared, `logoutEvent` raised, two `LogoutSuccess`); otherwise nothing changes; the login state never changes |
| AuthView.AuthViewModel.HandleSessionExpiry | app/src/main/java/com/example/ecommerceapp/feature/auth/viewmodel/AuthViewModel.kt:130-135 | `SessionExpired`, then the launched logout (the session cleared, `logoutEvent` raised, two `LogoutSuccess`); the login state never changes |
| AuthView.AuthViewModel.RestoreSession | app/src/main/java/com/example/ecommerceapp/feature/auth/viewmodel/AuthViewModel.kt:141-156 | exactly when the user state decodes, the flag is set and the token is empty: `SessionExpired`, then the launched logout; otherwise nothing changes; the login state never changes |
| AuthView.AuthViewModel.GetLastLoggedInEmail | app/src/main/java/com/example/ecommerceapp/feature/auth/viewmodel/AuthViewModel.kt:161-163 | the remembered email, `""` when there is none |
| AuthView.AuthViewModel.GetTimeSinceLastLogin | app/src/main/java/com/example/ecommerceapp/feature/auth/viewmodel/AuthViewModel.kt:169-174 | null exactly when no positive login time is stored; otherwise the elapsed time, wrapped to 64 bits, and exact when it fits |
| AuthView.AuthViewModel.GetUserState | app/src/main/java/com/example/ecommerceapp/feature/auth/viewmodel/AuthViewModel.kt:180-182 | null for an empty or absent user state or one that does not decode; otherwise the decoded value |
| LoginScreen.EmailError | app/src/main/java/com/example/ecommerceapp/feature/auth/LoginScreen.kt:63-71 | "Email is required" exactly for a blank email, "Enter a valid email" exactly for a non-blank one the pattern rejects, none otherwise |
| LoginScreen.PasswordError | app/src/main/java/com/example/ecommerceapp/feature/auth/LoginScreen.kt:73-81 | "Password is required" exactly for a blank password, "Password must be at least 6 characters" exactly for a non-blank one under 6 UTF-16 units, none otherwise |
| LoginScreen.AcceptedPasswordLength | app/src/main/java/com/example/ecommerceapp/feature/auth/LoginScreen.kt:73-81 | an accepted password has at least 3 characters, and at least 6 when all are in the Basic Multilingual Plane |
| LoginScreen.SpacesAreNotAPassword | app/src/main/java/com/example/ecommerceapp/feature/auth/LoginScreen.kt:73-75 | six spaces are reported as a missing password |
| LoginScreen.LoginForm.constructor | app/src/main/java/com/example/ecommerceapp/feature/auth/LoginScreen.kt:36-39 | empty fields and no errors |
| LoginScreen.LoginForm.ValidateInputs | app/src/main/java/com/example/ecommerceapp/feature/auth/LoginScreen.kt:60-84 | both fields are always checked; the result is valid exactly when neither error is set |
| LoginScreen.LoginForm.HandleLoginClick | app/src/main/java/com/example/ecommerceapp/feature/auth/LoginScreen.kt:87-91 | `login` runs exactly when validation passes, leaving the login state at `Success(Unit)`; otherwise the view model is unchanged; the fields and `logoutEvent` are never changed |
| LoginScreen.LoginForm.OnEmailChange | app/src/main/java/com/example/ecommerceapp/feature/auth/LoginScreen.kt:112 | editing the email clears only the email error |
| LoginScreen.LoginForm.OnPasswordChange | app/src/main/java/com/example/ecommerceapp/feature/auth/LoginScreen.kt:114 | editing the password clears only the password error |
| ResultViews.ApiErrorMessage | app/src/main/java/com/example/ecommerceapp/core/components/ConnectivityAware.kt:53-56 | the dialog text is never empty: the fixed authentication text for AUTH_ERROR, else the message, else "An unexpected error occurred." |
| ResultViews.ConnectivityAwareView | app/src/main/java/com/example/ecommerceapp/core/components/ConnectivityAware.kt:30-82 | offline or a NETWORK error shows the network error screen; `Success(d)` shows `d`; other errors show the dialog; `Loading` the loader; null or `Initial` the content with no data |
| ResultViews.ApiResultHandlerView | app/src/main/java/com/example/ecommerceapp/core/components/ConnectivityAware.kt:101-138 | `Initial`, and only it, shows nothing |
| ResultViews.HandlerAgreesWhenConnected | app/src/main/java/com/example/ecommerceapp/core/components/ConnectivityAware.kt:30-138 | the two composables agree on every result but `Initial` while connected |
| ResultViews.TimeoutIsDialogHere | app/src/main/java/com/example/ecommerceapp/core/components/ConnectivityAware.kt:40-57 | a TIMEOUT counts for `isNetworkError` but is shown as a dialog, not the network error screen |
| ResultViews.UnauthorizedViews | app/src/main/java/com/example/ecommerceapp/core/components/ConnectivityAware.kt:53-56 | a 401/403 status shows the authentication dialog, while a 401 turned into an exception by the interceptor shows the network error screen |
| ResultViews.ErrorDialogState.constructor | app/src/main/java/com/example/ecommerceapp/core/components/ConnectivityAware.kt:27-28 | no dialog and an empty message |
| ResultViews.ErrorDialogState.Compose | app/src/main/java/com/example/ecommerceapp/core/components/ConnectivityAware.kt:47-57 | a dialog-worthy error sets the message and raises the flag; other results leave both alone |
| ResultViews.ErrorDialogState.Dismiss | app/src/main/java/com/example/ecommerceapp/core/components/ConnectivityAware.kt:67-69 | the flag drops |
| ResultViews.ErrorDialogState.Retry | app/src/main/java/com/example/ecommerceapp/core/components/ConnectivityAware.kt:63-66 | the flag drops and the caller's retry runs once |
| ResultViews.ErrorDialogState.DismissAndRecompose | app/src/main/java/com/example/ecommerceapp/core/components/ConnectivityAware.kt:47-69 | after a dismiss the next composition raises the flag again, with the error's text, while the error remains; otherwise the flag stays down and the text is kept; the retry count is unchanged |
| HomeScreenLogic.IsLoading | app/src/main/java/com/example/ecommerceapp/feature/home/HomeScreen.kt:71-77 | true exactly when some section is `Loading` |
| HomeScreenLogic.SelectError | app/src/main/java/com/example/ecommerceapp/feature/home/HomeScreen.kt:83-110 | a featured error always takes the dialog; new arrivals then popular only when there is none; with no error the dialog stays; a new dialog names a section in error and its message |
| HomeScreenLogic.PlaceholderMeansInitial | app/src/main/java/com/example/ecommerceapp/feature/home/HomeScreen.kt:284-289 | a section shows its placeholder exactly when it is `Initial` and nothing is loading |
| HomeScreenLogic.UnauthorizedKeepsScreenLoading | app/src/main/java/com/example/ecommerceapp/feature/home/HomeScreen.kt:71-77 | a 401 in a section keeps the screen's loading flag up |
| HomeScreenLogic.PlaceholderNeverShown | app/src/main/java/com/example/ecommerceapp/feature/home/HomeScreen.kt:284-289 | with no section `Initial`, which the view model guarantees, no placeholder is shown |
| HomeScreenLogic.HomeScreenState.constructor | app/src/main/java/com/example/ecommerceapp/feature/home/HomeScreen.kt:80 | no dialog at first |
| HomeScreenLogic.HomeScreenState.OnSectionsChanged | app/src/main/java/com/example/ecommerceapp/feature/home/HomeScreen.kt:83-110 | the dialog becomes `SelectError` of the current sections |
| HomeScreenLogic.HomeScreenState.Retry | app/src/main/java/com/example/ecommerceapp/feature/home/HomeScreen.kt:113-121 | the chosen section's `clear*Error` runs, reloading it and logging out on a 401 only when it was in error, and otherwise changing neither it nor the store; then the dialog is cleared |
| HomeScreenLogic.HomeScreenState.Dismiss | app/src/main/java/com/example/ecommerceapp/feature/home/HomeScreen.kt:90 | the dialog is cleared |
| Dialogs.ReplayIsLast | app/src/main/java/com/example/ecommerceapp/core/components/DialogManager.kt:102-108 | collecting events leaves the state at the last event, or unchanged when there is none |
| Dialogs.DialogManager.constructor | app/src/main/java/com/example/ecommerceapp/core/components/DialogManager.kt:39-40 | nothing emitted yet |
| Dialogs.DialogManager.ShowAlert | app/src/main/java/com/example/ecommerceapp/core/components/DialogManager.kt:43-71 | one `Alert` with the given title and message is emitted; buttons default to "OK" and "Cancel" |
| Dialogs.DialogManager.ShowProgress | app/src/main/java/com/example/ecommerceapp/core/components/DialogManager.kt:74-78 | one `Progress` is emitted, by default with "Please wait..." |
| Dialogs.DialogManager.HideDialog | app/src/main/java/com/example/ecommerceapp/core/components/DialogManager.kt:81-85 | one `None` is emitted |
| Dialogs.DialogManager.ClickConfirm | app/src/main/java/com/example/ecommerceapp/core/components/DialogManager.kt:58-62 | the confirm callback runs, then `None` is emitted |
| Dialogs.DialogManager.ClickDismiss | app/src/main/java/com/example/ecommerceapp/core/components/DialogManager.kt:63-67 | the dismiss callback runs if given, then `None` is emitted |
| Dialogs.DialogHandler.constructor | app/src/main/java/com/example/ecommerceapp/core/components/DialogManager.kt:102 | the state starts as `None` |
| Dialogs.DialogHandler.Collect | app/src/main/java/com/example/ecommerceapp/core/components/DialogManager.kt:104-108 | after collecting, the state is the last emitted event, or `None` if there was none |
| Navigation.CreateRoute | app/src/main/java/com/example/ecommerceapp/navigation/Screen.kt:17 | the route is the pattern's prefix followed by exactly the given id |
| Navigation.CreateRouteInjective | app/src/main/java/com/example/ecommerceapp/navigation/Screen.kt:17 | different ids give different routes |
| Navigation.PatternSharesPrefix | app/src/main/java/com/example/ecommerceapp/navigation/Screen.kt:16-17 | the route pattern and every created route share the prefix `product_detail_screen/` |
| Navigation.ProductRoutesDistinct | app/src/main/java/com/example/ecommerceapp/feature/home/HomeScreen.kt:281 | products with different integer ids never share a detail route |
| Navigation.RoutesDistinct | app/src/main/java/com/example/ecommerceapp/navigation/Screen.kt:5-16 | the eight route strings are pairwise distinct |

## Left out

- Encryption: `EncryptedSharedPreferences` and the `MasterKey` are not modelled. The store is a plain map of typed values, which is what encryption preserves.
- Storage.SecureStorage: a getter applied to a key holding another type returns the default. The platform throws `ClassCastException` instead, and no code in the core does this.
- Storage.ObjectOr: kotlinx.serialization's `Json` is an abstract pair of encode and decode functions that fail where the library throws. The JSON format is not modelled, and the round trip is a hypothesis of the lemmas that need it, not a fact proved about JSON.
- AuthView.SessionStateReadBack: its round-trip hypothesis needs `UserState` to be `@Serializable`, which the app's `UserState` is not; `UnserializableSessionStateStopsEarly` states what the app does instead.
- AuthView.EmptyTokenSessionIsExpiredOnRestore: likewise needs a serializable `UserState`; with the app's, `UnserializableUserStateNeverRestored` shows that `restoreSession` never ends a session.
- Floating point: `storeFloat`/`getFloat` keep an opaque 32-bit pattern. Product `price` and `rating` are not modelled, because no core decision reads them.
- Concurrency: a coroutine started with `viewModelScope.launch` runs to completion without interleaving with others. The `logout()` that `checkAuthStatus`, `handleSessionExpiry` and `restoreSession` launch runs after their own event is emitted. The interceptor's `CoroutineScope(Dispatchers.IO).launch` logout is modelled as done before the exception is raised, although on the device it may finish later.
- `delay(3000)` in `AuthViewModel.login` is not modelled. Time is a `now` parameter wherever the source reads the clock.
- HTTP, Retrofit and OkHttp: `chain.proceed` and the body converter are function parameters. The use cases and `ProductRepositoryImpl` only forward calls, so they are inlined.
- NetworkConnectivityManager is a mutable probe with a `connected` flag. The callback-flow registration and `distinctUntilChanged` are left out; `Observe` takes the sequence of values delivered.
- AuthView.AuthViewModel.CheckAuthStatus: `isLoggedIn` is the session manager's flow cached with `stateIn`, and its current value is a parameter.
- LoginScreen.EmailError: `Patterns.EMAIL_ADDRESS` is an uninterpreted predicate.
- Compose layout, theming, the design system and navigation graph wiring are not modelled, only the decisions that screens make.
- Home.HomeViewModel.Load: a flow failure that is not an `Exception` is folded into the same `Crashed` case as `catch` handles.
- Home.HomeViewModel.constructor: the `init` call to `loadHomeData` is a separate `LoadHomeData` call made after construction.
- AuthView.AuthUiEvent: `ErrorEvent` is never emitted, because the code that would emit it is commented out.
- `SharedFlow` buffering and replay are replaced by event logs (`uiEvents`, `emitted`). Subscribers see every event, in order.
- `ApiErrorAlert`, `ErrorDialog`, `FullScreenError` and `Loader` are presentation only.
