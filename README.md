# Planet client rules in Dafny

Planet is a mobile quest app. Its client talks to a REST server through three
request wrappers. It caches server state under array-shaped query keys,
and it shows tiers as images. New users sign up through a form of selectors.
The session is kept in a context provider. A calendar dialog labels past quests.

This project models the deterministic rules inside that client and proves
properties about them:

- **Request wrappers.** `questApiRequest`, `tierApiRequest` and `apiRequest`
  are modelled with the transport as an input. The transport either rejects
  with a thrown value or resolves with a status, a body text and a status text.
  JSON parsing is a parameter. The model covers the default headers, the
  header merge, the non-2xx mapping and the `{}` rule for an empty body. It
  also covers the fixed order of the catch chain: abort 408, TypeError 0,
  the wrapper's own error rethrown, and anything else 500.
- **Endpoints.** The quest, tier and account endpoints, including the two
  percent-encoders that user values go through (`encodeURIComponent` and the
  `URLSearchParams` serializer).
- **Query keys and tier tables.**
- **Signup selectors.** The MBTI letter selector, the hobby toggle and add,
  the custom-hobby input, the age and gender selects, and the signup screen's
  completeness check.
- **Session provider.** `signIn`, `signUp` and `signOut`, and the default
  context value.
- **Calendar dialog.** The date title, the today / yesterday / N-days-ago
  label, the experience label and the evidence section.

`questApiRequest` and `tierApiRequest` build their headers in place, so they
are methods proved equal to specification functions. `handleSelect` of the
MBTI selector works on an array, so it is a method too. The custom-hobby
input and the session provider update state fields, so they are classes.
Everything else is functions and lemmas.

## Model

| member | source | states |
|---|---|---|
| Fetch.Merge | api/questApi.ts:82-85 | `{...defaults, ...caller}` keeps every name of both objects; the caller's value wins where both have one |
| Fetch.Classify | api/questApi.ts:116-132 | the catch chain invents only 408, 0 and 500; any other status comes from the wrapper's own error, unchanged |
| Fetch.ClassifyKeepsWrapperError | api/questApi.ts:124-126 | an error thrown by the wrapper itself passes through the catch block unchanged |
| Fetch.ClassifyAbortFirst | api/questApi.ts:116-118 | the abort test comes first: any Error named AbortError, even a TypeError, becomes 408 |
| Fetch.ClassifyTypeError | api/questApi.ts:120-122 | the second step: a TypeError not named AbortError becomes (0, the network message) |
| Fetch.ClassifyUnknown | api/questApi.ts:128-132 | a value that is not an abort, a TypeError or a wrapper error becomes 500, with the fixed prefix before its message |
| QuestApi.DefaultHeaders | api/questApi.ts:58-74 | Content-Type is JSON exactly when not multipart; `Authorization: Bearer t` is present exactly when auth is required and a non-empty token is stored; there are no other names |
| QuestApi.BaseUrl | api/questApi.ts:6-7 | the fallback of the logical or: the configured base when it is set and non-empty, the fixed server otherwise, so never empty |
| QuestApi.Attempt | api/questApi.ts:79-112 | the `try` block: what `fetch` threw is thrown on; a failing status throws a quest error carrying that status; a success fails only for a non-empty body that does not parse |
| QuestApi.Outcome | api/questApi.ts:79-133 | the wrapper succeeds exactly on a 2xx response whose body is empty or parses |
| QuestApi.QuestApiRequest | api/questApi.ts:44-134 | the in-place header building sends the base URL plus the endpoint, with the caller headers merged over the defaults; the result is the classified outcome of the transport |
| QuestApi.OptionDefaults | api/questApi.ts:51-55 | an omitted `requireAuth` means true and an omitted `isMultipart` means false |
| QuestApi.CallerHeadersWin | api/questApi.ts:82-85 | a caller header replaces the default of the same name; defaults the caller leaves out are kept |
| QuestApi.UnauthorizedIsRelogin | api/questApi.ts:94-99 | a 401 gives (401, the re-login message) whatever the body |
| QuestApi.FailingStatusCarriesBody | api/questApi.ts:101-104 | any other failing status gives (status, body, or status text when the body is empty) |
| QuestApi.SuccessBody | api/questApi.ts:107-112 | an empty success body gives `{}`; otherwise the parsed body, or 500 when parsing fails |
| QuestApi.FailureStatuses | api/questApi.ts:91-132 | every reported status is the response's failing status or one of 408, 0 and 500 |
| QuestApi.CatchChain | api/questApi.ts:113-133 | the catch chain in order: abort 408, TypeError 0, a quest error unchanged, anything else 500 with the prefix |
| QuestApi.TodayQuest | api/questApi.ts:158-170 | null exactly for errors with status 404 or 400; other errors propagate; successes pass through |
| QuestApi.TodayQuestOnMissing | api/questApi.ts:158-170 | a 404 or 400 response gives null today whatever its body; a 401 still fails with the re-login message |
| QuestApi.ApproveCall | api/questApi.ts:150-156 | the uuid sits unencoded between `/quest/suggestions/` and `/approve` in a POST with default options |
| QuestApi.CompleteCall | api/questApi.ts:188-192 | completion is a multipart, authenticated PUT to `/quest/{id}/complete` |
| QuestApi.CompleteQuest | api/questApi.ts:172-193 | a given image that fails to load gives (400, image failure) and nothing is sent; otherwise the request goes to base + `/quest/{id}/complete` with exactly the completion defaults as headers: no JSON content type, and `Bearer t` exactly when a token t is stored. The form holds the image field when an image is given and nothing otherwise, and the result is the wrapper's outcome |
| QuestApi.CompleteHeaders | api/questApi.ts:58-74 | the completion request carries no JSON content type, and carries the bearer header exactly when a token is stored |
| QuestApi.HistoryCall | api/questApi.ts:195-201 | the history request is a GET with default options whose path starts with `/quest/my?` |
| QuestApi.HistoryCallShape | api/questApi.ts:199-200 | the query string is the two form-encoded pairs joined by `&`, start date first |
| QuestApi.HistoryCallPlainDates | api/questApi.ts:195-201 | dates made of digits and dashes appear as `/quest/my?startDate=s&endDate=e` |
| QuestApi.EnabledHistoryCallHasDates | api/questApi.ts:195-224 | the request reads `/quest/my?startDate=S&endDate=E` with S and E the form-encoded dates, and the query is enabled exactly when both S and E are non-empty |
| QuestApi.HistoryKeyInvalidatedOnComplete | api/questApi.ts:269-272 | every history key lies under the prefix that quest completion invalidates |
| UriEncoding.EncodeUriComponentRoundTrip | api/api.ts:213 | percent-decoding `encodeURIComponent(s)` gives back exactly the UTF-8 bytes of `s` |
| UriEncoding.EncodeUriComponentChars | api/api.ts:213 | an encoded component holds only unreserved characters, `%` and upper-case hex digits |
| UriEncoding.FormEncodeIdentity | api/questApi.ts:199 | the form serializer leaves a value of form-safe characters unchanged |
| UriEncoding.FormEncodeNoSeparators | api/questApi.ts:199 | the form serializer never writes `&` or `=`, so query pairs cannot run into each other |
| UriEncoding.EncodeUriComponent | api/api.ts:213 | `encodeURIComponent`: unreserved characters as they are, every other character as the `%XY` escapes of its UTF-8 bytes |
| UriEncoding.FormEncode | api/questApi.ts:199 | the form serializer on one name or value: form-safe characters as they are, a space as `+`, anything else percent-escaped |
| UriEncoding.FormEncodeEmpty | api/questApi.ts:199 | the serializer writes nothing exactly for the empty string |
| UriEncoding.SearchParams | api/questApi.ts:199-200 | `URLSearchParams.toString()`: the encoded `name=value` pairs in order, joined by `&` |
| UriEncoding.SearchParamsOfTwo | api/questApi.ts:199-200 | two pairs serialize as `a=b&c=d` with each part form-encoded |
| UriEncoding.PlainPair | api/questApi.ts:199-200 | a pair of form-safe strings is written as it is |
| TierApi.DefaultHeaders | api/tierApi.ts:37-47 | the JSON content type is always present; the bearer header is present exactly when auth is required |
| TierApi.Url | api/tierApi.ts:50 | the URL ends with the endpoint and starts with the configured base, or with the text `undefined` when none is set |
| TierApi.Attempt | api/tierApi.ts:56-86 | the `try` block: what `fetch` threw is thrown on; a failing status throws a tier error carrying that status; a success fails only for a non-empty body that does not parse |
| TierApi.Outcome | api/tierApi.ts:56-107 | once sent, the wrapper succeeds exactly on a 2xx response whose body is empty or parses |
| TierApi.TierApiRequest | api/tierApi.ts:28-107 | with auth required and no non-empty token: nothing is sent and the result is (401, missing token); otherwise the env base (no fallback) plus the endpoint is sent with merged headers, and the result is the classified outcome |
| TierApi.DefaultRequiresToken | api/tierApi.ts:34-46 | an omitted `requireAuth` means auth, so a missing or empty token fails fast; with auth off no token is needed |
| TierApi.UnauthorizedIsRelogin | api/tierApi.ts:71-76 | a 401 response gives the re-login message, which differs from the missing-token message |
| TierApi.FailingStatusCarriesBody | api/tierApi.ts:68-79 | any other failing status gives (status, body or status text) |
| TierApi.SuccessBody | api/tierApi.ts:81-86 | an empty success body gives `{}`; otherwise the parsed body, or 500 |
| TierApi.CatchChain | api/tierApi.ts:90-106 | the catch chain in order: abort 408, TypeError 0, then 500 with the prefix for anything that is not a tier error |
| TierApi.CurrentMonthTierUrl | api/tierApi.ts:50 | `/tier/current` goes after the configured base, or after the text `undefined` when the base is not set |
| Api.ApiRequest | api/api.ts:86-177 | the URL is the base plus the endpoint; the JSON content type is a default the caller can override; a failure's status is the response's, one of 408/0/500, or a thrown ApiError's |
| Api.BaseUrl | api/api.ts:2-3 | the fallback of the logical or: the configured base when it is set and non-empty, the fixed server otherwise, so never empty |
| Api.Attempt | api/api.ts:112-139 | the `try` block: what `fetch` threw is thrown on; a failing status throws an ApiError carrying that status; a success succeeds exactly when the body, even an empty one, parses |
| Api.FailingStatusCarriesBody | api/api.ts:129-134 | every failing status, 401 included, gives (status, body or status text) |
| Api.SuccessBody | api/api.ts:137-139 | a success body is always parsed, so an empty body that does not parse gives 500 with the prefix |
| Api.CatchChain | api/api.ts:152-175 | abort 408, TypeError 0, an ApiError unchanged, anything else 500 with the prefix |
| Api.GetMeCall | api/api.ts:197-205 | `getMe` is a GET of `/auth/me` with the bearer header of its argument |
| Api.UpdateUserCall | api/api.ts:208-220 | `updateUser` PATCHes `/users/` followed by the encoded email, with the bearer header |
| Api.AuthenticatedCallsSendBearer | api/api.ts:197-220 | `getMe` and `updateUser` send exactly the content type and the bearer token of their argument |
| Api.AnonymousCallsSendNoAuth | api/api.ts:180-194 | `signUp` and `signIn` POST to base + `/auth/register` and base + `/auth/login`, with the content type only |
| Api.UpdateUserPathIsOneSegment | api/api.ts:213 | no `/`, `?` or `#` can follow `/users/` |
| Api.UpdateUserPathInjective | api/api.ts:213 | two emails give the same path only when they have the same UTF-8 bytes |
| Api.UpdateUserExample | api/api.ts:213 | `a@b.com` goes to `/users/a%40b.com` |
| QueryKeys.QuestMyHistory | lib/queryClient.ts:23-24 | the history key is the three-part history prefix followed by the two dates |
| QueryKeys.UserTierSpecific | lib/queryClient.ts:29-30 | the month tier key is `user`, `tier`, then the year and month as numbers |
| QueryKeys.HistoryPrefixMatchesAll | lib/queryClient.ts:23-24 | every history key starts with `quest`, `my`, `history` |
| QueryKeys.HistoryPrefixSparesConstants | lib/queryClient.ts:21-28 | no constant key starts with the history prefix |
| QueryKeys.QuestMyHistoryInjective | lib/queryClient.ts:23-24 | different date ranges give different history keys |
| QueryKeys.UserTierSpecificDistinct | lib/queryClient.ts:28-30 | month keys are equal exactly for equal months; none equals the current tier key, and neither key matches the other, so invalidating either leaves the other cached |
| QueryKeys.ConstantKeysDistinct | lib/queryClient.ts:21-28 | the four constant keys are pairwise distinct |
| QueryKeys.Matches | api/questApi.ts:269-272 | partial matching: a filter matches every key it is a prefix of |
| QueryKeys.MatchesPreorder | api/questApi.ts:269-272 | matching is reflexive and transitive |
| TierImages.GetTierNumber | utils/tierImages.ts:32-47 | the number is in 1..5 and is the name's position in the tier ladder |
| TierImages.GetTierImage | utils/tierImages.ts:23-25 | always an image of the table: entry n for n in 1..5, entry 1 otherwise |
| TierImages.GetTierStarImage | utils/tierImages.ts:27-29 | defined exactly for n in 2..5, because the fallback entry 1 does not exist |
| TierImages.TierNumberLadder | utils/tierImages.ts:33-43 | TinyStar 1, ShinyStar 2, WaveStar 3, PlanetStar 4, HappyGalaxy 5 |
| TierImages.UnknownTierIsOne | utils/tierImages.ts:44-45 | any other name is tier 1 |
| TierImages.TierNumberInjectiveOnKnown | utils/tierImages.ts:33-43 | no two known names share a number |
| TierImages.ImagesOfTierName | utils/tierImages.ts:23-47 | every tier name has a tier image; a star image exists only from ShinyStar up |
| MbtiSelect.Select | components/signup/UserMbtiSelect.tsx:38-41 | inside the value, the text at the position is replaced by the selection, with the prefix and the rest of the value kept around it; past its end the selection is appended, because unset slots join as nothing |
| MbtiSelect.HandleSelect | components/signup/UserMbtiSelect.tsx:38-41 | splitting into an array, assigning the slot and joining give exactly `Select` |
| MbtiSelect.IsSelected | components/signup/UserMbtiSelect.tsx:48 | an option shows as selected when the value has a letter at the pair's position and that letter is the option |
| MbtiSelect.SelectReplacesOne | components/signup/UserMbtiSelect.tsx:37-41 | a one-letter selection inside the value keeps its length, writes the letter and leaves every other position |
| MbtiSelect.SelectShowsSelected | components/signup/UserMbtiSelect.tsx:40-48 | after selecting, the chosen option is shown as selected in its pair and the other option is not |
| MbtiSelect.AtMostOneSelected | components/signup/UserMbtiSelect.tsx:48 | at most one option per pair is shown as selected |
| MbtiSelect.SelectIdempotent | components/signup/UserMbtiSelect.tsx:38-41 | selecting an option twice is selecting it once |
| MbtiSelect.SelectCommutes | components/signup/UserMbtiSelect.tsx:38-41 | selections in different pairs commute |
| MbtiSelect.SelectKeepsValid | components/signup/UserMbtiSelect.tsx:12-41 | choosing an option of its own pair keeps a valid four-letter type valid |
| MbtiSelect.ValidMbtiIsType | components/signup/UserMbtiSelect.tsx:12-29 | the values with one letter from each pair are exactly the sixteen types |
| HobbySelect.Without | components/signup/UserHobbySelect.tsx:47 | the filter removes every copy of the hobby and keeps every other entry's number of copies |
| HobbySelect.Toggle | components/signup/UserHobbySelect.tsx:45-52 | the hobby is in the result exactly when it was not in the value; other hobbies keep their counts |
| HobbySelect.HandleToggle | components/signup/UserHobbySelect.tsx:45-52 | both setters receive the same list; a present hobby is gone and an absent one is appended at the end |
| HobbySelect.WithoutAppend | components/signup/UserHobbySelect.tsx:47 | filtering works piece by piece, so the entries that stay keep their order |
| HobbySelect.WithoutAbsent | components/signup/UserHobbySelect.tsx:47 | filtering an absent hobby leaves the list as it is |
| HobbySelect.ToggleKeepsNoDup | components/signup/UserHobbySelect.tsx:45-52 | toggling keeps a list free of duplicates |
| HobbySelect.ToggleTwice | components/signup/UserHobbySelect.tsx:45-52 | toggling twice restores the exact list when the hobby was absent, and membership of every hobby otherwise |
| HobbySelect.OptionListsDisjoint | components/signup/UserHobbySelect.tsx:11-36 | both option lists are free of duplicates and share no hobby |
| UserInfoForm.AddHobby | components/signup/UserInfoForm.tsx:16-20 | the hobby is then in the list; a present hobby leaves the list as it is, and an absent one is appended at the end |
| UserInfoForm.HandleAddHobby | components/signup/UserInfoForm.tsx:16-20 | only the hobbies change, by exactly the added hobby |
| UserInfoForm.InitialState | components/signup/UserInfoForm.tsx:9-14 | the form starts with no gender, no hobby and the valid type ESTJ |
| UserInfoForm.AddHobbyKeepsNoDup | components/signup/UserInfoForm.tsx:16-20 | adding never creates a duplicate |
| UserInfoForm.AddHobbyIdempotent | components/signup/UserInfoForm.tsx:16-20 | adding the same hobby twice is adding it once |
| UserInfoForm.AddHobbyVersusToggle | components/signup/UserInfoForm.tsx:16-20 | adding agrees with toggling on an absent hobby and keeps a present one that toggling would remove |
| UserHobbyInput.HobbyInput.constructor | components/signup/UserHobbyInput.tsx:9 | the input starts empty |
| UserHobbyInput.HobbyInput.SetInput | components/signup/UserHobbyInput.tsx:21 | typing sets the input |
| UserHobbyInput.HobbyInput.HandleAdd | components/signup/UserHobbyInput.tsx:10-15 | non-blank input: `onAdd` gets the trimmed text and the input is cleared; blank input: nothing is called and the input stays |
| JsText.Trim | components/signup/UserHobbyInput.tsx:11-12 | `String.prototype.trim`: white space and line terminators are dropped from both ends |
| JsText.TrimShape | components/signup/UserHobbyInput.tsx:11-12 | the trimmed text is an infix of the input with only white space around it, and neither starts nor ends with white space |
| JsText.TrimEmptyIffAllSpace | app/signup.tsx:53-55 | a text trims to nothing exactly when it is all white space |
| JsText.TrimIdempotent | components/signup/UserHobbyInput.tsx:11-12 | trimming twice is trimming once |
| UserHobbyInput.AddedIsTrimmed | components/signup/UserHobbyInput.tsx:12 | what `onAdd` gets is the input with only blank characters removed from each end, and starts and ends with a non-blank |
| UserHobbyInput.AddsUnlessBlank | components/signup/UserHobbyInput.tsx:11 | `onAdd` is called exactly when the input is not all blank |
| UserHobbyInput.AddTwice | components/signup/UserHobbyInput.tsx:10-15 | a second press straight after a successful one reports nothing |
| UserAgeSelect.Press | components/signup/UserAgeSelect.tsx:17-26 | pressing reports the option, never null, and the option is then the only one selected |
| UserAgeSelect.IsSelected | components/signup/UserAgeSelect.tsx:18 | an option is selected when it equals the value |
| UserAgeSelect.OptionsDistinct | components/signup/UserAgeSelect.tsx:7 | four distinct options |
| UserAgeSelect.AtMostOneSelected | components/signup/UserAgeSelect.tsx:18 | at most one option is selected |
| UserAgeSelect.NoneSelectsNothing | components/signup/UserAgeSelect.tsx:18 | a null value selects nothing |
| UserAgeSelect.PressSelectedKeepsIt | components/signup/UserAgeSelect.tsx:26 | pressing the selected option does not deselect it |
| UserGenderSelect.Press | components/signup/UserGenderSelect.tsx:17-26 | pressing reports the option's value, `male` or `female` and never null, and selects only that option |
| UserGenderSelect.IsSelected | components/signup/UserGenderSelect.tsx:18 | an option is selected when its value equals the current value |
| UserGenderSelect.OptionValues | components/signup/UserGenderSelect.tsx:4-7 | two options, with values `male` and `female` |
| UserGenderSelect.AtMostOneSelected | components/signup/UserGenderSelect.tsx:18 | at most one option is selected |
| UserGenderSelect.NoneSelectsNothing | components/signup/UserGenderSelect.tsx:18 | a null value selects nothing |
| UserGenderSelect.PressSelectedKeepsIt | components/signup/UserGenderSelect.tsx:26 | pressing the selected option does not deselect it |
| Signup.Warning | app/signup.tsx:192-196 | the warning is shown exactly when `isEmpty` holds |
| Signup.IsEmpty | app/signup.tsx:52-58 | `isEmpty`: a blank email, password or second password, no gender, the MBTI still at the default type, or no hobby |
| Signup.IsEmptyIgnores | app/signup.tsx:52-58 | `isEmpty` ignores the name, the age and the typed hobby, and only checks the second password for blankness |
| Signup.MismatchedPasswordsPass | app/signup.tsx:52-58 | a form with different passwords and all else filled in is not reported as incomplete |
| Signup.InitialIsEmpty | app/signup.tsx:30-58 | `isEmpty` holds in the initial state, and the warning is shown |
| Signup.AddHobby | app/signup.tsx:64-68 | only the hobbies change, by exactly the added hobby |
| Signup.AddHobbyKeepsNoDupAndIsIdempotent | app/signup.tsx:64-68 | adding never creates a duplicate, and adding twice is adding once |
| Signup.ApplyPicks | app/signup.tsx:171 | the MBTI value after a series of presses, each through the selector's update |
| Signup.PicksKeepValid | app/signup.tsx:171 | any series of option presses keeps a valid type valid |
| Signup.AsWrittenMbtiStart | app/signup.tsx:35 | from the empty start, pressing T then E leaves "E"; nothing is shown selected at first; an untouched MBTI passes the check |
| Signup.CorrectedMbtiStart | app/signup.tsx:35 | from ESTJ, every series of presses leaves one of the sixteen types, and an untouched MBTI keeps the form incomplete |
| Session.After | app/ctx.tsx:33-43 | sign-in and sign-up store the session `xxx`; sign-out clears it |
| Session.Run | app/ctx.tsx:33-43 | the session after a series of operations |
| Session.RunIsLast | app/ctx.tsx:33-43 | after a series of operations, only the last one decides the session |
| Session.OperationLaws | app/ctx.tsx:33-43 | sign-up has exactly the effect of sign-in, and every operation is idempotent |
| Session.SessionProvider.constructor | app/ctx.tsx:28 | the provider starts from the stored session and loading flag |
| Session.SessionProvider.SignIn | app/ctx.tsx:33-36 | the session becomes `xxx`; the loading flag is unchanged |
| Session.SessionProvider.SignOut | app/ctx.tsx:37-39 | the session becomes null |
| Session.SessionProvider.SignUp | app/ctx.tsx:40-43 | the session becomes `xxx`, as for sign-in |
| Session.UseSession | app/ctx.tsx:19-25 | the hook never throws: without a provider it returns the default value |
| Session.ProvidedValue | app/ctx.tsx:31-46 | the provided value carries the provider's session and loading flag |
| Session.SignInOutSequence | app/ctx.tsx:33-39 | sign-in twice leaves the same session as once; sign-out then leaves none |
| CalendarDetail.FormatDate | components/Modal/CalendarDetailModal.tsx:36-42 | the title ends with the weekday label from the table in parentheses |
| CalendarDetail.FormatDateInjective | components/Modal/CalendarDetailModal.tsx:36-42 | the title determines the month, the day and the weekday |
| JsText.NatToString | components/Modal/CalendarDetailModal.tsx:39-41 | the decimal rendering of a number: non-empty, digits only, no leading zero |
| JsText.NatRoundTrip | components/Modal/CalendarDetailModal.tsx:39-41 | reading the rendering back gives the number |
| JsText.NatToStringInjective | components/Modal/CalendarDetailModal.tsx:39-41 | different numbers render differently |
| JsText.IntToString | components/Modal/CalendarDetailModal.tsx:91 | the rendering of any integer, with a `-` when negative; never empty |
| JsText.IntToStringZero | components/Modal/CalendarDetailModal.tsx:91 | only zero renders as `0` |
| CalendarDetail.Status | components/Modal/CalendarDetailModal.tsx:44-63 | Today exactly on the same calendar day; Yesterday exactly on the day before |
| CalendarDetail.FormatDateStatus | components/Modal/CalendarDetailModal.tsx:44-63 | "오늘" exactly on the same day and "어제" exactly on the day before; otherwise the absolute floored day difference followed by "일 전" |
| CalendarDetail.PastDays | components/Modal/CalendarDetailModal.tsx:60-62 | with a fixed time-zone offset, a date k >= 2 days back reads k - 1 or k days ago |
| CalendarDetail.FutureDays | components/Modal/CalendarDetailModal.tsx:60-62 | a date k >= 1 days ahead also reads "days ago", with k or k + 1 days |
| CalendarDetail.Experience | components/Modal/CalendarDetailModal.tsx:91 | the experience, or 10 when it is missing or zero; never zero |
| CalendarDetail.ExperienceLine | components/Modal/CalendarDetailModal.tsx:89-93 | the experience label appears exactly when there is a quest |
| CalendarDetail.DialogSections | components/Modal/CalendarDetailModal.tsx:86-136 | the experience label and the evidence section appear together, exactly when there is a quest; the label never reads `+0`; the title is the placeholder exactly without a date; the section shows a photo exactly when the quest has evidence, and then the evidence's own id |
| CalendarDetail.Header | components/Modal/CalendarDetailModal.tsx:86-97 | without a date: the title "날짜 선택" and an empty status line; with one: the formatted date and its status, which differ from those |
| CalendarDetail.WeekDayLabels | components/Modal/CalendarDetailModal.tsx:39-40 | every weekday 0..6 has a one-character label, and no two share one |

## Left out

- Network I/O: `fetch`, the ten-second `AbortController` timer and `clearTimeout` are not modelled. The transport outcome is an input, and a timer that fires is the `AbortError` outcome.
- Evidence-image loading: the blob fetch and `FormData` are not modelled. Only whether the blob loads is an input.
- JSON: parsing is a parameter that succeeds or fails with a message. Request bodies (`JSON.stringify(data)`) are not modelled.
- Token storage: the token is an `Option<string>` input. A failed read arrives as `None`.
- Storage behind the session: writing the session is taken to set the field directly.
- TanStack Query: hooks, caching, `staleTime`, `retry`, `setQueryData` and invalidation are not modelled. Only the key shapes and the prefix relation are.
- Header names are compared exactly as written. `fetch` treats them case-insensitively, but every name here is spelled the same way.
- Dates: `new Date()`, `toDateString` and time zones are not modelled. A date is given by its epoch milliseconds, its local day number and its calendar fields, and "now" is an argument. The day-count bounds assume a fixed offset, so daylight-saving changes are out of scope.
- Experience: a `NaN` experience, which `||` would also replace by 10, is not modelled. Experience is an integer.
- Text: strings are sequences of Unicode scalar values. `split("")` works on UTF-16 code units, which agree with scalar values for every letter the MBTI selector writes.
- MbtiSelect.HandleSelect: allocates an array of the final size, where JavaScript grows the split array in place.
- Screens, navigation, styling, the show-password toggles, the typed-hobby field of the signup screen, console logging and the placeholder `handleSignup` have no rule to state.
- The account API's request and response shapes (the sixteen MBTI names aside) are not modelled.

## Findings

| source | as written | input that shows it | evidently intended | confidence | as-written member | corrected member |
|---|---|---|---|---|---|---|
| app/signup.tsx:35 | the MBTI value starts as `""`, while the selector assumes four letters and `isEmpty` treats the default type as "not chosen" | press T (pair 2) then E (pair 0): the value is "E"; or fill every other field and leave MBTI untouched: `isEmpty` is false | start at the default type ESTJ, as the info form does, so that every value is one of the sixteen types and an untouched MBTI keeps the form incomplete | medium, not executed | Signup.AsWrittenMbtiStart | Signup.CorrectedMbtiStart |
