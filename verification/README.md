# Crop yield and farm marketplace app: a Dafny model of its rules

This project models the decision logic of a farm-advisory web app. The app has a FastAPI
backend and a React client. The model covers:

- the backend's yield-prediction handler: threshold recommendations, crop status and
  total production;
- the backend's leaf-colour diagnosis;
- the client's free-text yield-input parser;
- the authentication context, the login/signup page and the navigation bar's auth choices;
- the economics panel (minimum support price, revenue, cost, profit, breakeven);
- the crop input form: colour badges, slider ranges and the request payload;
- the weather lookup with its fallback;
- the image lists of the product form and the two crop-photo pages, and the photo
  page's submit;
- the product form's field updates and the marketplace favourites.

Everything is pure functions over immutable datatypes. JavaScript behaviour the rules
depend on is written out explicitly in `JsText`:

- truthiness of strings and numbers;
- `||` defaults;
- `split` on one character;
- `trim` over the ECMAScript white-space and line-terminator set;
- ASCII `toLowerCase`.

Other modelling choices:

- `localStorage` is a `map<string, string>`.
- `JSON.stringify`/`JSON.parse` of the user record is a small concrete codec, `UserCodec`.
  It writes the string escapes `JSON.stringify` writes and accepts the text `null`, as
  `JSON.parse` does.
- Network calls, the ML model and image decoding are inputs: each handler receives how
  its request ended.

Modules, one file each: `JsText`, `YieldInputParser`, `UserCodec`, `AuthSession`, `AuthPage`,
`Navbar`, `Economics`, `YieldAdvice`, `CropHealth`, `Weather`, `InputData`, `ImageList`,
`ProductForm`, `Favorites`.

## Model

| member | source | states |
|---|---|---|
| JsText.Split | client/src/utils/convertToBackendFormat.js:6-7 | at least one piece; no piece contains the separator; the first piece is a prefix of the text, ending at the end of the text or at the first separator |
| JsText.JoinSplit | client/src/utils/convertToBackendFormat.js:6 | `split` on one character loses nothing: joining the pieces with the separator gives back the text |
| JsText.Trim | client/src/utils/convertToBackendFormat.js:7 | the trimmed text is a slice of the input with only white space cut on either side, and starts and ends with a non-white-space character |
| JsText.LowerIdempotent | client/src/utils/convertToBackendFormat.js:8 | lower-casing twice is lower-casing once |
| YieldInputParser.FieldOfKey | client/src/utils/convertToBackendFormat.js:8-61 | a key selects a field exactly when its lower-cased form is one of that field's aliases, checked against an independent alias table |
| YieldInputParser.FieldOfKeyIgnoresCase | client/src/utils/convertToBackendFormat.js:8 | key matching is case-insensitive |
| YieldInputParser.KeyAliases | client/src/utils/convertToBackendFormat.js:30-46 | "soil" and "soil_type" both select soil_type; "temp" and "temperature" both select Temp; "fertilizer" selects Fertilizer_Type |
| YieldInputParser.Convert | client/src/utils/convertToBackendFormat.js:9-58 | Crop, State, soil_type, Fertilizer_Type and sowing_date keep the text verbatim, exactly Year goes through an integer parse, and exactly the remaining fields go through a float parse of the same text |
| YieldInputParser.KeyValue | client/src/utils/convertToBackendFormat.js:7 | the key is the trimmed first ":"-segment; a value exists exactly when the item has a ":" |
| YieldInputParser.KeyValueDropsExtraSegments | client/src/utils/convertToBackendFormat.js:7 | for `k:v:rest` the key and value are the trimmed `k` and `v`; further segments are dropped |
| YieldInputParser.KeyValueOfPair | client/src/utils/convertToBackendFormat.js:7 | for `k:v` the key and value are the trimmed `k` and `v` |
| YieldInputParser.ParseCanonicalItem | client/src/utils/convertToBackendFormat.js:6-8 | an item with a clean lower-case key selects that key's field, with the trimmed value |
| YieldInputParser.ConvertToYieldInput | client/src/utils/convertToBackendFormat.js:3-65 | the object has a field exactly when some comma-separated item's key selects it |
| YieldInputParser.PresentIffItemSelects | client/src/utils/convertToBackendFormat.js:6-62 | folding the parsed items gives an object whose fields are exactly those some item's key selects |
| YieldInputParser.PropertyNamesAreYieldInputFields | client/src/utils/convertToBackendFormat.js:9-58 | the produced object's property names are always among the sixteen yield-input names |
| YieldInputParser.EmptyTextGivesEmptyObject | client/src/utils/convertToBackendFormat.js:3-6 | the empty text yields the empty object |
| YieldInputParser.UnknownKeyAddsNothing | client/src/utils/convertToBackendFormat.js:59-60 | an item with an unrecognised key leaves the object unchanged |
| YieldInputParser.StoreEffect | client/src/utils/convertToBackendFormat.js:8-61 | one item sets at most the field it selects and leaves every other field as it was |
| YieldInputParser.PresentIffSelected | client/src/utils/convertToBackendFormat.js:6-62 | a field is present in the result exactly when some item selects it |
| YieldInputParser.LastWins | client/src/utils/convertToBackendFormat.js:6-62 | a field holds the converted value of the last item that selects it |
| YieldInputParser.LastItemWins | client/src/utils/convertToBackendFormat.js:3-65 | the same last-wins property, stated on the input text |
| YieldInputParser.AbsentFieldHadNoItem | client/src/utils/convertToBackendFormat.js:3-65 | a field missing from the result had no item selecting it |
| UserCodec.EscapeChar | client/src/contexts/AuthContext.jsx:42 | a character is written as itself exactly when it is neither a control character, `"` nor `\`; every written form is one to six characters with no raw control character and no leading quote |
| UserCodec.Escape | client/src/contexts/AuthContext.jsx:42 | an escaped string body contains no raw control character and is no shorter than the text |
| UserCodec.DecodeUnitEscapeChar | client/src/contexts/AuthContext.jsx:26-42 | reading back one written character, short or `\u00XX` escape included, recovers it and consumes exactly its written form |
| UserCodec.RawControlCharRejected | client/src/contexts/AuthContext.jsx:26 | a raw control character inside a string body is a parse error |
| UserCodec.UnescapeLeavesSuffix | client/src/contexts/AuthContext.jsx:26 | what follows a string body's closing quote is a suffix of the input |
| UserCodec.UnescapeStep | client/src/contexts/AuthContext.jsx:26 | a readable first character followed by a readable rest reads as that character prepended to the rest's reading |
| UserCodec.UnescapeEscape | client/src/contexts/AuthContext.jsx:42 | unescaping an escaped string up to its closing quote recovers the string and the rest of the text |
| UserCodec.Encode | client/src/contexts/AuthContext.jsx:42 | the serialized user record is an object text starting with `{`; its partner is DecodeEncode |
| UserCodec.DecodedTailEndsText | client/src/contexts/AuthContext.jsx:26 | what follows the email's closing quote is the end of the record text |
| UserCodec.Decode | client/src/contexts/AuthContext.jsx:26 | parses to null exactly when the text is `null`; a parsed user record starts with `{"name":"` and ends with `}` |
| UserCodec.DecodeEncode | client/src/contexts/AuthContext.jsx:42 | parsing the serialized user record gives back the same user |
| UserCodec.EncodeInjective | client/src/contexts/AuthContext.jsx:42 | distinct users serialize to distinct texts |
| AuthSession.InitialState | client/src/contexts/AuthContext.jsx:15-17 | the initial state is unauthenticated, with no user and loading |
| AuthSession.CheckAuthStatus | client/src/contexts/AuthContext.jsx:19-38 | authenticated exactly when both keys are non-empty and the user text parses; the user is the parsed record exactly when it parses to one, and none when it parses to `null` or the check fails; loading is false on every branch; storage is only read |
| AuthSession.Mount | client/src/contexts/AuthContext.jsx:14-56 | after mounting, loading is finished, storage is unchanged, the session is authenticated exactly when both keys are non-empty and the user text parses, and the user is the parsed record when there is one and none otherwise |
| AuthSession.Login | client/src/contexts/AuthContext.jsx:40-45 | stores the token and the serialized user, leaves every other key alone, and sets the state authenticated with that user |
| AuthSession.Logout | client/src/contexts/AuthContext.jsx:47-52 | removes exactly the two credential keys, leaves every other key alone, and clears the state |
| AuthSession.LoginThenCheck | client/src/contexts/AuthContext.jsx:19-45 | after login a re-check is authenticated with an equal user when the token is non-empty, and unauthenticated when it is empty |
| AuthSession.LoginThenHelpers | client/src/contexts/AuthContext.jsx:40-99 | after login, the token and user helpers read back the stored token and an equal user |
| AuthSession.LogoutIdempotent | client/src/contexts/AuthContext.jsx:47-52 | logging out twice equals logging out once |
| AuthSession.LogoutThenCheck | client/src/contexts/AuthContext.jsx:19-52 | after logout a re-check is unauthenticated and the user helper returns null |
| AuthSession.MountEmpty | client/src/contexts/AuthContext.jsx:14-56 | mounting with empty storage ends unauthenticated, with no user and loading finished |
| AuthSession.MountCorruptUserData | client/src/contexts/AuthContext.jsx:24-37 | mounting with a user text that does not parse ends unauthenticated with no user |
| AuthSession.TokenPresent | client/src/contexts/AuthContext.jsx:75-82 | the session helper is true exactly when the token key holds a non-empty text |
| AuthSession.GetAuthToken | client/src/contexts/AuthContext.jsx:84-90 | the stored token, or null when the key is missing |
| AuthSession.GetUserData | client/src/contexts/AuthContext.jsx:92-99 | a user only when the key holds text that parses to a user record; null when the key is missing, the text does not parse, or it parses to null |
| AuthSession.ClearAuthData | client/src/contexts/AuthContext.jsx:101-108 | removes the two credential keys and keeps every other entry |
| AuthSession.ClearAuthDataIsLogoutStorage | client/src/contexts/AuthContext.jsx:47-52 | clearing the auth data has exactly the storage effect of logout |
| AuthSession.ExternalClearThenCheck | client/src/contexts/AuthContext.jsx:101-108 | a re-check after clearing the auth data is unauthenticated |
| AuthPage.InitialPage | client/src/components/authpage.jsx:7-9 | the page starts in login mode with an empty form and no message |
| AuthPage.BuildRequest | client/src/components/authpage.jsx:22-25 | login posts email and password to /login; signup posts the name as username, with email and password, to /signup |
| AuthPage.StartSubmit | client/src/components/authpage.jsx:19 | every submit first clears the message and changes nothing else |
| AuthPage.Submit | client/src/components/authpage.jsx:17-52 | each outcome's effect: a thrown request gives the server-error message; a non-ok response gives the detail or "Something went wrong" and keeps storage and mode; login success writes only the token and goes to "/"; signup success switches to login mode with storage untouched |
| AuthPage.SubmitNeverWritesUserData | client/src/components/authpage.jsx:40-43 | no outcome writes "userData" or any key other than "token" |
| AuthPage.ConfirmPasswordIgnored | client/src/components/authpage.jsx:22-25 | confirmPassword is neither sent nor compared: changing it changes no request, storage or navigation |
| AuthPage.LoginPageAloneNeverAuthenticates | client/src/components/authpage.jsx:40-43 | starting without a stored user, a session re-check after any submit is unauthenticated, although the token helper reports a session after a login with a non-empty token |
| AuthPage.LoginPageReusesStoredUser | client/src/components/authpage.jsx:40-43 | a user record stored by an earlier login makes the re-check after this page's login authenticate as that earlier user |
| Navbar.VisibleButtons | client/src/components/Navbar.jsx:99-124 | profile and logout are shown exactly when authenticated, "get started" exactly when not |
| Navbar.Target | client/src/components/Navbar.jsx:22-40 | the marketplace button goes to /mdashboard exactly when authenticated and the profile button to /profile exactly when authenticated; a button goes to /login exactly when it is "get started", or a guarded button while unauthenticated |
| Navbar.OnlyGuardedButtonsDependOnAuth | client/src/components/Navbar.jsx:22-40 | only the marketplace and profile targets depend on the session; insurance always goes to /selectinsurance |
| Navbar.VisibleProfileLeadsToProfile | client/src/components/Navbar.jsx:34-40 | a profile button that is shown always leads to /profile |
| Navbar.HandleLogout | client/src/components/Navbar.jsx:17-20 | performs exactly the context's logout, leaving the state unauthenticated with no credentials stored, and navigates to "/" |
| Navbar.AfterLogoutGuardsRedirect | client/src/components/Navbar.jsx:17-28 | after the logout handler, even after a re-check, the bar shows "get started" and the marketplace leads to /login |
| Navbar.GreetingTitle | client/src/components/Navbar.jsx:104 | "Welcome, " with the user's name, or "User" when there is no user or the name is empty |
| Economics.Msp | client/src/components/EconomicAnalysis.jsx:3-19 | the support price of the lower-cased crop name from the four-crop table, 0 for a missing or unlisted crop |
| Economics.MspZeroIffUnlisted | client/src/components/EconomicAnalysis.jsx:3-19 | the price is zero exactly when the crop is missing or unlisted, and never negative |
| Economics.NonZeroDivisor | client/src/components/EconomicAnalysis.jsx:29-30 | the `x \|\| 1` divisor is never zero and equals `x` whenever `x` is non-zero |
| Economics.StatusOf | client/src/components/EconomicAnalysis.jsx:33-35 | Profitable exactly when the net profit is positive, Loss exactly when negative, Breakeven exactly when zero |
| Economics.Analyze | client/src/components/EconomicAnalysis.jsx:11 | nothing is produced exactly when the result data is absent |
| Economics.AnalysisClosedForm | client/src/components/EconomicAnalysis.jsx:13-35 | production is tonnes × 1000 kg and kg / 100 quintals; revenue is tonnes × 10 × price; cost is the defaulted per-hectare cost × the defaulted area; the status compares revenue with cost; with a zero price the breakeven quintals are the cost itself, and with a zero area the breakeven kg/ha is 100 × the breakeven quintals |
| Economics.DefaultCost | client/src/components/EconomicAnalysis.jsx:17-26 | a missing or zero per-hectare cost is taken as 15000 |
| Economics.BreakevenCoversCost | client/src/components/EconomicAnalysis.jsx:24-29 | with a positive price, selling the breakeven quintals at that price earns exactly the total cost |
| Economics.BreakevenPerHectare | client/src/components/EconomicAnalysis.jsx:29-30 | with a non-zero area, the breakeven kg/ha times the area is 100 × the breakeven quintals |
| Economics.UnlistedCropIsLossWhenCostly | client/src/components/EconomicAnalysis.jsx:19-35 | an unlisted crop with any positive cost is a loss |
| YieldAdvice.NitrogenAdvice | server/app.py:143-148 | very low exactly when N < 30, low exactly when 30 ≤ N < 50, sufficient exactly when N ≥ 50 |
| YieldAdvice.PhosphorusAdvice | server/app.py:151-156 | very low exactly when P < 15, low exactly when 15 ≤ P < 25, sufficient exactly when P ≥ 25 |
| YieldAdvice.PotassiumAdvice | server/app.py:159-164 | very low exactly when K < 20, low exactly when 20 ≤ K < 35, sufficient exactly when K ≥ 35 |
| YieldAdvice.SoilAdvice | server/app.py:167-172 | acidic exactly when pH < 6.0, alkaline exactly when pH > 7.5, optimal exactly when 6.0 ≤ pH ≤ 7.5 |
| YieldAdvice.RainfallAdvice | server/app.py:175-180 | irrigation exactly when rainfall < 200, drainage exactly when > 800, adequate otherwise |
| YieldAdvice.TempAdvice | server/app.py:183-188 | high exactly when temperature > 35, low exactly when < 15, optimal otherwise |
| YieldAdvice.HumidityAdvice | server/app.py:191-196 | high exactly when humidity > 80, low exactly when < 50, ideal otherwise |
| YieldAdvice.InputAdvice | server/app.py:199-202 | the fertilizer message, naming the fertilizer type, appears exactly when the amount is below 50; the pesticide message exactly when the amount is below 5 |
| YieldAdvice.StatusOf | server/app.py:205-213 | Excellent exactly when the yield is above 80, Moderate exactly when above 50 and at most 80, Poor exactly when at most 50 |
| YieldAdvice.Recommendations | server/app.py:140-213 | between 8 and 10 entries; the status message for the predicted yield is last and no status message appears before it |
| YieldAdvice.RecommendationsLayout | server/app.py:140-213 | the list has 8 + (number of optional messages) entries, between 8 and 10, in the order N, P, K, pH, rainfall, temperature, humidity, optional fertilizer, optional pesticide, status |
| YieldAdvice.StatusMessageOnlyLast | server/app.py:204-213 | no status message appears anywhere but in the last position |
| YieldAdvice.FertilizerMessageEmbedsType | server/app.py:200 | the fertilizer message contains the fertilizer type right after its fixed prefix |
| YieldAdvice.PredictYield | server/app.py:116-231 | a model error becomes a 400 response with its text; otherwise crop, state, temperature, humidity and sowing date are echoed, production × 1000 equals yield × area, and the recommendations are the rule list for that yield |
| YieldAdvice.ProductionTonnes | server/app.py:137 | production in tonnes × 1000 equals yield per hectare × area |
| YieldAdvice.ProductionForThousandUnits | server/app.py:137 | with an area of 1000 the production figure equals the predicted yield |
| CropHealth.Findings | server/app.py:274-282 | nitrogen deficiency exactly when yellow > 0.05; pest or disease exactly when brown > 0.02; healthy exactly when green > 0.8, yellow < 0.05 and brown < 0.02; at most three distinct findings; when both problems are found, nitrogen comes before pest or disease |
| CropHealth.Analyze | server/app.py:237-284 | an unreadable image gives "Image not found!"; otherwise the crop type is echoed, the diagnosis and recommendation lists have equal length, at most 3, pairing each finding's texts, the health score and healthy-green percentage are green × 100, and the yellow and brown percentages are yellow × 100 and brown × 100 |
| CropHealth.HealthyExcludesProblems | server/app.py:274-282 | a healthy verdict is the only finding |
| CropHealth.YellowBoundaryGap | server/app.py:274-282 | at exactly 5% yellow neither the nitrogen nor the healthy entry is added; without brown spots the diagnosis is empty |
| Weather.Fallback | client/src/utils/weatherAPi.js:10 | the fallback reading is temperature 25, humidity 60, rainfall 500 |
| Weather.Rainfall | client/src/utils/weatherAPi.js:30-33 | the 1-hour volume if truthy, else the 3-hour volume if truthy, else 0; 0 without a rain object |
| Weather.GetWeatherByCity | client/src/utils/weatherAPi.js:7-40 | the fallback unless a city and a key are given, the request succeeds, cod is the number 200 and main is present; then temperature and humidity come from main |
| Weather.NoKeyIgnoresResponse | client/src/utils/weatherAPi.js:12-15 | without an API key the answer is the fallback, whatever the response |
| Weather.LiveWithoutRainIsDry | client/src/utils/weatherAPi.js:28-35 | a live reading without rain data reports zero rainfall, and so differs from the fallback |
| InputData.PhColor | client/src/components/InputData.jsx:32-33 | red exactly when pH < 6, green exactly when 6 ≤ pH ≤ 8, yellow exactly when pH > 8 |
| InputData.FertilizerColor | client/src/components/InputData.jsx:35-36 | blue exactly when < 50, green exactly when 50 ≤ v ≤ 120, red exactly when > 120 |
| InputData.PesticideColor | client/src/components/InputData.jsx:38-39 | green exactly when < 3, yellow exactly when 3 ≤ v ≤ 8, red exactly when > 8 |
| InputData.InitialSelections | client/src/components/InputData.jsx:11-20 | the form starts at pH 7, N 20, P 10, K 10, fertilizer 50, pesticide 5, Sandy, Punjab, Rice, Organic |
| InputData.InitialWithinSliders | client/src/components/InputData.jsx:122-205 | the initial selections lie within the slider ranges |
| InputData.PayloadWeatherIsLookup | client/src/components/InputData.jsx:46-50 | the payload weather is always the lookup's answer: the state guard only repeats the lookup's own fallback |
| InputData.BuildPayload | client/src/components/InputData.jsx:53-70 | crop, state, soil type, fertilizer type and all amounts come from the selections; rainfall, temperature and humidity come from the weather; the sowing date is the part of the timestamp before "T"; the area is 1000 |
| InputData.HandleSubmit | client/src/components/InputData.jsx:42-86 | the payload is built from the weather lookup; an unreachable backend gives the alert, a reply goes to the result page with the body |
| InputData.PayloadProductionEqualsYield | client/src/components/InputData.jsx:69 | with the placeholder area the server's production figure equals the predicted yield |
| InputData.PhBandsDisagree | client/src/components/InputData.jsx:32-33 | the form shows green while the server calls the soil alkaline exactly when 7.5 < pH ≤ 8 |
| InputData.FertilizerLowAgrees | client/src/components/InputData.jsx:35-36 | the blue fertilizer badge shows exactly when the server adds its low-fertilizer message |
| ImageList.Filter | client/src/components/AddNewProduct.jsx:89-96 | the filtered list holds exactly the elements that pass, and is no longer than the input |
| ImageList.TwoStageFilter | client/src/pages/PhotoUpload.jsx:46-54 | the type filter followed by the size filter is one filter with the acceptance predicate (JPEG, PNG or WebP, at most 10 MiB) |
| ImageList.FilterConcat | client/src/components/AddNewProduct.jsx:89-96 | filtering a concatenation filters each part, keeping the input order |
| ImageList.FilterAllPass | client/src/components/AddNewProduct.jsx:89-96 | a list whose every element passes is kept unchanged |
| ImageList.HandleFiles | client/src/components/AddNewProduct.jsx:88-101 | the new list is the old list followed by the accepted files, in input order |
| ImageList.HandleDrop | client/src/pages/PhotoUpload.jsx:29-44 | dropping files is exactly handling them; an empty drop leaves the list as it is |
| ImageList.NothingAcceptedNothingAdded | client/src/pages/PhotoUpload.jsx:56-58 | when no file is accepted the list is unchanged |
| ImageList.RemoveAt | client/src/components/AddNewProduct.jsx:377 | removing an index in range shortens the list by one; any other index keeps the length |
| ImageList.RemoveAtDeletesOne | client/src/components/UploadPhoto.jsx:175-179 | removing index i deletes exactly element i and keeps the rest in order; an index out of range removes nothing |
| ImageList.HandleFilesKeepsInvariant | client/src/components/UploadPhoto.jsx:50-63 | adding files keeps every stored image accepted |
| ImageList.RemoveAtKeepsInvariant | client/src/pages/PhotoUpload.jsx:193 | removing an image keeps every stored image accepted |
| ImageList.HandleAcceptedFiles | client/src/components/UploadPhoto.jsx:60-62 | files that are all accepted are appended unchanged and in order |
| ImageList.HandleFilesBatches | client/src/components/AddNewProduct.jsx:98-100 | handling two batches in turn equals handling them as one batch |
| ImageList.SubmitSendsOnlyAccepted | client/src/pages/PhotoUpload.jsx:46-80 | with the list invariant, every image a submit sends is an accepted image |
| ImageList.SizeBoundary | client/src/components/AddNewProduct.jsx:96 | an image of exactly 10 MiB is accepted and one byte more is not |
| ImageList.MultipartBody | client/src/pages/PhotoUpload.jsx:67-68 | one "file" part per stored image, in list order |
| ImageList.SubmitPhotos | client/src/pages/PhotoUpload.jsx:61-80 | an empty list is rejected with the alert before any request; otherwise the body is sent, then either the failure alert or the result page with the reply's result |
| ProductForm.InitialForm | client/src/components/AddNewProduct.jsx:5-16 | the unit is "per kg" and every other field is empty |
| ProductForm.HandleInputChange | client/src/components/AddNewProduct.jsx:40-45 | the named field takes the value and every other field is unchanged |
| ProductForm.WriteCurrentValueIsNoOp | client/src/components/AddNewProduct.jsx:40-45 | writing a field's current value leaves the form as it is |
| ProductForm.LastWriteWins | client/src/components/AddNewProduct.jsx:40-45 | two writes to one field leave the second value |
| ProductForm.DistinctWritesCommute | client/src/components/AddNewProduct.jsx:40-45 | writes to different fields commute |
| Favorites.Initial | client/src/components/Bmarketplace.jsx:16 | favourites start empty |
| Favorites.Toggle | client/src/components/Bmarketplace.jsx:139-148 | flips the membership of the id, leaves every other id as it was, and changes the size by exactly one |
| Favorites.ToggleTwice | client/src/components/Bmarketplace.jsx:139-148 | toggling an id twice restores the set |
| Favorites.TogglesCommute | client/src/components/Bmarketplace.jsx:139-148 | toggles of two ids commute |
| Favorites.ToggleParity | client/src/components/Bmarketplace.jsx:139-148 | after a sequence of toggles an id's membership has flipped once per occurrence of the id |
| Favorites.FavoriteIffToggledOddly | client/src/components/Bmarketplace.jsx:16-148 | starting empty, an id is a favourite exactly when it was toggled an odd number of times |

## Left out

- The XGBoost model, its categorical encoding and the DMatrix (server/app.py:119-135) are a foreign ML library. The predicted yield is an input.
- OpenCV decoding, resizing and HSV masking (server/app.py:238-259) are image processing. The green, yellow and brown ratios are inputs, and an unreadable image is `None`.
- The two-decimal rounding of the percentages (server/app.py:264-268) and all display formatting (`toFixed`, `toLocaleString`) are left out. Amounts are exact reals, with no NaN or IEEE effects.
- FastAPI routing, the MongoDB user store, password hashing and JWT issuing (server/app.py:53-90) are I/O; the `auth` and `database` modules are not part of this model.
- Every `fetch` call is abstract. Each handler receives how its request ended (thrown, or a response body). The image endpoint's handling of several `file` parts is not modelled.
- `parseInt` and `parseFloat` are symbolic: a numeric field holds the trimmed text that would be parsed. `Number(...)` on the slider values is omitted; the sliders hold numbers.
- `JSON.parse` is modelled only for the text the app itself writes (a `{name, email}` record) and `null`. Any other text counts as a parse error: white space between tokens, other key orders, extra fields and non-string values are not accepted.
- UserCodec.DecodeUnit: a `\u` escape that names half of a UTF-16 surrogate pair is rejected rather than combined with its partner, because model strings are sequences of Unicode scalar values. `JSON.stringify` never writes such an escape for them.
- `localStorage` throwing (storage disabled), and the `catch` branches of the storage helpers that handle it, are left out.
- React's asynchronous state batching is collapsed: each handler returns the next state.
- `toLowerCase` is ASCII-only. Non-ASCII case mappings are not modelled.
- YieldAdvice.PredictYield: `crop_status` is computed but not part of the response, so only its message is modelled.
- YieldAdvice.PredictYield: the contract states production × 1000 = yield × area rather than the division itself. This is equivalent over the reals; floating-point rounding is not modelled.
- Navbar: the language switcher and the rendering around the buttons are markup; only the navigation choices and the greeting are modelled.
- AuthPage: `handleChange` (a plain form-field write), the mode-toggle links and the `t` translation lookup are left out. Translated messages are kept as their i18n keys.
- The dragging flag is left out. `handleDragEnter`, `handleDragOver` and `handleDragLeave` only set it, and `handleDrop` clears it. `handleDrop` and `handleFileChange` pass their files to `handleFiles` (ImageList.HandleDrop, ImageList.HandleFiles). `handleDrop`'s `files.length > 0` guard changes nothing, because an empty batch adds nothing.
- The product form's submit only logs, so it is not modelled.
- The route guard (`ProtectedRoute`) is not part of this model.
- Rendering-only files (dashboards, insurance pages, header, footer, result pages, App routing), the external chatbot and the commented-out natural-text parser are not part of this model.
