# ONUS Express: verified model of the quoting, admin and edge-function logic

This project models in Dafny the rule-bearing core of ONUS Express, a courier and logistics
web application built with React and Supabase. It covers:

- the three price sheets an administrator fills in for a client: the express-courier quote
  (weight-banded prices, a ledger of four line lists and a free-text adjustment, the total, the
  PDF slug and the e-mailed item list), the last-mile quote and the warehouse-logistics quote;
- the admin view of a campaign: status mapping between database and screen, parsing of the
  application message, the requirement lists, the status filter and counters, and the CSV export;
- the courier session page: the campaign filter and the set of campaigns applied to;
- the three Supabase edge functions: `server` (pending profiles, user creation, status update,
  client password reset, routing), `admin-login` and `send-presupuesto-email`;
- the browser-side session windows (the admin session in `sessionStorage`, the courier session
  window in `localStorage`), the schema-variant insert retry, the role routes and the two
  new-password pages.

There is one module per source file. Two shared modules hold what several files use:
`JsText` gives the JavaScript built-ins the code relies on (ASCII `toLowerCase`, `trim`,
`split`/`join`, `parseInt`, `parseFloat`, UTF-16 `length`, numbers with NaN and the infinities,
and the slug regular expressions), and `EdgeCommon` gives `secureCompare` and the origin
allow-list, which `server/index.ts` and `admin-login/index.ts` define identically.

Code that changes state step by step is modelled as classes whose fields are the source's state
slots (`ExpressSheet`, `UltimaMillaSheet`, `AlmacenSheet`, `MensajerosSesionView`, the two
new-password pages, `AdminSessionStore`, `SessionWindowStore`), with methods that state the whole
new state. Loops in the source (`secureCompare`, `generateTemporaryPassword`, the `forEach`
totals, `insertWithSchemaMatch`) are methods with loop invariants proved against specification
functions. Database, auth and network results, clock readings and random draws are parameters.

## Model

| member | source | states |
|---|---|---|
| JsText.JsAdd | src/components/tarifarios/TarifarioUltimaMilla.tsx:75-78 | a JavaScript sum is finite exactly when both operands are, is NaN when either is, and is then the sum of the values |
| JsText.JsMul | src/components/tarifarios/TarifarioUltimaMilla.tsx:75-77 | a JavaScript product is finite exactly when both operands are, is NaN when either is, and is then the product of the values |
| JsText.JsAddCommutes | src/components/tarifarios/TarifarioUltimaMilla.tsx:75-78 | the order of the `total +=` steps does not change the sum |
| JsText.JsMulCommutes | src/components/tarifarios/TarifarioUltimaMilla.tsx:75-77 | `precio * cantidad` is `cantidad * precio` |
| JsText.JsAddZero | src/components/tarifarios/TarifarioMensajeriaExpress.tsx:149-165 | adding zero leaves a number, NaN and the infinities included, unchanged |
| JsText.ToLower | supabase/functions/server/index.ts:162 | `toLowerCase` keeps the length and lower-cases each character on its own |
| JsText.ToLowerShape | supabase/functions/server/index.ts:162 | a lower-cased text has no ASCII upper-case letter, and its spaces are where the text's were |
| JsText.LowerCharShape | src/components/admin/CampanaDetalleView.tsx:51 | a lower-cased character is not an ASCII upper-case letter, and is a space exactly when the character is |
| JsText.ToLowerAppend | src/components/admin/CampanaDetalleView.tsx:68 | lower-casing a concatenation lower-cases each part |
| JsText.ToLowerOfLowerText | supabase/functions/server/index.ts:288 | a text without ASCII upper-case letters is its own lower case |
| JsText.TrimStart | supabase/functions/admin-login/index.ts:68 | `trimStart` removes exactly the leading white space: the result is a suffix, all removed characters are spaces, and it does not start with one |
| JsText.TrimEnd | supabase/functions/admin-login/index.ts:68 | `trimEnd` removes exactly the trailing white space: the result is a prefix, all removed characters are spaces, and it does not end with one |
| JsText.Trim | supabase/functions/admin-login/index.ts:68 | a trimmed text neither starts nor ends with white space |
| JsText.TrimAll | src/components/admin/CampanaDetalleView.tsx:65 | `map((line) => line.trim())` trims each line and keeps their number |
| JsText.TrimOfUnpadded | supabase/functions/admin-login/index.ts:11 | a text without surrounding white space is its own trim |
| JsText.IndexOf | src/components/admin/CampanaDetalleView.tsx:69 | the first position of a character that occurs: it holds the character and none comes before |
| JsText.Split | src/components/admin/CampanaDetalleView.tsx:65 | `split` gives at least one piece and no piece holds the separator |
| JsText.JoinSplit | src/components/admin/CampanaDetalleView.tsx:69-71 | joining the pieces of a split with the separator gives the text back |
| JsText.SplitHead | supabase/functions/admin-login/index.ts:10 | the first piece ends at the first separator, and the rest is the split of what follows; a text without the separator is one piece |
| JsText.Utf16Length | src/components/NuevaContrasena.tsx:55 | `length` counts UTF-16 code units: at least one and at most two per character |
| JsText.DigitChar | src/components/tarifarios/TarifarioMensajeriaExpress.tsx:936 | each digit value has its digit character |
| JsText.DigitRun | src/components/tarifarios/TarifarioMensajeriaExpress.tsx:961 | the run of leading digits that `parseInt` reads, up to the first non-digit |
| JsText.NatToString | src/components/tarifarios/TarifarioMensajeriaExpress.tsx:936 | the decimal form of a number is a non-empty digit string without a leading zero |
| JsText.NatToStringValue | src/components/tarifarios/TarifarioMensajeriaExpress.tsx:936 | the decimal form reads back as the number |
| JsText.DigitIsNotSpace | src/components/tarifarios/TarifarioMensajeriaExpress.tsx:961 | a digit is neither white space nor a sign, so `parseInt` starts its digits there |
| JsText.ParseIntOfDigits | src/components/tarifarios/TarifarioMensajeriaExpress.tsx:936 | `parseInt` of a digit string is its value |
| JsText.ParseIntOfNumeral | src/components/tarifarios/TarifarioMensajeriaExpress.tsx:936 | `parseInt` of a number's decimal form is the number |
| JsText.AllDigitsRun | src/components/tarifarios/TarifarioMensajeriaExpress.tsx:961 | a digit string is all one digit run |
| JsText.UnsignedDecimal | src/components/tarifarios/TarifarioMensajeriaExpress.tsx:977 | unsigned `parseFloat` is NaN exactly when the text does not start with a numeral, and a finite result starts with a digit or with a point and a digit |
| JsText.SignedDecimal | src/components/tarifarios/TarifarioMensajeriaExpress.tsx:977 | signed `parseFloat` is finite only for a numeral, infinite only for `Infinity`, and otherwise NaN exactly when the unsigned reading is |
| JsText.ParseFloatNeedsDigit | src/components/tarifarios/TarifarioMensajeriaExpress.tsx:164 | `parseFloat` gives a number only for a text holding a digit or the `I` of `Infinity` |
| JsText.SignLeavesSuffix | src/components/tarifarios/TarifarioMensajeriaExpress.tsx:977 | dropping the sign leaves a suffix of the text |
| JsText.ParseFloatEmpty | src/components/tarifarios/TarifarioAlmacenLogistica.tsx:96 | `parseFloat('')` is NaN |
| JsText.ParseFloatZero | src/components/tarifarios/TarifarioMensajeriaExpress.tsx:164 | `parseFloat('0')`, the fallback for an empty adjustment, is zero |
| JsText.Alnums | src/components/tarifarios/TarifarioMensajeriaExpress.tsx:362 | the letters and digits of a text are no more than the text |
| JsText.AlnumsAppend | src/components/tarifarios/TarifarioMensajeriaExpress.tsx:362 | the letters and digits of a concatenation are those of each part |
| JsText.ReplaceNonAlnumRuns | src/components/tarifarios/TarifarioMensajeriaExpress.tsx:362 | `replace(/[^a-z0-9]+/gi, '-')` leaves only letters, digits and single dashes, keeps the letters and digits, is empty exactly for the empty text, and starts with a dash exactly when the text starts with a non-alphanumeric character |
| JsText.SlugPropertiesOfSlices | src/components/tarifarios/TarifarioMensajeriaExpress.tsx:362 | dropping the first or last character keeps a slug a slug |
| JsText.StripLeadingDashes | src/components/tarifarios/TarifarioMensajeriaExpress.tsx:362 | `replace(/^-+/, '')` removes exactly the leading dashes and keeps the letters, digits and slug form |
| JsText.StripTrailingDashes | src/components/tarifarios/TarifarioMensajeriaExpress.tsx:362 | `replace(/-+$/, '')` removes exactly the trailing dashes and keeps the letters, digits and slug form |
| JsText.StripEdgeDashes | src/components/tarifarios/TarifarioMensajeriaExpress.tsx:362 | removing leading and trailing dashes together gives a text that neither starts nor ends with a dash and keeps the letters, digits and slug form |
| JsText.AlnumRun | src/components/tarifarios/TarifarioMensajeriaExpress.tsx:362 | the run of leading letters and digits is no longer than the text |
| JsText.AlnumRunIsMaximal | src/components/tarifarios/TarifarioMensajeriaExpress.tsx:362 | that run is all letters and digits and stops at the first other character |
| JsText.WordsAreWords | src/components/tarifarios/TarifarioMensajeriaExpress.tsx:362 | the words of a text are non-empty runs of letters and digits |
| JsText.WordsSkipNonAlnum | src/components/tarifarios/TarifarioMensajeriaExpress.tsx:362 | a leading non-alphanumeric character does not change the words |
| JsText.WordsAfterDrop | src/components/tarifarios/TarifarioMensajeriaExpress.tsx:362 | dropping leading separators does not change the words |
| JsText.NoWords | src/components/tarifarios/TarifarioMensajeriaExpress.tsx:362 | a text has no words exactly when it has no letter or digit |
| JsText.JoinedWordsEdges | src/components/tarifarios/TarifarioMensajeriaExpress.tsx:362 | words joined by dashes are empty only for no words, and otherwise start and end with a letter or digit |
| JsText.ReplaceNonAlnumRunsIsJoin | src/components/tarifarios/TarifarioMensajeriaExpress.tsx:362 | replacing each run of other characters by a dash gives the words joined by single dashes, with one more dash in front when the text starts with a separator and one at the end when it ends with one after a word |
| JsText.StripReplacedIsJoin | src/components/tarifarios/TarifarioMensajeriaExpress.tsx:362 | the Express slug body, replaced and then stripped of edge dashes, is exactly the text's words joined by single dashes |
| AdminSession.ReadLoggedAt | src/utils/adminAuth.ts:33-35 | a record is read only when it has the `{"loggedAt":` head and the `}` tail that `setAdminSession` writes, around a JSON integer |
| AdminSession.LeadingZeroIsUnreadable | src/utils/adminAuth.ts:33-39 | `JSON.parse` refuses a number with a leading zero, so a record such as `{"loggedAt":007}` reads as nothing and the session is inactive |
| AdminSession.ReadSessionJson | src/utils/adminAuth.ts:15-19 | the record `JSON.stringify({ loggedAt })` writes for any integer `t` reads back as `t` |
| AdminSession.ActiveIffWithinTtl | src/utils/adminAuth.ts:27-36 | in a browser, a non-zero stored login time is active exactly when less than eight hours have passed |
| AdminSession.ExpiredAtExactlyTtl | src/utils/adminAuth.ts:2-36 | the bound is strict: at exactly eight hours the session is no longer active |
| AdminSession.ZeroLoggedAtIsInactive | src/utils/adminAuth.ts:35 | a stored `loggedAt` of 0 is falsy, so the session is never active |
| AdminSession.UnreadableRecordIsInactive | src/utils/adminAuth.ts:33-38 | a stored text without the record's head is never active |
| AdminSession.AdminSessionStore.SetAdminSession | src/utils/adminAuth.ts:12-20 | in a browser it writes the record for `now` under `onus_admin_auth`, and only that key, after which the session is active at `now` (when `now` is not 0); outside a browser nothing changes and nothing is active |
| AdminSession.AdminSessionStore.ClearAdminSession | src/utils/adminAuth.ts:22-25 | in a browser it removes exactly the session key; afterwards no session is active at any time |
| MensajeroSessionWindow.ToMs | src/utils/mensajerosSession.ts:6-10 | a missing or empty text, or one `Date.parse` rejects, gives no time; otherwise the parsed time |
| MensajeroSessionWindow.StartFromSession | src/utils/mensajerosSession.ts:31-34 | the start is the last sign-in time, else the creation time, else `now` |
| MensajeroSessionWindow.Ensure | src/utils/mensajerosSession.ts:12-38 | a stored non-zero start is returned and nothing is written; otherwise the start from the session is returned and, in a browser, stored as its ISO text |
| MensajeroSessionWindow.EnsureIsIdempotent | src/utils/mensajerosSession.ts:27-38 | once a non-zero start is stored, a second call with any session, clock and ISO text returns it again and changes nothing |
| MensajeroSessionWindow.StoredZeroIsRecomputed | src/utils/mensajerosSession.ts:28-29 | a stored start that parses to 0 is falsy and is recomputed from the session |
| MensajeroSessionWindow.ClearedWindowIsRecomputed | src/utils/mensajerosSession.ts:22-38 | after the key is removed, the next call recomputes and stores the start from the session |
| MensajeroSessionWindow.OutsideBrowserNothingIsKept | src/utils/mensajerosSession.ts:13-18 | outside a browser the start comes from the session every time and storage never changes |
| MensajeroSessionWindow.ExpiryBoundIsStrict | src/utils/mensajerosSession.ts:4-42 | a session is not expired at exactly 24 hours and is expired one millisecond later |
| MensajeroSessionWindow.SessionWindowStore.ClearMensajeroSessionWindow | src/utils/mensajerosSession.ts:22-25 | in a browser it removes only the start key, after which no start is stored |
| MensajeroSessionWindow.SessionWindowStore.EnsureMensajeroSessionWindow | src/utils/mensajerosSession.ts:27-38 | the returned start and the new storage are those of `Ensure` on the old storage |
| MensajeroSessionWindow.SessionWindowStore.IsMensajeroSessionExpired | src/utils/mensajerosSession.ts:40-43 | it stores what `Ensure` stores and answers expired exactly when more than 24 hours have passed since that start |
| InsertMatch.FilteredEntries | src/utils/supabaseInsertMatch.ts:11-13 | a key and value are in the filtered payload exactly when the payload holds that key with that defined value |
| InsertMatch.AllUndefinedFiltersToNothing | src/utils/supabaseInsertMatch.ts:11-15 | a payload whose every value is undefined filters to nothing, so it is skipped |
| InsertMatch.Candidates | src/utils/supabaseInsertMatch.ts:10-15 | the payloads that are sent are at most as many as the variants, and none of them is empty |
| InsertMatch.TriesAfterFailures | src/utils/supabaseInsertMatch.ts:17-19 | each failed insert costs one attempt and the loop goes on with the rest |
| InsertMatch.TriesStopAtFirstSuccess | src/utils/supabaseInsertMatch.ts:17-18 | with any candidate, at least one is tried; every try before the last failed; and if the loop stopped early, its last try succeeded |
| InsertMatch.OutcomeOfTries | src/utils/supabaseInsertMatch.ts:8-22 | the insert succeeds exactly when some candidate succeeds; it throws the last error exactly when all fail; with no candidate it throws `No se pudo insertar en <table>` |
| InsertMatch.InsertWithSchemaMatch | src/utils/supabaseInsertMatch.ts:3-23 | the payloads sent are the non-empty filtered variants in order, up to and including the first that succeeds, and the outcome is the one `OutcomeOfTries` describes |
| AuthRoutes.GetLoginRoute | src/utils/auth.ts:130-134 | couriers log in at `/mensajeros/acceso`, admins at `/admin`, clients at `/clientes`, each route belonging to exactly one role |
| AuthRoutes.GetHomeRoute | src/utils/auth.ts:140-144 | couriers' home is `/mensajeros`, admins' `/admin`, clients' `/clientes`, each route belonging to exactly one role |
| AuthRoutes.LoginIsHomeExceptForCouriers | src/utils/auth.ts:130-144 | the login route equals the home route for every role but the courier |
| AuthRoutes.HomeRouteDeterminesRole | src/utils/auth.ts:140-144 | two roles with the same home route are the same role |
| AuthRoutes.CourierLoginUnderHome | src/utils/auth.ts:131-141 | the courier login route lies under the courier home route |
| AuthRoutes.NoRoleCheckPasses | src/utils/auth.ts:62-120 | with the placeholders, no role check passes, no one is authenticated and there is no current user |
| AdminLogin.Serve | supabase/functions/admin-login/index.ts:29-87 | `OPTIONS` gets the preflight reply; then 403 `ORIGIN_NOT_ALLOWED`, 405 `METHOD_NOT_ALLOWED`, 500 `ADMIN_PIN_NOT_CONFIGURED`, 400 `INVALID_JSON`, 400 `PIN_REQUIRED` and 401 `INVALID_PIN`, in that order; success exactly for a POST from an allowed origin whose trimmed pin equals the configured pin |
| AdminLogin.PaddedAdminPinNeverMatches | supabase/functions/admin-login/index.ts:50-76 | an `ADMIN_PIN` that starts or ends with white space can never be matched, because the submitted pin is trimmed and the configured one is not |
| AdminLogin.SurroundingSpacesAreIgnored | supabase/functions/admin-login/index.ts:68 | spaces around the submitted pin do not change what is compared |
| AdminLogin.TrimPadded | supabase/functions/admin-login/index.ts:68 | `trim` removes one added space on each side |
| AdminLogin.TrimStartAppend | supabase/functions/admin-login/index.ts:68 | `trimStart` of a concatenation: the first part's, or the second part's when the first is all space |
| JsText.TrimEndOfSpaceSuffix | supabase/functions/admin-login/index.ts:68 | a trailing space does not change `trimEnd` |
| EdgeCommon.CodeUnits | supabase/functions/admin-login/index.ts:21-24 | a text's UTF-16 code units, as many as its `length` |
| EdgeCommon.FirstUnits | supabase/functions/admin-login/index.ts:24 | the code units of one character: one unit, not a surrogate, up to U+FFFF; otherwise a high surrogate and a second unit |
| EdgeCommon.FirstUnitsInjective | supabase/functions/admin-login/index.ts:24 | two characters with the same code units are the same character |
| EdgeCommon.CodeUnitsInjective | supabase/functions/admin-login/index.ts:20-27 | two texts with the same code units are the same text |
| EdgeCommon.XorIsZeroIffEqual | supabase/functions/admin-login/index.ts:24 | `x ^ y` is 0 exactly when `x == y` |
| EdgeCommon.OrIsZeroIffBothZero | supabase/functions/admin-login/index.ts:24 | the bitwise or of two numbers is 0 exactly when both are 0 |
| EdgeCommon.SecureCompare | supabase/functions/admin-login/index.ts:20-27 | the loop that ORs the XOR of every pair of code units answers true exactly when the texts are equal, and false at once when their lengths differ |
| EdgeCommon.NonEmpty | supabase/functions/admin-login/index.ts:12 | `.filter(Boolean)` keeps exactly the non-empty texts |
| EdgeCommon.TrimKeepsAbsence | supabase/functions/admin-login/index.ts:11 | trimming adds no character |
| EdgeCommon.AllowedOrigins | supabase/functions/admin-login/index.ts:9-12 | an unset `ALLOWED_ORIGINS` gives an empty list |
| EdgeCommon.UnsetVariableHasNoPieces | supabase/functions/admin-login/index.ts:9-12 | `''.split(',')` is `['']`, which trims and filters to nothing |
| EdgeCommon.AllowedOriginsEntries | supabase/functions/admin-login/index.ts:9-12 | the list holds exactly the non-empty trimmed pieces, and none of them has a comma or white space at either end |
| EdgeCommon.TrimmedPieceShape | supabase/functions/admin-login/index.ts:10-11 | a non-empty trimmed comma-free piece has no comma and no white space at either end |
| EdgeCommon.UnsetListAllowsAll | supabase/functions/admin-login/index.ts:14-16 | with `ALLOWED_ORIGINS` unset, every origin, and a missing one, is allowed |
| EdgeCommon.UntrimmedOriginIsRejected | supabase/functions/admin-login/index.ts:14-18 | with a non-empty list, an origin with white space at either end or a comma is refused |
| EdgeCommon.ListedOriginIsAllowed | supabase/functions/admin-login/index.ts:9-18 | every non-blank piece of `ALLOWED_ORIGINS`, once trimmed, is an allowed origin |
| ExpressQuote.Tarifa | src/components/tarifarios/TarifarioMensajeriaExpress.tsx:108-121 | a tariff exists exactly for the six services; each priced tariff rises with the weight band; only `HOY` is `Consultar` |
| ExpressQuote.CalcularPrecioEnvio | src/components/tarifarios/TarifarioMensajeriaExpress.tsx:132-146 | a price is never negative, and it is positive exactly for a known service other than `HOY` |
| ExpressQuote.BandPriceMonotone | src/components/tarifarios/TarifarioMensajeriaExpress.tsx:138-143 | within a priced tariff, a heavier parcel never costs less |
| ExpressQuote.PriceMonotoneInWeight | src/components/tarifarios/TarifarioMensajeriaExpress.tsx:132-146 | for every service, a heavier parcel never costs less |
| ExpressQuote.PriceAboveTenKilos | src/components/tarifarios/TarifarioMensajeriaExpress.tsx:142-143 | above 10 kg each extra kilo costs the tariff's `kgAdicional` |
| ExpressQuote.BandBoundaries | src/components/tarifarios/TarifarioMensajeriaExpress.tsx:138-140 | exactly 2, 5 and 10 kg cost the 2, 5 and 10 kg prices: the bounds are inclusive |
| ExpressQuote.RemoveAt | src/components/tarifarios/TarifarioMensajeriaExpress.tsx:206-232 | `filter((_, i) => i !== index)` removes the line at a valid index and changes nothing otherwise |
| ExpressQuote.MapAt | src/components/tarifarios/TarifarioMensajeriaExpress.tsx:234-260 | `map((s, i) => i === index ? patched : s)` changes only the line at `index` |
| ExpressQuote.SumOfConcat | src/components/tarifarios/TarifarioMensajeriaExpress.tsx:148-162 | the running total over two lists is the sum of their totals |
| ExpressQuote.RemoveAtSubtractsLine | src/components/tarifarios/TarifarioMensajeriaExpress.tsx:148-232 | removing a line lowers the lines' total by that line's amount |
| ExpressQuote.SumOfAppend | src/components/tarifarios/TarifarioMensajeriaExpress.tsx:148-204 | appending a line raises the lines' total by that line's amount |
| ExpressQuote.SumOfPermutation | src/components/tarifarios/TarifarioMensajeriaExpress.tsx:148-162 | the lines' total does not depend on their order |
| ExpressQuote.InitialTotalIsZero | src/components/tarifarios/TarifarioMensajeriaExpress.tsx:59-168 | a fresh sheet totals 0 |
| ExpressQuote.TotalIgnoresLineOrder | src/components/tarifarios/TarifarioMensajeriaExpress.tsx:148-168 | two sheets with the same lines in any order and the same adjustment have the same total |
| ExpressQuote.AddedServiceRaisesSum | src/components/tarifarios/TarifarioMensajeriaExpress.tsx:148-180 | adding a service line raises the lines' total by its price times its quantity |
| ExpressQuote.RemovedServiceLowersSum | src/components/tarifarios/TarifarioMensajeriaExpress.tsx:148-211 | removing a service line lowers the lines' total by its amount |
| ExpressQuote.TotalFollowsLines | src/components/tarifarios/TarifarioMensajeriaExpress.tsx:148-168 | with the adjustment unchanged, the total moves exactly as the lines' total moves |
| ExpressQuote.CoerceCantidad | src/components/tarifarios/TarifarioMensajeriaExpress.tsx:960-962 | a typed quantity is always a whole number of at least 1, and equals the typed integer when that is positive |
| ExpressQuote.CantidadOfNumeral | src/components/tarifarios/TarifarioMensajeriaExpress.tsx:960-962 | typing a positive whole number gives that quantity |
| ExpressQuote.CoercePrecio | src/components/tarifarios/TarifarioMensajeriaExpress.tsx:976-978 | a typed price is always finite: the parsed number when finite, 0 otherwise |
| ExpressQuote.FirstDigits | src/components/tarifarios/TarifarioMensajeriaExpress.tsx:935 | `match(/\d+/)` finds a non-empty run of digits exactly when the text has a digit |
| ExpressQuote.ServicioTextPatch | src/components/tarifarios/TarifarioMensajeriaExpress.tsx:930-938 | editing the service text patches the line exactly when the text holds an en dash; the patch sets only the service and the weight, never blanks a named service, and keeps a weight that is not negative or the old one |
| ExpressQuote.ServicioFromText | src/components/tarifarios/TarifarioMensajeriaExpress.tsx:934 | an empty trimmed part keeps the current service name |
| ExpressQuote.PesoFromText | src/components/tarifarios/TarifarioMensajeriaExpress.tsx:935-936 | the weight read is a non-negative integer or the current weight |
| ExpressQuote.ServicioTextRoundTrip | src/components/tarifarios/TarifarioMensajeriaExpress.tsx:930-938 | reading back the text shown for a line gives that line's service and weight, and nothing else |
| ExpressQuote.PesoOfShownWeight | src/components/tarifarios/TarifarioMensajeriaExpress.tsx:930-936 | the weight shown as ` <n> kg` reads back as `n` |
| ExpressQuote.ServicioTextParts | src/components/tarifarios/TarifarioMensajeriaExpress.tsx:930-932 | the shown text splits at the en dash into the service part and the weight part |
| ExpressQuote.AcceptedAdjustmentIsFinite | src/components/tarifarios/TarifarioMensajeriaExpress.tsx:164-165 | an adjustment the input accepts parses to a finite number, or to NaN exactly when it has no digit (`-`, `.`, `-.`) (also lines 1207-1209) |
| ExpressQuote.AcceptedAdjustmentIsDecimal | src/components/tarifarios/TarifarioMensajeriaExpress.tsx:164 | an accepted adjustment never reads as Infinity and parses as its sign and decimal digits (also line 1207) |
| ExpressQuote.AcceptedNumeral | src/components/tarifarios/TarifarioMensajeriaExpress.tsx:1207 | an accepted adjustment starts with a numeral exactly when it has a digit |
| ExpressQuote.AcceptedAdjustmentKeepsTotalFinite | src/components/tarifarios/TarifarioMensajeriaExpress.tsx:148-168 | whatever adjustment the input accepts, the total stays a finite number, because a NaN adjustment is skipped (also lines 1207-1209) |
| ExpressQuote.ExpressSlug | src/components/tarifarios/TarifarioMensajeriaExpress.tsx:361-363 | no name gives no slug; otherwise a dash and then the lower-cased name's ASCII letter and digit runs joined by single dashes, so with no dash at either end, no double dash and every letter and digit kept in order |
| ExpressQuote.SlugOfPlainName | src/components/tarifarios/TarifarioMensajeriaExpress.tsx:361-363 | a name of lower-case letters and digits becomes a dash and the name |
| ExpressQuote.ReplaceKeepsAlnumText | src/components/tarifarios/TarifarioMensajeriaExpress.tsx:362 | the replacement leaves a text of letters and digits as it is |
| ExpressQuote.ItemsEmail | src/components/tarifarios/TarifarioMensajeriaExpress.tsx:368-397 | the e-mail lists one item per line, services, weight and dimension supplements, then extras, in order; then one adjustment item when a concept or a value was typed, labelled with the concept or the default title, with quantity 1 and the typed value or 0 |
| ExpressQuote.SumOfMap | src/components/tarifarios/TarifarioMensajeriaExpress.tsx:368-389 | mapping lines to items keeps each amount, and so the sum |
| ExpressQuote.EmailItemsCarryLineAmounts | src/components/tarifarios/TarifarioMensajeriaExpress.tsx:148-162 | the e-mailed line items add up to the lines' total on the sheet (also lines 368-389) |
| ExpressQuote.ExpressSheet.constructor | src/components/tarifarios/TarifarioMensajeriaExpress.tsx:59-69 | a new sheet is the initial state for the given client name |
| ExpressQuote.ExpressSheet.HandleReset | src/components/tarifarios/TarifarioMensajeriaExpress.tsx:81-83 | reset returns the sheet to the initial state for the client name prop |
| ExpressQuote.ExpressSheet.SyncNombreCliente | src/components/tarifarios/TarifarioMensajeriaExpress.tsx:85-90 | a non-empty client name prop fills the sheet's name only when that name is blank after trimming; nothing else changes |
| ExpressQuote.ExpressSheet.SetNombreCliente | src/components/tarifarios/TarifarioMensajeriaExpress.tsx:878 | typing the client name changes only the name |
| ExpressQuote.ExpressSheet.CargarLogo | src/components/tarifarios/TarifarioMensajeriaExpress.tsx:416-435 | a file over 5 MiB raises an alert and changes nothing; a file within the limit sets the logo to the read result, which is no logo and an alert when the read fails; no file does nothing |
| ExpressQuote.ExpressSheet.EliminarLogoCliente | src/components/tarifarios/TarifarioMensajeriaExpress.tsx:437-439 | removing the logo clears only the logo |
| ExpressQuote.ExpressSheet.AgregarServicio | src/components/tarifarios/TarifarioMensajeriaExpress.tsx:170-183 | `HOY` raises an alert and adds nothing; any other service appends one line with quantity 1 and the tariff price |
| ExpressQuote.ExpressSheet.AgregarSuplementoPeso | src/components/tarifarios/TarifarioMensajeriaExpress.tsx:185-190 | appends one weight supplement with quantity 1 |
| ExpressQuote.ExpressSheet.AgregarSuplementoDimension | src/components/tarifarios/TarifarioMensajeriaExpress.tsx:192-197 | appends one dimension supplement labelled `Suplemento <range>` with quantity 1 |
| ExpressQuote.ExpressSheet.AgregarServicioAdicional | src/components/tarifarios/TarifarioMensajeriaExpress.tsx:199-204 | appends one extra service with quantity 1 |
| ExpressQuote.ExpressSheet.EliminarServicio | src/components/tarifarios/TarifarioMensajeriaExpress.tsx:206-211 | removes the service line at the index, if any, and nothing else |
| ExpressQuote.ExpressSheet.EliminarSuplementoPeso | src/components/tarifarios/TarifarioMensajeriaExpress.tsx:213-218 | removes the weight supplement at the index, if any |
| ExpressQuote.ExpressSheet.EliminarSuplementoDimension | src/components/tarifarios/TarifarioMensajeriaExpress.tsx:220-225 | removes the dimension supplement at the index, if any |
| ExpressQuote.ExpressSheet.EliminarServicioAdicional | src/components/tarifarios/TarifarioMensajeriaExpress.tsx:227-232 | removes the extra service at the index, if any |
| ExpressQuote.ExpressSheet.ActualizarServicio | src/components/tarifarios/TarifarioMensajeriaExpress.tsx:234-239 | merges the patch into the service line at the index only |
| ExpressQuote.ExpressSheet.ActualizarSuplementoPeso | src/components/tarifarios/TarifarioMensajeriaExpress.tsx:241-246 | merges the patch into the weight supplement at the index only |
| ExpressQuote.ExpressSheet.ActualizarSuplementoDimension | src/components/tarifarios/TarifarioMensajeriaExpress.tsx:248-253 | merges the patch into the dimension supplement at the index only |
| ExpressQuote.ExpressSheet.ActualizarServicioAdicional | src/components/tarifarios/TarifarioMensajeriaExpress.tsx:255-260 | merges the patch into the extra service at the index only |
| ExpressQuote.ExpressSheet.SetAjusteConcepto | src/components/tarifarios/TarifarioMensajeriaExpress.tsx:1191 | typing the adjustment concept changes only the concept |
| ExpressQuote.ExpressSheet.SetAjusteValor | src/components/tarifarios/TarifarioMensajeriaExpress.tsx:1206-1210 | a typed value is kept exactly when it is empty or matches `^-?\d*\.?\d*$`; otherwise nothing changes |
| ExpressQuote.ExpressSheet.TotalEstimado | src/components/tarifarios/TarifarioMensajeriaExpress.tsx:148-168 | the loop over the four lists plus the parsed adjustment computes the sheet's total |
| ExpressQuote.SumLoop | src/components/tarifarios/TarifarioMensajeriaExpress.tsx:151-162 | the `forEach` accumulation equals the lines' sum |
| UltimaMillaQuote.RunPricedFinite | src/components/tarifarios/TarifarioUltimaMilla.tsx:75-77 | the running `total += precio * cantidad` stays finite exactly when it starts finite and every line is finite, and then adds the lines' sum |
| UltimaMillaQuote.RunTramosFinite | src/components/tarifarios/TarifarioUltimaMilla.tsx:76 | the running `total += valor` stays finite exactly when it starts finite and every stretch's value is finite, and then adds their sum |
| UltimaMillaQuote.TotalIsFiniteSum | src/components/tarifarios/TarifarioUltimaMilla.tsx:73-80 | the total is finite exactly when every line and the parsed adjustment are, and is then vehicles plus stretches plus extras plus the adjustment |
| UltimaMillaQuote.InitialTotalIsZero | src/components/tarifarios/TarifarioUltimaMilla.tsx:25-80 | a fresh sheet totals 0 |
| UltimaMillaQuote.TramoAddsItsValor | src/components/tarifarios/TarifarioUltimaMilla.tsx:76 | selecting one more stretch raises a finite total by its value |
| UltimaMillaQuote.EmptyAdjustmentAddsNothing | src/components/tarifarios/TarifarioUltimaMilla.tsx:78 | an empty adjustment reads as `'0'` and adds nothing |
| UltimaMillaQuote.NonNumericAdjustmentMakesTotalNaN | src/components/tarifarios/TarifarioUltimaMilla.tsx:78 | a typed adjustment with no digit and no `Infinity` parses to NaN and makes the total NaN: unlike the express sheet, NaN is not skipped |
| UltimaMillaQuote.EnviarPresupuesto | src/components/tarifarios/TarifarioUltimaMilla.tsx:106-131 | with no client name nothing is sent and the error toast asks for one; otherwise one `ultima_milla` request carrying the name, the total and the sheet is sent, and the toast is success exactly when the call returns no error, else the error's message or the default message |
| UltimaMillaQuote.FreshSheetNeverSends | src/components/tarifarios/TarifarioUltimaMilla.tsx:25-110 | a fresh sheet has no client name, so sending never calls the function |
| UltimaMillaQuote.UltimaMillaSheet.constructor | src/components/tarifarios/TarifarioUltimaMilla.tsx:25-33 | a new sheet is the initial state |
| UltimaMillaQuote.UltimaMillaSheet.Resetear | src/components/tarifarios/TarifarioUltimaMilla.tsx:47-49 | `resetear` returns the sheet to the initial state |
| UltimaMillaQuote.UltimaMillaSheet.CalcularTotal | src/components/tarifarios/TarifarioUltimaMilla.tsx:73-80 | the three loops and the parsed adjustment compute the sheet's total |
| AlmacenQuote.Lists | src/components/tarifarios/TarifarioAlmacenLogistica.tsx:99-106 | the sheet has eight priced lists |
| AlmacenQuote.SumConcat | src/components/tarifarios/TarifarioAlmacenLogistica.tsx:93-94 | the `reduce` sum over two lists is the sum of their sums |
| AlmacenQuote.SumAppend | src/components/tarifarios/TarifarioAlmacenLogistica.tsx:93-94 | one more line adds its price times its quantity |
| AlmacenQuote.TotalIsListsPlusAdjustment | src/components/tarifarios/TarifarioAlmacenLogistica.tsx:92-109 | the total is finite exactly when the adjustment is empty or parses to a finite number; it is then the eight lists' sum plus the adjustment, and NaN when the adjustment parses to NaN |
| AlmacenQuote.InitialTotalIsZero | src/components/tarifarios/TarifarioAlmacenLogistica.tsx:37-109 | a fresh sheet totals 0 |
| AlmacenQuote.SumAllOfEmptyLists | src/components/tarifarios/TarifarioAlmacenLogistica.tsx:99-106 | empty lists sum to 0 |
| AlmacenQuote.SumAllUpdate | src/components/tarifarios/TarifarioAlmacenLogistica.tsx:99-106 | replacing one list changes the sum by the difference of that list's sums |
| AlmacenQuote.AddLine | src/components/tarifarios/TarifarioAlmacenLogistica.tsx:39-46 | adding a line appends it to one of the eight lists and changes nothing else |
| AlmacenQuote.AddedLineRaisesTotal | src/components/tarifarios/TarifarioAlmacenLogistica.tsx:92-109 | one more line in any list raises a finite total by its price times its quantity and leaves a NaN total NaN |
| AlmacenQuote.AlmacenSlug | src/components/tarifarios/TarifarioAlmacenLogistica.tsx:127-129 | no name gives no slug; otherwise a dash and then the lower-cased name with each run of characters other than ASCII letters and digits replaced by one dash, including at either end: single dashes only, every letter and digit kept in order, and a leading dash exactly when the name starts with a symbol |
| AlmacenQuote.PdfFileName | src/components/tarifarios/TarifarioAlmacenLogistica.tsx:131 | with no name the file is `tarifario-almacen-logistica-2026.pdf` |
| AlmacenQuote.LeadingSymbolGivesDoubleDash | src/components/tarifarios/TarifarioAlmacenLogistica.tsx:127-129 | since this sheet does not strip edge dashes, a name that starts with a symbol gives a file name with `--` |
| AlmacenQuote.AlmacenSheet.constructor | src/components/tarifarios/TarifarioAlmacenLogistica.tsx:37-50 | a new sheet is the initial state, whatever client name prop it gets |
| AlmacenQuote.AlmacenSheet.HandleActualizar | src/components/tarifarios/TarifarioAlmacenLogistica.tsx:76-78 | `handleActualizar` returns the sheet to the initial state |
| MensajerosSesion.MapCampaign | src/components/MensajerosSesion.tsx:173-185 | a missing vehicle, schedule or workday becomes the wildcard `Todos`/`Todas`, a missing city becomes `—` (never the wildcard), and `activa` is `activa`, else `is_active`, else true |
| MensajerosSesion.FiltrosOf | src/components/MensajerosSesion.tsx:215-221 | blank selections become the wildcards `Todas`/`Todos`, and no filter is ever blank |
| MensajerosSesion.FilterCampanas | src/components/MensajerosSesion.tsx:227-243 | a campaign is kept exactly when it is in the input and passes the city, vehicle, schedule and workday tests |
| MensajerosSesion.FilterConcat | src/components/MensajerosSesion.tsx:227-243 | filtering keeps the input's order: filtering two lists one after the other is filtering their concatenation |
| MensajerosSesion.BlankFiltersKeepAll | src/components/MensajerosSesion.tsx:214-243 | with every selection blank, every campaign is kept, in order |
| MensajerosSesion.RadiusIsIgnored | src/components/MensajerosSesion.tsx:217-243 | the radius is recorded but never changes the result |
| MensajerosSesion.CityIsNeverAWildcard | src/components/MensajerosSesion.tsx:228 | with a city chosen, a campaign whose city is `Todas` does not pass |
| MensajerosSesion.DefaultedCampaignPasses | src/components/MensajerosSesion.tsx:178-243 | a campaign missing its vehicle, schedule and workday passes any filter that its city passes |
| MensajerosSesion.UniqueInOrder | src/components/MensajerosSesion.tsx:805 | `Array.from(new Set(...))` has no duplicates and the same members |
| MensajerosSesion.UniqueInOrderKeepsDistinct | src/components/MensajerosSesion.tsx:805 | a list without duplicates is unchanged |
| MensajerosSesion.DistinctCountsOnce | src/components/MensajerosSesion.tsx:805 | in a list without duplicates each member occurs once |
| MensajerosSesion.AppliedOnce | src/components/MensajerosSesion.tsx:805 | after applying, the campaign's id occurs exactly once and the other ids are those before |
| MensajerosSesion.MensajerosSesionView.constructor | src/components/MensajerosSesion.tsx:106-127 | the view starts with no courier, no campaigns, no applications, blank filters, a 50 km radius and closed dialogs |
| MensajerosSesion.MensajerosSesionView.ApplyLocalFilter | src/components/MensajerosSesion.tsx:214-247 | the shown campaigns are the given ones filtered by the current selections, the filters are recorded on the courier when there is one, the filter panel closes, and nothing else changes |
| MensajerosSesion.MensajerosSesionView.HandleBuscarCampanas | src/components/MensajerosSesion.tsx:249-252 | searching filters the loaded campaigns with the current selections |
| MensajerosSesion.MensajerosSesionView.SubmitApplication | src/components/MensajerosSesion.tsx:774-808 | missing configuration, no signed-in user and a failed insert each stop the submission and change nothing; on success the campaign id is added once, the dialog closes and the form is cleared |
| NuevaContrasena.PasswordProblem | src/components/NuevaContrasena.tsx:50-58 | the form is accepted exactly when both entries match and are at least six UTF-16 code units long; a mismatch is reported as such, and a short matching password as too short |
| NuevaContrasena.MismatchReportedFirst | src/components/NuevaContrasena.tsx:50-58 | a mismatch is reported before the length |
| NuevaContrasena.SixCharactersAreEnough | src/components/NuevaContrasena.tsx:55 | six characters of the basic plane are long enough |
| NuevaContrasena.FiveCharactersAreTooFew | src/components/NuevaContrasena.tsx:55 | five characters of the basic plane are too short |
| NuevaContrasena.ThreeAstralCharactersAreEnough | src/components/NuevaContrasena.tsx:55 | three characters above U+FFFF are six code units, so long enough |
| NuevaContrasena.BmpLength | src/components/NuevaContrasena.tsx:55 | for characters of the basic plane, `length` is the character count |
| NuevaContrasena.RecoveryHashOpensForm | src/components/NuevaContrasena.tsx:35-36 | a hash starting `#type=recovery&` has type `recovery` |
| NuevaContrasena.RecoveryParamFirst | src/components/NuevaContrasena.tsx:35-36 | in a query starting `type=recovery&`, `get('type')` finds `recovery` |
| NuevaContrasena.LeadingQueryMarkIsDropped | src/components/NuevaContrasena.tsx:35-36 | `URLSearchParams` drops one `?` at the head of the query, so `#?q` and `#q` have the same type |
| NuevaContrasena.RecoveryHashWithQueryMarkOpensForm | src/components/NuevaContrasena.tsx:35-36 | a hash starting `#?type=recovery&` also has type `recovery`, so the form is shown |
| NuevaContrasena.NoTypeParameterMeansNoType | src/components/NuevaContrasena.tsx:36 | with no parameter named `type`, `get('type')` finds none |
| NuevaContrasena.NuevaContrasenaPage.constructor | src/components/NuevaContrasena.tsx:28-32 | the page starts with no error, not loading, no token |
| NuevaContrasena.NuevaContrasenaPage.CheckRecoveryHash | src/components/NuevaContrasena.tsx:34-44 | a hash whose `type` parameter, read after the `#` and one optional `?`, is `recovery` shows the form; any other hash sends the user to `/mensajeros/acceso`; nothing else changes |
| NuevaContrasena.NuevaContrasenaPage.HandleSubmit | src/components/NuevaContrasena.tsx:46-84 | a form problem is shown and nothing is sent; otherwise, without configuration the error says so; with it, the password is sent once; a failed update shows the update error; a successful one shows the success toast and navigates to `/mensajeros/acceso`, unless signing out throws, which shows the update error; loading ends in every case |
| NuevaContrasena.NuevaContrasenaClientesPage.constructor | src/components/NuevaContrasenaClientes.tsx:22-26 | the page starts with no error, not loading, no token and no pending timer |
| NuevaContrasena.NuevaContrasenaClientesPage.CheckToken | src/components/NuevaContrasenaClientes.tsx:28-44 | the placeholder always shows the form and changes nothing else |
| NuevaContrasena.NuevaContrasenaClientesPage.HandleSubmit | src/components/NuevaContrasenaClientes.tsx:46-93 | a form problem is shown and nothing else happens; otherwise the pending-integration toast is shown and one timer is scheduled, without navigating |
| NuevaContrasena.NuevaContrasenaClientesPage.RunTimer | src/components/NuevaContrasenaClientes.tsx:82-85 | a scheduled timer shows the success toast and navigates to `/clientes` |
| SendPresupuestoEmail.ItemsHtmlOfNonEmpty | supabase/functions/send-presupuesto-email/index.ts:90-99 | the rows of a non-empty list are the first item's row followed by the rest's |
| SendPresupuestoEmail.ItemsHtmlAppend | supabase/functions/send-presupuesto-email/index.ts:90-99 | `map(...).join("")` over two lists is the concatenation of their rows |
| SendPresupuestoEmail.PrefixRowsLength | supabase/functions/send-presupuesto-email/index.ts:90-99 | the rows before item `k` are as long as the offset at which item `k`'s row starts |
| SendPresupuestoEmail.RowOfItem | supabase/functions/send-presupuesto-email/index.ts:90-99 | every item's row appears in the table body at its own offset, in item order |
| SendPresupuestoEmail.RowsAround | supabase/functions/send-presupuesto-email/index.ts:90-99 | the table body is the rows before item `k`, its row, and the rows after it |
| SendPresupuestoEmail.Gate | supabase/functions/send-presupuesto-email/index.ts:19-87 | a non-POST gets 405 `METHOD_NOT_ALLOWED`; then 401 `NO_AUTH_HEADER`, 401 `INVALID_SESSION`, 403 `FORBIDDEN_ROLE` and 400 `INVALID_PAYLOAD`, in that order; the request goes on exactly when it passes every check, and every answer given here is a failure |
| SendPresupuestoEmail.ZeroTotalIsInvalid | supabase/functions/send-presupuesto-email/index.ts:82 | a total of 0 is falsy, so the payload is refused |
| SendPresupuestoEmail.EmptyItemsPass | supabase/functions/send-presupuesto-email/index.ts:82 | an empty item array is truthy, so it passes the payload check |
| SendPresupuestoEmail.BuildHtml | supabase/functions/send-presupuesto-email/index.ts:90-120 | the HTML is built exactly when `items` is an array, and is then the template filled with the name, the e-mail, one row per item and the total |
| SendPresupuestoEmail.ServeAsWritten | supabase/functions/send-presupuesto-email/index.ts:19-148 | as written, no provider call is ever made, and every early answer is the gate's |
| SendPresupuestoEmail.AsWrittenNeverSucceeds | supabase/functions/send-presupuesto-email/index.ts:123-126 | as written, no request ever succeeds: one that passes every check throws `ReferenceError` at the undeclared `EMAIL_PROVIDER_API_KEY` |
| SendPresupuestoEmail.Serve | supabase/functions/send-presupuesto-email/index.ts:17-148 | with `RESEND_API_KEY` as the key, the provider is called exactly when the request passes every check and `items` is an array, with `Bearer <key>`, the configured sender and recipient, the fixed subject and the built HTML; the reply is success exactly when the provider accepts, and 500 `EMAIL_SEND_FAILED` otherwise |
| SendPresupuestoEmail.ServeAgreesBeforeTheCall | supabase/functions/send-presupuesto-email/index.ts:19-120 | the corrected handler differs from the written one only once the provider would be called |
| CampanaDetalle.DbEstadoToUi | src/components/admin/CampanaDetalleView.tsx:49-55 | every status loads as one of the three UI statuses; Aceptado exactly for `accepted`/`aceptado` and Rechazado exactly for `rejected`/`rechazado` in any case; everything else, a missing or empty status too, is in review |
| CampanaDetalle.UiEstadoToDb | src/components/admin/CampanaDetalleView.tsx:57-61 | the result is `accepted`, `rejected` or `pending`; `accepted` exactly for Aceptado and `rejected` exactly for Rechazado |
| CampanaDetalle.DbStatusRoundTrip | src/components/admin/CampanaDetalleView.tsx:49-61 | `pending`, `accepted` and `rejected` read into the UI and written back are unchanged |
| CampanaDetalle.UiStatusRoundTrip | src/components/admin/CampanaDetalleView.tsx:49-61 | a UI status written to the database and read back is unchanged |
| CampanaDetalle.FirstMatch | src/components/admin/CampanaDetalleView.tsx:67-68 | `find` returns the first trimmed line whose lower-case form starts with the prefix, and none exactly when no line does |
| CampanaDetalle.AfterFirstColonIsRest | src/components/admin/CampanaDetalleView.tsx:69-72 | `split(':').slice(1).join(':').trim()` is the trimmed text after the first colon, and empty without a colon |
| CampanaDetalle.RestAfterFirstColon | src/components/admin/CampanaDetalleView.tsx:69-71 | splitting at colons and joining all but the first piece gives the text after the first colon, later colons kept |
| CampanaDetalle.Extract | src/components/admin/CampanaDetalleView.tsx:66-72 | a field is absent exactly when no line starts with its prefix; otherwise it is the text after the first colon of the first such line |
| CampanaDetalle.ParseMensaje | src/components/admin/CampanaDetalleView.tsx:63-78 | a missing message gives no field |
| CampanaDetalle.EmptyTextHasNoField | src/components/admin/CampanaDetalleView.tsx:64-72 | an empty message, whose only line is empty, gives no field |
| CampanaDetalle.ParsedFieldsAreOneLine | src/components/admin/CampanaDetalleView.tsx:65-72 | an extracted field never holds a line break |
| CampanaDetalle.ValueOfOneLineIsOneLine | src/components/admin/CampanaDetalleView.tsx:66-72 | from lines without breaks, the extracted value has no break |
| CampanaDetalle.AfterFirstColonHasNo | src/components/admin/CampanaDetalleView.tsx:69-72 | the text after the first colon adds no character |
| CampanaDetalle.AbsentFromTrim | src/components/admin/CampanaDetalleView.tsx:72 | trimming adds no character |
| CampanaDetalle.AbsentFromSuffix | src/components/admin/CampanaDetalleView.tsx:69-71 | a suffix holds no character that the text lacks |
| CampanaDetalle.ReplaceFirst | src/components/admin/CampanaDetalleView.tsx:132-135 | `replace(prefix, '')` on an entry that starts with the prefix removes exactly that prefix |
| CampanaDetalle.TagThenRest | src/components/admin/CampanaDetalleView.tsx:130-135 | an entry is a prefix followed by `e` exactly when it starts with the prefix and stripping the prefix gives `e` |
| CampanaDetalle.Tagged | src/components/admin/CampanaDetalleView.tsx:130-135 | `e` is listed exactly when the prefix followed by `e` is a requirement |
| CampanaDetalle.TaggedConcat | src/components/admin/CampanaDetalleView.tsx:130-135 | the filter and strip keep the requirements' order |
| CampanaDetalle.TagsPartition | src/components/admin/CampanaDetalleView.tsx:130-135 | no requirement is counted for both `FLOTISTA::` and `MENSAJERO::` |
| CampanaDetalle.MapRow | src/components/admin/CampanaDetalleView.tsx:168-184 | a loaded row's status is `dbEstadoToUi` of the stored status, and its courier name is the user id, or the default name when there is none |
| CampanaDetalle.WithEstado | src/components/admin/CampanaDetalleView.tsx:310-316 | the rows with a given status, in order: none exactly when no row has it |
| CampanaDetalle.WithEstadoConcat | src/components/admin/CampanaDetalleView.tsx:310 | filtering by status keeps the rows' order |
| CampanaDetalle.FilteredPostulaciones | src/components/admin/CampanaDetalleView.tsx:308-310 | `all` keeps every row; any other filter keeps exactly the rows with that status |
| CampanaDetalle.InReviewNeverCountedAsWritten | src/components/admin/CampanaDetalleView.tsx:308-317 | as written, loaded rows never match the in-review spelling that the counter and the filter use, so both are always empty (also lines 46, 50, 54) |
| CampanaDetalle.RowWithoutStatusLoadsInReview | src/components/admin/CampanaDetalleView.tsx:50 | a row without a status loads in the in-review spelling that `dbEstadoToUi` returns (also line 179) |
| CampanaDetalle.InReviewRowGoesUncounted | src/components/admin/CampanaDetalleView.tsx:312-317 | a row in review counts in the total and in none of the three counters |
| CampanaDetalle.PendingRowGoesUncounted | src/components/admin/CampanaDetalleView.tsx:312-317 | a freshly loaded row without a status is such a row: the three counters do not add up to the total (also lines 50, 179) |
| CampanaDetalle.StatsPartition | src/components/admin/CampanaDetalleView.tsx:312-317 | with one in-review spelling throughout, the three counters add up to the total for loaded rows |
| CampanaDetalle.DoubleQuotes | src/components/admin/CampanaDetalleView.tsx:253 | doubling quotes never shortens a cell, and leaves a cell without quotes as it is |
| CampanaDetalle.EscapeAll | src/components/admin/CampanaDetalleView.tsx:253 | one quoted cell per cell |
| CampanaDetalle.HeaderCells | src/components/admin/CampanaDetalleView.tsx:252 | one quoted header per header |
| CampanaDetalle.RowTexts | src/components/admin/CampanaDetalleView.tsx:253 | one line per row |
| CampanaDetalle.ReadQuoted | src/components/admin/CampanaDetalleView.tsx:253 | reading a quoted cell consumes at least one character of the text |
| CampanaDetalle.ParseRows | src/components/admin/CampanaDetalleView.tsx:252-254 | a parsed file has at least one row and its first row at least one cell |
| CampanaDetalle.ReadEscaped | src/components/admin/CampanaDetalleView.tsx:253 | a quoted cell whose quotes are doubled reads back as the cell |
| CampanaDetalle.ReadAfterHead | src/components/admin/CampanaDetalleView.tsx:253 | reading a quoted cell proceeds one character, or one doubled quote, at a time |
| CampanaDetalle.ParseCellAtEnd | src/components/admin/CampanaDetalleView.tsx:253 | a last quoted cell reads back as itself |
| CampanaDetalle.ParseCellBeforeNewline | src/components/admin/CampanaDetalleView.tsx:253-254 | a quoted cell before a line break ends its row |
| CampanaDetalle.ParseCellBefore | src/components/admin/CampanaDetalleView.tsx:253 | a quoted cell before `;` starts its row |
| CampanaDetalle.ParseRowThen | src/components/admin/CampanaDetalleView.tsx:253-254 | a row of quoted cells joined by `;` reads back as its cells |
| CampanaDetalle.ParseRowsRoundTrip | src/components/admin/CampanaDetalleView.tsx:252-254 | rows of quoted cells joined by `;` and lines joined by line breaks read back as the same rows |
| CampanaDetalle.CsvRow | src/components/admin/CampanaDetalleView.tsx:233-249 | each application gives nine cells |
| CampanaDetalle.CsvRows | src/components/admin/CampanaDetalleView.tsx:233-249 | one row per application, in order |
| CampanaDetalle.ExportCsv | src/components/admin/CampanaDetalleView.tsx:213-258 | nothing to export gives no file; otherwise the file starts with the BOM |
| CampanaDetalle.HeaderCellsOfPlainText | src/components/admin/CampanaDetalleView.tsx:252-253 | headers without quotes are quoted as data cells are |
| CampanaDetalle.ExportReadsBack | src/components/admin/CampanaDetalleView.tsx:252-258 | the exported file, after its BOM, reads back as the header row and then one row per application |
| CampanaDetalle.SanitizeTitle | src/components/admin/CampanaDetalleView.tsx:267 | the sanitised title has one character per UTF-16 code unit of the title, each an ASCII letter, digit or `_` |
| CampanaDetalle.SanitizeTitleUnits | src/components/admin/CampanaDetalleView.tsx:267 | each code unit of the title becomes itself when it is an ASCII letter or digit and `_` otherwise, so a character above U+FFFF becomes `__` |
| CampanaDetalle.SanitizedIsFixed | src/components/admin/CampanaDetalleView.tsx:267 | a title of ASCII letters, digits and `_` is unchanged |
| CampanaDetalle.SanitizeTitleIdempotent | src/components/admin/CampanaDetalleView.tsx:267 | sanitising twice is sanitising once |
| CampanaDetalle.CsvFileName | src/components/admin/CampanaDetalleView.tsx:266-268 | the file is `ONUS_Postulaciones_<title>_<date>.csv`, with the sanitised title, or `Campana` when there is no title, and the date part of the ISO time |
| ServerFunction.IsAdminPinValid | supabase/functions/server/index.ts:26-38 | the pin is accepted exactly when the configured pin and the given pin are both non-empty and equal; an empty configured pin or a missing or empty pin is refused |
| ServerFunction.EmptyPanelPinLocksAdmin | supabase/functions/server/index.ts:26-38 | `ADMIN_PANEL_PIN` set to the empty text shuts every admin route, whatever `ADMIN_PIN` is and whatever pin is sent |
| ServerFunction.GenerateTemporaryPassword | supabase/functions/server/index.ts:46-53 | the password has the requested length, none for a length of zero or less, and every character comes from the 62-character alphabet |
| ServerFunction.GenerateDefaultPassword | supabase/functions/server/index.ts:46-53 | the default password is 14 characters of that alphabet (also line 192) |
| ServerFunction.Codigo | supabase/functions/server/index.ts:188-190 | a courier code drawn from `Math.random` is a six-digit number, 100000 to 999999 |
| ServerFunction.AuditFailure | supabase/functions/server/index.ts:55-84 | the audit write throws exactly when it failed with a code other than 42P01 or 42703, and throws its message |
| ServerFunction.InsertByTime | supabase/functions/server/index.ts:150-152 | inserting into a newest-first list keeps it newest first and adds exactly that profile |
| ServerFunction.ConsNewestFirst | supabase/functions/server/index.ts:150-152 | a profile no older than the head of a newest-first list may go in front of it |
| ServerFunction.SortNewestFirst | supabase/functions/server/index.ts:150-152 | the sorted profiles are newest first and are the same profiles |
| ServerFunction.PendingProfiles | supabase/functions/server/index.ts:86-154 | a bad pin gives 401; a failed query, after its 42703 retry, gives 500 with its message, requests before contacts; otherwise success with the profiles of both tables, newest first |
| ServerFunction.MergedProfilesShape | supabase/functions/server/index.ts:124-146 | every merged profile comes from one of the two tables |
| ServerFunction.ListedProfilesShape | supabase/functions/server/index.ts:124-153 | every listed profile comes from one of the two tables |
| ServerFunction.PermutationKeepsShape | supabase/functions/server/index.ts:150-152 | reordering profiles keeps each one's table |
| ServerFunction.MissingOrigenNamesTable | supabase/functions/server/index.ts:133-145 | a row without `origen_formulario` takes its table's name as origin |
| ServerFunction.CheckCreateUser | supabase/functions/server/index.ts:156-183 | a bad pin gives 401; an empty e-mail or an unknown role gives 400; success exactly when the pin is accepted, the e-mail is present, the role is known, the source allows the role and a client does not come from a courier form |
| ServerFunction.SourceRoleMessages | supabase/functions/server/index.ts:174-183 | the three source and origin refusals give their own messages |
| ServerFunction.FormEmailIsNormalised | supabase/functions/server/index.ts:162 | the form's e-mail has no surrounding spaces and no ASCII upper-case letter |
| ServerFunction.OmittedRoleMeansCourier | supabase/functions/server/index.ts:165 | a request without a role creates a courier |
| ServerFunction.CourierOriginNeverBecomesClient | supabase/functions/server/index.ts:181-183 | a user from a courier form, once accepted, is a courier |
| ServerFunction.CreateRequestOf | supabase/functions/server/index.ts:185-201 | the Auth request keeps the form's e-mail, role, name and phone; couriers get a six-digit code and no password, clients a temporary password and no code |
| ServerFunction.RegisterUser | supabase/functions/server/index.ts:195-281 | a failed creation gives 409 for a duplicate user and 500 otherwise; the source row is marked processed exactly when the user was created and the form names a known source and row; a client's failed `clientes` write or audit gives 500; success carries the new id, the role and the generated password |
| ServerFunction.CreateUserFromForm | supabase/functions/server/index.ts:156-282 | nothing is sent to Auth when the form is refused, and the refusal is the reply; otherwise the request is `CreateRequestOf` the form and the outcome is `RegisterUser`'s |
| ServerFunction.UpdatePostulacionStatus | supabase/functions/server/index.ts:284-307 | a bad pin gives 401, a missing id 400, a status outside pending/accepted/rejected 400, and no update is made; otherwise the trimmed lower-case status is written to that row and the reply is 500, 404 or the updated row |
| ServerFunction.NormalEmails | supabase/functions/server/index.ts:328-330 | each listed user's e-mail, trimmed and in lower case |
| ServerFunction.FirstIndex | supabase/functions/server/index.ts:328-330 | `find` gives the first position holding the e-mail, and nothing exactly when none does |
| ServerFunction.ResetTarget | supabase/functions/server/index.ts:318-334 | a given user id is used as is; otherwise a failed listing gives 500, and the first listed user with the e-mail is the target, or 404 when there is none or it has no id |
| ServerFunction.ResetAt | supabase/functions/server/index.ts:336-375 | a missing user gives 404 and a user who is not a client 400, without a new password; otherwise the password is set for that id, and a failed update or audit gives 500; success carries the id, the client role and the new password |
| ServerFunction.ResetClientPasswordFor | supabase/functions/server/index.ts:309-375 | a bad pin gives 401 and neither e-mail nor id 400; a password is only ever set for the user looked up, and only when that user is a client |
| ServerFunction.EndsWithSuffix | supabase/functions/server/index.ts:384-400 | a path ending in the prefixed route ends in the route |
| ServerFunction.SuffixesNest | supabase/functions/server/index.ts:384-400 | of two suffixes of one path, the shorter is a suffix of the longer |
| ServerFunction.ServesIsEndsWith | supabase/functions/server/index.ts:384-400 | matching the route or the prefixed route is matching the route alone |
| ServerFunction.RoutingTable | supabase/functions/server/index.ts:377-405 | `OPTIONS` is always the preflight; a refused origin gets 403; each route is taken exactly for its verb, an allowed origin and a path ending in its route |
| ServerFunction.NoNestedRoutes | supabase/functions/server/index.ts:388-400 | no path ends with two of the admin routes, so their order does not matter |

## Left out

- ExpressQuote.TotalOf: money is `real`, not IEEE double; `toFixed(2)` rounding and float rounding of sums and products are not modelled, so the total is the exact sum the source approximates.
- UltimaMillaQuote.TotalOf: the same; `real` in place of double and no `toFixed(2)`.
- AlmacenQuote.TotalOf: the same; `real` in place of double and no `toFixed(2)`.
- JsText.ParseFloat: a decimal literal is read as its exact value; rounding to the nearest double and overflow of a long exponent to `Infinity` are not modelled.
- JsText.ParseInt: a digit run is read as an exact, unbounded integer. JavaScript's `parseInt` rounds values above 2^53 to the nearest double and gives `Infinity` for runs of about 309 digits or more, and a template literal prints numbers from 1e21 up in exponent form; none of this is modelled.
- JsText.ParseIntOfDigits: exact only up to 2^53 in the source, for the reason given under `JsText.ParseInt`.
- JsText.ParseIntOfNumeral: the same; in the source the number must stay below 2^53.
- ExpressQuote.CoerceCantidad: a quantity typed as roughly 309 or more digits is `Infinity` in the source, which then stores 1; the model stores the typed integer. Above 2^53 the source stores a rounded value.
- ExpressQuote.CantidadOfNumeral: holds in the source only for quantities below 2^53.
- ExpressQuote.PesoFromText: a very long weight text gives `Infinity` in the source and a rounded weight above 2^53; the model gives the exact integer.
- ExpressQuote.ServicioTextRoundTrip: in the source a weight of 1e21 or more is shown in exponent form (`1e+21 kg`), whose `parseInt` is 1; the model reads the shown weight back exactly, so the round trip is proved for the unbounded model only.
- ExpressQuote.PesoOfShownWeight: the same display and `parseInt` limits; in the source it holds for weights below 2^53.
- JsText.ToLower: lower-cases ASCII letters only. JavaScript's `toLowerCase` also maps other letters (`'İ'` becomes `"i̇"`, `'É'` becomes `'é'`), so `ServerFunction.ResetTarget` (server/index.ts:312,329 compare lower-cased e-mails), `ServerFunction.CheckCreateUser` and the Express and warehouse slugs differ from the source for non-ASCII names.
- CampanaDetalle.FirstMatch: the line test lower-cases with the ASCII-only `JsText.ToLower`. The only prefix this changes is `motivaci`: JavaScript lower-cases `İ` (U+0130) to `i` followed by a combining dot, so a line `MOTIVACİÓN: x` starts with `motivaci` in the source and its motivation is extracted, while the model finds no such line. The same gap reaches `CampanaDetalle.Extract` and `CampanaDetalle.ParseMensaje`.
- CampanaDetalle.Extract: inherits the `İ` gap of `CampanaDetalle.FirstMatch` for the `motivaci` prefix.
- CampanaDetalle.ParseMensaje: the motivation field inherits the `İ` gap of `CampanaDetalle.FirstMatch`.
- MensajeroSessionWindow.ToMs: `Date.parse` is not modelled; a date text arrives as `DateText`, carrying the clock value the runtime parsed it to, or none when it is unparseable.
- MensajeroSessionWindow.SessionWindowStore.IsMensajeroSessionExpired: the two `Date.now()` reads of one call (mensajerosSession.ts:34, when the window is started, and mensajerosSession.ts:42) are one `now` parameter, so a clock tick between them is not modelled.
- AdminSession.ReadLoggedAt: reads only the record the code writes, `{"loggedAt":<integer>}` without spaces, the integer in JSON form (no leading zero). `JSON.parse` also accepts spaced or reordered records and numbers such as `1.7e12`; such a record counts as unreadable, hence inactive, in the model. Every record the model reads, `JSON.parse` reads to the same number.
- NuevaContrasena.HashType: reads the `type` parameter of the hash literally, after dropping one leading `?` as `URLSearchParams` does; its percent-decoding and `+` as a space are not modelled.
- ServerFunction.IsAdminPinValid: the pin is text or absent. The source's `String(pin)` (server/index.ts:38) also accepts a JSON number such as `1234` when the configured pin is `"1234"`; that request is not modelled.
- AdminLogin.Serve: the same for `String(payload?.pin ?? '')` (admin-login/index.ts:68); `AdminLogin.SubmittedPin` reads a text or missing pin only, so a numeric or object pin is not modelled.
- SendPresupuestoEmail.Gate: `items` is a list of item records; a `null` element, on which `item.nombre` throws `TypeError` (send-presupuesto-email/index.ts:92-96), cannot be expressed.
- SendPresupuestoEmail.BuildHtml: the same; an item is always a record.
- ServerFunction.SortNewestFirst: `createdTime` is an integer clock value, so the NaN that `new Date(...)` gives for an unparseable `created_at` (server/index.ts:151), which makes the comparator inconsistent, is not modelled.
- ServerFunction.SortNewestFirst: only newest-first order and the same multiset of profiles are proved; the relative order of profiles with equal times, which the engine's stable sort keeps, is not stated.
- ServerFunction.PendingProfiles: inherits both limits of `SortNewestFirst`.
- ServerFunction.RegisterUser: the `users` upsert and its retry without `origen_formulario` on error 42703 (server/index.ts:218-236) are not represented; their result never changes the reply.
- ServerFunction.ResetTarget: `listUsers` returns only page 1 of 200 users (server/index.ts:322-325); the model receives that page as `listed`, so a user beyond it is "not found" as in the source, but the paging itself is not modelled.
- ServerFunction.GenerateTemporaryPassword: `Math.random` is a nondeterministic choice of an index into the alphabet.
- ServerFunction.Codigo: `Math.random` is the `draw` parameter in [0, 1); the code is `floor(100000 + draw * 900000)` on exact reals.
- CampanaDetalle.CsvRow: `toLocaleDateString('es-ES', ...)` is the `formatDate` parameter.
- CampanaDetalle.CsvFileName: `new Date().toISOString()` is the `isoNow` parameter.
- CampanaDetalle: `handleWhatsApp` (CampanaDetalleView.tsx:192-211) is not modelled: it only builds a link and opens a window. `loadData`, the realtime channel and the status update call are database I/O.
- PDF rasterisation and downloads (html2canvas, jsPDF, the logo recolouring loop, `pdf.save`, `Blob`, `createObjectURL`, link clicks) in the three price sheets and the CSV download are browser and library I/O; the model stops at the slug, the file name, the item list and the CSV text.
- The Supabase client, auth sessions, table queries, upserts, `auth.admin.*`, `functions.invoke` and the Resend `fetch` are not modelled as calls; their results are parameters of the functions that use them.
- React rendering, toasts, alerts and navigation are recorded as outcome fields of the page classes at most.
- `src/utils/emailService.ts`, `src/utils/emailPresupuesto.ts` and `src/hooks/useRequireRole.ts` are placeholders (the helpers always succeed, the hook does nothing) and are not part of this model; nor are the presentation-only pages.
- ExpressQuote.ItemsEmail: only the item list is modelled. The send itself is not, because it is broken as written: the file imports `enviarPresupuestoPorEmail` (TarifarioMensajeriaExpress.tsx:17) while the e-mail helper exports `enviarPresupuesto`, and the payload (TarifarioMensajeriaExpress.tsx:399-403) lacks the `cliente_nombre` and `cliente_email` that send-presupuesto-email/index.ts:82 requires. Its result is only logged (TarifarioMensajeriaExpress.tsx:405-407), and there is no retry.
- ExpressQuote: `generarPDF`'s dependency list (TarifarioMensajeriaExpress.tsx:414) can make it read stale items and total; the model reads the current state, as it does when the dependencies are up to date.
- UltimaMillaQuote: `generarPDF` is rasterisation only and is not modelled beyond the client-name guard of `enviarPresupuesto`.
- MensajerosSesion: the campaign, application and session queries of the page are parameters; only the filter, the campaign defaults and the applied-campaign list are modelled.

## Findings

| source | as written | input that shows it | evidently intended | confidence | as-written member | corrected member |
|---|---|---|---|---|---|---|
| src/components/admin/CampanaDetalleView.tsx:314 | the in-review counter and the filter (lines 17, 46, 314) compare with a doubly mis-encoded `"En revisiÃƒÂ³n"`, while `dbEstadoToUi` returns `"En revisiÃ³n"` (lines 50, 54), so no loaded row is ever counted or filtered as in review | a row whose `estado` is `null` or `"pending"`: it counts in `total` and in none of the three counters | one spelling throughout, so that the three counters add up to the total | not executed | CampanaDetalle.InReviewNeverCountedAsWritten | CampanaDetalle.StatsPartition |
| supabase/functions/send-presupuesto-email/index.ts:126 | the provider call reads `EMAIL_PROVIDER_API_KEY`, which is declared nowhere, so every request that passes the checks throws `ReferenceError` and no e-mail is ever sent | any POST from a signed-in client with a complete payload | the key read at line 17, `RESEND_API_KEY` | not executed | SendPresupuestoEmail.AsWrittenNeverSucceeds | SendPresupuestoEmail.Serve |
