# miproyecto hotel client — a Dafny model

This project models the logic of the hotel's React web client. It covers these parts:

- The guest pages: the home-page search, the list of available rooms with its booking and payment modals, "Mis Reservas" and the guest dashboard.
- The login and registration modals, the site header, the route table and its role gate.
- The administrator's pages: rooms, users, ad-hoc queries, reports and the admin frame.
- The receptionist's pages: the dashboard, reservations, payments and the contact inbox.

Each view is one Dafny module named after its component. Shared logic lives in small modules:

- `Text`: JavaScript's `\s`, `\d`, `trim`, `includes`, `parseInt` and ASCII `toLowerCase` on `seq<char>`.
- `Lists`: `Array.prototype.filter` and counting, with order and partition lemmas.
- `StayRules`: nights as the ceiling of a millisecond difference in days, and when a reservation may be cancelled.
- `Validation`: the e-mail pattern and the ordered registration checks.
- `Backend`: how a request ended.
- `Browser`: `localStorage`.

How the model handles what the views do:

- Code that computes a value (formatters, filters, the route table, status colours and labels) becomes functions. Lemmas state what those functions promise.
- State that a handler updates with `useState` setters becomes a class field. Each handler is a method whose `ensures` gives the whole new state for every branch the source takes.
- What the browser or the server supplies is passed in as a parameter:
  - a backend reply, as `Backend.Reply`: the request threw with a message, or an answer arrived with its status and its `success`, `error` and payload fields;
  - the answer to `window.confirm`;
  - the current time, in milliseconds since the epoch or as a calendar date;
  - what `JSON.parse` makes of a stored text;
  - `encodeURIComponent`.
- A handler returns the request it would send, or the path it would navigate to, so the contracts can state them.
- `localStorage` is the class `Browser.Storage`, whose map the logout and login handlers change in place.

## Model

| member | source | states |
|---|---|---|
| Text.StripSpaces | miproyecto/src/components/ProcesoPago.jsx:49 | `replace(/\s/g, "")` leaves no whitespace and never lengthens the text |
| Text.KeepDigits | miproyecto/src/components/ProcesoPago.jsx:39 | `replace(/\D/g, "")` leaves only digits and never lengthens the text |
| Text.Take | miproyecto/src/components/ProcesoPago.jsx:23 | `substring(0, n)` is the prefix of length min(n, length) |
| Text.TrimStart | miproyecto/src/components/ProcesoPago.jsx:54 | the leading part `trim` drops is whitespace and what it keeps starts with a non-space |
| Text.TrimEnd | miproyecto/src/components/ProcesoPago.jsx:54 | the trailing part `trim` drops is whitespace and what it keeps ends with a non-space |
| Text.BlankIffAllSpaces | miproyecto/src/components/ProcesoPago.jsx:54 | `!s.trim()` holds if and only if every character is whitespace |
| Text.TrimUnchanged | miproyecto/src/components/ProcesoPago.jsx:22 | trimming text that starts and ends with a non-space changes nothing |
| Text.TrimDropsTrailingSpace | miproyecto/src/components/ProcesoPago.jsx:22 | trimming such text followed by one space gives the text back |
| Text.IndexOf | miproyecto/src/components/LoginModal.jsx:30 | the position of the first occurrence of a character, -1 if and only if it does not occur |
| Text.ContainsIffOccurs | miproyecto/src/components/AdminLayout.jsx:39 | `includes` holds if and only if the text occurs at some offset |
| Text.ContainsEmpty | miproyecto/src/pages/Admin/Habitaciones.jsx:368-372 | every string includes the empty string |
| Text.ToLower | miproyecto/src/pages/Admin/Habitaciones.jsx:368-372 | lower-casing keeps the length and maps each character by ASCII case folding |
| Text.ToLowerIdempotent | miproyecto/src/pages/Admin/Habitaciones.jsx:368-372 | lower-casing twice is lower-casing once |
| Text.OrElse | miproyecto/src/App.js:104 | `a \|\| b` on strings is a when a is non-empty and b otherwise |
| Text.TwoDigitValue | miproyecto/src/components/ProcesoPago.jsx:66-67 | `parseInt` of two decimal digits lies in 0..99 |
| Text.StripSpacesLeavesDigits | miproyecto/src/components/ProcesoPago.jsx:20 | on digits and whitespace, removing whitespace leaves the digits, the same as removing non-digits |
| Text.ShowNat | miproyecto/src/components/BusquedaReservas.jsx:157-181 | the numeral of a natural number is digits without a leading zero |
| Text.ParseInt | miproyecto/src/components/BusquedaReservas.jsx:157-181 | `parseInt` yields a number only when the text holds a digit |
| Text.DecimalValueShowNat | miproyecto/src/components/BusquedaReservas.jsx:157-181 | reading a numeral back gives the number it shows |
| Text.ParseIntShowInt | miproyecto/src/components/BusquedaReservas.jsx:157-181 | `parseInt(String(n)) == n` for every integer n |
| Text.ParseIntOfNumeral | miproyecto/src/components/BusquedaReservas.jsx:157-181 | `parseInt` of an optional minus sign and digits is their signed value |
| Lists.Filter | miproyecto/src/pages/Operador/GestionPagos.jsx:35-36 | `filter` keeps only passing elements of the list and every passing element |
| Lists.Count | miproyecto/src/pages/Operador/GestionReservas.jsx:72-85 | `filter(p).length` is at most the list's length |
| Lists.FilterConcat | miproyecto/src/pages/Operador/GestionPagos.jsx:35-36 | filtering distributes over concatenation, so the kept elements keep their order |
| Lists.FilterKeepsAll | miproyecto/src/pages/Operador/GestionReservas.jsx:39-42 | a filter every element passes returns the list itself |
| Lists.FilterPartition | miproyecto/src/pages/Operador/GestionPagos.jsx:35-36 | filtering by a test and by its negation splits the list's multiset and length exactly |
| Lists.CountDisjoint3 | miproyecto/src/pages/Operador/DashboardOperator.jsx:39-42 | counts under three mutually exclusive tests sum to at most the length |
| Lists.FilterDistinct | miproyecto/src/components/SeccionHabitaciones.jsx:130-134 | filtering a list without repetitions leaves one without repetitions |
| StayRules.CeilDays | miproyecto/src/components/MisReservas.jsx:164 | `Math.ceil(diff / 86400000)` is the least n with diff <= n days |
| StayRules.Nights | miproyecto/src/components/MisReservas.jsx:160-165 | nights are the ceiling of the millisecond difference in days; positive if and only if check-out is after check-in |
| StayRules.WholeDays | miproyecto/src/components/DashboardUsuario.jsx:165-170 | a stay of exactly k whole days counts k nights |
| StayRules.NightsMonotone | miproyecto/src/components/ModalReserva.jsx:183-187 | a later check-out never gives fewer nights |
| StayRules.PuedeCancelar | miproyecto/src/components/MisReservas.jsx:191-199 | cancelling is offered if and only if the reservation is confirmada and check-in is strictly after now |
| Validation.ValidarEmail | miproyecto/src/components/LoginModal.jsx:29-32 | accepts exactly the strings A@B.C with A, B, C non-empty and free of whitespace and '@' |
| Validation.NoSplitWithoutAt | miproyecto/src/components/LoginModal.jsx:29-32 | text without '@', or starting with it, has no such split |
| Validation.EmailIff | miproyecto/src/components/LoginModal.jsx:29-32 | the checks at the first '@' hold if and only if the address splits as A@B.C |
| Validation.EmailSplitFound | miproyecto/src/components/LoginModal.jsx:29-32 | checks that pass at the first '@' give the split |
| Validation.EmailSplitChecked | miproyecto/src/components/LoginModal.jsx:29-32 | a split address passes the checks at its first '@' |
| Validation.FirstOccurrence | miproyecto/src/components/LoginModal.jsx:30 | two first occurrences of a character are the same position |
| Validation.EmailHasOneAt | miproyecto/src/components/LoginModal.jsx:29-32 | an accepted address has exactly one '@', not at the start |
| Validation.RegistrationError | miproyecto/src/components/LoginModal.jsx:105-115 | passwords differ, then length below 4, then an invalid email: each message appears exactly when the earlier checks pass and its own fails; None if and only if all pass |
| Validation.FourCharactersSuffice | miproyecto/src/components/LoginModal.jsx:109 | a password of exactly four characters passes the length check |
| Browser.Storage.constructor | miproyecto/src/components/Header.jsx:15-16 | storage starts with the given entries |
| Browser.Storage.GetItem | miproyecto/src/components/Header.jsx:15-16 | `getItem` returns the stored value, or null if and only if the key is absent |
| Browser.Storage.SetItem | miproyecto/src/components/LoginModal.jsx:64 | `setItem` sets that key and changes no other |
| Browser.Storage.RemoveItem | miproyecto/src/components/Header.jsx:48-53 | `removeItem` removes that key and changes no other |
| LoginModal.RedirectForRole | miproyecto/src/components/LoginModal.jsx:78-86 | administrador goes to /admin/dashboard, recepcionista to /operator/dashboard, cliente to /dashboard, any other role to /; each if and only if |
| LoginModal.LoginErrorOf | miproyecto/src/components/LoginModal.jsx:55-57 | a failed login shows the backend's non-empty `error`, else the default text; a thrown error shows its message or the no-server text; never "" |
| LoginModal.LoginForm.constructor | miproyecto/src/components/LoginModal.jsx:8-24 | starts in login mode, with empty credentials, no error, not loading and an empty eight-field registration form |
| LoginModal.LoginForm.SetModo | miproyecto/src/components/LoginModal.jsx:391-409 | every mode switch sets the mode and clears `loginError` |
| LoginModal.LoginForm.SetRegistroField | miproyecto/src/components/LoginModal.jsx:15-24 | a registration input changes only its own field |
| LoginModal.LoginForm.HandleLoginSubmit | miproyecto/src/components/LoginModal.jsx:37-92 | only an ok answer with success stores 'user', clears username and password and redirects by role; an answer without `user` stores "undefined" and shows the TypeError, keeping the credentials when the parent's callback reads `role` (it throws first) and clearing them otherwise; any other reply keeps the credentials and shows the message; loading ends false |
| LoginModal.LoginForm.HandleRegistroSubmit | miproyecto/src/components/LoginModal.jsx:98-165 | a failed check shows its message and sends nothing; a successful answer switches to login mode with no error and all eight fields ""; a failed answer keeps the form and shows the message |
| ModalRegistro.RegistrationModal.constructor | miproyecto/src/components/ModalRegistro.jsx:5-16 | the form starts with eight empty fields, no error and not loading |
| ModalRegistro.RegistrationModal.HandleInputChange | miproyecto/src/components/ModalRegistro.jsx:26-31 | only the field named by the event changes; every other field keeps its value |
| ModalRegistro.RegistrationModal.HandleSubmit | miproyecto/src/components/ModalRegistro.jsx:33-102 | the checks run in order and a failure sends nothing; success (judged by `result.success` alone) resets all eight fields; otherwise the form stays with `result.error` or the default text; `loading` ends false on every path |
| ProcesoPago.Chunked | miproyecto/src/components/ProcesoPago.jsx:19-23 | the grouping of n digits has n + (n - 1) / 4 characters: one separator between consecutive groups of four |
| ProcesoPago.ChunkedSeparatorsAt | miproyecto/src/components/ProcesoPago.jsx:19-23 | every fifth character of a grouping is a space |
| ProcesoPago.ChunkedDigitsAt | miproyecto/src/components/ProcesoPago.jsx:19-23 | character k of a grouping (k mod 5 != 4) is digit k - k / 5, so the digits appear in order |
| ProcesoPago.ChunkedDigitsAndSpaces | miproyecto/src/components/ProcesoPago.jsx:19-23 | a grouping of digits holds only digits and spaces |
| ProcesoPago.GroupFoursOfShort | miproyecto/src/components/ProcesoPago.jsx:21 | the global four-digit replacement leaves fewer than four characters untouched |
| ProcesoPago.GroupFoursOfDigits | miproyecto/src/components/ProcesoPago.jsx:21 | on digits the replacement is the grouping plus one trailing space exactly when the last group is full |
| ProcesoPago.ChunkedEnds | miproyecto/src/components/ProcesoPago.jsx:19-23 | a non-empty grouping starts and ends with a digit, so it has no leading or trailing space |
| ProcesoPago.ChunkedSplit | miproyecto/src/components/ProcesoPago.jsx:19-23 | cutting the digits after whole groups cuts the grouping at a single space |
| ProcesoPago.TakeChunked | miproyecto/src/components/ProcesoPago.jsx:23 | keeping 19 characters of a grouping keeps exactly the grouping of the first 16 digits |
| ProcesoPago.StripChunked | miproyecto/src/components/ProcesoPago.jsx:20-23 | removing the whitespace from a grouping gives back its digits (round trip) |
| ProcesoPago.FormatCardIsGrouping | miproyecto/src/components/ProcesoPago.jsx:18-25 | for typed digits and whitespace, the stored card number is the first min(n, 16) digits in groups of four joined by single spaces |
| ProcesoPago.TrimGroupFours | miproyecto/src/components/ProcesoPago.jsx:21-22 | trim removes exactly the space the replacement leaves after a full last group |
| ProcesoPago.FormatCardShape | miproyecto/src/components/ProcesoPago.jsx:18-25 | the stored card number has at most 19 characters, no trailing space, a space exactly at every fifth position, and its digits are the first 16 typed |
| ProcesoPago.ChunkedSeparators | miproyecto/src/components/ProcesoPago.jsx:19-23 | in a grouping of digits a character is a space if and only if its position is 4 mod 5 |
| ProcesoPago.ChunkedHasNoDigitRun | miproyecto/src/components/ProcesoPago.jsx:152 | a grouping of digits contains no run of twelve consecutive digits |
| ProcesoPago.FormatCardIdempotent | miproyecto/src/components/ProcesoPago.jsx:18-25 | reformatting a stored card number leaves it unchanged |
| ProcesoPago.MaskWithoutRun | miproyecto/src/components/ProcesoPago.jsx:152 | the twelve-digit mask changes nothing in a string without twelve consecutive digits |
| ProcesoPago.MaskLeavesCardUnchanged | miproyecto/src/components/ProcesoPago.jsx:152 | the masked reference on the success screen is the stored card number unchanged: nothing is hidden |
| ProcesoPago.LastFour | miproyecto/src/components/ProcesoPago.jsx:106 | `slice(-4)` is the suffix of length min(4, n) |
| ProcesoPago.LastFourOfStoredCard | miproyecto/src/components/ProcesoPago.jsx:106 | for a stored card typed with 16 digits or more, the last four characters reported are typed digits 13 to 16 |
| ProcesoPago.LastFourOfPrefix | miproyecto/src/components/ProcesoPago.jsx:106 | the last four characters of the grouping of the first 16 digits are digits 13 to 16 |
| ProcesoPago.LastFourOfGrouping | miproyecto/src/components/ProcesoPago.jsx:106 | the last group of a 16-digit grouping is its last four digits |
| ProcesoPago.FormatExpiryFacts | miproyecto/src/components/ProcesoPago.jsx:29-35 | the stored expiry keeps the first four typed digits and nothing else, has at most 5 characters, holds '/' if and only if three or more digits were typed, and matches MM/AA once four were |
| ProcesoPago.ExpiryOfLong | miproyecto/src/components/ProcesoPago.jsx:30-33 | with three digits or more the stored expiry is two digits, '/', then up to two more digits |
| ProcesoPago.ExpiryOfShort | miproyecto/src/components/ProcesoPago.jsx:30-33 | with fewer than three digits the stored expiry is the digits alone |
| ProcesoPago.KeepDigitsOfSlashed | miproyecto/src/components/ProcesoPago.jsx:31-32 | removing the non-digits from the slashed form gives back the digits |
| ProcesoPago.NoSlashInDigits | miproyecto/src/components/ProcesoPago.jsx:31 | a string of digits holds no '/' |
| ProcesoPago.FormatExpiryIdempotent | miproyecto/src/components/ProcesoPago.jsx:29-35 | reformatting a stored expiry leaves it unchanged |
| ProcesoPago.FormatCvv | miproyecto/src/components/ProcesoPago.jsx:38-43 | the stored CVV is the first min(n, 3) typed digits: all digits, at most 3 |
| ProcesoPago.FormatCvvIdempotent | miproyecto/src/components/ProcesoPago.jsx:38-43 | reformatting a stored CVV leaves it unchanged |
| ProcesoPago.DateYearMonth | miproyecto/src/components/ProcesoPago.jsx:67 | `new Date(year, month)` lands on a calendar month 0..11 with the same month index year * 12 + month |
| ProcesoPago.ExpiredByMonthIndex | miproyecto/src/components/ProcesoPago.jsx:66-74 | once the current month has begun, a card is expired if and only if its month index (2000 + AA) * 12 + MM - 1 is at most the current one |
| ProcesoPago.MonthRollover | miproyecto/src/components/ProcesoPago.jsx:67 | month "00" is December of the year before and month "13" January of the year after |
| ProcesoPago.ValidationError | miproyecto/src/components/ProcesoPago.jsx:48-83 | the checks run in order card length, holder, MM/AA shape, expiry, CVV length; each message appears exactly when the earlier checks pass and its own fails; None if and only if all pass |
| ProcesoPago.FormattedInputPasses | miproyecto/src/components/ProcesoPago.jsx:14-83 | formatters and validator agree: 16 typed card digits, a holder, four expiry digits of a later month and three CVV digits give a form that validates |
| ProcesoPago.StoredCardHasSixteenDigits | miproyecto/src/components/ProcesoPago.jsx:18-25 | 16 typed digits or more leave exactly 16 digits in the stored card number, the length the validator asks for |
| ProcesoPago.StoredExpiryPasses | miproyecto/src/components/ProcesoPago.jsx:29-74 | four typed digits of a later month give a stored expiry that has the MM/AA shape and is not expired |
| ProcesoPago.FormatField | miproyecto/src/components/ProcesoPago.jsx:14-46 | an expiry field stores at most 5 characters, a CVV at most 3, and any other field but the card number stores the typed value |
| ProcesoPago.PaymentScreen.constructor | miproyecto/src/components/ProcesoPago.jsx:5-12 | the form starts with four empty fields, step 1 and no error |
| ProcesoPago.PaymentScreen.HandleInputChange | miproyecto/src/components/ProcesoPago.jsx:14-46 | only the named field changes, to its formatted value |
| ProcesoPago.PaymentScreen.ValidarDatos | miproyecto/src/components/ProcesoPago.jsx:48-83 | answers true if and only if the form validates; the error becomes the first failing message, or "" on success |
| ProcesoPago.PaymentScreen.ProcesarPago | miproyecto/src/components/ProcesoPago.jsx:85-90 | an invalid form stays on step 1 with its message; a valid one moves to step 2 with no error |
| ProcesoPago.PaymentScreen.TerminarPago | miproyecto/src/components/ProcesoPago.jsx:92-113 | on success step 3 and a payment whose reference is its id and whose digits are the card field's last four characters; the failure branch (step 1 with the failure message) is the `catch`, which nothing in the `try` can reach; the form is kept |
| App.ReadStoredUser | miproyecto/src/App.js:97 | an absent or empty 'user' entry is read as `null` (falsy); any other entry is what the parser makes of it |
| App.EffectiveRole | miproyecto/src/App.js:104 | the effective role is `role` when non-empty, otherwise `tipo` |
| App.ProtectedRoute | miproyecto/src/App.js:96-121 | an unparsable entry crashes the gate; no user redirects to "/"; for a required administrador, cliente or recepcionista the children render if and only if the effective role equals it; any other required role lets every user through |
| App.AdminBranchIff | miproyecto/src/App.js:53 | the route table's /admin test picks out exactly "/admin" and the paths below "/admin/" |
| App.GuardAssignment | miproyecto/src/App.js:23-83 | /admin and everything below it need administrador, /operator/dashboard needs recepcionista, /mis-reservas, /confirmacion-reserva and /dashboard need cliente, and every other path has no guard; each as an if and only if |
| App.FallbackRoutes | miproyecto/src/App.js:61-86 | any path outside the table navigates to "/", and the /admin index navigates to /admin/dashboard behind the administrador gate |
| App.NoUserRedirects | miproyecto/src/App.js:97-101 | with no stored user every guarded path ends in a redirect to "/" |
| App.LoginRedirectIsAdmitted | miproyecto/src/App.js:96-121 | the page the login modal sends a user to after login is one the gate lets that user see |
| App.AdminDashboardRoute | miproyecto/src/App.js:53-63 | /admin/dashboard shows the Dashboard page behind the administrador gate |
| App.OperatorDashboardRoute | miproyecto/src/App.js:76-83 | /operator/dashboard shows the operator dashboard behind the recepcionista gate |
| AdminLayout.FindByPath | miproyecto/src/components/AdminLayout.jsx:41 | `find` returns the first item, in menu order, whose id occurs in the path; None if and only if no id occurs |
| AdminLayout.GetActiveSection | miproyecto/src/components/AdminLayout.jsx:39-43 | the active section is always a menu id; it is "dashboard" when no id occurs in the path, and otherwise an id that occurs in it |
| AdminLayout.DashboardComesFirst | miproyecto/src/components/AdminLayout.jsx:30-43 | the dashboard item is listed first, so any path mentioning "dashboard" selects it and is titled "Dashboard" |
| AdminLayout.UnknownPathShowsDashboard | miproyecto/src/components/AdminLayout.jsx:39-43 | a path that mentions no menu id selects the dashboard and shows its title |
| AdminLayout.CaptionOf | miproyecto/src/components/AdminLayout.jsx:117 | the label is found if and only if some item has that id, and it is that item's label |
| AdminLayout.SectionTitle | miproyecto/src/components/AdminLayout.jsx:117 | the header title is the label of the active menu item |
| AdminLayout.Shell.constructor | miproyecto/src/components/AdminLayout.jsx:21 | the sidebar starts open |
| AdminLayout.Shell.ToggleSidebar | miproyecto/src/components/AdminLayout.jsx:26-28 | the sidebar flag flips |
| AdminLayout.Shell.HandleNavigation | miproyecto/src/components/AdminLayout.jsx:46-51 | navigates to the path; the sidebar closes when the window is at most 768 wide, and is unchanged otherwise |
| AdminLayout.Shell.HandleLogout | miproyecto/src/components/AdminLayout.jsx:53-57 | removes 'user' and 'token', keeps every other key, then navigates to /login |
| Header.IrADashboard | miproyecto/src/components/Header.jsx:55-61 | a cliente goes to /dashboard and an administrador to /admin/dashboard, each if and only if; any other user or no user goes nowhere |
| Header.IrADashboardAgreesWithLogin | miproyecto/src/components/Header.jsx:55-61 | where the header has a destination it is the one the login modal sends that role to; a recepcionista has none |
| Header.MiCuentaLeadsToDashboard | miproyecto/src/components/Header.jsx:81-83 | the "Mi Cuenta" button, shown only to a cliente, always leads to /dashboard |
| Header.SiteHeader.constructor | miproyecto/src/components/Header.jsx:8-10 | starts with no user and the modal closed |
| Header.SiteHeader.RestoreSession | miproyecto/src/components/Header.jsx:12-32 | a 'user' entry of "" or "undefined" is removed, and so is one that does not parse, which leaves no user; a user is restored only when a token and a truthy parsed user are both present; nothing else changes |
| Header.SiteHeader.HandleLoginSuccess | miproyecto/src/components/Header.jsx:38-46 | the user is set and the modal closes; a redirect to /dashboard happens if and only if the role is cliente; given no user it throws, after setting it and closing the modal |
| Header.SiteHeader.HandleLogout | miproyecto/src/components/Header.jsx:48-53 | removes 'token' and 'user', keeps every other key, clears the user and navigates to "/" |
| HabitacionesDisponibles.Iniciales | miproyecto/src/components/HabitacionesDisponibles.jsx:10-13 | without a navigation state the initial rooms are `[]`; otherwise they are the state's rooms, possibly not an array |
| HabitacionesDisponibles.DatosBusqueda | miproyecto/src/components/HabitacionesDisponibles.jsx:10-13 | without a navigation state the search is `{}`, so neither date is present; otherwise it is the state's search |
| HabitacionesDisponibles.FromNavigation | miproyecto/src/components/BusquedaReservas.jsx:67-77 | the state the search page navigates with carries its rooms as an array and its dates unchanged |
| HabitacionesDisponibles.CheckRequest | miproyecto/src/components/HabitacionesDisponibles.jsx:33-39 | the re-check is a POST to /api/habitaciones/disponibles carrying entrada, salida, and the adult and child counts as decimal numerals, in that order |
| HabitacionesDisponibles.FirstArray | miproyecto/src/components/HabitacionesDisponibles.jsx:47-57 | the first candidate that is an array wins, and `[]` when none is |
| HabitacionesDisponibles.Normalize | miproyecto/src/components/HabitacionesDisponibles.jsx:45-57 | an ok answer keeps an array unless its body is `null`, where reading a field throws |
| HabitacionesDisponibles.NormalizeIsFirstArray | miproyecto/src/components/HabitacionesDisponibles.jsx:47-57 | the rooms kept are the first array among the body itself, its `data`, and the initial rooms, else `[]` |
| HabitacionesDisponibles.SuccessFlagIrrelevant | miproyecto/src/components/HabitacionesDisponibles.jsx:49-54 | the first and third branches take the same `data`, so the `success` flag never changes the rooms kept |
| HabitacionesDisponibles.NormalizeFallsBack | miproyecto/src/components/HabitacionesDisponibles.jsx:55-57 | an answer without any array falls back to the initial rooms, or `[]` when those are not an array |
| HabitacionesDisponibles.Seguras | miproyecto/src/components/HabitacionesDisponibles.jsx:71 | a state that is not an array counts as no rooms |
| HabitacionesDisponibles.CounterCaption | miproyecto/src/components/HabitacionesDisponibles.jsx:163 | the plural suffixes appear if and only if the count exceeds 1, giving "habitaciónes disponibles" |
| HabitacionesDisponibles.PremiumIsCaseSensitive | miproyecto/src/components/HabitacionesDisponibles.jsx:184 | the PREMIUM badge compares the type as written, so 'Suite' gets none |
| HabitacionesDisponibles.ImageSrc | miproyecto/src/components/HabitacionesDisponibles.jsx:174-179 | the picture is under /images/: the room's image, or the default when it has none or failed to load |
| HabitacionesDisponibles.AvailableRooms.constructor | miproyecto/src/components/HabitacionesDisponibles.jsx:15-18 | starts with no rooms, not loading, the modal closed and no room selected |
| HabitacionesDisponibles.AvailableRooms.VerificarDisponibilidad | miproyecto/src/components/HabitacionesDisponibles.jsx:30-69 | sends the re-check; an ok non-null answer sets the normalised rooms; a failure sets the initial rooms when they are an array and otherwise leaves the state; loading ends false; an array state stays an array |
| HabitacionesDisponibles.AvailableRooms.Mount | miproyecto/src/components/HabitacionesDisponibles.jsx:20-28 | array initial rooms are adopted; the re-check is sent if and only if both dates are present; once sent, an ok readable answer shows its normalised rooms, and any other reply shows the initial rooms when they are an array, else keeps the rooms shown before |
| HabitacionesDisponibles.AvailableRooms.Reservar | miproyecto/src/components/HabitacionesDisponibles.jsx:224-227 | selects the room and opens the booking modal |
| HabitacionesDisponibles.AvailableRooms.OnReservaConfirmada | miproyecto/src/components/HabitacionesDisponibles.jsx:243-247 | a confirmed booking closes the modal and sends the re-check again; an ok readable answer shows its normalised rooms, and any other reply shows the initial rooms when they are an array, else keeps the rooms shown before |
| HabitacionesDisponibles.ArrivalFromSearch | miproyecto/src/components/HabitacionesDisponibles.jsx:20-28 | arriving from the search form with both dates re-checks, starts from the found rooms, and keeps them when the answer holds no array |
| HabitacionesDisponibles.DirectVisitShowsNoRooms | miproyecto/src/components/HabitacionesDisponibles.jsx:10-28 | opened without a state, the page checks nothing and shows the "no rooms" view |
| BusquedaReservas.ParseAdultos | miproyecto/src/components/BusquedaReservas.jsx:157 | the adult count is never 0: a field that does not parse, or parses to 0, gives 1, and any other number is kept |
| BusquedaReservas.ParseNinos | miproyecto/src/components/BusquedaReservas.jsx:181 | a field that does not parse gives 0 children, and any number is kept |
| BusquedaReservas.GuestCountsRoundTrip | miproyecto/src/components/BusquedaReservas.jsx:156-181 | a count shown in a field reads back unchanged, except that 0 adults become 1 |
| BusquedaReservas.SearchForm.constructor | miproyecto/src/components/BusquedaReservas.jsx:6-11 | starts with no dates, 1 adult, 0 children, no error and not loading |
| BusquedaReservas.SearchForm.SetAdultos | miproyecto/src/components/BusquedaReservas.jsx:157 | the adults field stores the parsed count, never 0 |
| BusquedaReservas.SearchForm.SetNinos | miproyecto/src/components/BusquedaReservas.jsx:181 | the children field stores the parsed count |
| BusquedaReservas.SearchForm.HandleBuscar | miproyecto/src/components/BusquedaReservas.jsx:14-84 | a missing date, then a check-out not after check-in (so same-day stays too), sets its message and sends nothing; otherwise the search is sent; an ok non-empty answer navigates with the rooms and the unchanged dates and counts; an empty one sets the no-rooms message; failures show the backend's or the default message |
| MisReservas.CancelOne | miproyecto/src/components/MisReservas.jsx:90-94 | the reservation with the cancelled id becomes cancelada, and reembolsado only when the backend refunds (its payment state is kept otherwise); any other reservation is unchanged; id and dates never change |
| MisReservas.CancelUpdate | miproyecto/src/components/MisReservas.jsx:90-94 | the list keeps its length and order, and each position holds that reservation after the cancellation of the id |
| MisReservas.CancelledCannotBeCancelledAgain | miproyecto/src/components/MisReservas.jsx:191-199 | after the update, no reservation with the cancelled id is offered for cancelling again, whatever the time |
| MisReservas.CancelUpdateIdempotent | miproyecto/src/components/MisReservas.jsx:90-94 | applying the same cancellation twice is applying it once |
| MisReservas.CancelAbsentId | miproyecto/src/components/MisReservas.jsx:90-94 | a cancellation for an id not in the list changes nothing |
| MisReservas.BadgeColor | miproyecto/src/components/MisReservas.jsx:167-175 | the badge is the grey fallback if and only if the state is none of the four known ones |
| MisReservas.Plural | miproyecto/src/components/MisReservas.jsx:249 | the plural suffix appears if and only if the count is not 1 |
| MisReservas.RefundNoteAfterCancel | miproyecto/src/components/MisReservas.jsx:342 | after the cancellation the refund note shows if and only if the backend refunded or the payment was already reembolsado |
| MisReservas.MyBookings.constructor | miproyecto/src/components/MisReservas.jsx:5-8 | starts with an empty e-mail, no reservations, not loading and no error |
| MisReservas.MyBookings.ListOrNoResults | miproyecto/src/components/MisReservas.jsx:246-357 | the list and the "no results" note are never shown together, and with an e-mail typed and nothing loading one of them is |
| MisReservas.MyBookings.SetEmail | miproyecto/src/components/MisReservas.jsx:218-219 | the typed text becomes the e-mail searched for |
| MisReservas.MyBookings.Search | miproyecto/src/components/MisReservas.jsx:22-55 | for the e-mail its closure sees: an empty one sets its message and sends nothing; otherwise a successful answer replaces the list and clears the error, a failed one keeps the list and sets the connection, backend or default message; loading ends false |
| MisReservas.MyBookings.BuscarReservas | miproyecto/src/components/MisReservas.jsx:22-55 | an empty e-mail sets its message and sends nothing; otherwise a successful answer replaces the list and clears the error, a failed one keeps the list and sets the backend's or the default message; loading ends false |
| MisReservas.MyBookings.MountAsWritten | miproyecto/src/components/MisReservas.jsx:10-20 | with a stored e-mail the field takes it, but the delayed search uses the e-mail of the render before, so it is sent if and only if that one was not empty; from "" it only asks for an e-mail; without a stored e-mail nothing changes |
| MisReservas.MyBookings.MountIntended | miproyecto/src/components/MisReservas.jsx:10-20 | with a stored e-mail the field takes it and that e-mail is searched for, with the outcome of a search; without one nothing changes |
| MisReservas.SignedInVisitAsWritten | miproyecto/src/components/MisReservas.jsx:5-20 | a signed-in guest opening the page sees their e-mail, no reservations and "Por favor ingresa tu email", and nothing is sent, whatever the backend holds |
| MisReservas.SignedInVisitIntended | miproyecto/src/components/MisReservas.jsx:5-20 | the intended visit sends the search for the guest's e-mail and shows the answer's reservations, or an error and no reservations |
| MisReservas.MyBookings.CancelarReserva | miproyecto/src/components/MisReservas.jsx:57-105 | the request is sent if and only if the user confirms; only a successful answer applies the cancel update, with the answer's refund flag; otherwise the list is unchanged |
| DashboardUsuario.BadgeText | miproyecto/src/components/DashboardUsuario.jsx:190-198 | a known state shows a fixed label of capital letters of the same length; any other state shows its raw text |
| DashboardUsuario.BadgeColor | miproyecto/src/components/DashboardUsuario.jsx:190-198 | the badge is grey if and only if the state is unknown |
| DashboardUsuario.KnownLabelsAreCapitals | miproyecto/src/components/DashboardUsuario.jsx:192-195 | each fixed label is its state written in capitals, letter by letter |
| DashboardUsuario.Plural | miproyecto/src/components/DashboardUsuario.jsx:324 | the plural suffix appears if and only if the count exceeds 1 |
| DashboardUsuario.PluralAgreesWithMisReservas | miproyecto/src/components/DashboardUsuario.jsx:324 | for every count the heading is shown for (at least 1), the `> 1` test agrees with the `!== 1` test of the bookings page |
| DashboardUsuario.UserDashboard.constructor | miproyecto/src/components/DashboardUsuario.jsx:20-23 | starts with no user, no reservations, and loading |
| DashboardUsuario.UserDashboard.Mount | miproyecto/src/components/DashboardUsuario.jsx:26-34 | without a stored user it navigates to "/" and requests nothing; otherwise it keeps the user and requests the reservations |
| DashboardUsuario.UserDashboard.CargarReservas | miproyecto/src/components/DashboardUsuario.jsx:36-61 | only an ok answer with success replaces the list; loading ends false either way |
| DashboardUsuario.UserDashboard.CancelarReserva | miproyecto/src/components/DashboardUsuario.jsx:63-90 | the request is sent if and only if the user confirms, and the list is reloaded if and only if the answer reports success, whatever its HTTP status |
| DashboardUsuario.UserDashboard.HandleCerrarSesion | miproyecto/src/components/DashboardUsuario.jsx:172-176 | removes 'user' and 'token', keeps every other key, and navigates to "/" |
| ModalReserva.PaymentRequest | miproyecto/src/components/ModalReserva.jsx:101-111 | the payment is a POST to /api/pagos/procesar whose card number has all whitespace removed |
| ModalReserva.BookingModal.constructor | miproyecto/src/components/ModalReserva.jsx:11-23 | the modal starts at step 1 with eight empty fields and not loading |
| ModalReserva.BookingModal.ProgressShowsStep | miproyecto/src/components/ModalReserva.jsx:199-209 | progress step 1 is always highlighted, and step 3 if and only if the modal is at step 3 |
| ModalReserva.BookingModal.HandleInputChange | miproyecto/src/components/ModalReserva.jsx:27-32 | only the named field changes |
| ModalReserva.BookingModal.HandleSubmitDatos | miproyecto/src/components/ModalReserva.jsx:56-85 | the e-mail check runs if and only if nombre, apellido, email and telefono are all non-empty (nacionalidad is optional); the modal moves to step 2 unless a field is missing or the e-mail is known and the user declines; a failed check counts as unknown; loading ends false |
| ModalReserva.BookingModal.Volver | miproyecto/src/components/ModalReserva.jsx:364-368 | "Volver" returns to step 1 |
| ModalReserva.BookingModal.ProcesarPago | miproyecto/src/components/ModalReserva.jsx:87-174 | the payment is sent if and only if tarjeta, vencimiento and cvv are all present; the reservation is created only after a successful payment; step 3 is reached if and only if both report success; every failure stays at step 2; the form is kept |
| Habitaciones.Filtrar | miproyecto/src/pages/Admin/Habitaciones.jsx:368-372 | the filter keeps exactly the rooms whose numero, nombre or tipo contains the filter, ignoring case |
| Habitaciones.FiltrarKeepsOrder | miproyecto/src/pages/Admin/Habitaciones.jsx:368-372 | filtering a concatenation concatenates the results, so the kept rooms keep their order |
| Habitaciones.EmptyFilterKeepsAll | miproyecto/src/pages/Admin/Habitaciones.jsx:368-372 | an empty filter keeps every room |
| Habitaciones.FilterIgnoresCase | miproyecto/src/pages/Admin/Habitaciones.jsx:368-372 | a filter and its lower-cased form keep the same rooms |
| Habitaciones.EstadoColor | miproyecto/src/pages/Admin/Habitaciones.jsx:375-383 | disponible has one of two colours depending on active reservations; ocupada and mantenimiento have fixed colours; any other state has the default |
| Habitaciones.CardColor | miproyecto/src/pages/Admin/Habitaciones.jsx:502 | an available room shows the reserved colour if and only if it has active reservations |
| Habitaciones.EstadoRequest | miproyecto/src/pages/Admin/Habitaciones.jsx:287-301 | 'ocupada' is refused before any request, and if and only if so; any other state is sent unchanged with PATCH /api/habitaciones/{id}/estado |
| Habitaciones.SaveRequest | miproyecto/src/pages/Admin/Habitaciones.jsx:227-246 | a request is made if and only if numero, nombre and descripcion are filled in; editing uses PUT /api/habitaciones/{id}, creating uses POST /api/habitaciones |
| Habitaciones.EditForm | miproyecto/src/pages/Admin/Habitaciones.jsx:173-186 | the edit form has the new-room form's fields, copies the room, and a missing image becomes 'doble1.jpg' |
| Habitaciones.NewFormNotSavable | miproyecto/src/pages/Admin/Habitaciones.jsx:158-171 | the new-room form cannot be saved as it opens, because its numero is empty |
| Habitaciones.RoomEditor.constructor | miproyecto/src/pages/Admin/Habitaciones.jsx:158-171 | starts with the new-room form, no room being edited and the modal closed |
| Habitaciones.RoomEditor.AbrirModalNueva | miproyecto/src/pages/Admin/Habitaciones.jsx:158-171 | resets the form to the new-room defaults, edits nothing, and opens the modal |
| Habitaciones.RoomEditor.AbrirModalEditar | miproyecto/src/pages/Admin/Habitaciones.jsx:173-186 | fills the form from the room, remembers it as edited, and opens the modal |
| Habitaciones.RoomEditor.HandleChange | miproyecto/src/pages/Admin/Habitaciones.jsx:219-224 | only the named field changes |
| Habitaciones.RoomEditor.GuardarHabitacion | miproyecto/src/pages/Admin/Habitaciones.jsx:227-261 | sends the save request when allowed; a successful answer closes the modal and forgets the edited room; anything else leaves both as they were |
| Habitaciones.CambiarMes | miproyecto/src/pages/Admin/Habitaciones.jsx:350-365 | without a calendar or room nothing is requested, and if and only if so; the request is for the shown room: the shown month plus the step when that stays in 1..12, January of the next year past December, December of the year before below January |
| Habitaciones.StepByOneMonth | miproyecto/src/pages/Admin/Habitaciones.jsx:353-364 | a step of one month keeps the month in 1..12 and changes year * 12 + month by exactly the step, wrapping 12 to 1 and 1 to 12 |
| Habitaciones.NextThenPrevious | miproyecto/src/pages/Admin/Habitaciones.jsx:353-364 | going forward a month and back again returns to the month shown |
| MensajesContacto.Transitions | miproyecto/src/pages/Operador/MensajesContacto.jsx:285-307 | a resolved inquiry offers no change, and only it; every other status offers resuelto; en_proceso is offered if and only if the status is pendiente |
| MensajesContacto.TransitionsMoveForward | miproyecto/src/pages/Operador/MensajesContacto.jsx:285-307 | every offered change moves a known status strictly forward: pendiente, en_proceso, resuelto |
| MensajesContacto.RunsAreShort | miproyecto/src/pages/Operador/MensajesContacto.jsx:285-307 | a chain of offered changes from a known status is at most 3 minus its rank long, and each later status is further along |
| MensajesContacto.Badge | miproyecto/src/pages/Operador/MensajesContacto.jsx:163-189 | en_proceso and resuelto have their own badges; any other status, known or not, is shown as Pendiente |
| MensajesContacto.GetEstadisticas | miproyecto/src/pages/Operador/MensajesContacto.jsx:191-198 | the total is the list's length, and pendientes + enProceso + resueltas never exceed it |
| MensajesContacto.AddingInquiryCountsItsStatus | miproyecto/src/pages/Operador/MensajesContacto.jsx:191-198 | one more inquiry raises the total by one, and exactly the counter of its own status by one |
| MensajesContacto.UnknownStatusBadgedButNotCounted | miproyecto/src/pages/Operador/MensajesContacto.jsx:163-198 | an inquiry with a status outside the three wears the Pendiente badge but is not counted among the pending ones |
| MensajesContacto.Preview | miproyecto/src/pages/Operador/MensajesContacto.jsx:279-282 | a message of at most 100 characters is shown unchanged; a longer one as its first 100 characters and "..."; never more than 103 |
| MensajesContacto.Loaded | miproyecto/src/pages/Operador/MensajesContacto.jsx:26-44 | an ok answer gives its `consultas`, or [] when it carries none; a failed request gives [] |
| MensajesContacto.WithoutId | miproyecto/src/pages/Operador/MensajesContacto.jsx:71 | deleting an id keeps exactly the inquiries with another id |
| MensajesContacto.WithoutIdKeepsOrder | miproyecto/src/pages/Operador/MensajesContacto.jsx:71 | deleting distributes over concatenation, so what remains keeps its order |
| MensajesContacto.WithoutAbsentId | miproyecto/src/pages/Operador/MensajesContacto.jsx:71 | deleting an id no inquiry has changes nothing |
| MensajesContacto.Inbox.constructor | miproyecto/src/pages/Operador/MensajesContacto.jsx:16-18 | starts with no inquiries, none open and an empty reply |
| MensajesContacto.Inbox.EliminarConsulta | miproyecto/src/pages/Operador/MensajesContacto.jsx:56-87 | after the confirmation and an ok answer the inquiries with that id leave the list, and if the open one had it, the panel and the reply are cleared; otherwise nothing changes |
| MensajesContacto.Inbox.HandleResponder | miproyecto/src/pages/Operador/MensajesContacto.jsx:98-125 | the reply is sent if and only if it is not blank and an inquiry is open; an ok answer reloads the list and clears the reply and the panel; otherwise nothing changes |
| MensajesContacto.Inbox.CambiarEstadoConsulta | miproyecto/src/pages/Operador/MensajesContacto.jsx:127-151 | an ok answer reloads the list, and only when the open inquiry has that id does its status change, to the new one; a failure changes nothing |
| Consultas.Endpoint | miproyecto/src/pages/Admin/Consultas.jsx:30-49 | exactly the five known query types have an endpoint, each /api/consultas/ followed by the type; any other type has none |
| Consultas.EndpointsDistinct | miproyecto/src/pages/Admin/Consultas.jsx:30-49 | two different query types never share an endpoint |
| Consultas.QueryParams | miproyecto/src/pages/Admin/Consultas.jsx:25-33 | the query string starts with both dates, and the room is added if and only if the query is reservations by date and a room is given |
| Consultas.OcupacionClass | miproyecto/src/pages/Admin/Consultas.jsx:206 | an occupancy above 70 is alto, above 30 medio, and bajo otherwise |
| Consultas.ReservasClass | miproyecto/src/pages/Admin/Consultas.jsx:332 | a share of reservations above 15 is alto, above 5 medio, and bajo otherwise |
| Consultas.PercentClassMonotone | miproyecto/src/pages/Admin/Consultas.jsx:206 | a larger percentage never gets a lower class |
| Consultas.FechaShown | miproyecto/src/pages/Admin/Consultas.jsx:83-85 | a missing or empty date is shown as N/A; any other date goes to the formatter |
| Consultas.MontoShown | miproyecto/src/pages/Admin/Consultas.jsx:96-101 | an amount is formatted if and only if it is a number, zero included |
| Consultas.ZeroIsFormatted | miproyecto/src/pages/Admin/Consultas.jsx:97 | zero is formatted as an amount, while a missing value or NaN shows N/A |
| Consultas.HttpErrorAsWritten | miproyecto/src/pages/Admin/Consultas.jsx:55-63 | as written, every failed status shows "Error status: statusText", whatever the backend sent |
| Consultas.HttpError | miproyecto/src/pages/Admin/Consultas.jsx:56-60 | the intended message shows the backend's error when the body is JSON with a non-empty one, and the status line otherwise |
| Consultas.BackendErrorLost | miproyecto/src/pages/Admin/Consultas.jsx:55-63 | a 400 answer whose body explains "Fecha inválida" shows that text in the intended handler but only "Error 400: Bad Request" as written |
| Consultas.AsWrittenAgreesWithoutMessage | miproyecto/src/pages/Admin/Consultas.jsx:55-63 | the handler as written and the intended one agree if and only if the backend sends no usable message, or one equal to the status line |
| Consultas.QueryPage.constructor | miproyecto/src/pages/Admin/Consultas.jsx:5-11 | the page opens on reservations by date, with empty filters, no results and no error |
| Consultas.QueryPage.EjecutarConsulta | miproyecto/src/pages/Admin/Consultas.jsx:13-80 | without both dates only the error is set; otherwise a request is made if and only if the type is known, to its endpoint with its query string; only an ok answer reporting success sets the results; every failure clears them and is reported with the common prefix, a failed status always as "Error status: statusText" whatever the backend's body says |
| Consultas.QueryPage.CambiarTipo | miproyecto/src/pages/Admin/Consultas.jsx:369-373 | choosing another query type clears the results and the error |
| Consultas.QueryPage.LimpiarFiltros | miproyecto/src/pages/Admin/Consultas.jsx:104-110 | the dates, the room, the results and the error are reset and the query type stays |
| Reportes.PeriodoParam | miproyecto/src/pages/Admin/Reportes.jsx:52 | the chosen period is sent only for the sales report; every other report asks for mensual |
| Reportes.TieneDatosShape | miproyecto/src/pages/Admin/Reportes.jsx:351-354 | only the three known report types can have something to draw, the sales report only from an array and the others only from an object; a nationality report with data draws at least one slice |
| Reportes.TopNacionalidades | miproyecto/src/pages/Admin/Reportes.jsx:205 | the pie shows the first six nationalities in order, or all of them when there are fewer |
| Reportes.SliceColor | miproyecto/src/pages/Admin/Reportes.jsx:226 | slice i is coloured with the palette's colour i modulo 6 |
| Reportes.SlicesHaveDistinctColors | miproyecto/src/pages/Admin/Reportes.jsx:205-226 | no two slices of the pie share a colour |
| Reportes.ReportRequest | miproyecto/src/pages/Admin/Reportes.jsx:50-59 | the report is requested from /api/reportes/ followed by its type, with the period, the start date and the end date |
| Reportes.ReportPage.constructor | miproyecto/src/pages/Admin/Reportes.jsx:9-16 | the page opens on the monthly sales report with no data, no statistics and no error |
| Reportes.ReportPage.GenerarReporte | miproyecto/src/pages/Admin/Reportes.jsx:34-81 | a request is made if and only if both dates are set and the start is not after the end, with a message for each refusal; only an ok answer reporting success sets the data and the statistics; every failure is reported with the common prefix and the backend's error or a fallback |
| Reportes.ReportPage.CambiarTipo | miproyecto/src/pages/Admin/Reportes.jsx:407-412 | choosing another report type drops the data and the error |
| Usuarios.CalcularEdad | miproyecto/src/pages/Admin/Usuarios.jsx:239-249 | a missing birth date gives N/A; otherwise the age is the number of birthdays reached by today: the birthday of that year is not after today and the next one is |
| Usuarios.Age | miproyecto/src/pages/Admin/Usuarios.jsx:243-248 | the age is a count of birthdays: the k-th anniversary is not after today and the (k+1)-th is |
| Usuarios.AgeNonNegative | miproyecto/src/pages/Admin/Usuarios.jsx:243-248 | anyone born no later than today has an age of at least 0 |
| Usuarios.AgeUnique | miproyecto/src/pages/Admin/Usuarios.jsx:243-248 | only one number of years satisfies the birthday condition, so the age is determined by the two dates |
| Usuarios.EmptyEmployee | miproyecto/src/pages/Admin/Usuarios.jsx:177-190 | the blank form has the ten employee fields, puesto and role recepcionista, today's hiring date, and "" everywhere else |
| Usuarios.EditForm | miproyecto/src/pages/Admin/Usuarios.jsx:193-208 | the edit form holds the employee's values with an empty password, and recepcionista as the role when the employee has none |
| Usuarios.EditFormHasRoleNoPassword | miproyecto/src/pages/Admin/Usuarios.jsx:204-205 | an edit form never shows a password and always has a role |
| Usuarios.PasswordRequiredOnlyForNewLogins | miproyecto/src/pages/Admin/Usuarios.jsx:581 | the password is required only when creating, and never while the username is blank |
| Usuarios.EmployeeAdmin.constructor | miproyecto/src/pages/Admin/Usuarios.jsx:10-26 | the page opens with the blank form, nobody being edited, the modal closed and no error |
| Usuarios.EmployeeAdmin.HandleInputChange | miproyecto/src/pages/Admin/Usuarios.jsx:94-100 | only the named field of the form changes, and the form keeps all its fields |
| Usuarios.EmployeeAdmin.ResetForm | miproyecto/src/pages/Admin/Usuarios.jsx:177-190 | the form becomes the blank one |
| Usuarios.EmployeeAdmin.AbrirEditarModal | miproyecto/src/pages/Admin/Usuarios.jsx:193-208 | the employee is being edited, the form is its edit form, and the modal is open |
| Usuarios.EmployeeAdmin.CerrarModal | miproyecto/src/pages/Admin/Usuarios.jsx:211-215 | the modal closes, nobody is being edited, and the form becomes the blank one |
| Usuarios.EmployeeAdmin.HandleCrearEmpleado | miproyecto/src/pages/Admin/Usuarios.jsx:103-127 | the list reloads if and only if the answer reports success, which also closes the modal and blanks the form; otherwise the backend's error, or the failure with its prefix, is shown and the form and the modal are kept |
| Usuarios.EmployeeAdmin.HandleActualizarEmpleado | miproyecto/src/pages/Admin/Usuarios.jsx:129-153 | the PUT goes to the edited employee's address; success closes the modal, ends editing and blanks the form; any failure keeps all three and shows its error |
| Usuarios.EmployeeAdmin.HandleEliminarEmpleado | miproyecto/src/pages/Admin/Usuarios.jsx:156-174 | a DELETE is sent to the employee's address if and only if the user confirms; the list reloads only on success, and otherwise the error is shown |
| SeccionHabitaciones.ToggleFlipsMembership | miproyecto/src/components/SeccionHabitaciones.jsx:130-134 | toggling makes an id a favourite if and only if it was not one |
| SeccionHabitaciones.ToggleKeepsOthers | miproyecto/src/components/SeccionHabitaciones.jsx:130-134 | toggling leaves every other favourite in place and in order |
| SeccionHabitaciones.ToggleTwiceRestores | miproyecto/src/components/SeccionHabitaciones.jsx:130-134 | toggling an id that is not a favourite twice gives back exactly the same list |
| SeccionHabitaciones.ToggleKeepsDistinct | miproyecto/src/components/SeccionHabitaciones.jsx:130-134 | toggling never creates a duplicate favourite |
| SeccionHabitaciones.ObtenerImagen | miproyecto/src/components/SeccionHabitaciones.jsx:146-170 | a missing picture gives the type's default under /images/ (suitel.jpg for an unknown type); an http address is kept; any other path is put under /images/ unless it is already there |
| SeccionHabitaciones.ImageIsLocalOrRemote | miproyecto/src/components/SeccionHabitaciones.jsx:146-170 | every picture address starts with /images/ or http |
| SeccionHabitaciones.ObtenerImagenIdempotent | miproyecto/src/components/SeccionHabitaciones.jsx:146-170 | normalising an address twice gives the same as normalising it once |
| SeccionHabitaciones.FallbackImage | miproyecto/src/components/SeccionHabitaciones.jsx:206-211 | a picture that fails to load is replaced by suitel.jpg for suites and doble1.jpg for every other type |
| SeccionHabitaciones.Showcase.constructor | miproyecto/src/components/SeccionHabitaciones.jsx:8 | the carousel starts with no favourites |
| SeccionHabitaciones.Showcase.ToggleFavorito | miproyecto/src/components/SeccionHabitaciones.jsx:130-134 | the favourites become the toggled list, the id's membership flips, and a list without duplicates stays that way |
| SeccionActividades.GetImageSource | miproyecto/src/components/SeccionActividades.jsx:63-77 | an activity whose picture failed shows the placeholder named after its title; otherwise an http address is kept, a non-empty path without a leading / gets one, and anything else is kept as is |
| SeccionActividades.ImageSourceSettles | miproyecto/src/components/SeccionActividades.jsx:63-77 | a non-empty picture without an error ends up rooted at / or remote, and normalising it again changes nothing |
| SeccionActividades.Activas | miproyecto/src/components/SeccionActividades.jsx:92 | the activities shown are active ones from the list, and every active activity is shown |
| SeccionActividades.PlaceholderIffNoneActive | miproyecto/src/components/SeccionActividades.jsx:92-105 | the coming-soon section replaces the grid if and only if no activity is active |
| SeccionActividades.Cards | miproyecto/src/components/SeccionActividades.jsx:116-125 | one card per active activity, in order, the i-th numbered i + 1 |
| SeccionActividades.ActivitiesSection.constructor | miproyecto/src/components/SeccionActividades.jsx:8 | no picture has failed at the start |
| SeccionActividades.ActivitiesSection.HandleImageError | miproyecto/src/components/SeccionActividades.jsx:56-61 | only that activity's error flag is set; every other flag stays as it was |
| SeccionActividades.ErrorAffectsOnlyThatActivity | miproyecto/src/components/SeccionActividades.jsx:56-77 | after a load error that activity shows the placeholder, and every other activity shows the same picture as before |
| GestionReservas.Cargar | miproyecto/src/pages/Operador/GestionReservas.jsx:12-37 | an ok answer gives its data, or [] without any; another status keeps the current list; a failed request shows the page's sample list |
| GestionReservas.Filtradas | miproyecto/src/pages/Operador/GestionReservas.jsx:39-42 | a filter other than todas keeps only reservations with that status, and every reservation that passes is kept |
| GestionReservas.TodasKeepsAll | miproyecto/src/pages/Operador/GestionReservas.jsx:39-42 | the filter todas shows every reservation, unchanged and in order |
| GestionReservas.FiltradasKeepOrder | miproyecto/src/pages/Operador/GestionReservas.jsx:39-42 | filtering distributes over concatenation, so the kept reservations keep their order |
| GestionReservas.Contar | miproyecto/src/pages/Operador/GestionReservas.jsx:72-85 | the total is the number of reservations; each counter is at most the total, and pending plus confirmed never exceed it |
| GestionReservas.PendientesMatchFilter | miproyecto/src/pages/Operador/GestionReservas.jsx:39-76 | the pending counter equals the length of the list under the pendiente filter |
| GestionReservas.ConfirmedFilterHasNoActions | miproyecto/src/pages/Operador/GestionReservas.jsx:131-140 | under the confirmada filter no card offers the confirm and cancel buttons |
| GestionReservas.EmptyNote | miproyecto/src/pages/Operador/GestionReservas.jsx:146-150 | the note appears if and only if the filtered list is empty, and names the filter unless it is todas |
| GestionPagos.Pendientes | miproyecto/src/pages/Operador/GestionPagos.jsx:35 | the pending list holds exactly the reservations whose payment is pendiente |
| GestionPagos.Historial | miproyecto/src/pages/Operador/GestionPagos.jsx:36 | the history holds exactly the reservations whose payment is not pendiente |
| GestionPagos.FailedLoadShowsOnlyHistory | miproyecto/src/pages/Operador/GestionPagos.jsx:11-36 | when loading fails nothing awaits payment, and the one sample payment is in the history |
| GestionPagos.PendientesHistorialPartition | miproyecto/src/pages/Operador/GestionPagos.jsx:35-36 | the two lists are disjoint, together hold every reservation as often as it occurs, and their lengths add up to the total |
| GestionPagos.PartitionKeepsOrder | miproyecto/src/pages/Operador/GestionPagos.jsx:35-36 | both lists keep the original order |
| GestionPagos.PendingSectionShown | miproyecto/src/pages/Operador/GestionPagos.jsx:47 | the pending section lists cards if and only if some reservation awaits payment |
| GestionPagos.PagoIdShown | miproyecto/src/pages/Operador/GestionPagos.jsx:96 | a missing payment id shows N/A and any other is shown as is |
| GestionPagos.BeforeT | miproyecto/src/pages/Operador/GestionPagos.jsx:100 | the result is the longest prefix without a T: it is followed by a T or is the whole text |
| GestionPagos.BeforeTOfTimestamp | miproyecto/src/pages/Operador/GestionPagos.jsx:100 | an ISO timestamp shows exactly its date part |
| GestionPagos.FechaShown | miproyecto/src/pages/Operador/GestionPagos.jsx:100 | a missing date, or one with nothing before its T, shows N/A; otherwise the text before the first T, which is never empty and has no T |
| DashboardOperator.RoomStats | miproyecto/src/pages/Operador/DashboardOperator.jsx:38-51 | the total is the number of rooms, the three state counters never add up to more, and today's reservations and income are the fixed 3 and 1548 |
| DashboardOperator.StatsCoverKnownStates | miproyecto/src/pages/Operador/DashboardOperator.jsx:39-42 | when every room has one of the three states, the three counters add up to the total |
| DashboardOperator.AddingRoomCountsItsState | miproyecto/src/pages/Operador/DashboardOperator.jsx:39-42 | one more room raises the total by one, and exactly the counter of its own state by one |
| DashboardOperator.RenderSeccion | miproyecto/src/pages/Operador/DashboardOperator.jsx:67-80 | reservas, pagos and mensajes show their own panels, and every other key shows the map |
| DashboardOperator.OperatorDashboard.constructor | miproyecto/src/pages/Operador/DashboardOperator.jsx:19-27 | the dashboard opens on the map with every counter at zero |
| DashboardOperator.OperatorDashboard.SetSeccion | miproyecto/src/pages/Operador/DashboardOperator.jsx:110-134 | the chosen section becomes the active one |
| DashboardOperator.OperatorDashboard.CargarEstadisticas | miproyecto/src/pages/Operador/DashboardOperator.jsx:34-65 | an ok answer gives its rooms' counters, another status changes nothing, and a failed request shows the fixed fallback figures |
| DashboardOperator.OperatorDashboard.HandleLogout | miproyecto/src/pages/Operador/DashboardOperator.jsx:82-85 | only user is removed from storage, the token stays, and the browser goes to / |

## Left out

- Network, timers and randomness are not modelled. Each `fetch` is replaced by its reply as a parameter. The payment screen's simulated delay (`setTimeout`) is reduced to its before and after steps. The bookings page's 100 ms delay before its first search is reduced to that search running right after the e-mail is set, with the closure it was created in. The payment id and date, built from `Date.now()` and `Math.random()`, are parameters.
- Money is not computed. `calcularTotal` (price × nights, `toFixed(2)`) and the `monto` it puts into the booking and payment requests are floating point and are not modelled, nor is the `Intl.NumberFormat` currency text. Amounts are carried as `real` where a view only passes them on or compares them.
- Date text is not parsed. `new Date(text)`, time zones and `toLocaleDateString` are out of scope. Dates enter the model as instants (integer milliseconds) or as calendar dates chosen by the caller, and a formatted date is represented by the text it is formatted from.
- `JSON.parse` and `JSON.stringify` are not modelled. What parsing a stored text gives is a function parameter (`App.ReadStoredUser`, the header's session restore).
- URL encoding is not modelled. `encodeURIComponent` is a parameter, and query strings made with `URLSearchParams` are ordered pairs of key and value, without percent-encoding.
- `Text.ParseInt` reads base ten only: the `0x` prefix that `parseInt` also accepts is not modelled.
- String length counts Unicode code points, not UTF-16 units, so `substring(0, 100)` and `.length` differ from JavaScript on characters outside the Basic Multilingual Plane.
- `Text.ToLower` folds ASCII letters only.
- React's state batching and re-rendering, `alert`, and `console` logging are left out. A handler's setter calls are applied in order to the object's fields.
- The `content-type` test before `response.json()`, and a body that is not JSON, are represented by the `Thrown` reply: in both cases the source throws inside its `try`.
- CSS, inline styles, icons, JSX markup and the `recharts` charts are left out. Only the decisions behind them are modelled: colours, labels, which panel or section is shown, and the card numbering.
- `ProcesoPago.FormatCardIsGrouping`: the grouping, shape, idempotence and masking lemmas about the card formatter hold for input made of digits and whitespace, which is what the card field receives. The formatter itself is modelled for any input.
- `LoginModal.LoginForm.HandleLoginSubmit`: when a successful login carries no `user`, the message shown is the text V8 gives its `TypeError` (`MsgNoUserRole`). Other engines word that message differently.
- `AdminLayout.GetActiveSection`: it is not proved that every menu item's own path selects that item. The first-match rule is stated for any path; `DashboardComesFirst` and `UnknownPathShowsDashboard` are its consequences.
- `BusquedaReservas.SearchForm.HandleBuscar`: the reply's payload is a sequence of rooms. An ok answer whose JSON is not an array is not modelled; in the source its `length` is `undefined`, which is neither 0 nor used as a count.
- `HabitacionesDisponibles.AvailableRooms.VerificarDisponibilidad` does not model three pieces of display text: the guests caption with its plural endings (HabitacionesDisponibles.jsx:136-139), the "persona(s)" caption (line 207), and the upper-cased and capitalised room type (lines 182 and 211).
- The client loaders (`cargarEmpleados`, `cargarClientes`) and the search box on the users page, and `cargarActividades` with its built-in sample activities, only fetch a list and store it. They are not modelled.
- The route table matches paths exactly: React Router's case-insensitive matching and its treatment of a trailing slash are not modelled.
- The context and service modules, and the pages that only render (hero, history, services, contact form, floating help button, room map, hotel profile, admin dashboard, activities admin, booking confirmation), are not part of this model.

## Findings

| source | as written | input that shows it | evidently intended | confidence | as-written member | corrected member |
|---|---|---|---|---|---|---|
| miproyecto/src/pages/Admin/Consultas.jsx:55-63 | on a failed status, the error built from the backend's JSON `error` is thrown inside a `try` whose own `catch` replaces it, so the page always shows "Error status: statusText" | a 400 answer with body `{"error": "Fecha inválida"}` shows "Error al ejecutar la consulta: Error 400: Bad Request" | the backend's `error` is shown when the body carries one, as the comment and the inner `throw` intend | not executed | Consultas.HttpErrorAsWritten, Consultas.BackendErrorLost, Consultas.QueryPage.EjecutarConsulta | Consultas.HttpError |
| miproyecto/src/components/MisReservas.jsx:10-20 | the mount effect sets the stored user's e-mail and, 100 ms later, calls the `buscarReservas` of the first render, whose closure still holds the empty e-mail, so its guard fires | a signed-in guest with e-mail "ana@hotel.com" opens the page: it shows "Por favor ingresa tu email" and no request is sent | the stored user's reservations are loaded, as the comment on the delay says | not executed | MisReservas.MyBookings.MountAsWritten, MisReservas.SignedInVisitAsWritten | MisReservas.MyBookings.MountIntended, MisReservas.SignedInVisitIntended |
