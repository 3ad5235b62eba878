# Frota Viva — a verified model of the fleet dashboard's logic

Frota Viva is a React dashboard for a truck fleet's maintenance. This project models in Dafny the parts of it whose
behaviour can be stated once the clock, the network and the foreign SDKs (Firebase, Cloudinary's upload endpoint)
are abstracted away, and proves what that code promises:

- **Maintenance analytics and the mock fallback** (`src/Utils/ManipuladorApi.js`), in `ManipuladorApi.dfy`:
  - the scheduled/concluded split and the cost total;
  - the grouping by service type and the vehicle with most maintenances, both built by a loop into a plain JS object;
  - the response classification and the fixture values every read and write falls back on;
  - the date formatting, the overdue test and the current-month filter.
- **Image upload checks and transformation URLs** (`src/Utils/CloudinaryManager.js`), in `Cloudinary.dfy`.
- **The application shell's navigation state** (`src/App.jsx`), in `App.dfy`.
- **The Monday-first month calendar** shared by `src/components/Vehicles.jsx` and `src/components/Dashboard.jsx`,
  in `Calendar.dfy`. The two screens' state is in `Vehicles.dfy` (the mock fleet and the scheduling modal) and
  `Dashboard.dfy` (the cell markers and the month change).
- **Sign-up and password checks**:
  - `src/components/Cadastro.jsx`, in `Cadastro.dfy`;
  - the wrappers of `src/firebase/config.js`, in `FirebaseConfig.dfy`;
  - the profile page's defaults and edit form (`src/components/ProfilePage.jsx`), in `ProfilePage.dfy`.

`Js.dfy` holds the JavaScript semantics the code above relies on:
- truthiness and `||`;
- `filter` and `find`;
- `String(n)` and `padStart`;
- plain-object property keys with their enumeration order: integer-like keys ascending, then the other keys in
  insertion order;
- object spread;
- `includes`, `split` and `toLowerCase`.

React components whose state the handlers update are classes whose methods change exactly the fields their handler
sets. Pure helpers are functions. The two dictionary-building loops are methods with loop invariants, proved equal
to fold functions about which the grouping properties are proved as lemmas. An awaited call's result (a fetch
outcome, whether an SDK call returned or threw, how a registration settled) and the clock's current date are
parameters.

## Model

| member | source | states |
|---|---|---|
| Js.Filter | src/Utils/ManipuladorApi.js:280 | `filter` keeps exactly the elements satisfying the predicate and never grows the list |
| Js.FilterIsSubsequence | src/Utils/ManipuladorApi.js:280 | a filtered list keeps the input's order (it is a subsequence of it) |
| Js.FilterPartition | src/Utils/ManipuladorApi.js:279-286 | filtering by a predicate and by its negation splits the input: the two multisets add up to it and so do the lengths |
| Js.FilterCounts | src/Utils/ManipuladorApi.js:367-373 | `filter` keeps every copy of a kept element and no copy of a dropped one |
| Js.Find | src/Utils/ManipuladorApi.js:270 | `find` yields a value iff some element matches, and then the first matching one |
| Js.NatToString | src/Utils/ManipuladorApi.js:297 | `String(n)` is a canonical decimal numeral, starting with '0' only for zero |
| Js.ParseNatToString | src/Utils/ManipuladorApi.js:297 | reading back the decimal numeral of n gives n |
| Js.NatToStringParseNat | src/Utils/ManipuladorApi.js:297 | every canonical numeral is the numeral of the number it denotes |
| Js.PadStart2TwoDigits | src/Utils/ManipuladorApi.js:297-298 | `String(n).padStart(2,'0')` of a number below 100 has two digits and still denotes n |
| Js.KeyOfString | src/Utils/ManipuladorApi.js:326 | a string used as an object key is a valid property key (integer-like up to 2^32-2, or a name) |
| Js.KeyOfStringRoundTrip | src/Utils/ManipuladorApi.js:326-328 | a key read back as a string is the string it was made from |
| Js.KeyOfStringInjective | src/Utils/ManipuladorApi.js:326 | different strings index different properties |
| Js.KeyOfNumberIsKeyOfItsString | src/Utils/ManipuladorApi.js:345-346 | a numeric id indexes the same property as its decimal string |
| Js.InsertKey | src/Utils/ManipuladorApi.js:327 | a new property joins the key order in place: integer keys ascending, a name at the end |
| Js.Set | src/Utils/ManipuladorApi.js:327-336 | assigning a property updates its value; an existing key keeps its place, a new one is added to the key order |
| Js.SetTwice | src/Utils/ManipuladorApi.js:334-336 | assigning a property twice equals assigning the second value |
| Js.Values | src/Utils/ManipuladorApi.js:338 | `Object.values` lists each property's value in key order |
| Js.AssignKeysValues | src/Utils/CloudinaryManager.js:202 | copying properties gives the copied keys the source's values and leaves the others untouched |
| Js.AssignKeysOrder | src/Utils/CloudinaryManager.js:202 | copying properties appends only the keys the target lacked, in the source's order |
| Js.SpreadNamedKeys | src/Utils/CloudinaryManager.js:202 | for named keys, `{...a, ...b}` has b's values over a's, a's keys in place and b's new keys appended |
| Js.IncludesMeansOccurs | src/components/Cadastro.jsx:51-59 | `s.includes(t)` holds iff t occurs at some position of s |
| Js.Split | src/components/ProfilePage.jsx:261 | `split(c)` yields at least one piece and no piece contains c |
| Js.SplitJoin | src/components/ProfilePage.jsx:261 | joining the pieces of `split(c)` with c gives the string back |
| Js.SplitFirstPiece | src/components/ProfilePage.jsx:261 | the first piece of `split(c)` is the prefix before the first c, or the whole string |
| Js.ToLowerCase | src/Utils/CloudinaryManager.js:119 | lower-casing keeps the length and maps every character through the ASCII lower-case table |
| ManipuladorApi.MarcadasConcluidasPartition | src/Utils/ManipuladorApi.js:279-286 | scheduled (`dataConclusao === null`) and concluded records partition the input, each in input order; a missing date counts as concluded |
| ManipuladorApi.GastoTotalAppend | src/Utils/ManipuladorApi.js:289-291 | the total of two lists concatenated is the sum of their totals |
| ManipuladorApi.GastoTotalOfMultiset | src/Utils/ManipuladorApi.js:289-291 | the total depends only on which records are present, not on their order |
| ManipuladorApi.GastoTotalPartition | src/Utils/ManipuladorApi.js:279-291 | the scheduled total plus the concluded total is the overall total |
| ManipuladorApi.GastoTotalFixtures | src/Utils/ManipuladorApi.js:45-78 | the empty list totals 0 and the four fixtures total 2900 |
| ManipuladorApi.AcumulaTipo | src/Utils/ManipuladorApi.js:324-337 | one step of the grouping keeps the object well formed |
| ManipuladorApi.GruposPorTipo | src/Utils/ManipuladorApi.js:322-337 | the grouping of a whole list is a well-formed object |
| ManipuladorApi.AcumulaTipoEntry | src/Utils/ManipuladorApi.js:324-337 | after a step, the record's type has a group equal to the group of all records so far with that type |
| ManipuladorApi.GruposPorTipoContents | src/Utils/ManipuladorApi.js:322-337 | the object has a group exactly for each type that occurs, and that group holds the records of that type |
| ManipuladorApi.DuasEscritasTipo | src/Utils/ManipuladorApi.js:326-336 | creating a missing group and then adding the record to it is one step of the fold |
| ManipuladorApi.ContarPorTipo | src/Utils/ManipuladorApi.js:323-337 | the `forEach` loop builds exactly the fold's object |
| ManipuladorApi.RegistraTipo | src/Utils/ManipuladorApi.js:325-336 | one iteration's body (create the group if absent, add cost, count and record) is one fold step |
| ManipuladorApi.AgruparGastosPorTipo | src/Utils/ManipuladorApi.js:322-339 | the result is the groups' values in the object's key order |
| ManipuladorApi.AgruparGastosPorTipoSomas | src/Utils/ManipuladorApi.js:322-339 | the groups' counts add up to the number of records and their totals to `calcularGastoTotal` of the input |
| ManipuladorApi.TipoKeyMatches | src/Utils/ManipuladorApi.js:325 | two records share a group iff their types (`descServico` or 'Outros') are equal |
| ManipuladorApi.GrupoDeContents | src/Utils/ManipuladorApi.js:327-336 | a group carries its type, the records of that type in input order, their count and their total cost |
| ManipuladorApi.AgruparGastosPorTipoGroups | src/Utils/ManipuladorApi.js:322-339 | every returned group is the group of its type |
| ManipuladorApi.AgruparGastosPorTipoOnePerType | src/Utils/ManipuladorApi.js:322-339 | there is one group per type that occurs, no two groups share a type, and each occurring type has a group |
| ManipuladorApi.InheritedTypeNameThrows | src/Utils/ManipuladorApi.js:326-336 | as written, a record whose type is "constructor" makes the grouping throw |
| ManipuladorApi.AsWrittenAgreesOffPrototypeNames | src/Utils/ManipuladorApi.js:322-339 | when no type names an inherited property, the code as written returns the corrected grouping |
| ManipuladorApi.AcumulaVeiculo | src/Utils/ManipuladorApi.js:344-356 | one step of the per-vehicle count keeps the object well formed |
| ManipuladorApi.DuasEscritasVeiculo | src/Utils/ManipuladorApi.js:346-355 | creating a missing entry and then counting the record is one step of the fold |
| ManipuladorApi.VeiculosPorId | src/Utils/ManipuladorApi.js:343-356 | the per-vehicle object of a whole list is well formed |
| ManipuladorApi.AcumulaVeiculoEntry | src/Utils/ManipuladorApi.js:344-356 | after a step, the record's vehicle has the entry of all records so far for that vehicle |
| ManipuladorApi.VeiculosPorIdContents | src/Utils/ManipuladorApi.js:343-356 | there is an entry exactly for each vehicle id that occurs; it holds the first record's plate, the count and the total cost |
| ManipuladorApi.MaisProblemas | src/Utils/ManipuladorApi.js:361 | the reduce picks an entry with the largest count, and the first such: every earlier entry has strictly fewer |
| ManipuladorApi.ContarPorVeiculo | src/Utils/ManipuladorApi.js:343-356 | the `forEach` loop builds exactly the fold's object |
| ManipuladorApi.RegistraVeiculo | src/Utils/ManipuladorApi.js:345-355 | one iteration's body is one fold step |
| ManipuladorApi.ReduzMaximo | src/Utils/ManipuladorApi.js:361 | the reduce loop returns the first entry of largest count |
| ManipuladorApi.GetVeiculoMaisProblemas | src/Utils/ManipuladorApi.js:342-362 | the function returns the specified vehicle, or null |
| ManipuladorApi.VeiculoMaisProblemasNone | src/Utils/ManipuladorApi.js:358-359 | the result is null exactly for an empty input |
| ManipuladorApi.VeiculoMaisProblemasIsFirstMaximum | src/Utils/ManipuladorApi.js:342-362 | the result's count is at least every vehicle's count, and it is the first vehicle in key order with that count |
| ManipuladorApi.AcumulaVeiculoAsWritten | src/Utils/ManipuladorApi.js:345-355 | as written, a record whose vehicle id names an inherited `Object.prototype` member leaves the object's own entries unchanged |
| ManipuladorApi.VeiculosPorIdAsWritten | src/Utils/ManipuladorApi.js:343-356 | the per-vehicle object as written is well formed |
| ManipuladorApi.AsWrittenSkipsInheritedIds | src/Utils/ManipuladorApi.js:343-362 | as written, the count and the result are those of the corrected count over the records whose vehicle id is not an inherited name |
| ManipuladorApi.VeiculoMaisProblemasAsWrittenNone | src/Utils/ManipuladorApi.js:358-359 | as written, the result is null exactly when every record's vehicle id is an inherited name (so also for an empty input) |
| ManipuladorApi.InheritedVehicleIdIsDropped | src/Utils/ManipuladorApi.js:346 | as written, a single record of truck "constructor" gives null, where the corrected count returns that truck |
| ManipuladorApi.VeiculoAsWrittenAgreesOffPrototypeNames | src/Utils/ManipuladorApi.js:342-362 | when no vehicle id names an inherited member, the code as written builds the corrected object and returns the corrected result |
| ManipuladorApi.EntradaDeVeiculo | src/Utils/ManipuladorApi.js:358 | each listed entry is the entry of a vehicle that occurs in the input |
| ManipuladorApi.FalsyIdIsDesconhecido | src/Utils/ManipuladorApi.js:345 | a missing truck or a falsy id is counted under 'Desconhecido' |
| ManipuladorApi.HandleResponse | src/Utils/ManipuladorApi.js:9-15 | an ok response yields its parsed body; any other response is rejected with a non-empty message |
| ManipuladorApi.HandleResponseFailure | src/Utils/ManipuladorApi.js:10-13 | a failed response is rejected with its body text, or with 'HTTP error! status: N' when the text is empty or unreadable |
| ManipuladorApi.RequestOutcome | src/Utils/ManipuladorApi.js:18-41 | a request succeeds iff the server answered ok with a parsable body, and then with that body; an abort is reported as 'Tempo de requisição excedido' |
| ManipuladorApi.ReadsFallBackOnFixtures | src/Utils/ManipuladorApi.js:127-154 | a read returns the server's data when the request succeeds and the fixtures (filtered by truck where it filters) when it fails |
| ManipuladorApi.FilterMockManutencoes | src/Utils/ManipuladorApi.js:45-78 | filtering the maintenance fixtures is decided record by record |
| ManipuladorApi.ManutencoesCaminhaoFixtures | src/Utils/ManipuladorApi.js:133-136 | when the request fails, truck id 1 gets exactly the fixtures with ids 1 and 3, in order |
| ManipuladorApi.ManutencoesCaminhaoStrictId | src/Utils/ManipuladorApi.js:135 | the fallback compares ids strictly: the string '1' matches no fixture |
| ManipuladorApi.AlertasCaminhaoFixtures | src/Utils/ManipuladorApi.js:236-238 | when the request fails, the alert fallback for truck 1 is its one alert, and the string '1' matches none |
| ManipuladorApi.CaminhaoPorIdFixtures | src/Utils/ManipuladorApi.js:266-270 | when the request fails, the lookup returns the first fixture with that id (truck 2), or null (truck 4), and never rejects |
| ManipuladorApi.WritesFallBack | src/Utils/ManipuladorApi.js:157-227 | a failed create returns the payload with a fresh id; update returns it with the given id; create-alert also sets `caminhaoId`; the payload's keys keep their order and `id`, then `caminhaoId`, are appended only when absent; delete returns `{success: true}` |
| ManipuladorApi.FormatarDataRoundTrip | src/Utils/ManipuladorApi.js:294-310 | `dd/mm` has five characters, `dd/mm/yyyy` extends it with the year, and reading `dd/mm/yyyy` back gives the date |
| ManipuladorApi.AtrasadaMeansEightDays | src/Utils/ManipuladorApi.js:313-319 | a record is overdue iff it is not concluded and at least eight whole days have passed since it started |
| ManipuladorApi.MissingDateIsConcludedAndOverdue | src/Utils/ManipuladorApi.js:284-319 | a record without `dataConclusao` but with a valid start date (1 January 1970, instant 0) is listed as concluded yet reported overdue eight days later |
| ManipuladorApi.GetManutencoesMesAtual | src/Utils/ManipuladorApi.js:365-374 | the result keeps, in input order, exactly the records that started in the current month and year, each as many times as it occurs in the input |
| Cloudinary.CloudinaryManager.constructor | src/Utils/CloudinaryManager.js:4-12 | the manager keeps the cloud name, upload preset and API key it is given |
| Cloudinary.CloudinaryManager.UploadImage | src/Utils/CloudinaryManager.js:21-101 | the checks run in order (configuration, file, type, size), the first that fails alone is reported, and only a passing file is sent, to the account's upload URL with the six form entries in order: the file, the preset, the cloud name, `quality` and `fetch_format` `auto`, and the folder `profile_pictures` |
| Cloudinary.CloudinaryManager.GetTransformedUrl | src/Utils/CloudinaryManager.js:187-210 | the URL is empty exactly when the cloud name or the public id is missing or empty |
| Cloudinary.OnXhrEvent | src/Utils/CloudinaryManager.js:67-95 | only a load with status 200 can report success; every event invokes exactly one callback |
| Cloudinary.OnLoad | src/Utils/CloudinaryManager.js:67-87 | success iff status 200 with a truthy `secure_url`, and then with that URL; a 200 whose JSON lacks it reports the invalid-response message, a 200 whose body does not parse (or is null) the processing message; any other status reports the body's truthy `error.message`, else the upload-failed message, or "Erro HTTP: " and the status when the body does not parse; every non-200 message is non-empty |
| Cloudinary.OnLoadReportsStatus | src/Utils/CloudinaryManager.js:83-84 | a failed upload whose body does not parse reports a message that starts "Erro HTTP: " and from which the status reads back |
| Cloudinary.HttpErrorMessageCarriesStatus | src/Utils/CloudinaryManager.js:84 | 'Erro HTTP: ' is followed by the status, which reads back as the status |
| Cloudinary.IsValidImageFileExactly | src/Utils/CloudinaryManager.js:109-120 | a file is accepted iff its lower-cased type is `image/` followed by one of jpeg, jpg, png, gif, webp, bmp, tiff |
| Cloudinary.IsValidImageFileIgnoresCase | src/Utils/CloudinaryManager.js:119 | the type check does not depend on letter case |
| Cloudinary.UploadSizeBoundInclusive | src/Utils/CloudinaryManager.js:38-43 | a valid file of exactly 10 MiB is sent and one byte more is rejected as too large |
| Cloudinary.DefaultTransformsValid | src/Utils/CloudinaryManager.js:193-200 | the default transformations form a well-formed object |
| Cloudinary.FinalTransforms | src/Utils/CloudinaryManager.js:202 | merging the overrides into the defaults gives a well-formed object |
| Cloudinary.Entries | src/Utils/CloudinaryManager.js:204-206 | there is one `key_value` entry per key, in key order |
| Cloudinary.SpreadDefaults | src/Utils/CloudinaryManager.js:202 | spreading the defaults into an empty object gives the defaults |
| Cloudinary.SpreadIntoEmpty | src/Utils/CloudinaryManager.js:202 | spreading an object of named keys into an empty one copies it |
| Cloudinary.FinalTransformsOverride | src/Utils/CloudinaryManager.js:202-207 | the merged keys are the six defaults in place followed by the new override keys in their order; override values win |
| Cloudinary.OverrideEntry | src/Utils/CloudinaryManager.js:202-207 | the i-th default entry keeps its position and takes the override's value when there is one |
| Cloudinary.NoOverrides | src/Utils/CloudinaryManager.js:202 | with no overrides the merged transformations are the defaults |
| Cloudinary.DefaultEntries | src/Utils/CloudinaryManager.js:204-206 | the default entries read width_200, height_200, crop_fill, gravity_face, quality_auto, format_auto |
| Cloudinary.DefaultUrl | src/Utils/CloudinaryManager.js:187-209 | with no overrides the URL is `.../image/upload/width_200,height_200,crop_fill,gravity_face,quality_auto,format_auto/<publicId>` |
| App.Pages | src/App.jsx:57-65 | at most one page renders, exactly one iff the page key is one of the five the app knows, with the user on the profile page and the selected delivery on the routes page |
| App.StepKeepsInv | src/App.jsx:21-59 | every handler preserves the shell's invariant: a known page, no user outside the app, splash only initially |
| App.RunKeepsInv | src/App.jsx:15-59 | every run of user actions from a state satisfying the invariant keeps it |
| App.ReachableRendersOnePage | src/App.jsx:57-65 | in every reachable state of the app exactly one page renders under the header |
| App.TelaTransitions | src/App.jsx:45-55 | splash goes only to login (on complete); login goes to the app (a login) or the sign-up; sign-up goes back to login (back or signed up); the app leaves only by logout |
| App.LoginLogout | src/App.jsx:21-33 | a login enters the app with the result's user and keeps the page; a logout right after restores the login state |
| App.App.constructor | src/App.jsx:16-19 | the shell starts on the splash screen, on 'relatorios', with no user and no delivery |
| App.App.HandleLogin | src/App.jsx:21-24 | the user becomes the result's user and the app screen shows; page and delivery are unchanged |
| App.App.HandleCadastro | src/App.jsx:26-28 | a completed sign-up returns to the login screen |
| App.App.HandleLogout | src/App.jsx:30-33 | the user is dropped and the login screen shows; the page is kept |
| App.App.HandleViewRoute | src/App.jsx:35-38 | the delivery is stored and the routes page shows |
| App.App.HandleBackFromRotas | src/App.jsx:40-43 | the deliveries page shows and the delivery is cleared |
| App.App.SplashComplete | src/App.jsx:46 | the splash screen hands over to the login screen |
| App.App.NavigateToCadastro | src/App.jsx:50 | the login screen hands over to the sign-up screen |
| App.App.Voltar | src/App.jsx:54 | the sign-up screen's back button returns to login |
| App.App.Navigate | src/App.jsx:59 | the header's link sets the page |
| Calendar.DaysInMonth | src/components/Vehicles.jsx:48 | a month has 28 to 31 days; February has 28 in common years and 29 in leap years, and no other month has fewer than 30 |
| Calendar.DayOfWeek | src/components/Vehicles.jsx:47 | the weekday is in 0..6 |
| Calendar.NextMonthStartsAfterDaysInMonth | src/components/Vehicles.jsx:47-48 | the next month starts `daysInMonth` weekdays after this one, across a year end too |
| Calendar.GetMonthDataRanges | src/components/Vehicles.jsx:44-52 | the Monday-first weekday of the 1st is in 0..6 and the month has its Gregorian length, 28 to 31 |
| Calendar.ValidCellsUnderTheirWeekday | src/components/Vehicles.jsx:252-259 | every day shown in a cell falls on the weekday of that cell's column (Monday first) |
| Calendar.ValidCellCountIs | src/components/Vehicles.jsx:257-259 | among the first n cells, the number showing a day is min(daysInMonth, n - firstDay) |
| Calendar.ShownDays | src/components/Vehicles.jsx:257-259 | the 35 cells show min(daysInMonth, 35 - firstDay) days, consecutive and increasing, and every later day of the month has no cell |
| Calendar.AllDaysFitSixWeeks | src/components/Vehicles.jsx:257 | a grid of 42 cells would show every day of every month |
| Calendar.March2025LosesItsLastDay | src/components/Vehicles.jsx:257-259 | March 2025 starts on a Saturday, so its 35 cells show only 30 of its 31 days |
| Calendar.MonthLabelDistinguishes | src/components/Dashboard.jsx:30 | two months with the same `month, year` label are the same month |
| Calendar.SetMonth | src/components/Dashboard.jsx:24 | `setMonth` yields a valid date |
| Calendar.ChangeMonth | src/components/Dashboard.jsx:21-27 | the month change as written yields a valid date |
| Calendar.ChangeMonthAsWritten | src/components/Dashboard.jsx:21-27 | as written, the month moves by the direction when the day fits the target month and one month further when it does not |
| Calendar.ChangeMonthSkipsFebruary | src/components/Dashboard.jsx:24 | as written, ► from 31 January 2025 lands on 3 March 2025 |
| Calendar.ChangeMonthClamped | src/components/Dashboard.jsx:21-27 | corrected: the month moves by exactly the direction, across years, and the day is clamped to the target month's length |
| Vehicles.MockVehicles | src/components/Vehicles.jsx:23-41 | the fleet has twelve vehicles, the i-th generated by the formulas |
| Vehicles.PlateEncodesId | src/components/Vehicles.jsx:25 | each plate is 'XYZ-' followed by digits reading 999 + id |
| Vehicles.MockFleetDistinct | src/components/Vehicles.jsx:24-25 | the twelve vehicles have distinct ids and distinct plates |
| Vehicles.StatusByIndex | src/components/Vehicles.jsx:28 | a generated vehicle is 'Inativo' iff its index is a multiple of 4, and 'Ativo' otherwise |
| Vehicles.MockFleetShape | src/components/Vehicles.jsx:23-41 | ids 1..12, 'Inativo' iff id % 4 == 1, years 2020..2024, a driver from the list, three history entries |
| Vehicles.WithField | src/components/Vehicles.jsx:287-359 | each of the five form inputs sets exactly its own field and leaves the other four as they were |
| Vehicles.SelectedCellIsUnique | src/components/Vehicles.jsx:260 | at most one cell is marked selected, and the selected day is a day of the month |
| Vehicles.VehiclesScreen.constructor | src/components/Vehicles.jsx:5-15 | the screen opens on today's month with no vehicle, no modal, no day and the empty form |
| Vehicles.VehiclesScreen.HandleViewVehicle | src/components/Vehicles.jsx:65-67 | the vehicle is selected and nothing else changes |
| Vehicles.VehiclesScreen.HandleCloseModal | src/components/Vehicles.jsx:69-71 | the vehicle is deselected and nothing else changes |
| Vehicles.VehiclesScreen.HandleAgendarManutencao | src/components/Vehicles.jsx:73-75 | the scheduling modal opens and nothing else changes |
| Vehicles.VehiclesScreen.HandleCloseAgendamento | src/components/Vehicles.jsx:77-88 | the modal closes, the day is cleared, the calendar returns to today and the form is reset to blank fields with priority 'media'; the vehicle stays |
| Vehicles.VehiclesScreen.HandleSubmitAgendamento | src/components/Vehicles.jsx:90-96 | the alert names the vehicle's plate; afterwards both modals are closed, no vehicle is selected and the form is reset |
| Vehicles.VehiclesScreen.ChangeMonth | src/components/Vehicles.jsx:54-60 | the calendar moves by exactly the direction in months (corrected change) and nothing else changes |
| Vehicles.VehiclesScreen.SelectCell | src/components/Vehicles.jsx:271-272 | a click on a cell showing a day selects that day, and the cell is then the selected one; other clicks change nothing |
| Vehicles.VehiclesScreen.SetAgendamentoField | src/components/Vehicles.jsx:287-359 | a form input updates that field of the form and nothing else on the screen |
| Dashboard.Grid | src/components/Dashboard.jsx:51-71 | the grid has 35 cells, each classified by its index |
| Dashboard.CellMarkers | src/components/Dashboard.jsx:52-61 | a cell is never both done and pending; a blank cell carries no marker; a marked cell shows a marked day; today's cell shows today's date in today's month |
| Dashboard.CellOfDayShowsIt | src/components/Dashboard.jsx:52-53 | each of the days 1..28 has a cell among the 35, which shows it |
| Dashboard.MarkedCellsEveryMonth | src/components/Dashboard.jsx:60-61 | in every month exactly the cells of days 7, 8 and 14 are done and those of days 23 and 28 pending |
| Dashboard.TodayMarked | src/components/Dashboard.jsx:54-57 | some cell is marked today iff the shown month is today's month and today's day has a cell |
| Dashboard.TodayIsOneCell | src/components/Dashboard.jsx:54-57 | at most one cell is marked today |
| Dashboard.DashboardScreen.constructor | src/components/Dashboard.jsx:4 | the dashboard opens on today's date |
| Dashboard.DashboardScreen.ChangeMonth | src/components/Dashboard.jsx:21-27 | the shown month moves by exactly the direction (corrected change) |
| Dashboard.ChangeMonthChangesLabel | src/components/Dashboard.jsx:29-30 | a non-zero month change always changes the header label |
| FirebaseConfig.Performed | src/firebase/config.js:40-57 | the calls that run are a prefix of the awaited calls |
| FirebaseConfig.FirstThrownIsFirst | src/firebase/config.js:63-68 | nothing is thrown iff every call returned; otherwise the message is that of a call whose predecessors all returned |
| FirebaseConfig.WrappedNeverThrows | src/firebase/config.js:30-35 | a wrapper returns its success value iff every call returned, else a failure carrying a thrown message; no error escapes |
| FirebaseConfig.PerformedStopsAtThrow | src/firebase/config.js:39-68 | the calls stop right after the first that throws, and all run when none does |
| FirebaseConfig.LoginWithEmailAndPassword | src/firebase/config.js:23-36 | one sign-in call; success iff it returned, otherwise the thrown message |
| FirebaseConfig.EmpresaDocOf | src/firebase/config.js:48-57 | the stored document holds the email argument, the creation time, and `complemento` or '' when it is missing or empty |
| FirebaseConfig.RegisterUser | src/firebase/config.js:39-69 | the account is created first; success iff all three calls (create, name, store) ran and returned; otherwise the failure carries the message of the first call that threw |
| FirebaseConfig.RegisterStoresOnlyAfterAccount | src/firebase/config.js:41-57 | the company document is stored only after the account was created and named, and then it is the form's document |
| FirebaseConfig.PasswordErrorCases | src/firebase/config.js:137-149 | the checks accept exactly a matching pair of six or more characters; a mismatch is reported before the length |
| FirebaseConfig.UpdateUserPassword | src/firebase/config.js:135-163 | a failed check returns its message without any call; otherwise one update call, with success and 'Senha atualizada com sucesso!' iff it returned, and the thrown message when it threw |
| FirebaseConfig.PasswordChangedOnlyWhenValid | src/firebase/config.js:137-156 | the password is only ever changed to the new one, and only when it matches and has at least six characters |
| Cadastro.Dados.With | src/components/Cadastro.jsx:68-70 | the named field takes the value; every other field is unchanged |
| Cadastro.ErrorMessageByFirstCode | src/components/Cadastro.jsx:51-59 | the message is chosen by the first code present, in the order email-in-use, invalid-email, weak-password; with none, the generic message |
| Cadastro.ErrorMessagesDistinct | src/components/Cadastro.jsx:51-59 | the message is never blank, and two errors get the same message iff they select the same case |
| Cadastro.CadastroForm.constructor | src/components/Cadastro.jsx:6-18 | the form starts idle, with no error and every field empty |
| Cadastro.CadastroForm.HandleChange | src/components/Cadastro.jsx:68-70 | that field changes and nothing else |
| Cadastro.CadastroForm.BeginSubmit | src/components/Cadastro.jsx:20-45 | a failed password check shows its message and ends the submit idle; otherwise the form is busy, without error, and the registration request carries the form |
| Cadastro.CadastroForm.FinishSubmit | src/components/Cadastro.jsx:47-65 | the form is idle afterwards; it reports the sign-up iff registration succeeded, otherwise it shows the mapped message (the generic one for a thrown error) |
| Cadastro.CadastroForm.HandleSubmit | src/components/Cadastro.jsx:20-66 | on every path the form ends idle; a sign-up happens exactly when the passwords pass both checks and the request succeeds, and only with a matching password of at least six characters; a failed check leaves its own message, a failed request its mapped or generic message |
| Cadastro.StoredDocumentIsTheForm | src/firebase/config.js:48-57 | the document a sign-up stores holds exactly the form's details and its email |
| ProfilePage.UserDataOf | src/components/ProfilePage.jsx:240-245 | each shown field is the user's own when truthy and its fixed default otherwise; the password is always the mask |
| ProfilePage.FirstNameIsPrefixBeforeSpace | src/components/ProfilePage.jsx:261 | the greeting is the name up to its first space, or the whole name |
| ProfilePage.FirstNameUpToSpace | src/components/ProfilePage.jsx:261 | a name whose first space is at k greets with its first k characters |
| ProfilePage.DefaultGreeting | src/components/ProfilePage.jsx:261 | the default user is greeted as "Ronaldo" |
| ProfilePage.FormData.With | src/components/ProfilePage.jsx:43-45 | the named field takes the value; every other field is unchanged |
| ProfilePage.InputsFor | src/components/ProfilePage.jsx:67-131 | the password inputs show iff 'senha' is selected, and some input shows iff one of the four options is selected |
| ProfilePage.EditDetailsModal.constructor | src/components/ProfilePage.jsx:30-37 | the form copies name, email and phone and starts with both password fields empty and nothing selected |
| ProfilePage.EditDetailsModal.HandleFieldChange | src/components/ProfilePage.jsx:39-41 | the selection changes and the form does not |
| ProfilePage.EditDetailsModal.HandleInputChange | src/components/ProfilePage.jsx:43-45 | that field of the form changes and nothing else |

## Left out

- Network and timers in `src/Utils/ManipuladorApi.js`: `fetch`, the `AbortController` and its 10 s timer, and the header merging (18-41). A request is an outcome given as a parameter: a response, a timeout or a failure. The token lifecycle, a response cache and retries do not exist in this code and are not modelled.
- The mock flag `USE_MOCK_DATA` is the constant `true` it is in the code.
- The `console.log`/`console.error` calls and the `alert` boxes. The scheduling alert's text is returned by `Vehicles.VehiclesScreen.HandleSubmitAgendamento`; the sign-up alert (src/components/Cadastro.jsx:48) is not shown, and its occasion is the `cadastrado` result of `Cadastro.CadastroForm.FinishSubmit` and `Cadastro.CadastroForm.HandleSubmit`.
- Clock and time zone: `new Date()` is a parameter, and `new Date(dataString)` parsing is a given function from the string to a calendar date. `Date.now()` ids are parameters too.
- `ManipuladorApi.AtrasadaMeansEightDays`: the clock's reading and the instant `new Date(dataInicio)` stands for are given as milliseconds; an Invalid Date is None.
- Floating point: costs are `real`. The `toLocaleString` formatting of mileage and cost in `src/components/Vehicles.jsx` is left out.
- Lengths count characters, not UTF-16 code units.
- JSON values other than strings, numbers, booleans, null and undefined are left out.
- The XHR itself in `src/Utils/CloudinaryManager.js`: sending the request, upload progress and `onProgress` (55-65), the 60 s timeout value (97), the timeout and network-error listeners' wiring (89-95), and `FormData` internals. A callback that throws inside the `load` handler's `try` would reach the `catch` and report a second error; this is not modelled.
- `Cloudinary.CloudinaryManager.GetTransformedUrl`: proved only for the empty-result condition in general; the full URL is proved for the default transformations (`Cloudinary.DefaultUrl`) and per entry under overrides (`Cloudinary.OverrideEntry`). Overrides must have named (non-integer) keys: integer-like keys would be reordered by the object, and they do not occur in the code's use.
- `resizeImage` (canvas scaling, 130-179) is floating point and DOM work and is left out.
- The constructor's `console.error` for a missing configuration is left out; a missing configuration is reported by `uploadImage`.
- Firebase: the SDK calls are not modelled. Each awaited call is recorded, and whether it returned or threw is a parameter.
- `updateUserName`, `updateUserEmail`, `updateUserPhone` and `updateUserPhoto` (72-187 of `src/firebase/config.js`) use the same `try`/`catch` wrapping shown by `FirebaseConfig.WrappedNeverThrows`; their SDK calls are not modelled one by one.
- `src/Utils/Login.js` and the login screen are foreign calls.
- UI only, left out: JSX markup and CSS, the splash screen's 4 s timer, `src/components/Deliveries.jsx`, the header's rendering, the routes map (`src/components/Rotas.jsx`) and the Power BI page (`src/components/BI.jsx`).
- `Dashboard.TodayMarked`: assumes the current year is after 99. `new Date(y, m, d)` maps years 0 to 99 to 1900 to 1999, which only the grid's own date is subject to.
- `Dashboard.ChangeMonthChangesLabel`: stated for years 0 and later, where the label's year text is a plain numeral.
- `Calendar.ChangeMonth` and `Calendar.ChangeMonthClamped`: model `setMonth` on calendar components; the time of day is not modelled.
- `ManipuladorApi.VeiculosPorIdContents`, `ManipuladorApi.ContarPorVeiculo`, `ManipuladorApi.RegistraVeiculo`, `ManipuladorApi.GetVeiculoMaisProblemas`, `ManipuladorApi.VeiculoMaisProblemasNone` and `ManipuladorApi.VeiculoMaisProblemasIsFirstMaximum`: state the corrected count, whose lookup sees only the object's own entries; the code as written, which skips vehicle ids that name inherited `Object.prototype` members, is `ManipuladorApi.VeiculoMaisProblemasAsWritten` (see Findings).
- `ManipuladorApi.VeiculoMaisProblemasAsWritten`: the writes the skipped records make onto the inherited member are not modelled, nor is the pollution of `Object.prototype` an id `"__proto__"` causes (its `quantidade` and `custoTotal` become properties of every object).
- `Dashboard.DashboardScreen.ChangeMonth` and `Vehicles.VehiclesScreen.ChangeMonth`: carry the corrected month change (`Calendar.ChangeMonthClamped`); the handler as written is `Calendar.ChangeMonth`, whose skipped month is shown in Findings.
- `Js.JsValue` numbers are integers: fractional and NaN ids are not modelled. `Js.ToLowerCase` maps ASCII letters only, which covers the MIME types the upload whitelist compares against.
- `App.Enabled`: logout is taken to be possible on every main-screen state; `onLogout` is passed to the header and the profile page, but no component shown here calls it.
- `Dashboard.Grid` and `Calendar.ShownDays`: keep the 35-cell grid as written, so the day cells and markers are the screen's own; the six-week grid that shows every day is stated only by `Calendar.AllDaysFitSixWeeks` (see Findings).
- `Calendar.DayOfWeek`: proved only to be in range here; it agrees with the next month's start by `Calendar.NextMonthStartsAfterDaysInMonth` and with the grid's columns by `Calendar.ValidCellsUnderTheirWeekday`.

## Findings

| source | as written | input that shows it | evidently intended | confidence | as-written member | corrected member |
|---|---|---|---|---|---|---|
| src/components/Dashboard.jsx:21-27 (the same code is in src/components/Vehicles.jsx:54-60) | `changeMonth` calls `setMonth(month + direction)` on a copy of the current date, which keeps the day of the month; when that day does not exist in the target month the date rolls over into the following month | current date 31 January 2025, ► : the calendar shows March 2025 (3 March), skipping February | move by exactly `direction` months, e.g. by clamping the day to the target month's length or setting the day to 1 | not executed | Calendar.ChangeMonthSkipsFebruary | Calendar.ChangeMonthClamped |
| src/Utils/ManipuladorApi.js:326 | `if (!grupos[tipo])` looks the type up on a plain `{}` object, so a type that names an inherited `Object.prototype` property is taken as an existing group and `grupos[tipo].manutencoes.push(m)` throws | one maintenance with `descServico: "constructor"` | a fresh group for every type, e.g. an `Object.create(null)` object, a `Map`, or a `hasOwnProperty` test | not executed | ManipuladorApi.InheritedTypeNameThrows | ManipuladorApi.AgruparGastosPorTipo |
| src/Utils/ManipuladorApi.js:346 | `if (!veiculos[veiculoId])` looks the vehicle id up on a plain `{}` object, so an id that names an inherited `Object.prototype` member creates no entry; the two `+=` land on the inherited member and `Object.values` never sees the record | one maintenance whose `caminhao.id` is `"constructor"`: the function returns null instead of that truck | one entry per vehicle id, e.g. an `Object.create(null)` object, a `Map`, or a `hasOwnProperty` test | not executed | ManipuladorApi.InheritedVehicleIdIsDropped | ManipuladorApi.GetVeiculoMaisProblemas |
| src/components/Vehicles.jsx:257 (the same grid is at src/components/Dashboard.jsx:51) | the calendar renders `Array.from({length: 35})` cells, five weeks, with day 1 in its Monday-first column; a month that starts late in the week and has enough days needs a sixth week, and its last days get no cell | March 2025, which starts on a Saturday: the grid shows days 1 to 30 and never 31 | enough cells for six weeks (42), or as many as `firstDay + daysInMonth` needs | not executed | Calendar.March2025LosesItsLastDay | Calendar.AllDaysFitSixWeeks |
