# SunWEG client core, modelled in Dafny

This project models the core of the `sunweg` Python client for the SunWEG solar
monitoring service, and proves properties of that model. It covers these parts:

- **Vendor readings and statuses.** `separate_value_metric` splits a reading such
  as `"0,2 kW"` into a value and a unit. `convert_situation_status` maps a string's
  situation code to a status. `Status(n)` is the direct construction by ordinal.
- **Response sorting.** `_treat_response` turns a response into a `LoginError`, a
  `SunWegApiError` or the JSON payload. `_headers` builds the request headers.
- **The client object.** `APIHelper` holds the credentials, the token and the HTTP
  session. It has `authenticate`, `set_token` and the two write-only credential
  properties.
- **The five public operations.** `listPlants`, `plant`, `inverter`,
  `complete_inverter` and `month_stats_production(_by_id)` share one retry rule.
  On a `LoginError` they re-authenticate once and try again without retry. A
  second `LoginError` gives the fallback: `[]`, `None` or "no change".
- **The object tree.** The client builds it in place. A `Plant` gets its inverter
  stubs in one `extend`. `_populate_MPPT` appends MPPTs (each with its strings) and
  then phases to an `Inverter`. `complete_inverter` stores the detail readings on
  an existing inverter stub.
- **The domain records.** `String`, `Phase` and `ProductionStats` are values.
  `MPPT`, `Inverter` and `Plant` are objects whose lists and readings change.

The model has two layers:

- **Specification layer.** Pure functions on values:
  - `Sessions.PlantCall`, `Sessions.ListPlantsCall` and the other `...Call` functions
    give an operation's result and the client's new state. They are written over a
    `Session` value, which holds the credentials, the token and the list of
    requests sent so far.
  - `Translate.*` decodes the payloads.
  - `Sessions.WithRetry` is the retry rule.
- **Imperative layer.** The `APIHelper`, `Inverter`, `MPPT` and `Plant` classes:
  - Each method states that its result and the new state are exactly what the
    specification layer gives.
  - Each method that builds objects also states that they are fresh.
  - The loops of `listPlants` and `_populate_MPPT` carry the invariants that tie
    the objects appended so far to the matching prefix of the specification's run.

The outside world is a parameter, an `Env`:

- `transport` answers the n-th request of the session. It sees the request count
  and the current request only. A login reaches later responses only through the
  token header of the requests that follow it.
- `parseDate` stands for `dateutil.parser.parse`.

Exceptions are values: `Outcome<T>` is `Ok(value)` or `Fail(failure)`. A failure is
one of three kinds:

- `LoginError`;
- `ApiError`, the other `SunWegApiError`s;
- `Malformed`, which stands for the `KeyError`, `TypeError` and `ValueError` that
  Python raises on a payload of the wrong shape.

## Model

| member | source | states |
|---|---|---|
| Api.ConvertSituationStatus | sunweg/api.py:34-47 | situation 0 is ERROR, 1 is OK and every other integer is WARN, each as an if-and-only-if |
| Api.StatusEncodingsDisagree | sunweg/util.py:7-12 | for the codes 0..2, direct construction `Status(n)` is defined, and it agrees with the situation mapping exactly on code 2 |
| Api.SeparateValueMetric | sunweg/api.py:50-78 | None or "" give `(0.0, default)`; a returned unit is the default or a space-free token; the only failure is an unparsable number |
| Api.ValueMetricSingleToken | sunweg/api.py:65-74 | a one-token reading is that token's value in the default unit, in either order mode, and a bad number fails the same way |
| Api.ValueMetricPair | sunweg/api.py:67-78 | "value unit" gives (value, unit); with the unit-first flag, "unit value" gives (value, unit); a bad value fails with its parse error |
| Api.ValueMetricIgnoresRest | sunweg/api.py:67-78 | tokens after the second never change the result, in either order mode |
| Api.ValueMetricCommaOrPoint | sunweg/api.py:70-76 | a reading with a decimal comma and the same reading with a decimal point give the same result |
| Api.ValueMetricOfRenderedInteger | sunweg/api.py:75-78 | an integer printed before a unit reads back as that integer and that unit |
| Api.ValueOf | sunweg/api.py:70 | the value token parses after the comma is replaced by a point; a failure names the normalised text |
| Api.Headers | sunweg/api.py:159-163 | Content-Type is always application/json; X-Auth-Token-Update is present exactly when a token is held, and it carries that token |
| Api.TreatResponse | sunweg/api.py:448-459 | a LoginError happens exactly for 401; any other non-200 is an ApiError with the request-failed text; with the flag set, a body whose `success` is falsy is an ApiError with its `message`, and a body whose `success` is truthy is returned; without the flag any 200 body is returned; a returned payload is always the 200 body |
| Api.RequestFailed | sunweg/api.py:453-455 | the text is "Request failed: <Response [code]>", and the status code reads back from it |
| Api.LoginBody | sunweg/api.py:148-151 | the login body has exactly the members `usuario`, `senha` and `rememberMe`, in this order, holding the username, the password and true |
| Sessions.Exchange | sunweg/api.py:432-446 | sending a request appends it to the session's request list and changes nothing else |
| Sessions.GetJson | sunweg/api.py:432-436 | `_get` sends one GET to the server URL plus the path, with the current headers, and treats its response |
| Sessions.WithRetry | sunweg/api.py:191-195 | the retry rule of every operation: an outcome other than a LoginError is the attempt's own; a LoginError without retry is the fallback; the lemmas below give the retry case |
| Sessions.Authenticate | sunweg/api.py:138-157 | without both credentials: false, nothing sent, state unchanged; otherwise exactly one login POST; a failure of the login response (a 401 as LoginError, any other non-200 as the request-failed ApiError) is raised; a falsy `success` is false and keeps the token; a truthy `success` with a string `token` is true and stores that token, and true happens only that way |
| Sessions.LoginRequest | sunweg/api.py:148-153 | the login is a POST to the login path, with the current headers, whose body carries the username and the password |
| Sessions.NoRetry | sunweg/api.py:191-195 | without retry, a LoginError becomes the fallback, anything else passes through, and the result is never a LoginError |
| Sessions.OtherErrorsPassThrough | sunweg/api.py:245-249 | an exception other than LoginError is returned unchanged, with or without retry |
| Sessions.SecondLoginErrorGivesFallback | sunweg/api.py:290-294 | LoginError, successful re-authentication, then LoginError again yields the fallback |
| Sessions.LoginErrorOnlyFromReauthentication | sunweg/api.py:322-325 | an operation ends in a LoginError only if retry was on, the first try got one, and the re-authentication raised one itself |
| Sessions.RetryBoundsRequests | sunweg/api.py:393-399 | if one attempt sends at most k requests, an operation sends at most 2k+1 with retry (two attempts and one login) and k without, and earlier requests stay recorded |
| Sessions.PlantAttempt | sunweg/api.py:208-244 | one try of `plant`: exactly the detail GET is sent; a failing GET (a 401 in particular) is the attempt's failure; otherwise the result is `DecodePlant` of the payload, a plant or its failure |
| Sessions.PlantCall | sunweg/api.py:197-249 | `plant(id)`: an attempt without a LoginError is the result as it is; a LoginError without retry gives None; None only follows a LoginError on the first try (the code, unlike its docstring, never returns None for an unknown id) |
| Sessions.InverterAttempt | sunweg/api.py:262-289 | one try of `inverter`: exactly the detail GET is sent; a failing GET is the attempt's failure; otherwise the result is `DecodeInverter` of the payload, an inverter or its failure |
| Sessions.InverterCall | sunweg/api.py:251-294 | `inverter(id)`: an attempt without a LoginError is the result as it is; a LoginError without retry gives None; None only follows a LoginError on the first try (the code, unlike its docstring, never returns None for an unknown id) |
| Sessions.MonthStatsAttempt | sunweg/api.py:379-392 | one try of the month statistics: exactly the query GET is sent; a failing GET is the attempt's failure; otherwise the records are `DecodeMonthStats` of the payload |
| Sessions.MonthStatsCall | sunweg/api.py:355-399 | `month_stats_production_by_id`: an attempt without a LoginError is the result as it is; a LoginError without retry gives [] |
| Sessions.PlantLoop | sunweg/api.py:187-190 | the plant loop returns at most one plant per summary |
| Sessions.PlantLoopStep | sunweg/api.py:187-189 | one more summary: a failure ends the loop with that failure; None adds nothing; a plant is appended in order |
| Sessions.PlantLoopStops | sunweg/api.py:187-190 | once a pass fails, later summaries are never visited |
| Sessions.FetchPlants | sunweg/api.py:187-190 | the plant list has at most as many plants as there are summaries |
| Sessions.SummaryPlant | sunweg/api.py:188 | a summary without a usable `id` fails before any request is sent |
| Sessions.ListPlantsAttempt | sunweg/api.py:176-190 | one try of `listPlants`: a failing list GET or a bad bucket is the failure; otherwise the plant loop over the concatenated summaries |
| Sessions.ListPlantsCall | sunweg/api.py:165-195 | `listPlants`: an attempt without a LoginError is the result as it is; a LoginError without retry gives [] |
| Sessions.CompleteAttempt | sunweg/api.py:305-321 | one try of `complete_inverter` sends exactly the detail GET; a failing GET is the attempt's failure and leaves the inverter as it was; otherwise it is `Complete` on the payload |
| Sessions.CompleteCall | sunweg/api.py:296-325 | whatever happens, the identity fields are unchanged and the MPPT and phase lists only grow |
| Sessions.CompleteCallIsWithRetry | sunweg/api.py:322-325 | the outcome and session of `complete_inverter` are those of the common retry rule, so every retry lemma applies to it |
| Sessions.CompleteCallSecondLoginError | sunweg/api.py:322-325 | a LoginError, a successful re-login and a second LoginError leave the inverter exactly as it was, with no exception |
| Sessions.CompleteCallOtherErrorsPassThrough | sunweg/api.py:305-325 | an exception other than LoginError is raised as it is, with the assignments made before it kept |
| Translate.ParseDateTime | sunweg/api.py:227 | a parsed date comes from a JSON string through the date parser |
| Translate.ReadValueMetric | sunweg/api.py:211-215 | reading a value-metric field fails only on a malformed payload |
| Translate.StatusOfOrdinal | sunweg/api.py:238 | `Status(int(x))` succeeds only with an integer ordinal, and the status is that ordinal's |
| Translate.DecodeStub | sunweg/api.py:234-240 | a stub, never complete, whose id, name, serial, status and temperature come from `id`, `nome`, `esn`, the `situacao` ordinal and `temperatura`; an entry with fields of those kinds and a valid ordinal always decodes |
| Translate.DecodeStubs | sunweg/api.py:232-243 | one stub per embedded entry, in order; a failure is some entry's failure |
| Translate.DecodePlant | sunweg/api.py:209-243 | the plant has the requested id; its name is `usinas.nome`; today's energy and unit are the `energiadia` reading with kWh as default; total power the `AcumuladoPotencia` value; saving the `economia` value with the unit first; total energy `float(energiaacumuladanumber)`; carbon saving the stored number; kWh/kWp and performance rate zero; the last update is parsed from `ultimaAtualizacao` and absent exactly when it is null; the inverters are the stubs of `usinas.inversores`, in order |
| Translate.Reading | sunweg/api.py:409-412 | a string reading is looked up through its variable name; it fails only on a malformed payload |
| Translate.DecodeString | sunweg/api.py:407-414 | a string's name is its `nome`, its voltage and amperage the readings its `variaveltensao` and `variavelcorrente` name, and its status the situation mapping of its `situacao` integer |
| Translate.StringsRun | sunweg/api.py:406-415 | the string loop decodes a prefix of the entries, all of them when nothing fails |
| Translate.StringsRunDecodes | sunweg/api.py:406-415 | each decoded string comes from the entry at the same place, and a failure is the next entry's |
| Translate.StringsRunSnoc | sunweg/api.py:406-415 | one more entry extends the string run by exactly its decoding |
| Translate.StringsRunStops | sunweg/api.py:406-415 | a failed string entry ends the run |
| Translate.DecodeStrings | sunweg/api.py:406-415 | one string per entry, in payload order |
| Translate.GroupEntries | sunweg/api.py:406 | a group's `strings` list fails only on a malformed payload |
| Translate.DecodeGroup | sunweg/api.py:403-417 | an MPPT takes its group's `nomemppt` name, and its strings are the decoded strings of the group's entries, one per entry |
| Translate.RunOf | sunweg/api.py:403-430 | a loop over a list decodes a prefix of it, all of it when nothing fails |
| Translate.RunOfDecodes | sunweg/api.py:403-430 | every decoded item is the decoder's value on the input at the same place, and a failure is the next input's |
| Translate.RunOfSnoc | sunweg/api.py:403-430 | one more input decoded extends the run |
| Translate.RunOfStops | sunweg/api.py:403-430 | a failure ends a run: later inputs change nothing |
| Translate.TakeOneMore | sunweg/api.py:403-430 | a prefix one longer is the prefix and the next item, and together with the rest it is the whole list |
| Translate.RunOfNext | sunweg/api.py:403-430 | the run one index further: the next item is appended, or its failure is the run's failure for the whole list |
| Translate.MpptRun | sunweg/api.py:403-417 | the MPPT loop decodes a prefix of the groups |
| Translate.MpptRunDecodes | sunweg/api.py:403-417 | each MPPT decodes from the group at the same place |
| Translate.MpptRunSnoc | sunweg/api.py:403-417 | one more group extends the MPPT run |
| Translate.MpptRunStops | sunweg/api.py:403-417 | a failed group ends the MPPT loop |
| Translate.PhaseNames | sunweg/api.py:419-421 | the phase names are drawn from the keys |
| Translate.PhaseNamesMembers | sunweg/api.py:419-421 | a name is a phase name if and only if it is a key that does not end in "status" |
| Translate.PhaseNamesAppend | sunweg/api.py:419-421 | the phase names of concatenated key lists concatenate |
| Translate.DecodePhase | sunweg/api.py:422-430 | a phase keeps its name and takes two independent direct-cast statuses from the `tensaoca` and `correnteCA` `<name>status` entries |
| Translate.PhaseRun | sunweg/api.py:419-430 | the phase loop decodes a prefix of the phase names |
| Translate.PhaseRunDecodes | sunweg/api.py:419-430 | each phase decodes from the phase name at the same place |
| Translate.PhaseRunSnoc | sunweg/api.py:419-430 | a status key adds nothing; any other key adds its phase |
| Translate.PhaseRunStops | sunweg/api.py:419-430 | a failed phase ends the phase loop |
| Translate.StringGroups | sunweg/api.py:403 | the `stringmppt` list fails only on a malformed payload |
| Translate.PhaseKeys | sunweg/api.py:419 | the `correnteCA` keys fail only on a malformed payload |
| Translate.Populate | sunweg/api.py:401-430 | the MPPTs are the MPPT loop's run over `stringmppt`; a failure there ends it with no phase; otherwise the phases and the failure are the phase loop's run over the `correnteCA` keys; on success, one MPPT per group and one phase per phase name |
| Translate.ReadCommaFloat | sunweg/api.py:279-280 | a comma-decimal reading fails only on a malformed payload |
| Translate.DecodeInverterHead | sunweg/api.py:263-285 | the inverter has the requested id, no MPPTs and no phases, and each reading and unit is what its field gives |
| Translate.DecodeInverter | sunweg/api.py:263-289 | the inverter is its head with the populated MPPTs and phases |
| Translate.Complete | sunweg/api.py:305-321 | completion keeps the identity fields and only grows the MPPT and phase lists; success means the population succeeded |
| Translate.CompleteAgreesWithInverter | sunweg/api.py:263-321 | completing a bare inverter with a payload that `inverter` accepts succeeds, and gives the value `inverter` builds from that payload, except that the stub keeps its name, serial, status and temperature |
| Translate.MonthStatsQuery | sunweg/api.py:381-383 | the query starts with the month-statistics path and the plant id |
| Translate.MonthStatsQueryFields | sunweg/api.py:379-383 | for a month 1..12, the query has the plant id, then the inverter id or an empty field when there is none, then a two-digit month that reads back as the month, a slash and the year |
| Translate.DecodeStatsItem | sunweg/api.py:386-390 | a record's day comes from the parsed `tempoatual`, and its production and prognostic come from `float()` of their fields |
| Translate.DecodeStatsItems | sunweg/api.py:385-392 | one record per item, in order |
| Translate.DecodeMonthStats | sunweg/api.py:385-392 | one record per `graficomes` item, record k being item k decoded |
| Translate.ConcatBuckets | sunweg/api.py:179-185 | succeeds exactly when every listed bucket exists and is a list |
| Translate.Bucket | sunweg/api.py:180 | a bucket is the list a payload member holds, and fails otherwise |
| Translate.ConcatBucketsSnoc | sunweg/api.py:179-185 | one more bucket appends its items to the concatenation |
| Translate.ConcatBucketsInit | sunweg/api.py:179-185 | a successful concatenation is that of its first buckets followed by the last bucket |
| Translate.PlantSummaries | sunweg/api.py:179-185 | succeeds exactly when the five buckets exist and are lists, and then the summaries are `nao_comissionadas`, `conectadas`, `falhas`, `alertas` and `atendimento` concatenated in this order |
| Translate.FiveBuckets | sunweg/api.py:179-185 | the concatenation of the five buckets, spelled out bucket by bucket |
| Translate.SummaryId | sunweg/api.py:188 | a summary's id fails only on a malformed summary |
| Text.Split | sunweg/api.py:67 | `split(" ")` gives at least one token, and no token contains the separator |
| Text.JoinSplit | sunweg/api.py:67 | joining the tokens with the separator gives back the text |
| Text.SplitNoSeparator | sunweg/api.py:67 | a text without the separator is one token |
| Text.SplitFirst | sunweg/api.py:67 | a separator-free head followed by the separator is split off first |
| Text.ReplaceChar | sunweg/api.py:70-76 | `replace` changes exactly the occurrences of the character |
| Text.DecimalPoint | sunweg/api.py:70-76 | no comma is left, and every other character is kept in place |
| Text.DecimalPointIdempotent | sunweg/api.py:70-76 | normalising twice is normalising once |
| Text.DigitChar | sunweg/api.py:383 | a digit's character denotes that digit |
| Text.DigitValue | sunweg/api.py:383 | a digit character's value maps back to the same character |
| Text.NatToString | sunweg/api.py:209 | `str(n)` of a natural number is a nonempty run of digits |
| Text.IntToString | sunweg/api.py:209 | `str(i)` is digits, with a leading minus sign for a negative number |
| Text.DigitsValueOfNatToString | sunweg/api.py:209 | the printed digits of a natural number denote that number |
| Text.ParseIntOfIntToString | sunweg/api.py:263 | `int(str(i)) == i` |
| Text.TwoDigits | sunweg/api.py:383 | `format(month, '02')` has at least two characters |
| Text.TwoDigitsRoundTrip | sunweg/api.py:383 | a number 0..99 prints as exactly two digits that read back as the number |
| Text.IndexOf | sunweg/api.py:67 | the index found is the first occurrence, and there is none only when the character is absent |
| Text.ParseFloatExtendsParseInt | sunweg/api.py:225 | wherever `int(s)` succeeds, `float(s)` gives the same number |
| Text.ParseFloatOfIntToString | sunweg/api.py:225 | `float(str(i)) == i` |
| Json.FindMemberFirst | sunweg/api.py:154 | a key lookup fails exactly when no member has that name, and otherwise gives the first such member's value |
| Json.Get | sunweg/api.py:154 | `obj[key]` gives the member's value; a missing key is a KeyError; a non-object is a TypeError |
| Json.Get2 | sunweg/api.py:218 | `obj[k1][k2]` fails only on a malformed payload |
| Json.Keys | sunweg/api.py:419 | `dict.keys()` fails exactly on a non-object, and otherwise gives the member names in document order |
| Json.Items | sunweg/api.py:187-190 | `for x in j`, as the loops over summaries, stubs, groups, strings and statistics items do: a list gives its items, an object its member names and a string its characters; any other kind fails; the iteration is empty exactly for an empty list, object or string |
| Json.AsList | sunweg/api.py:179-185 | the `+` of the plant list accepts exactly a list, and gives its items |
| Json.AsText | sunweg/api.py:279 | a string method applies only to a JSON string |
| Json.AsOptionalText | sunweg/api.py:50-66 | null is None, a string is itself, an empty list or object reads as the empty string (it passes the length test), and nothing else is accepted |
| Json.AsNumber | sunweg/api.py:226 | a stored number is a JSON number |
| Json.AsInteger | sunweg/api.py:284 | a stored integer is a JSON integer |
| Json.FloatOfText | sunweg/api.py:70-76 | `float(text)` succeeds exactly when the text is a decimal number, and a failure names the text |
| Json.Float | sunweg/api.py:225 | `float()` of a string parses it; of an integer or a float it is the number |
| Json.CommaFloat | sunweg/api.py:279-280 | `float(text.replace(",", "."))` parses the normalised text and fails on anything but a string |
| Json.Truncate | sunweg/api.py:238 | `int(x)` of a float rounds toward zero: the floor for x >= 0 and the ceiling for x < 0 |
| Json.Int | sunweg/api.py:238 | `int()` of an integer is itself; of a string it succeeds exactly when the text is an integer |
| Util.Ordinal | sunweg/util.py:7-12 | the ordinals are 0..2 |
| Util.FromOrdinal | sunweg/util.py:7-12 | `Status(n)` is defined exactly for n in 0..2, and inverts the ordinal |
| Util.OrdinalRoundTrip | sunweg/util.py:10-12 | `Status(s.value) == s` for every status |
| Util.StatusOfJson | sunweg/api.py:427-428 | `Status(x)` accepts exactly the integers 0..2 with their ordinals, and rejects strings, null, lists and objects |
| Util.DateTime.Day | sunweg/api.py:387 | `.date()` keeps the year, month and day |
| Device.StubValue | sunweg/device.py:200-248 | an inverter built from the five summary fields has zero readings, empty units, no phases and no MPPTs, and is not complete |
| Device.AnyDetailCompletes | sunweg/device.py:400-414 | setting any one of the five detail readings to a non-zero value makes an inverter complete |
| Device.MPPT.constructor | sunweg/device.py:162-170 | a new MPPT has its name and no strings |
| Device.MPPT.AppendString | sunweg/api.py:415 | `mppt.strings.append(s)` adds exactly s at the end |
| Device.MPPT.View | sunweg/device.py:172-190 | the value holds the MPPT's name and strings |
| Device.MpptViews | sunweg/device.py:426-434 | one value per MPPT object |
| Device.MpptViewsAt | sunweg/device.py:426-434 | each value is the view of the MPPT at the same place |
| Device.Inverter.constructor | sunweg/device.py:200-248 | every getter returns its argument; readings default to 0 and units to ""; phases and MPPTs start empty; complete exactly when a detail reading is non-zero |
| Device.Inverter.View | sunweg/device.py:400-414 | the value's completeness is the object's `is_complete` |
| Device.Inverter.SetTodayEnergy | sunweg/device.py:310-318 | changes only today's energy |
| Device.Inverter.SetTotalEnergy | sunweg/device.py:330-338 | changes only the total energy |
| Device.Inverter.SetPowerFactor | sunweg/device.py:350-358 | changes only the power factor |
| Device.Inverter.SetFrequency | sunweg/device.py:370-378 | changes only the frequency |
| Device.Inverter.SetPower | sunweg/device.py:390-398 | changes only the power |
| Device.Inverter.AppendPhase | sunweg/api.py:422-430 | `inverter.phases.append(p)` adds exactly p at the end and changes nothing else |
| Device.Inverter.AppendMppt | sunweg/api.py:417 | `inverter.mppts.append(m)` adds exactly m's value at the end and changes nothing else |
| Plants.InverterViews | sunweg/plant.py:187-195 | one value per inverter object |
| Plants.InverterViewsAre | sunweg/plant.py:187-195 | the inverter list's values are the values of its objects, in order |
| Plants.InverterViewsAppend | sunweg/api.py:232-243 | the values of an extended inverter list are the old values followed by the new ones |
| Plants.PlantOutsideInverters | sunweg/plant.py:63 | a plant is never one of the objects its inverter list reaches |
| Plants.InvertersReprAllocated | sunweg/plant.py:63 | every object an inverter list reaches exists already |
| Plants.OutsideStubs | sunweg/api.py:232-243 | an object other than the stub inverters is not reached by a list of stubs |
| Plants.Plant.constructor | sunweg/plant.py:12-63 | every getter returns its constructor argument, and the inverter list starts empty |
| Plants.Plant.ExtendInverters | sunweg/api.py:232-243 | `plant.inverters.extend(invs)` appends the inverters' values and changes nothing else |
| Client.AppendStrings | sunweg/api.py:406-415 | the string loop appends exactly the decoded run to `mppt.strings` and reports the run's failure |
| Client.BuildMppt | sunweg/api.py:403-415 | a new MPPT object whose value is the group's decoding, or the group's failure |
| Client.NewInverter | sunweg/api.py:271-285 | a new inverter object holds exactly the given readings |
| Client.BuildStubs | sunweg/api.py:233-242 | one new stub object per stub value, each with no MPPTs; their values are the stub values, in order |
| Client.NewPlant | sunweg/api.py:216-230 | a new plant object holding the decoded summary fields and no inverters |
| Client.BuildPlant | sunweg/api.py:216-243 | a new plant object whose value is the decoded plant, with new stub inverters |
| Client.AppendMppts | sunweg/api.py:403-417 | the MPPT loop appends exactly the decoded run of groups and reports its failure; earlier MPPTs are kept and new ones are fresh |
| Client.ExtendMppts | sunweg/api.py:417 | appending one MPPT to an already extended list extends it by one more |
| Client.ExtendPhases | sunweg/api.py:422 | appending one phase to an already extended list extends it by one more |
| Client.AppendGroup | sunweg/api.py:404-417 | one group's MPPT is appended when it decodes; otherwise nothing changes and its failure is returned |
| Client.AppendPhases | sunweg/api.py:419-430 | the phase loop appends exactly the decoded phases of the non-status keys, leaves the MPPTs alone and reports the first failure |
| Client.APIHelper.constructor | sunweg/api.py:86-105 | the client holds the given credentials and token and has sent nothing |
| Client.APIHelper.SetToken | sunweg/api.py:107-114 | only the token changes, to the given one |
| Client.APIHelper.SetUsername | sunweg/api.py:116-125 | only the username changes |
| Client.APIHelper.SetPassword | sunweg/api.py:127-136 | only the password changes |
| Client.APIHelper.HttpGet | sunweg/api.py:432-436 | `_get` returns and records exactly what the GET specification gives |
| Client.APIHelper.HttpPost | sunweg/api.py:438-446 | `_post` sends one POST with the current headers and treats its response |
| Client.APIHelper.Authenticate | sunweg/api.py:138-157 | `authenticate` has the result and the new state of the authentication specification |
| Client.APIHelper.TryPlant | sunweg/api.py:208-244 | the try body of `plant` gives a new plant whose value is the attempt's, with stub inverters |
| Client.APIHelper.Plant | sunweg/api.py:197-249 | `plant(id, retry)` has the result and state of the retry specification; a plant is new, with new stub inverters |
| Client.APIHelper.TryInverter | sunweg/api.py:262-289 | the try body of `inverter` gives a new inverter, with new MPPTs, whose value is the attempt's |
| Client.APIHelper.BuildInverter | sunweg/api.py:263-287 | the inverter object's value is the payload's decoding, or the decoding's failure |
| Client.APIHelper.NewPopulated | sunweg/api.py:271-287 | a new inverter built from the head and populated: its value is the head with the population's MPPTs and phases |
| Client.APIHelper.Inverter | sunweg/api.py:251-294 | `inverter(id, retry)` has the result and state of the retry specification; an inverter is new |
| Client.APIHelper.PopulateMppt | sunweg/api.py:401-430 | `_populate_MPPT` appends exactly the population's MPPTs and phases, keeps the existing ones and reports its failure |
| Client.APIHelper.CompleteFrom | sunweg/api.py:307-321 | storing the readings in place gives the value and result of the completion specification |
| Client.APIHelper.TryComplete | sunweg/api.py:305-321 | the try body of `complete_inverter` gives the result, inverter value and state of one completion attempt |
| Client.APIHelper.CompleteInverter | sunweg/api.py:296-325 | `complete_inverter(inverter, retry)` gives the result, inverter value and state of the retry specification; existing MPPTs are kept |
| Client.APIHelper.PlantOfSummary | sunweg/api.py:188 | one summary's pass: its id, then `plant(id)`, as the pass specification gives |
| Client.APIHelper.NextPlant | sunweg/api.py:187-189 | one turn of the plant loop moves the loop specification one summary further |
| Client.APIHelper.GrowPlants | sunweg/api.py:187-189 | the plants kept so far keep their values, and a returned plant is appended |
| Client.APIHelper.FetchPlantList | sunweg/api.py:187-190 | the loop returns new plants whose values are the plant loop's, in order, or its failure |
| Client.APIHelper.TryListPlants | sunweg/api.py:177-190 | the try body of `listPlants` gives new plants whose values are the attempt's |
| Client.APIHelper.ListPlants | sunweg/api.py:165-195 | `listPlants(retry)` gives the plants and state of the retry specification, with `[]` as the fallback |
| Client.APIHelper.TryMonthStats | sunweg/api.py:379-392 | the try body of the month statistics gives the attempt's records and state |
| Client.APIHelper.MonthStatsProductionById | sunweg/api.py:355-399 | `month_stats_production_by_id` gives the retry specification's records and state, with `[]` as the fallback |
| Client.APIHelper.MonthStatsProduction | sunweg/api.py:327-353 | `month_stats_production` is the by-id operation on the plant's id and the inverter's id, if any |

## Left out

- The HTTP transport and JSON decoding are not modelled. The server is the `transport` function of `Env`, from the request count and the request to a status code and an optional decoded body. There is no network, timing or connection failure, and `response.json()` on a non-JSON body is modelled as a malformed payload.
- `dateutil.parser.parse` is the `parseDate` parameter of `Env`. Its own rules are not modelled.
- `float()` is modelled by an exact decimal parser over reals: an optional sign, digits, and an optional decimal point with digits. It does not model IEEE rounding, exponents, surrounding whitespace, underscores, `inf` or `nan`. `int()` on a string is modelled the same way, for an optional sign and digits.
- JSON objects are sequences of members, and lookup takes the first member with the key. Duplicate keys, which Python's decoder resolves to the last binding, are not modelled.
- Where the Python stores a payload value without converting it, the model checks its JSON kind and fails as malformed otherwise. This covers names, serial numbers, inverter temperature, carbon saving, summary ids and the token. The Python would store any kind there.
- PlantSummaries, ConcatBuckets: every bucket must be a list. Python adds the buckets with `+` as it reads them, so five strings would concatenate into one string; and when a bucket is not a list and a later one is missing, Python reports the missing key where the model reports the wrong kind. Both are exceptions the client does not catch.
- Translate.Reading: the variable name an entry gives must be a JSON string that names a member of the `leitura` object. Python indexes with the name as it comes, so an integer name would also index a `leitura` list (or string), negative indices included; the model fails on that case.
- Sessions.Authenticate: when the login succeeds, the model returns `true`. The Python returns `result["success"]` itself, which may be any truthy value.
- `Inverter.__init__` in sunweg/device.py:200-212 does not accept `total_energy_metric`, `today_energy_metric` or `power_metric`, but api.py passes them (sunweg/api.py:276, 278, 282) and the tests read them. The model gives `Inverter` these three unit fields, defaulting to "".
- The `__str__` representations, the `DeprecationWarning` of the deprecated plant getters, and the read-only getters are not modelled as separate members. The getters are the `const` fields of the classes and the fields of the records.
- Concurrency is not modelled; the client has none.
- Client.AppendMppts, Client.AppendGroup, Client.APIHelper.NextPlant, Client.APIHelper.GrowPlants, Client.APIHelper.FetchPlantList: these helpers receive the decoder or the per-summary pass as a ghost function value, which the caller fixes to the specification's. They are not separate operations of the source.
- Client.APIHelper.FetchPlantList, Client.APIHelper.ListPlants: freshness and values are stated per plant. That the plants are pairwise distinct objects is not stated.
