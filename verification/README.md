# gemini_cli request-parameter layer, modelled in Dafny

`gemini_cli` is a command-line client for the Gemini exchange's REST API. The
HTTP work is done by an external client library. The program's own decisions
sit in a thin layer in front of it, and this project models that layer and
proves properties of it:

- **Credential resolution** (`start_api`, api.go). An optional YAML file is
  merged with the `GEMINI_API_KEY`, `GEMINI_API_SECRET` and
  `GEMINI_API_PRODUCTION` environment variables, field by field. A production
  flag that is not a boolean is blanked. The client is built only when key,
  secret and flag are all present.
- **Timestamp normalisation** (`parseConvertTimestamp` and `get_timestampms`,
  util.go). A `YYYY-MM-DDTHH:MM:SS` wall-clock string gets the local UTC
  offset appended as `+%02d:%02d`. It is parsed again into an absolute
  instant, which can be read as epoch milliseconds.
- **Actions** (main.go). Each subcommand builds its argument bag from the
  flags that were set, or checks `--currency` against a closed list. Then it
  requests exactly one collaborator operation.
- **The request wrappers' order** (rest-cli.go). Credentials are resolved
  first, and the operation is sent only through a client built from them.

Modules: `Wrappers` (Option/Result), `GoLib` (the Go standard-library
behaviour the code relies on), `Calendar`, `Cli` (the parsed command line as
data), `Util` (util.go), `Api` (api.go), `Gemini` (the collaborator's
operations and `gemini.Args`), `Commands` (main.go) and `RestCli`.

Inputs the program takes from its surroundings are parameters of the model:
- the outcome of opening and decoding the configuration file (`Api.ConfigFile`);
- the environment (`Api.Env`, a map);
- the offset that `time.Now().Zone()` reports (`offset`, in seconds east of UTC);
- the flags the CLI library parsed (`Cli.Context`).

The Actions in `Commands` take the time normaliser as a function parameter
(`Commands.Normalizer`), since they depend only on its verdict.
`RestCli.Execute` binds it to `Util.ParseConvertTimestamp` under the local
offset (`Commands.LocalNormalizer`). Each Action is one method, with the
contract `Commands.Acts` that `Commands.Dispatch` also carries.

Negative offsets are modelled bug-compatibly, as the code computes them.
With Go's truncating division, an offset a minute or more west of UTC gives
a suffix such as `+-5:00` or `+00:-30`. An offset less than a minute west
gives `+00:00`. The zone reader modelled is that of current Go releases:
exactly two digits per field, hours at most 24 and minutes at most 60. Under
that reader a negative field makes the second parse fail with
"timestamp not valid: " followed by the suffixed string
(`Util.ZoneOfWestOffset`, `Util.NormalizeWellFormed`), `+00:00` succeeds, and
an offset of 25 hours east or more fails the hour range check (25 to 99
hours) or the fixed `+HH:MM` shape (100 hours or more, a three-digit hour).
Older Go releases read these fields differently (see `Util.ParseZone` under
"## Left out").

`order orderid` forwards `c.String("order")`, as written (main.go:557).
The command declares no flag named `order`, so for the flags the command
actually declares it forwards the empty string. `Commands.OrderStatusAction`
states this. `order new` forwards `--side` unchecked.

The model follows the code where it is looser than the program's own help
text: the `--side` usage says "buy or sell" (main.go:452), but `order new`
forwards any value (`Commands.NewOrderAction`).

## Model

| member | source | states |
|---|---|---|
| `GoLib.Itoa` | main.go:296 | `strconv.Itoa`: the decimal text has a minus sign exactly for negative numbers, a decimal reader gives the number back, and no digit string starts with a superfluous `0` (so the text is exactly the canonical one, e.g. "10", "-5") |
| `GoLib.Pad2` | util.go:23 | `%02d`: reads back as the same number; exactly two digits for 0..99; a leading `-` followed by a non-zero digit for negatives (the sign takes one column, so -5 is "-5"); more than two digits, without a leading `0`, from 100 |
| `GoLib.Quot` | util.go:23 | Go's `/` truncates toward zero: the remainder has the dividend's sign and is smaller than the divisor |
| `GoLib.ParseBool` | api.go:58 | `strconv.ParseBool`: a string it accepts has one to five characters, so a blank value never reads as a boolean. That is why a blanked production flag counts as missing |
| `Calendar.DaysIn` | util.go:14 | month lengths used for the day range check: 29 exactly for February of a leap year, otherwise 28, 30 or 31 |
| `Calendar.DaysFromCivilEpoch` | util.go:24 | 1970-01-01 is day 0 of the epoch count |
| `Calendar.DaysFromCivilNext` | util.go:24 | consecutive calendar days get consecutive day numbers, across month and year ends and leap days |
| `Util.ParseLayout` | util.go:14-17 | a recognised string is a valid date-time (month 1-12, day within that month of that year, hour 0-23, minute and second 0-59) with a four-digit year |
| `Util.ParseFormatLayout` | util.go:14 | every valid date-time, formatted in the layout, is recognised and read back unchanged |
| `Util.FormatParseLayout` | util.go:14 | every string the recogniser accepts is exactly the formatted form of what it read, so nothing else passes |
| `Util.ParseZone` | util.go:24 | the `Z07:00` zone parse yields a whole number of minutes within plus or minus 25 hours |
| `Util.ParseZoned` | util.go:24-28 | the second parse succeeds only when the first nineteen characters are a valid layout and the rest is a valid zone |
| `Util.ParseConvertTimestamp` | util.go:11-30 | input not in the layout fails with "timestamp not valid: <input>"; a success always has a zero sub-second part |
| `Util.ZoneOfDigitFields` | util.go:24 | a `+HH:MM` suffix with HH at most 24 and MM at most 60 is a zone of that many seconds east |
| `Util.ZoneOfHourAbove24` | util.go:24 | a two-digit hour above 24 fails Go's range check |
| `Util.ZoneOfSignedField` | util.go:21-24 | a field starting with `-` after the literal `+` is no zone |
| `Util.ZoneOfLongHour` | util.go:21-24 | an hour field of three or more digits makes the suffix too long to be a zone |
| `Util.ZoneOfNonNegativeOffset` | util.go:21-24 | for offsets from 0 up to 25 hours east, the `+HH:MM` suffix parses back as the offset without its seconds |
| `Util.ZoneOfSubMinuteWest` | util.go:21-24 | less than a minute west, the suffix is `+00:00` and parses as UTC |
| `Util.ZoneOfWestOffset` | util.go:21-24 | a minute or more west, the suffix carries a negative `%02d` field and is not a valid zone |
| `Util.ZoneOfFarEastOffset` | util.go:21-24 | 25 hours east or more is no zone: the hour field fails the range check (25 to 99 hours) or the fixed `+HH:MM` shape (100 hours or more, a three-digit hour) |
| `Util.NormalizeByZone` | util.go:19-28 | for a valid input, the normaliser's verdict is the zone parse of the offset's suffix: an instant moved back by that zone, or the error naming the suffixed string |
| `Util.NormalizeWellFormed` | util.go:19-28 | for a valid input: the instant is the wall clock read as UTC minus the offset with its seconds dropped (east), the wall clock as UTC (under a minute west), or the error naming the suffixed string |
| `Util.TimestampMs` | util.go:48-51 | milliseconds by truncating division of nanoseconds; for instants at or after the epoch, seconds times 1000 plus whole milliseconds |
| `Util.TimestampMsWholeSeconds` | util.go:48-51 | for a whole-second instant, before or after the epoch, milliseconds are seconds times 1000 |
| `Util.ChosenLevel` | util.go:34-40 | `--trace` selects trace whatever `--debug` says; `--debug` without `--trace` selects debug; with neither flag set, the level is unchanged |
| `Util.ConfigPath` | util.go:42-45 | the `--config` value when that flag was set, and "" when it was not |
| `Api.Resolve` | api.go:21-97 | any client it yields has a non-empty key and secret |
| `Api.StartApi` | api.go:21-97 | the step-by-step updates of the credential record arrive at `Resolve`'s field-by-field outcome |
| `Api.ConfigKeyWins` | api.go:43-48 | a non-empty configured key is used and `GEMINI_API_KEY` has no influence |
| `Api.ConfigSecretWins` | api.go:50-55 | a non-empty configured secret is used and `GEMINI_API_SECRET` has no influence |
| `Api.ConfigProductionWins` | api.go:57-62 | a non-empty configured production text is never replaced from the environment; if it is not a boolean, resolution fails with "Set Gemini API credentials." |
| `Api.EnvProductionFallback` | api.go:63-73 | an empty configured production text defers to `GEMINI_API_PRODUCTION`; an unset or non-boolean value there makes resolution fail |
| `Api.NoPathUsesEnvironment` | api.go:27-73 | without a config path, the file is irrelevant; success holds exactly when all three variables are usable, and the client is built from them |
| `Api.ConfigErrorsStop` | api.go:27-39 | an unopenable file gives "Cannot open configuration file: <path>" and a decode error is returned unchanged, whatever the environment |
| `Api.CompletenessCheck` | api.go:75-89 | once the file (if any) is read, "Set Gemini API credentials." is returned exactly when key, secret or a readable production flag is missing; resolution succeeds exactly when all three are present, and then `gemini.New` gets ParseBool(production), key and secret |
| `Commands.BuildTransfersArgs` | main.go:118-132 | `limit_transfers` as an integer, `timestamp` in epoch milliseconds, `show_completed_deposit_advances` = "true"; each key present only when its option was given, no other key; an invalid timestamp returns the normaliser's error |
| `Commands.BuildTradesArgs` | main.go:285-300 | `timestamp` as an instant, `limit_trades` as `Itoa` text, `include_breaks` = "true"; only given options, no other key; an invalid timestamp returns the normaliser's error |
| `Commands.BuildOrderBookArgs` | main.go:334-342 | `limit_bids` and `limit_asks` as decimal text, each present only when set; no other key |
| `Commands.BuildAuctionHistoryArgs` | main.go:404-419 | `since` as an instant, `--limit` stored under `limit_auction_results` as text, `include_indicative` = "true"; only given options; an invalid since returns the normaliser's error |
| `Commands.BuildPastTradesArgs` | main.go:522-533 | `limit_trades` as an integer, `timestamp` as an instant; only given options, no other key; an invalid timestamp returns the normaliser's error |
| `Commands.FindCurrency` | main.go:156-169 | the early-return loop finds a currency exactly when it is a case-sensitive member of the list |
| `Commands.AccountAction` | main.go:69-78 | `get account` requests the account details with the `--config` path and never fails |
| `Commands.BalancesAction` | main.go:83-92 | `get balances` requests the balances and never fails |
| `Commands.TransfersAction` | main.go:115-140 | `get transfers` requests the transfers with exactly the bag its options describe, or fails with the normaliser's message when a given `--timestamp` is invalid |
| `Commands.DepositAddressesAction` | main.go:154-170 | `get depositaddresses` requests the addresses for `--currency` exactly when it is one of the six deposit networks; otherwise the error names the currency and lists the valid ones |
| `Commands.NewDepositAddressesAction` | main.go:189-205 | `get new_depositaddresses` requests a new address for `--currency` with `--label` exactly when the currency is valid; otherwise the same error as above |
| `Commands.SymbolsAction` | main.go:210-219 | `get symbols` requests the symbol list and never fails |
| `Commands.TickerAction` | main.go:232-241 | `get ticker` requests the ticker for `--ticker` and never fails |
| `Commands.TradeVolumeAction` | main.go:246-255 | `get tradevolume` requests the trade volume and never fails |
| `Commands.TradesAction` | main.go:283-308 | `get trades` requests the trades for `--ticker` with the described bag, or fails with the normaliser's message on an invalid `--timestamp` |
| `Commands.OrderBookAction` | main.go:331-350 | `get orderbook` requests the book for `--ticker` with both limits as text when set; it never fails |
| `Commands.AuctionAction` | main.go:363-372 | `get auction` requests the current auction for `--ticker` and never fails |
| `Commands.AuctionHistoryAction` | main.go:402-427 | `get auction-hystory` requests the history for `--ticker` with the described bag, or fails with the normaliser's message on an invalid `--since` |
| `Commands.NewOrderAction` | main.go:468-483 | `order new` forwards ticker, client order id, amount, price and side unchecked with the single option "immediate-or-cancel"; it never fails |
| `Commands.ActiveOrdersAction` | main.go:488-497 | `order active` requests the active orders and never fails |
| `Commands.PastTradesAction` | main.go:519-541 | `order past_trades` requests the past trades for `--ticker` with the described bag, or fails with the normaliser's message on an invalid `--timestamp` |
| `Commands.OrderStatusAction` | main.go:554-563 | `order orderid` requests the status of `c.String("order")`, which is "" when no flag named `order` exists |
| `Commands.CancelOrderAction` | main.go:576-585 | `order cancel` requests cancelling `--orderid` and never fails |
| `Commands.CancelAllAction` | main.go:590-599 | `order cancel_all` requests cancelling all orders and never fails |
| `Commands.WithdrawAction` | main.go:627-643 | `withdraw` requests the withdrawal of `--amount` to `--address` exactly when `--currency` is btc or eth; otherwise the error lists those two |
| `Commands.Dispatch` | main.go:62-645 | every subcommand behaves as its Action does (`Commands.Acts`): it requests only the operation of that subcommand, with the `--config` path and the parameters from the flags; the only failures are an invalid currency or an invalid time option |
| `Commands.RequestDeterministic` | main.go:62-645 | the flags fix the request: two operations of one subcommand whose parameters both come from the flags as described are equal, bag included |
| `RestCli.Execute` | rest-cli.go:10-26 | the Action runs with the normaliser bound to the local offset; an Action's rejection ends the invocation before credentials are read; failed resolution ends it with the resolver's error; otherwise exactly the chosen operation is sent through the resolved client |

## Left out

- YAML decoding, `os.Open` and closing the file: each is one input outcome (`Api.ConfigFile`). An undecodable file leaves the descriptor open; that is not modelled.
- `os.Getenv` is a lookup in a map. `time.Now().Zone()` is the `offset` parameter.
- All logging is left out. This covers the warnings on missing or invalid credentials, the debug and trace output (including the key and secret disclosure at trace level) and the process-wide level change itself. `Util.ChosenLevel` models only the level chosen.
- Flag parsing, aliases, help text, `app.Run` and printing the error are done by the CLI library. `Cli.Context` holds their outcome: which names are set, and what `c.String`, `c.Bool`, `c.Int` and `c.Float64` return. `c.Int`'s conversion of the flag text is taken as given.
- `--amount` and `--price` are float64 values. They are forwarded untouched as `real`, and float64 rounding is not modelled.
- The collaborator's behaviour and errors, the HTTP requests, and the pretty-printed JSON of the reply are left out. rest-cli.go is modelled only as the order "resolve credentials, then send one operation" (`RestCli.Execute`).
- Util.ParseLayout: does not model two `time.Parse` leniencies. It does not take a one-digit hour (the layout's `15` field takes one or two digits), and it does not take a trailing fractional second after the seconds field. It recognises exactly `YYYY-MM-DDTHH:MM:SS`.
- Util.ParseZone: models the `Z07:00` reader of current Go releases (each field exactly two digits, rejected when hours exceed 24 or minutes exceed 60). Older releases read the fields with a sign-accepting integer reader and no range test; under them a suffix such as `+-5:00` reads as five hours west, so whole-hour offsets from one to nine hours west succeed. The Go version the program is built with is not fixed by its source.
- Gemini.ArgVal: `InstantV` keeps only the instant (seconds and nanoseconds since the epoch). The `time.Time` that the trades, auction history and past trades bags carry also has a Location (the local zone, or a fixed zone of the parsed offset), which is not kept. `IntV` also merges two Go types: the transfers and past trades limits are `int`, while the transfers timestamp is the `int64` that `get_timestampms` returns.
- Util.TimestampMs: does not model the int64 range of `UnixNano`, which overflows for instants outside the years 1678 to 2262.
- The commented-out block at the end of main.go is not code and is not modelled.
