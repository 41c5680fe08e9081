# Crypto price tracker — a Dafny model of its core

The tracker is a small desktop window that shows the price of a handful of crypto tokens in a
chosen currency. Its core is two Python files:

- `price_fetcher.py`, the `PriceFetcher` class:
  - a table of USD exchange rates with a best-effort refresh;
  - the lookup of one token's USD price: first the CoinGecko aggregator, then twelve exchanges in a
    fixed order, each with its own rule for reading the price out of its reply;
  - the batch lookup `get_multiple_prices`, currency conversion and the display tiers of
    `format_price`.
- `crypto_tracker.py`, the window's logic:
  - the configuration, merged from defaults and `config.json`;
  - the token list typed into the settings dialog (`apply_tokens`);
  - one price label per token, keyed by the upper-cased token (`create_token_row`, `rebuild_ui`);
  - `update_prices`, guarded by the `is_updating` flag, which fetches the batch and rewrites the
    labels.

The model is split into modules that follow that structure:

| file | module | contents |
|---|---|---|
| `runtime.dfy` | `Runtime` | `Option`, and `Result` = a value or a raised Python exception |
| `text.dfy` | `Text` | `str.strip`, `upper`, `lower`, `split`, `join` on `seq<char>` |
| `ordered_dict.dfy` | `OrderedDict` | a Python dict as an insertion-ordered list of pairs: assignment, `update`, `dict(pairs)`, `zip` |
| `numbers.dfy` | `Numbers` | `float()` of a string |
| `py_json.dfy` | `PyJson` | decoded JSON values and the Python operations the code applies to them, each with the exception it raises |
| `fetcher.dfy` | `Fetcher` | the price fetcher; `PriceFetcher` is a class with fields `session` and `rates` |
| `tracker.dfy` | `Tracker` | the tracker; `CryptoTrackerApp` is a class with fields `config`, `isUpdating`, `labels` and `started` |

## How the outside world is modelled

Network replies, the contents of `config.json` and float formatting are inputs:

- An HTTP GET is an `HttpOutcome`: either a transport failure or timeout (`Unreachable`), or a
  status together with a body that did or did not decode as JSON.
- A price lookup receives the replies of the aggregator and of every exchange.
  - Only the replies the code actually reads matter.
  - `Queried` records which sources a lookup asks, in order.
- The `asyncio.gather` of the batch is modelled as lookups one after another; lookup `i` sees
  `replies(i)`.
- `config.json` is `Missing`, `Unreadable`, or `Loaded(fields)`.
- Python's float formatting (`:,.2f`, `:.4f`, …) is a parameter `render(value, precision)`.
  - The model fixes which precision each price gets, and the text around the amount.

## Where the code and its written description differ (the code is followed)

- The rate refresh sends a GET to a single endpoint (`price_fetcher.py:60`). There is no list of
  fallback endpoints.
- After a successful rate reply, a currency missing from `rates` is reset to its constant
  (0.92, 92.0, 41.0, 480.0). It does not keep its current value (`price_fetcher.py:64-67`,
  `Fetcher.RefreshedValues`).
- The aggregator's answer is any `usd` value at all, including `0` and `null`. It does not have
  to be a number, and it is returned without the truthiness test that the exchanges get
  (`price_fetcher.py:95-98`, `Fetcher.AggregatorAnswers`).
- A `rates` field that is present but not an object makes `.get` raise, so the table is left as
  it was.
- Other behaviour of the code that the model proves:
  - Labels are keyed by the upper-cased token, but the batch is keyed by the token as configured.
    So a configured token with a lower-case letter never gets a price shown
    (`Tracker.LowercaseTokensKeepPlaceholders`).
  - A labelled token whose price is `None` raises inside the label loop. That ends the loop, so
    no later label changes (`Tracker.NullPriceAborts`).
  - Upbit's KRW price is divided by the fixed 1300 (`Fetcher.ExtractUpbit`).

## Model

| member | source | states |
|---|---|---|
| Fetcher.PriceFetcher.constructor | price_fetcher.py:16-45 | a new fetcher has no session, and its rate table is the five initial rates, with USD = 1 |
| Fetcher.PriceFetcher.Enter | price_fetcher.py:47-50 | entering the context opens a session |
| Fetcher.PriceFetcher.Exit | price_fetcher.py:52-55 | leaving the context closes an existing session; without one nothing changes |
| Fetcher.RefreshKeepsTable | price_fetcher.py:57-70 | whatever the reply, a refresh keeps exactly the five currencies and the dollar's rate |
| Fetcher.FailedRefreshKeepsRates | price_fetcher.py:59-70 | without an open session, or without a `rates` object in a status-200 JSON reply, the table is unchanged |
| Fetcher.RefreshedValues | price_fetcher.py:64-67 | after a good reply each of EUR, RUB, UAH, KZT takes the reply's value if present, else is reset to its constant |
| Fetcher.PriceFetcher.UpdateExchangeRates | price_fetcher.py:57-70 | the new table is the refreshed table of the old one, and the table stays valid |
| Fetcher.ConvertPrice | price_fetcher.py:188-189 | a currency outside the table returns the price unchanged |
| Fetcher.ConversionMeaning | price_fetcher.py:177-191 | USD is the identity on numbers; a known currency multiplies by its rate; an unknown one passes the price through, even None; None in a known currency raises TypeError |
| Fetcher.CurrencySymbol | price_fetcher.py:204-212 | USD gets `$`, EUR `€`, RUB `₽`, UAH `₴`, KZT `₸`, and any other currency `$`; the glyph is `$` exactly for USD and the currencies outside the table |
| Fetcher.FormatPrecision | price_fetcher.py:214-221 | grouped exactly from 1000; 2 decimals exactly from 1; 4 exactly in [0.01, 1); 8 exactly below 0.01 |
| Fetcher.FormatPrecisionMonotone | price_fetcher.py:214-221 | a larger price never gets more decimals |
| Fetcher.FormatPrice | price_fetcher.py:193-221 | the text starts with `$` exactly when the currency is USD or outside the table, and after the glyph comes the amount rendered at the tier's precision |
| Fetcher.FormatPriceTiers | price_fetcher.py:214-221 | from 1000 the amount is grouped with 2 decimals; from 1, 2 decimals; from 0.01, 4; below that, 8 |
| Fetcher.AggregatorIdIgnoresCase | price_fetcher.py:88 | under ASCII casing, the aggregator id does not depend on the ticker's case; an unmapped ticker uses its lower-case form |
| Text.CaseMappingsAbsorb | price_fetcher.py:88 | upper/lower casing applied after either casing gives the same result as applying it once |
| Fetcher.AggregatorQuoteMeaning | price_fetcher.py:91-98 | the aggregator answers exactly when its status-200 JSON object has an `id` object with a `usd` field, and the answer is that field's value |
| PyJson.Subscript | price_fetcher.py:127 | `v[key]` succeeds exactly when `v` is a dict that has the key, and gives that key's value |
| PyJson.Index | price_fetcher.py:135 | `v[i]` succeeds exactly when `v` is a list or string with more than `i` items; it gives item `i` of a list and the one-character string at `i` of a string; otherwise a dict raises KeyError, a short list or string IndexError, anything else TypeError |
| Numbers.ParseFloatStrips | price_fetcher.py:127 | `float()` of a string reads exactly its `strip()`: the whitespace it ignores at either end is what `strip()` removes |
| Numbers.ParseNatText | price_fetcher.py:127 | `float()` of the decimal digits of a natural number gives that number |
| Numbers.ParseDecimal | price_fetcher.py:127 | `float("d.f")` for digit strings is the whole part plus the fraction |
| Numbers.ParseNegativeNatText | price_fetcher.py:127 | `float()` of a minus sign and the digits of n gives -n |
| Fetcher.ExtractRequiredKey | price_fetcher.py:126-148 | Binance without `price`, Coinbase without `data` and Kraken without `result` raise KeyError; otherwise Binance's price is `float(price)`, for a number or a numeric string alike |
| Fetcher.ExtractGuardAbsent | price_fetcher.py:128-143 | MEXC, OKX, KuCoin and Bitget without `data`, Bybit without `result` and HTX without `tick` give no price, without raising |
| Fetcher.ExtractFirstEntry | price_fetcher.py:128-131 | for MEXC and OKX an empty `data` list gives no price, and otherwise the price is `float(last)` of its first entry, for a number or a numeric string alike |
| Fetcher.ExtractBitfinex | price_fetcher.py:144-145 | a Bitfinex list of at most 6 items gives no price, and otherwise the price is `float(item 6)`, for a number or a numeric string alike |
| Fetcher.ExtractUpbit | price_fetcher.py:149-150 | Upbit's empty list gives no price, and otherwise the price is `float(trade_price)` of the first entry divided by 1300, for a number or a numeric string alike |
| Fetcher.ExtractKrakenEmpty | price_fetcher.py:146-148 | an empty Kraken `result` raises IndexError |
| Fetcher.ExtractKraken | price_fetcher.py:146-148 | Kraken's price is `float` of `c[0]` under the first key of a non-empty `result` |
| Fetcher.ExtractGateIo | price_fetcher.py:134-135 | Gate.io's empty list gives no price; otherwise the price is `float` of the first entry's `last`; a non-empty dict raises KeyError |
| Fetcher.ExtractBybit | price_fetcher.py:132-133 | Bybit's price is `float` of `lastPrice` in the first entry of `result.list` |
| Fetcher.ExtractNested | price_fetcher.py:136-143 | with the key present, KuCoin's price is `float` of `data.price`, HTX's of `tick.close` and Bitget's of `data.close` |
| Fetcher.ExtractCoinbase | price_fetcher.py:140-141 | Coinbase's price is `float` of `data.amount` |
| Fetcher.Quote | price_fetcher.py:152-154 | an exchange's quote, when it has one, is never zero |
| Fetcher.QuoteMeaning | price_fetcher.py:118-154 | an exchange has a quote only from a status-200 JSON reply whose rule gives a price without raising; the quote is that price, and it is kept exactly when it is not 0 |
| Fetcher.SkippedExchange | price_fetcher.py:118-158 | an exchange is skipped on a failed GET, a non-200 status, a non-JSON body, an exception, or a price of None or 0 |
| Fetcher.Winner | price_fetcher.py:118-154 | the winner is an exchange with a quote and no exchange before it has one; with no winner, no exchange has a quote |
| Fetcher.WinnerAt | price_fetcher.py:118-154 | an exchange with a quote, with none before it, is the winner |
| Fetcher.NoWinner | price_fetcher.py:118-161 | when no exchange has a quote there is no winner |
| Fetcher.TokenPrice | price_fetcher.py:72-161 | the lookup raises, and then RuntimeError, exactly when the fetcher has no session |
| Fetcher.NoSessionRaises | price_fetcher.py:84-85 | without a session the lookup raises RuntimeError before any request |
| Fetcher.AggregatorAnswers | price_fetcher.py:93-98 | an aggregator `usd` value is the result, even 0 or null, and no exchange is asked |
| Fetcher.ExchangeAnswers | price_fetcher.py:103-154 | with no aggregator answer, the first exchange with a quote gives the result (never 0), and exactly the aggregator and the exchanges up to it are asked |
| Fetcher.NoSourceAnswers | price_fetcher.py:156-161 | when no source answers, the result is None, not an error, after all 13 sources are asked once |
| Fetcher.ClosedSessionFindsNothing | price_fetcher.py:52-55 | after the context is left, a lookup no longer raises but finds nothing |
| Fetcher.PriceFetcher.FirstQuote | price_fetcher.py:118-158 | the exchange loop returns the winner, and asks exactly the exchanges up to the winner (all of them without one) |
| Fetcher.PriceFetcher.GetTokenPrice | price_fetcher.py:72-161 | the loop-based lookup returns the specified price and the specified sequence of sources asked |
| OrderedDict.ZipDict | price_fetcher.py:175 | `dict(zip(xs, ys))` has exactly the keys xs, each once, and each key maps to the y at its last occurrence |
| Fetcher.BatchMeaning | price_fetcher.py:173-175 | with a session the batch never fails; its keys are the symbols, each once, and each maps to its own lookup's price |
| Fetcher.PriceFetcher.LookUpEach | price_fetcher.py:173-174 | with a session, the lookups give one price per symbol, in order, each the price of that symbol's own lookup |
| Fetcher.BatchWithoutSession | price_fetcher.py:163-175 | without a session an empty list of symbols gives `{}` and does not raise; any other list raises the first lookup's RuntimeError |
| Fetcher.PriceFetcher.GetMultiplePrices | price_fetcher.py:163-175 | the loop over the symbols returns the specified batch, so it raises only without a session and on a non-empty list |
| Tracker.DefaultConfigKeys | crypto_tracker.py:139-149 | the defaults hold nine distinct keys |
| OrderedDict.UpdateWithEffect | crypto_tracker.py:155 | `d.update(pairs)` keeps keys distinct; keys are old ∪ new; given keys take their last given value and others keep theirs; old keys keep their positions |
| Tracker.LoadedConfigMeaning | crypto_tracker.py:139-162 | the loaded configuration has every default key and every file key once; file values win; without a loaded file it is exactly the defaults |
| Tracker.CryptoTrackerApp.LoadConfig | crypto_tracker.py:137-163 | the configuration becomes the loaded configuration and holds every default key |
| Tracker.CryptoTrackerApp.constructor | crypto_tracker.py:85-130 | the window has the loaded configuration, no update running, and the rows `create_widgets` made; it comes up exactly when the configured tokens iterate into strings, since a token that is not a string raises in `create_token_row` and in the `', '.join` |
| Text.Strip | crypto_tracker.py:645 | `strip()` is the stretch of the string that starts after its leading whitespace; everything outside the stretch is whitespace, neither end of the stretch is, and the result is empty exactly for an all-whitespace string |
| Text.Split | crypto_tracker.py:647 | `split(',')` gives at least one piece, and no piece contains the separator |
| Tracker.CleanPiecesContent | crypto_tracker.py:647 | the cleaned tokens are the non-blank pieces, each once and in order, stripped and upper-cased; no non-blank piece is dropped |
| Tracker.ParseTokensContent | crypto_tracker.py:645-647 | the parsed tokens are the non-blank pieces of the stripped entry split at commas, each once, in order (the piece positions strictly increase), each stripped and upper-cased, so each is non-empty, trimmed and free of commas and lower-case letters |
| Tracker.BlankEntryParsesEmpty | crypto_tracker.py:645-646 | an all-space entry parses to no tokens |
| Text.SplitJoin | crypto_tracker.py:358 | splitting the joined pieces at the separator gives back the pieces |
| Tracker.ParseJoinedTokens | crypto_tracker.py:358 | parsing the dialog's pre-filled entry `", ".join(tokens)` gives back the normalized token list |
| Tracker.TokensChangeGuard | crypto_tracker.py:645-649 | the tokens change exactly when the entry parses to a non-empty list that differs from the stored one; applying the same entry twice changes nothing the second time |
| Tracker.PrefillUnchanged | crypto_tracker.py:358 | confirming the dialog's pre-filled entry of a normalized list changes nothing |
| Tracker.CryptoTrackerApp.ApplyTokens | crypto_tracker.py:643-651 | only a parsed non-empty list that differs from the stored one replaces the tokens and rebuilds the rows; otherwise configuration and labels are unchanged |
| OrderedDict.PutEffect | crypto_tracker.py:649 | assigning a key keeps keys distinct, adds the key, maps it to the new value and leaves the other keys' values and positions alone |
| Tracker.StoreTokens | crypto_tracker.py:649 | storing a token list keeps every default key, the list reads back, and the configured rows are that list's rows |
| Tracker.CryptoTrackerApp.SetTokens | crypto_tracker.py:649-651 | the configuration's `tokens` becomes the new list and the labels are exactly that list's rows |
| Tracker.RowLabelsSnoc | crypto_tracker.py:210 | creating one more row adds exactly the upper-cased token's placeholder label |
| Tracker.LowercaseTokenHasNoLabel | crypto_tracker.py:210 | a token with a lower-case letter is never a label key |
| Tracker.CryptoTrackerApp.RebuildRows | crypto_tracker.py:212-223 | the old labels are dropped; there is one placeholder label per configured string token, keyed upper-case; success exactly when every token is a string |
| Tracker.LabelPrecision | crypto_tracker.py:286-293 | grouped with 0 decimals exactly from 1000; 2 exactly in [1, 1000); 4 exactly in [0.01, 1); 6 exactly below 0.01 |
| Tracker.LabelTiersMatchFormatTiers | crypto_tracker.py:286-293 | the label and `format_price` group the same prices, and agree on decimals exactly between 0.01 and 1000 |
| Tracker.LabelTextRoundTrip | crypto_tracker.py:296-299 | the amount can be read back from the label text, so different amounts give different labels |
| Tracker.LabelForMeaning | crypto_tracker.py:283-299 | a None price raises; a USD price shows as `$` and the amount; a price in another table currency is scaled and followed by the code; in a currency outside the table it is unscaled and followed by the code |
| Tracker.NullPriceRaises | crypto_tracker.py:283-286 | a None price raises whatever the currency |
| Tracker.ShowPrices | crypto_tracker.py:281-302 | the label loop keeps the set of labels, leaves tokens not in the batch alone, and completes exactly when no labelled entry raises |
| Tracker.ShowPricesSets | crypto_tracker.py:281-302 | with distinct tokens, a labelled entry gets its own text when neither it nor an earlier labelled entry raises |
| Tracker.ShowPricesStops | crypto_tracker.py:281-307 | after a labelled entry raises, no later label changes |
| Tracker.NullPriceAborts | crypto_tracker.py:281-307 | a labelled token priced None stops the loop, and no later label changes |
| Tracker.CryptoTrackerApp.ShowLabels | crypto_tracker.py:281-302 | the loop method leaves the labels the specified loop gives |
| Tracker.FetchPrices | crypto_tracker.py:275-277 | a fresh fetcher in its context gives the refreshed initial rates and the batch for the tokens, which never fails |
| Tracker.PriceUpdateFrame | crypto_tracker.py:274-302 | an update never adds or removes a label, and a label of a token outside the configured list keeps its text |
| Tracker.LowercaseTokensKeepPlaceholders | crypto_tracker.py:277-282 | when every configured token has a lower-case letter, an update completes and every row keeps its placeholder |
| Tracker.PriceUpdateAborts | crypto_tracker.py:274-307 | a token list that does not iterate to strings changes no label |
| Tracker.PriceUpdateRuns | crypto_tracker.py:274-302 | a token list of strings makes the update the label loop over its batch with the refreshed rates |
| Tracker.PriceUpdateOfList | crypto_tracker.py:277-281 | a stored list of strings is updated through the batch of exactly that list |
| Tracker.CryptoTrackerApp.BeginUpdate | crypto_tracker.py:268-271 | an update proceeds exactly when none is running, and the flag is then set |
| Tracker.CryptoTrackerApp.FinishUpdate | crypto_tracker.py:274-309 | the labels become the result of one update, and the flag is cleared whatever happened |
| Tracker.CryptoTrackerApp.UpdatePrices | crypto_tracker.py:266-309 | an update runs exactly when none is running: it then applies one update and clears the flag; otherwise flag and labels are unchanged |

The functions these lemmas are about model the source functions directly:
- `Fetcher.RefreshedRates` models `update_exchange_rates`.
- `Fetcher.AggregatorId` and `Fetcher.AggregatorQuote` model the aggregator step of `get_token_price`.
- `Fetcher.Extract` models each exchange's parser.
- `Fetcher.TokenPrice` models `get_token_price`, and `Fetcher.BatchPrices` models `get_multiple_prices`.
- `Tracker.LoadedConfig` models `load_config`.
- `Tracker.CleanPieces` and `Tracker.ParseTokens` model the parsing in `apply_tokens`, and `Tracker.TokensChange` models its guard.
- `Tracker.LabelFor` models the text one label gets in `update_prices`, and `Tracker.PriceUpdate` models one whole `update_prices` run.

## Left out

- HTTP itself (URLs, headers, the 10-second timeouts, `aiohttp`) is not modelled. Each GET's outcome is an input.
- The URL each exchange is asked with is not modelled; only the order and the answers are.
- Fetcher.PriceFetcher.GetMultiplePrices: the concurrent `asyncio.gather` is modelled as sequential lookups. The lookups share no state, so the resulting dict is the same.
- `print` and logging are left out everywhere.
- The GUI is left out: window geometry, fonts, colours, drag handling, the settings window's widgets, `update_window_size`.
- `save_config` and writing `config.json` are left out; the file's contents are an input.
- `update_loop` with its `sleep` and the background event-loop thread are left out.
- `apply_currency`, `apply_interval` and `apply_font` are outside this model's core.
- Tracker.CryptoTrackerApp.ApplyTokens: the `update_prices` it schedules on the event loop is not part of the call. It is modelled by `UpdatePrices` on its own.
- Tracker.CryptoTrackerApp.LoadConfig: a `config.json` whose top level is not a JSON object counts as unreadable. Python's `dict.update` would accept a list of key/value pairs.
- Tracker.LabelFor: a currency that is not a string raises TypeError here. Python would format it with `str()` when it is hashable.
- Fetcher.FormatPrice: the digits of the amount come from the `render` parameter; Python's float formatting and rounding are not modelled.
- Tracker.LabelFor: likewise, the digits come from `render`.
- Numbers are exact reals:
  - int and float are not told apart;
  - there is no floating-point rounding, NaN or infinity;
  - Fetcher.ExtractUpbit states the Upbit division exactly, without rounding.
- PyJson.Multiply: Python's sequence repetition (a string times an int) is not modelled; such a product raises TypeError here.
- Numbers: `float()` of a string has no `_` digit separators, `inf` or `nan`, and reads only ASCII digits (Python also accepts other Unicode decimal digits).
- Text.CaseMappingsAbsorb: `upper()` and `lower()` map ASCII letters only; Python's full Unicode casing (`'ß'.upper() == 'SS'`) is not modelled. The same limit holds for the members that rest on casing:
  - Fetcher.AggregatorIdIgnoresCase: the id does not depend on the ticker's case only under ASCII casing; in Python the id of `'ß'` is `'ß'` but that of `'SS'` is `'ss'`.
  - Tracker.CleanPiecesContent and Tracker.ParseTokensContent: tokens are upper-cased letter by letter, so a token keeps its length.
  - Tracker.LowercaseTokenHasNoLabel: "lower-case letter" means an ASCII one.
- Tracker.CryptoTrackerApp.FinishUpdate: when the token list does not iterate to strings, the model skips the rate refresh. The refresh belongs to a fresh fetcher that is discarded, so the difference cannot be observed.
- The `after(0, …)` label updates are applied at once, not queued on the GUI thread.
- Tracker.CryptoTrackerApp.RebuildRows: a row's ticker and price widgets are reduced to the price label's text.
