# Alpha Vantage client: request building and response unpacking

This project models the `AlphaVantage` class of the Python Alpha Vantage
client (`alpha_vantage/alphavantage.py`). Each of its `get_*` operations turns
a call into one HTTP GET URL against `http://www.alphavantage.co/query?`, asks
the service, and splits the decoded JSON answer into a data object and a
meta-data object.

Modules:

- `Wrappers` holds `Option` and `Result`. `Sequences` holds the search for an element's first and last position (Python's `list.index`).
- `Json` holds the decoded JSON values. `Errors` holds the ways a call fails, one constructor per kind of failure.
- `Decimal` models Python's `int()` on integer text and `str()` on integers. `ParseInt` inverts `IntToString`.
- `Query` describes a request as a list of `name=value` parameters (`Render`, `RequestUrl`).
  - `Request` gives the shape every request shares: `function`, `symbol`, the function's own parameters, and `apikey` last.
  - `ParseQuery` is an independent reader of the query string. `ParseRender` proves it gives back the parameter list.
  - `Select`/`Distinct` say which optional parameters appear, in which order, and at most once.
- `MovingAverage` holds the nine-name moving-average table and the resolution that `get_macdext` applies to its `*matype` arguments.
- `Response` models `_handle_api_call`.
- `Requests` holds:
  - the parameter list of every operation;
  - the fixed-format URL expressions, each proved equal to the rendering of its parameter list;
  - the properties of the optional parameters.
- `Client` holds the class `AlphaVantage`:
  - the `key` field, set by the constructor;
  - `New`, which is the constructor's `None` check;
  - one method per `get_*` operation. `GetMama`, `GetMacd` and `MacdextUrl` (for `GetMacdext`) build their URL step by step, as `get_mama`, `get_macd` and `get_macdext` do.

Each `Get*` method is proved against its parameter list: its result is
`HandleApiCall` applied to the service's answer for `RequestUrl` of that list.

## Model

| member | source | states |
|---|---|---|
| Client.AlphaVantage.constructor | alpha_vantage/alphavantage.py:19-22 | the client keeps the key it was given |
| Client.AlphaVantage.New | alpha_vantage/alphavantage.py:19-22 | creation fails with the missing-key error exactly when no key is given; otherwise the new client holds that key |
| Response.HandleApiCall | alpha_vantage/alphavantage.py:24-44 | an empty answer fails with "no return message"; an answer with "Error Message" fails and carries that message; otherwise a missing data key, then a missing meta-data key, fails as a key error; the call succeeds exactly when the answer is non-empty, has no "Error Message", and has both keys, and then returns the two stored entries |
| Response.UnpackReturnsStoredEntries | alpha_vantage/alphavantage.py:42-44 | storing data and meta data under two distinct keys in an answer without "Error Message" gives back exactly those two values |
| Response.ErrorMessageWins | alpha_vantage/alphavantage.py:35-38 | an "Error Message" entry makes the call fail with that message, whatever else the answer holds |
| Client.AlphaVantage.GetIntraday | alpha_vantage/alphavantage.py:58-77 | the result is the unpacking, under "Time Series (interval)" and "Meta Data", of the answer to the intraday request |
| Requests.IntradayUrl | alpha_vantage/alphavantage.py:72-75 | the intraday format expression is the rendering of function, symbol, interval, outputsize and apikey, in that order |
| Requests.IntradayPaddingTrails | alpha_vantage/alphavantage.py:73-75 | the URL string `get_intraday` formats is the regular request URL with the plain key, followed by eight spaces |
| Requests.IntradayKeyReadBack | alpha_vantage/alphavantage.py:73-75 | the URL string `get_intraday` passes to `_data_request` ends with the key followed by eight spaces; reading that string back gives a key different from the client's |
| Client.AlphaVantage.GetDaily | alpha_vantage/alphavantage.py:79-94 | the result is the unpacking, under "Time Series (Daily)", of the answer to the daily request |
| Requests.DailyUrl | alpha_vantage/alphavantage.py:90-93 | the daily format expression is the rendering of function, symbol, outputsize and apikey |
| Requests.DailyAlwaysSendsOutputsize | alpha_vantage/alphavantage.py:91-93 | the daily request always carries outputsize, in third place, whatever its value |
| Client.AlphaVantage.GetWeekly | alpha_vantage/alphavantage.py:97-108 | the result is the unpacking, under "Weekly Time Series", of the answer to the weekly request |
| Requests.WeeklyUrl | alpha_vantage/alphavantage.py:105-107 | the weekly format expression is the rendering of function, symbol and apikey |
| Client.AlphaVantage.GetMonthly | alpha_vantage/alphavantage.py:110-121 | the result is the unpacking, under "Monthly Time Series", of the answer to the monthly request |
| Requests.MonthlyUrl | alpha_vantage/alphavantage.py:118-120 | the monthly format expression is the rendering of function, symbol and apikey |
| Client.AlphaVantage.GetIndicator | alpha_vantage/alphavantage.py:123-302 | for SMA, EMA, WMA, DEMA, TEMA, TRIMA, KAMA and T3, the result is the unpacking, under "Technical Analysis: " plus the function key, of the answer to the indicator request |
| Requests.IndicatorUrl | alpha_vantage/alphavantage.py:136-139 | the shared indicator format expression is the rendering of function, symbol, interval, time_period, series_type and apikey |
| Query.UrlShape | alpha_vantage/alphavantage.py:106-107 | every request URL is the base URL, then `function=` and `&symbol=`, then each of the function's parameters as `&name=value`, then `&apikey=` and the key |
| Query.ParseRender | alpha_vantage/alphavantage.py:73-75 | splitting a rendered query on `&` and then on the first `=` gives back every parameter, once, in order, when names hold neither `&` nor `=` and values hold no `&` |
| Client.AlphaVantage.GetMama | alpha_vantage/alphavantage.py:256-283 | the URL built step by step is the rendering of the MAMA parameter list, and the result is its unpacking under "Technical Analysis: MAMA" |
| Requests.MamaUrlText | alpha_vantage/alphavantage.py:274-282 | the MAMA URL is the required part, then `&fastlimit=` and `&slowlimit=` text only for truthy values, then the key |
| Requests.MamaNames | alpha_vantage/alphavantage.py:278-282 | the MAMA parameter names in order, with fastlimit and slowlimit present exactly when truthy |
| Requests.MamaOnce | alpha_vantage/alphavantage.py:274-282 | in a MAMA request, no name repeats and only declared names appear; each limit appears exactly when truthy; the key comes last |
| Client.AlphaVantage.GetMacd | alpha_vantage/alphavantage.py:304-332 | the URL built step by step is the rendering of the MACD parameter list, and the result is its unpacking under "Technical Analysis: MACD" |
| Client.AddPeriods | alpha_vantage/alphavantage.py:325-330 | fastperiod, slowperiod and signalperiod are appended in that order, each only when truthy |
| Requests.Optional | alpha_vantage/alphavantage.py:325-326 | an optional argument contributes its parameter exactly when truthy, with its text as value |
| Requests.MacdUrlText | alpha_vantage/alphavantage.py:321-331 | the MACD URL is the required part, then the text of each truthy period in the order fast, slow, signal, then the key |
| Requests.MacdNames | alpha_vantage/alphavantage.py:325-331 | the MACD parameter names in order, with each period present exactly when truthy |
| Requests.MacdOnce | alpha_vantage/alphavantage.py:321-331 | in a MACD request, no name repeats and only declared names appear; each period appears exactly when truthy; the key comes last |
| Client.AlphaVantage.GetMacdext | alpha_vantage/alphavantage.py:334-407 | when a moving-average argument fails to resolve, the call fails with that error and asks the service nothing; otherwise the result is the unpacking, under "Technical Analysis: MACDEXT", of the answer to the rendering of the MACDEXT parameter list |
| Client.MacdextUrl | alpha_vantage/alphavantage.py:374-405 | building the MACDEXT URL step by step fails with the query's error when a moving-average argument does not resolve, and otherwise gives the rendering of the MACDEXT parameter list |
| Client.AddMaType | alpha_vantage/alphavantage.py:384-390 | a falsy moving-average argument adds nothing; a truthy one adds `&name=code` with its resolved code, or fails with the resolution's error |
| Requests.MaOptional | alpha_vantage/alphavantage.py:384-390 | the moving-average parameter is absent for a falsy argument; otherwise it holds the decimal text of the resolved code, or the call fails with the resolution's error |
| Requests.MacdextUrlText | alpha_vantage/alphavantage.py:374-405 | the MACDEXT URL is the MACD text, then each resolved moving-average parameter in the order fast, slow, signal, then the key |
| Requests.MacdextFailure | alpha_vantage/alphavantage.py:384-404 | MACDEXT fails exactly when some truthy moving-average argument does not resolve; the error is that of the first such argument, in the order fast, slow, signal |
| Requests.MacdextNames | alpha_vantage/alphavantage.py:378-405 | the MACDEXT parameter names in order; each period and each moving-average type is present exactly when truthy |
| Requests.MacdextOnce | alpha_vantage/alphavantage.py:374-405 | in a MACDEXT request, no name repeats and only declared names appear; each optional parameter appears exactly when truthy; the key comes last |
| Requests.MacdextResolvedExample | alpha_vantage/alphavantage.py:384-404 | "KAMA" is sent as 7; the integer 0 is falsy and omitted; the string "0" is truthy and sent |
| Requests.MacdextErrorExample | alpha_vantage/alphavantage.py:384-404 | an unknown name after a valid one fails the call with that name, and later arguments are not consulted |
| MovingAverage.ResolveMaType | alpha_vantage/alphavantage.py:386-389 | an int passes through; integer text gives its value; any other string gives its position in the table, or fails naming the string |
| MovingAverage.NameResolvesToCode | alpha_vantage/alphavantage.py:17-18 | the name at position i of the table resolves to i |
| MovingAverage.IntegerTextPassesThrough | alpha_vantage/alphavantage.py:386-387 | the text of any integer resolves to that integer, with no range check |
| MovingAverage.ResolveFailsExactly | alpha_vantage/alphavantage.py:386-389 | resolution fails exactly for a string that is neither integer text nor a table name, and the error names it |
| MovingAverage.NamedCodesInRange | alpha_vantage/alphavantage.py:17-18 | a resolved name gives a code from 0 to 8 whose table entry is that name |
| MovingAverage.NameExamples | alpha_vantage/alphavantage.py:364-372 | EMA is 1 and KAMA is 7 |
| MovingAverage.IntegerExamples | alpha_vantage/alphavantage.py:386-387 | "4" gives 4; "-1" gives -1; "007" gives 7, which is written as "7" |
| MovingAverage.ErrorExamples | alpha_vantage/alphavantage.py:388-389 | matching is case-sensitive: "ema" and "bogus" fail |
| Decimal.ParseIntToString | alpha_vantage/alphavantage.py:387-390 | the decimal text of any integer is integer text, and `int()` of it gives the integer back |

## Left out

- `urlopen` strips surrounding whitespace from the URL before sending it, so the eight spaces that end the intraday URL string never reach the service. The model stops at the URL string `_data_request` receives (`Requests.IntradayUrl`, `Requests.IntradayPaddingTrails`, `Requests.IntradayKeyReadBack`); what is sent on the wire is not modelled.
- `_data_request` (lines 46-56) does network I/O and JSON decoding. The model replaces it with a parameter `api` that maps a URL to the decoded answer. A network error, an HTTP error and undecodable text are therefore not modelled.
- The JSON answer is assumed to be an object. A top-level array, string or number (which Python would index differently) is not modelled.
- The Python 2/3 import shim (lines 1-8) and the `__main__` demonstration (lines 410-413) are not part of this model.
- Arguments other than the moving-average types are passed as the text `format` writes for them: `Arg(text, truthy)`, or plain strings for required ones, such as `"20"` for the default `time_period=20`. Python's `str()` of floats and other objects is not modelled.
- `int()` is modelled on `[+-]?[0-9]+` only. Surrounding whitespace, underscores and non-ASCII digits, which Python also accepts, are not modelled. Nor are `int()` of a float or a bool.
- The client does no URL encoding. `Query.ParseRender` therefore holds only for parameters whose names hold no `&` or `=` and whose values hold no `&`.
- Python raises exceptions; the model returns `Failure` with one `Error` constructor per kind of failure: `ValueError` for the missing key, for the API's error message and for the empty answer, `KeyError` for a missing entry, and `ValueError` from `list.index`. Exception messages are not modelled.

The model follows the code as written, including these behaviours:

- The `get_macdext` docstring (alpha_vantage/alphavantage.py:352) says the moving-average types default to 0 and accept integers 0-8. In the code, however, a moving-average argument of integer 0, or any other falsy value, is left out of the request, and any other integer is passed through unchecked.
- An unresolvable moving-average name fails with the `list.index` error (`NotInMathMap`).
- The `_handle_api_call` docstring (alpha_vantage/alphavantage.py:26) says it raises a `ValueError` on problems. A missing data or meta-data entry in the answer, however, raises a `KeyError` from unguarded indexing (`KeyNotFound`).
- `get_daily` always sends `outputsize`, defaulting to `compact`.
- The intraday URL string ends with eight spaces after the key. They come from the indentation after the backslash continuation inside its string literal.
