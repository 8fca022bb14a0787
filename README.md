# T-Mon client: a Dafny model

This is a model of the sequential core of `TMonClient`, the Python 2 client of the T-Mon web-tracking service. It covers four pieces:

- **Settings validation.** The constructor accepts only a dict. It then evaluates `config and config["url"] and config["wsid"] and config["secret"]` left to right, with Python truthiness and short-circuiting.
- **The collection address.** The configured server URL is joined to `/data/collect` without doubling the slash.
- **The delivery worker.** The worker computes `int(config["wsid"])`, serialises the fields to JSON and assembles the form posted to the collector. The form has `data` (the base64 of the JSON text), `wsid` and `signature` (the HMAC-SHA1 hex digest of the *unencoded* JSON text, keyed with `str(config["secret"])`).
- **`track`.** It starts one delivery worker when it is given at least one field, and none otherwise.

The modules are:

- `Wrappers` holds `Option` and `Result`.
- `PyValues` models Python values: the truthiness `and` relies on, `str()` and `int()`.
- `Settings` is the validation.
- `CollectUrl` builds the address. Its method mirrors `__send`'s reassignment of `server`, and a specification function sits beside it.
- `Delivery` holds the worker, `__send` and `__sign`.
- `Client` is the class, whose `config` is never reassigned and whose `deliveries` field records the workers started.

`json.dumps`, `base64.b64encode` and `hmac`/SHA-1 are foreign library code. They are fields of a `Library` value passed to the worker. The model states only how their results are wired together.

Points where the code behaves differently from what its names and docstrings suggest:

- A non-empty settings dict raises `KeyError` from the subscript, not `InvalidSettings`, when the first of `url`, `wsid`, `secret` that does not pass is absent rather than falsy. A falsy value earlier in that order raises `InvalidSettings()` even when a later key is missing. An empty dict also raises `InvalidSettings()`, because the dict's own truth value is tested first. So the load-test tool's `except TMonClientError` does not catch a missing key.
- The `signature` field is always sent. The docstring of `__sign` speaks of AES, but the code computes HMAC-SHA1.
- The worker serialises every field exactly as `track` received it. An empty `username` is therefore sent as an empty string, never omitted. The load-test tool sends `username=""` for anonymous requests (`src/rjdj/tmon/tools/request_generator.py:65-75`).
- Validation tests truthiness only. A web-service id such as `"abc"` is accepted, and `int()` then rejects it on every delivery. That conversion happens before the `try`, so the worker thread ends without posting and without the client's error log (`ValidationAdmitsUnconvertibleWsid`, `TrackWorker`).

## Model

| member | source | states |
|---|---|---|
| `PyValues.DecimalRoundTrip` | src/rjdj/tmon/client/__init__.py:110 | `int()` of the decimal text of any integer gives that integer back |
| `PyValues.Truthy` | src/rjdj/tmon/client/__init__.py:90-93 | the values the `and` chain treats as false are exactly None, False, 0, the empty string and other objects that are falsy |
| `PyValues.PyInt` | src/rjdj/tmon/client/__init__.py:110 | `int()` converts every integer to itself and a bool to 1 or 0, rejects None, and accepts a string only if it contains a digit |
| `PyValues.PyStr` | src/rjdj/tmon/client/__init__.py:142 | `str()` leaves a string unchanged and gives an integer a text that `int()` parses back to it |
| `PyValues.ParsedTextHasADigit` | src/rjdj/tmon/client/__init__.py:110 | a string that `int()` accepts contains a digit |
| `Settings.FirstFailure` | src/rjdj/tmon/client/__init__.py:90-93 | the short-circuit `and` over the keys stops at the first key that is absent or falsy, and every key before it is present and truthy; it reaches the end exactly when all keys pass |
| `Settings.Validate` | src/rjdj/tmon/client/__init__.py:85-94 | a non-dict raises `InvalidSettings(type)`; every `InvalidSettings` raised for a dict is the bare `InvalidSettings()`; an empty dict raises it; success exactly when `url`, `wsid`, `secret` are all present and truthy, and the stored config is the dict unchanged; a `KeyError` names the first absent key reached, after only passing keys; a non-empty dict rejected with `InvalidSettings()` has a falsy value at the first failing key |
| `Settings.ValidConfig` | src/rjdj/tmon/client/__init__.py:89-94 | a config a client can hold has all three keys with truthy values |
| `Settings.LaterKeysNeverExamined` | src/rjdj/tmon/client/__init__.py:90-94 | keys after the first failing one are never looked at: any other non-empty dict that agrees on the keys up to that one fails with the same exception |
| `Settings.AbsentUrlIsKeyError` | src/rjdj/tmon/client/__init__.py:90-91 | a dict without `url` raises `KeyError("url")`, not `InvalidSettings` |
| `Settings.FalsyUrlShadowsAbsentWsid` | src/rjdj/tmon/client/__init__.py:90-92 | an empty `url` raises `InvalidSettings` before the missing `wsid` is looked up |
| `Settings.ValidationAdmitsUnconvertibleWsid` | src/rjdj/tmon/client/__init__.py:90-94 | a non-numeric string id passes validation, and `int()` rejects it |
| `CollectUrl.TargetUrl` | src/rjdj/tmon/client/__init__.py:125-132 | the address starts with the server URL and ends with `/data/collect`; it is 12 characters longer than the URL when the URL ends in `/`, 13 otherwise |
| `CollectUrl.CollectionUrl` | src/rjdj/tmon/client/__init__.py:125-132 | the imperative join computes exactly `TargetUrl` of the server URL |
| `CollectUrl.TargetUrlDetermined` | src/rjdj/tmon/client/__init__.py:127-132 | prefix, suffix and length determine the address: any string with them is `TargetUrl` |
| `CollectUrl.SingleSlashSeam` | src/rjdj/tmon/client/__init__.py:127-130 | a URL that ends in one slash gives the same address as the URL without it, which is the URL plus `/data/collect` |
| `CollectUrl.NoDoubledSlash` | src/rjdj/tmon/client/__init__.py:127-130 | right after the server URL comes `d` when the URL ends in `/`, and `/` otherwise |
| `CollectUrl.DocumentedExamples` | src/rjdj/tmon/client/__init__.py:125-132 | `http://example.com` and `http://example.com/` both give `http://example.com/data/collect` |
| `Delivery.Send` | src/rjdj/tmon/client/__init__.py:120-142 | a string URL gives a post to `TargetUrl(url)` whose form has exactly the keys `data`, `wsid`, `signature`: base64 of the text, the id, and the HMAC keyed by `str(secret)` of the unencoded text; a non-string URL fails inside the `try` |
| `Delivery.TrackWorker` | src/rjdj/tmon/client/__init__.py:107-117 | the worker ends before the `try` exactly when the id does not convert, whatever the fields; otherwise a JSON failure is swallowed, and so is a non-string URL once the JSON succeeds; a post happens exactly when the id converts, the fields serialise and the URL is a string |
| `Delivery.PostedForm` | src/rjdj/tmon/client/__init__.py:107-142 | a posted request has exactly the three form keys, `data = b64(json(fields))`, `signature = hmac(str(secret), json(fields))` and `wsid = int(config["wsid"])` |
| `Delivery.PostedRequestVerifies` | src/rjdj/tmon/client/__init__.py:133-142 | with a base64 decoder that inverts the encoder, a receiver holding the secret recovers the exact JSON text from `data` and finds that the signature matches it |
| `Delivery.Sign` | src/rjdj/tmon/client/__init__.py:139-142 | no contract of its own: what `__sign` computes (the HMAC-SHA1 hex digest keyed with `str(secret)`) is stated by `Delivery.Send`'s `signature` clause and by `Delivery.PostedForm` |
| `Delivery.WsidSpellingIrrelevant` | src/rjdj/tmon/client/__init__.py:110 | an integer id (as in the class docstring) and its decimal string (as a config file gives it) both pass validation and lead to the same delivery |
| `Delivery.RequestDependsOnJsonOnly` | src/rjdj/tmon/client/__init__.py:110-136 | fields with the same JSON text lead to the same request |
| `Client.TMonClient.constructor` | src/rjdj/tmon/client/__init__.py:89 | the client stores the validated dict as its config and has started no deliveries |
| `Client.TMonClient.Create` | src/rjdj/tmon/client/__init__.py:85-94 | construction fails exactly when `Validate` does, with its exception and no object; on success a fresh client holds the dict unchanged |
| `Client.TMonClient.Track` | src/rjdj/tmon/client/__init__.py:98-104 | no fields start no delivery; one or more fields start exactly one delivery carrying exactly those fields; the client stays valid |

## Left out

- Threads are not modelled: creating the worker thread, `daemon`, `join` and the class-level `DEBUG` flag are concurrency. Only the "start zero or one delivery" decision is kept, as the `deliveries` record.
- The network is not modelled: the `urllib2.urlopen` POST, reading its response and `urllib.urlencode` are I/O and foreign code. The model stops at the request handed to them, so a network failure (swallowed by the `try`) is not represented.
- The logging of swallowed errors is not modelled: formatting `ERROR_MESSAGE`, `logging.debug` and `print` are a side channel. The model only says at which stage the worker failed.
- For `int()` raising before the `try`, the traceback Python's threading module prints is not modelled.
- The internals of `json.dumps`, base64 (RFC 4648, section 4) and HMAC (RFC 2104) with SHA-1 (FIPS 180-4) are not modelled. They are parameters of the worker.
- `PyValues.PyInt`: `int()` of floats, of objects with `__int__` and of non-ASCII digits is not modelled. Such values are `OtherValue`, and `int()` of them counts as a failure. For strings, the model accepts surrounding ASCII whitespace, one optional sign and ASCII digits. Other spellings that CPython 2 accepts count as failures in the model. One is whitespace between the sign and the digits: CPython 2 gives `int("- 1") == -1`. For such a `wsid` the model gives `WsidNotConvertible` where the source posts the id.
- `PyValues.PyStr`: Python 2's `str`/`unicode` split is not modelled. The `UnicodeEncodeError` that `str()` raises for a non-ASCII unicode secret and `b64encode` of non-ASCII unicode are not represented.
- `Client.TMonClient.constructor`: the dict is stored by reference in Python, so later changes by the caller reach the client. The model stores it as a value.
- `Settings.Validate`: dict subclasses that override `__missing__`, `__getitem__`, `__len__` or `__nonzero__` are not modelled. They behave differently:
  - A `collections.Counter` without `url` answers the lookup with a falsy 0, so it raises `InvalidSettings()` instead of `KeyError`.
  - A `collections.defaultdict` inserts its default for every absent key. Construction can then succeed, storing a dict the constructor has changed.
- `Client.TMonClient.Track`: call-binding errors are not modelled. A `track` call never receives a `self` field: Python raises `TypeError` for `track(**{"self": v})` before the body runs, where the model would start a delivery.
- Settings dicts with non-string keys are not modelled. Such keys never match `url`, `wsid` or `secret`.
- The load-test driver (`src/rjdj/tmon/tools/request_generator.py`), the Django test layer (`src/rjdj/tmon/tests.py`) and `setup.py` are not part of this model: they hold no client logic. The `AES` named in the class docstring and in the docstring of `__sign` (lines 59 and 140) is not implemented: the code signs with HMAC-SHA1.
