# Keno products endpoint — verified model

This project models `api/products.ts`, a serverless `GET /api/products` handler. The handler is a caching proxy in front of the Keno catalog API. It rejects requests without an API key (500) or with a method other than `GET` (405). It serves a warm-instance cache entry under `keno-lt-78` while that entry is under ten minutes old. Otherwise it calls the vendor's `GetProductBase`, projects `description` and `long_description` onto their `lt` text, keeps the rows of sub-category 78 in their original order, caches the payload stamped with the request-start time, and returns it. Any failure while fetching is answered with 502 and leaves the cache entries alone.

Modules:

- `Options` (`options.dfy`): `Option` and `Result`.
- `Text` (`text.dfy`): decimal numerals. These are used for the `KENO API <status>` message and for the `78` inside the cache key.
- `Catalog` (`catalog.dfy`): raw and normalized product rows, the normalization, and the loop over `products_base` (`NormalizeAndFilter`). The loop is specified by the function `Selected`.
- `Products` (`products.dfy`): the response and upstream shapes, the cache lookup and store, and the specification `Fetched` of the `try` block. It also holds the class `WarmInstance`, whose field `bucket` is `globalThis.__kenoCache`, and whose method `Handle` is the handler.

Inputs from the outside world are parameters of `Handle`:

- `env` stands for `process.env`.
- `httpMethod` stands for `req.method`.
- `now` stands for `Date.now()`.
- `upstream` stands for the outcome of `fetch` and `apiRes.json()`.

The response is returned as a value, and so is the upstream request the handler would send (`sent`, which is `None` when no call is made).

## Model

| member | source | states |
|---|---|---|
| `Products.WarmInstance.Handle` | api/products.ts:7-78 | An empty or absent key gives 500 whatever the method, with no call and an unchanged cache. A key plus a non-GET method gives 405 with `Allow: GET`, no call, and an unchanged cache. A fresh entry gives 200 with `X-Data-Source: cache` and the stored payload, with no call and an unchanged cache. On a miss the product-base request carries the key; success gives 200 with the payload, which is stored under the key with `when = now`; any failure gives 502 with the error message and leaves the entries as they were, though an absent bucket is now `{}`. |
| `Products.WarmInstance.constructor` | api/products.ts:27-28 | A cold instance has no cache bucket. |
| `Products.ApiKey` | api/products.ts:14 | The key is the environment value, or `""` when the variable is absent. |
| `Products.Lookup` | api/products.ts:29-30 | It hits exactly when an entry exists under the key and `now - when < 600000`, which is a strict bound. It then yields that entry's payload. |
| `Products.Store` | api/products.ts:71 | The key maps to the payload stamped `now`. No other key is added or changed. |
| `Products.LookupAfterStore` | api/products.ts:30-71 | After a store at `now`, a lookup at `later` returns the stored payload exactly when `later < now + 600000`, and misses otherwise. |
| `Products.FetchedOutcome` | api/products.ts:53-73 | The fetch succeeds exactly for a 2xx reply with a decoded body and no truthy `errors` field. A non-2xx reply fails with `KENO API <status>`, and truthy `errors` fails with their text. On success the payload keeps `connection_status`, and its k-th row is the normalized input row at the k-th position whose coerced id is 78: the sub-category rows, in their original order, with repeats kept. |
| `Products.StatusMessageIdentifiesStatus` | api/products.ts:53 | Two different non-ok statuses give different 502 messages. |
| `Products.Fetched` | api/products.ts:40-76 | The `try` block as a value. A rejected `fetch` or an undecodable body gives its exception message. A non-2xx reply gives `KENO API <status>`, and a truthy `errors` field gives its text. Otherwise the result is the payload of the vendor's connection status with `Selected(products_base)`. |
| `Products.IsOkStatus` | api/products.ts:53 | `apiRes.ok`: the status lies in 200 to 299. |
| `Products.IsFresh` | api/products.ts:30 | An entry is fresh while `now - when` is below `TTL_MINUTES * 60e3`, which is 600000 ms. |
| `Products.ProductBaseRequest` | api/products.ts:41-49 | The upstream call is a POST to the Keno endpoint with the API key, method `GetProductBase` and no parameters. |
| `Products.RefetchAfterTtl` | api/products.ts:26-73 | After a successful miss at `now`, a GET at any `later >= now + 600000` misses: it issues the product-base request, and on success it serves the new payload and overwrites the entry with it, stamped `later`. |
| `Products.CacheKeyIsLiteral` | api/products.ts:4-25 | The key `keno-lt-${SUBCATEGORY_ID}` is `keno-lt-78`. |
| `Products.RepeatWithinTtl` | api/products.ts:26-36 | After a successful miss at `now`, a request at any `later < now + 600000` is a cache hit that serves the payload just stored, with no upstream call. |
| `Catalog.LocaleText` | api/products.ts:62-63 | `t?.lt ?? null`: the `lt` entry of a present text field, and `null` for an absent field or a field without `lt`. |
| `Catalog.Normalize` | api/products.ts:62-63 | The loop body's two overwrites: both text fields become their `LocaleText`, and the sub-category and all other fields are copied. |
| `Catalog.InSubcategory` | api/products.ts:64 | `+p.subcategory_id === SUBCATEGORY_ID`: the coerced id is the integer 78. `NaN`, modelled as `None`, never matches. |
| `Catalog.NormalizeAndFilter` | api/products.ts:57-65 | `total` is the number of input rows and `keep` has at most `total` rows. `keep` is `Selected(rows)`, the normalized rows of sub-category 78 in input order. |
| `Catalog.Selected` | api/products.ts:60-65 | The kept list is no longer than the input, and every kept row has coerced `subcategory_id` 78. |
| `Catalog.KeptIndices` | api/products.ts:64 | The kept positions are in range and strictly increasing. A position is among them exactly when its row's coerced id is 78. |
| `Catalog.SelectedIsOrderedSubsequence` | api/products.ts:60-65 | The k-th kept row is the normalized input row at the k-th kept position. So the kept list is the ordered subsequence of sub-category-78 rows. |
| `Catalog.SelectedMembers` | api/products.ts:64 | A row is in the kept list if and only if it is the normalization of an input row whose coerced id is 78. |
| `Catalog.SelectedAppend` | api/products.ts:60-65 | Filtering a concatenation is the concatenation of the filtered parts, so the pass works row by row. |
| `Catalog.NormalizeProjects` | api/products.ts:62-63 | Each text field becomes its `lt` entry when the field is present and has one, and `null` otherwise. The sub-category and every other field are unchanged. |
| `Catalog.NormalizeLocalize` | api/products.ts:62-63 | Normalizing a row that carries only the `lt` text gives back the normalized row, so nothing a normalized row holds is lost. |
| `Catalog.NormalizeIgnoresOtherLocales` | api/products.ts:62-63 | Rows that agree on their `lt` texts and on all other fields normalize identically. |
| `Text.ValueOfDecimal` | api/products.ts:53 | The numeral used in the status message reads back as the status. |
| `Text.DecimalInjective` | api/products.ts:53 | Different numbers are rendered as different numerals. |
| `Text.Decimal` | api/products.ts:25 | A numeral is a non-empty string of digits with no leading zero. |

`Products.ColdWarmExpire` is a worked scenario, not a model of a source operation. It runs one fixed sequence of requests on a cold instance: a fetch, a cache hit five minutes later, a failed refetch after eleven minutes that keeps the old entry, a rejected `POST`, and a successful refetch that overwrites the entry. Assertions after each step show what the contracts above let a caller conclude.

## Left out

- Network, the Vercel `req`/`res` objects and JSON decoding are foreign calls. `fetch` and `apiRes.json()` become the `Upstream` parameter: a rejection message, a reply status, an undecodable body with its exception message, or a decoded body. Serialisation of the response is not modelled.
- Logging and timing (`console.log`, `console.time`, `console.error`) have no effect on behaviour and are left out.
- Concurrency: parallel invocations racing on the shared cache are not modelled; calls are sequential.
- `+p.subcategory_id` is abstracted to `Option<int>`, with `None` for `NaN`. The model does not keep the raw id separately, so a row in the payload carries the coerced id rather than the vendor's original value, for example the string `"78"`.
- Locale maps are `map<string, string>`. An explicit `lt: null` is treated like a missing `lt`, which gives the same `null`. A text field that is not an object (a number, say) is treated as absent, which also gives `null`.
- The loop overwrites the text fields of every row in place, including rows it does not keep. The model builds a new normalized record instead. The overwritten but dropped rows are never observed afterwards, and aliasing between `raw.products_base` and the payload is not modelled.
- A `products_base` that is not iterable, or a row that is `null`, makes the loop throw a `TypeError`, which would give 502. These cases are not modelled: rows are always records.
- `connection_status` is modelled as a string. Other JSON values the vendor might send there, such as a missing field or a number, are not distinguished.
- The `errors` field is modelled as `Some(text)` when it is truthy, where `text` is the message `new Error(raw.errors)` gets. A falsy `errors` is `None`.
