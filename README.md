# sjtu-questionnaire in Dafny

A model of the `sjtuq` client for the SJTU questionnaire export API
(wj.sjtu.edu.cn). It covers three parts of the package:

- **Endpoint resolution** in `SJTUQuestionnaire.__init__`. The argument is
  either an export URL or a 32-digit lower-case hexadecimal key.
- **The single-page fetch** `get_data` and **the all-pages fetch**
  `get_all_data`. The all-pages fetch validates its arguments and sends a
  one-row probe. It stops when the probe fails. Otherwise it reads
  `data.total`, requests pages `1 .. int(total/100)+1` with 100 rows each,
  and concatenates every page's `data.rows` in page order.
- **The query value objects** of `sjtuq/param.py`: `QuestionFilter`,
  `Param`, `Sort` and `Query`.

The HTTP GET is an oracle `http(url, query)`. It maps a query dict to the
decoded body of the response. `get_all_data` is modelled with its two loops
run one after the other, in submission order.

Files:

- `outcomes.dfy`: the exceptions raised (`TypeError`, `ValueError`,
  `KeyError`, `AttributeError`), and `Option`/`Result`.
- `json.dfy`: Python's JSON-shaped values. A dict is an ordered list of
  entries. `Put` is dict assignment and `Get` is lookup. The file also has
  Python truthiness, `in`, `[]` and iteration. `Text(doc)` stands for the str
  that `json.dumps(doc)` returns, so a doubly encoded value stays
  inspectable. `Body` is a value that `response.json()` can return: it has
  no `Text` and no repeated key.
- `params.dfy`: `sjtuq/param.py`. Filters, parameters and sort orders are
  immutable values. `Query` is a class with two fields that its setters
  replace.
- `client.dfy`: `sjtuq/__init__.py`. The class `Questionnaire` holds `url`
  and `hasLogger`. The function `FetchAll` is the reference definition of
  `get_all_data`. It gives the requests sent, in order, and the result or
  exception. The method `GetAllData` runs the loops and is proved equal to
  `FetchAll`.

## Model

| member | source | states |
|---|---|---|
| Client.ResolveUrl | sjtuq/__init__.py:45-50 | The URL is accepted exactly when it starts with the export prefix or is a key. A prefixed string is stored verbatim, and the prefix test wins over the key test. Anything else raises ValueError. Every stored URL starts with the prefix. |
| Client.KeyUrl | sjtuq/__init__.py:47-48 | A key becomes the export template with the key in the `{key}` slot. The key can be read back from characters 44 to 75 of that URL. |
| Client.KeyUrlInjective | sjtuq/__init__.py:47-48 | Two keys that give the same URL are the same key. |
| Client.ResolveUrlIdempotent | sjtuq/__init__.py:45-48 | Resolving a resolved URL again gives the same URL. |
| Client.UpperCaseKeyRejected | sjtuq/__init__.py:47-50 | Any 32-character string with an upper-case hexadecimal digit at some position is no key and raises ValueError. |
| Client.Questionnaire.constructor | sjtuq/__init__.py:46-58 | Stores the URL and the logger flag. It only accepts a URL that starts with the export prefix, the only kind `__init__` can store. |
| Client.Questionnaire.New | sjtuq/__init__.py:45-58 | Construction succeeds exactly when the URL resolves, and otherwise raises ValueError. On success the object holds the resolved URL, and `hasLogger` is true exactly when a logger was given. |
| Client.Request | sjtuq/__init__.py:82-98 | None counts as an empty dict. Any other non-dict, or a sort that is not "asc" or "desc", raises ValueError (`ValidArguments` states the accepted arguments once). Otherwise the query has exactly the keys "sort" and "params", in that order. "sort" holds the encoded `{"id": sort}` and "params" holds the encoded caller dict. A dict argument never repeats a key, as no Python dict does. |
| Client.Questionnaire.GetData | sjtuq/__init__.py:81-106 | Succeeds exactly when the arguments are valid, and otherwise raises ValueError. On success it returns the oracle's body for the query that `Request` builds. |
| Client.SortIdAccepted | sjtuq/__init__.py:88-90 | The id of every `Sort` object is a sort order that `get_data` accepts. |
| Json.Get | sjtuq/__init__.py:148 | A lookup finds a value exactly when the key is present, and that value is the one stored under the key. |
| Json.PutKeys | sjtuq/__init__.py:145-146 | Dict assignment keeps an existing key in place and appends a new key at the end. |
| Json.PutGet | sjtuq/__init__.py:145-146 | After `d[k] = v`, `d[k]` is `v` and every other key reads as before. |
| Json.PutPut | sjtuq/__init__.py:161 | Assigning the same key twice leaves the same dict as the second assignment alone. |
| Json.PutUnique | sjtuq/__init__.py:145-146 | Assignment never creates a repeated key. |
| Json.Contains | sjtuq/__init__.py:148 | `in` tests key membership on a dict and element membership on a list. It raises TypeError on None, a bool or a number. |
| Json.Index | sjtuq/__init__.py:151 | `x[key]` succeeds exactly when `x` is a dict holding the key, and returns the stored value. It raises KeyError on a dict that lacks the key and TypeError on any other value. |
| Json.Iterate | sjtuq/__init__.py:171 | `list.extend` takes a list's items, the one-character str of each character of a str, in order, and the key of each entry of a dict, in order. It raises TypeError on None, a bool or a number. |
| Json.Truthy | sjtuq/__init__.py:148 | A value is false exactly when it is None, False, 0, 0.0, the empty str, the empty list or the empty dict. |
| Client.ProbeSucceeded | sjtuq/__init__.py:148 | A dict probe succeeds exactly when it has a truthy "success". The test raises TypeError exactly on None, a bool or a number, on a list that holds the str "success", and on a str that contains "success" (the lookup that follows `in` fails on both). |
| Client.PageTotal | sjtuq/__init__.py:151 | Reading `response["data"]["total"]` raises TypeError on a non-dict and KeyError on a dict without "data"; any exception it raises is a KeyError or a TypeError. |
| Client.Trunc | sjtuq/__init__.py:160 | `int()` of a real truncates toward zero: the result lies within one of the value, on the side of zero. |
| Client.LastPage | sjtuq/__init__.py:160 | `int(total/100)+1` succeeds exactly on a number or a bool, and otherwise raises TypeError. For an integer total, last - 1 is the quotient truncated toward zero: 100 * (last - 1) is within 100 of the total, on the side of zero. A bool gives 1; a float is truncated by `Trunc`. |
| Client.PageTotalOutcome | sjtuq/__init__.py:151-160 | A dict response whose "data" dict holds a non-negative integer total gives the last page total / 100 + 1. |
| Client.RowsOutcome | sjtuq/__init__.py:171 | A page whose `data.rows` is a list contributes exactly that list's elements. |
| Client.Rows | sjtuq/__init__.py:171 | Reading `response["data"]["rows"]` raises TypeError on a non-dict, KeyError on a dict without "data", and nothing but KeyError or TypeError otherwise. |
| Client.Merge | sjtuq/__init__.py:169-173 | The merge of the pages succeeds exactly when every page's rows can be read, and then holds as many rows as the pages together. |
| Client.PageCountOfTotal | sjtuq/__init__.py:160 | For a total t of 0 or more, exactly t / 100 + 1 pages are requested. That is at least one page, and one more than needed when t is a multiple of 100. |
| Client.PageCountExamples | sjtuq/__init__.py:160 | Totals 250, 0, 200, -50 and -100 give 3, 1, 3, 1 and 0 pages. |
| Client.ProbeFieldsGet | sjtuq/__init__.py:144-147 | The probe sets "pageSize" and "current" to 1, overriding the caller's values. Every other key keeps the caller's value. |
| Client.PageFieldsGet | sjtuq/__init__.py:155-161 | Page p sets "pageSize" to 100 and "current" to p. Every other key keeps the caller's value. |
| Client.PageFieldsKeys | sjtuq/__init__.py:144-161 | The caller's keys come first, in the caller's order. Every page request has the same keys, in the same order, as the probe. |
| Client.FieldsUnique | sjtuq/__init__.py:144-161 | The probe's and every page's parameters repeat no key when the caller's dict repeats none. |
| Client.PageRequestsBuilt | sjtuq/__init__.py:160-162 | The j-th page request is the query that `get_data` builds for page j + 1. |
| Client.PageRequestsCurrent | sjtuq/__init__.py:160-163 | The j-th page request carries the page parameters, with "current" = j + 1 and "pageSize" = 100. So each page from 1 to n is requested once, in order. |
| Client.ConcatPrefixFailure | sjtuq/__init__.py:170-171 | Once a page raises, the pages after it do not change the outcome. |
| Client.ConcatSuccess | sjtuq/__init__.py:169-173 | The merge succeeds exactly when the rows of every page can be read. |
| Client.ConcatFirstFailure | sjtuq/__init__.py:169-173 | A failed merge raises the exception of the first page whose rows cannot be read. Every earlier page was readable. |
| Client.ConcatLength | sjtuq/__init__.py:169-173 | The merged list is as long as all the pages' rows together. |
| Client.ConcatOrder | sjtuq/__init__.py:169-173 | Row m of page j is at index (rows of pages before j) + m of the result, so page order and row order are kept. |
| Client.FetchAll | sjtuq/__init__.py:126-173 | Reference definition of `get_all_data`. Invalid arguments raise ValueError before any request. With valid arguments the first request is the probe. |
| Client.FetchAllProbe | sjtuq/__init__.py:144-147 | With valid arguments, the first request is the `get_data` query for the probe parameters. |
| Client.FetchAllProbeFailed | sjtuq/__init__.py:148-150 | A probe without a truthy "success" returns `[]` and sends no page request. |
| Client.FetchAllPages | sjtuq/__init__.py:155-173 | After a successful probe, the requests sent are the probe and then pages 1 to the last page, in order. The result is the merge of the page responses in that order. |
| Client.Questionnaire.GetAllData | sjtuq/__init__.py:126-173 | The requests it sends and its result or exception are exactly those of `FetchAll`. |
| Client.Questionnaire.SubmitPages | sjtuq/__init__.py:155-163 | The submitting loop sends exactly the page requests for pages 1 to the last page, in order. It collects the oracle's responses in the same order. |
| Client.Questionnaire.CollectRows | sjtuq/__init__.py:169-173 | The extending loop returns the merge of the page responses. It stops at the first page that raises, with that page's exception. |
| Client.LateSnapshotMissesFirstPage | sjtuq/__init__.py:160-162 | Suppose the pool serialises the shared dict only after the loop ends, and there are two pages or more. Then no request asks for page 1. |
| Params.AllStrAt | sjtuq/param.py:27 | The element check accepts a list exactly when every element is a str. |
| Params.NewQuestionFilter | sjtuq/param.py:25-30 | The answer is accepted exactly when it is an int (bool included), a float, a str, or a list of strs. Otherwise TypeError is raised. The question and the answer are stored unchanged. |
| Params.FilterAccessors | sjtuq/param.py:31-43 | `get_id` returns a bare identifier itself, or the question's id. `get_answer` returns the stored answer. |
| Params.GetId | sjtuq/param.py:31-38 | A bare identifier is its own id; a question's id is the question's own. |
| Params.GetAnswer | sjtuq/param.py:39-43 | Returns the stored answer unchanged. |
| Params.NewParam | sjtuq/param.py:86-98 | A negative `current` raises ValueError. Otherwise a `page_size` outside 0..100 raises ValueError, and both 0 and 100 are accepted. After these checks, a non-filter element of `by_question` raises TypeError. On success all five values are stored unchanged. |
| Params.FilterFieldsGet | sjtuq/param.py:112 | In the comprehension, each question id maps to the answer of the last filter on it. |
| Params.FilterFieldsUnique | sjtuq/param.py:112 | The comprehension never repeats a key. |
| Params.FilterFieldsKeys | sjtuq/param.py:112 | The comprehension's keys are the question ids in order of first appearance. |
| Params.SpreadGet | sjtuq/param.py:107-113 | After the spread, a key of the spread dict takes its value from that dict. Every other key keeps its value from the literal. |
| Params.SpreadKeyOrder | sjtuq/param.py:107-113 | The spread keeps the literal's keys first, in order, then appends the spread dict's keys that are new, in that dict's order. |
| Params.SpreadUnique | sjtuq/param.py:107-113 | The spread repeats no key when the literal repeats none. |
| Params.ParamObjectGet | sjtuq/param.py:107-113 | Each fixed key maps to its field unless a filter on a question with that id overwrites it. Each filtered question maps to the answer of the last filter on it. |
| Params.ParamObjectKeys | sjtuq/param.py:107-113 | The keys are "current", "pageSize", "account" and "user_organization" first, in that order. Then come the filtered question ids that are not fixed keys, in order of first appearance. No key repeats, and the key set is the fixed keys plus the ids. |
| Params.ParamObject | sjtuq/param.py:107-112 | The dict exists exactly when `by_question` is a list; iterating None raises TypeError. |
| Params.ParamToJson | sjtuq/param.py:100-113 | Succeeds exactly when `by_question` is a list, and otherwise raises TypeError. The result is a str encoding a dict whose keys are the fixed keys followed by the new filter ids, with no key twice. |
| Params.DefaultParamCannotSerialise | sjtuq/param.py:112 | `Param()` is accepted, but its `to_json` raises TypeError, because `by_question` defaults to None. |
| Params.NewSort | sjtuq/param.py:128 | The id is "desc" exactly when `should_desc` is truthy, and "asc" otherwise. |
| Params.SortToJson | sjtuq/param.py:136 | A dict with the single key "id" that maps to the sort's id. |
| Params.Query.constructor | sjtuq/param.py:151-152 | Stores both arguments without checking their types. |
| Params.Query.GetParam | sjtuq/param.py:173-180 | Returns the stored parameters. |
| Params.Query.GetSort | sjtuq/param.py:181-188 | Returns the stored sort. |
| Params.Query.SetParam | sjtuq/param.py:160-162 | Raises TypeError and changes nothing unless given a Param. Otherwise it replaces the parameters only, and the getter returns the new value. |
| Params.Query.SetSort | sjtuq/param.py:170-172 | Raises TypeError and changes nothing unless given a Sort. Otherwise it replaces the sort only, and the getter returns the new value. |
| Params.Query.ToJson | sjtuq/param.py:196 | Returns a str that encodes a dict with exactly the keys "params" and "sort". "params" holds the str from `Param.to_json`, so the parameters are encoded twice. "sort" holds the dict from `Sort.to_json`. A stored non-Param or non-Sort raises AttributeError. A Param without filters raises TypeError. |

## Left out

- Network I/O is not modelled: `requests.get`, status codes, `response.url`, `response.json()` and `RequestException`. The GET is the oracle `http`, which returns an already decoded body.
- Logging through loguru (`__log` and every log call) is not modelled. Only the `hasLogger` flag is kept, not the logger object.
- The `multiprocessing` pool is not modelled. Page fetches run one after another, in submission order. The source ignores the `pool_size` argument and uses `mp.cpu_count()` instead, so the model has no `pool_size`.
- Client.Questionnaire.GetAllData: sends, for page i, the dict as it stands in iteration i. The source mutates `params_copy` after `apply_async`, so what is actually sent depends on when the pool serialises its arguments (see Findings).
- Type errors that static types rule out are not modelled: the TypeError for a non-str `url_or_key` or a non-Logger `logger`, the TypeError of `QuestionFilter` for a question that is neither a `Question` nor a str, and the type checks of `Param` on `current`, `page_size`, `account`, `user_organization` and on a non-list `by_question`.
- `json.dumps` text (spacing, escaping, key coercion) is not modelled. `Text(doc)` stands for the encoded string. Dict keys are strings.
- Client.LastPage: exact for integer totals. Python divides by 100 in floating point, which rounds totals above 2^53. A float total is divided exactly and truncated, and NaN or infinity (which make `int()` raise) are not modelled.
- The `Question` class is not part of this model. A question is known only by its id.
- Params.Query.ToJson: any stored object that is not a Param or a Sort raises AttributeError. The source would instead call a `to_json` method that such an object happens to have.
- The deep copy in `get_all_data` needs no model: Dafny values are never shared, so the caller's dict cannot change.
- `SJTUQuestionnaire.__log` and `setup.py` carry no logic that the model needs.

## Findings

| source | as written | input that shows it | evidently intended | confidence | as-written member | corrected member |
|---|---|---|---|---|---|---|
| sjtuq/__init__.py:160-162 | One dict, `params_copy`, is passed to every `apply_async` and is changed again in the next iteration. The pool's task handler serialises each task's arguments later, in its own thread. | total = 150 gives two pages. If the handler runs after the loop, both requests carry current = 2 and page 1 is never fetched. | Page i is requested with current = i. | not executed; depends on pool scheduling | Client.LateSnapshotMissesFirstPage | Client.PageRequestsCurrent |
