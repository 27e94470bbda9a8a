# mi-ia-backend retrieval core, modelled in Dafny

The backend answers questions by retrieval-augmented generation. At start-up, it
flattens a nested JSON knowledge document into an ordered list of chunks. Each
chunk is a `{source, content}` pair: `source` is a breadcrumb of keys joined by
`" -> "`. For each question, a vector index returns chunk positions. The contents
at those positions are joined by a blank line into a context. That context and
the question are placed into a fixed Spanish prompt for the generative model.

This project models the two pieces of real logic in `app.py`:

- **Flattening.** `Flattener.Flatten` is a recursive specification of
  `smart_flatten`. `Flattener.SmartFlatten` models the source's own form: a chunk
  list grown by loops over dict items and list elements, with a recursive call
  per child. The two loops are the methods `SmartFlattenEntries` and
  `SmartFlattenItems`. They are proved to compute exactly what `Flatten` does.
  - The JSON value is `Node = Dict(entries) | List(items) | Str(s) | Other`.
  - A dict is its entries in insertion order.
  - `Other` stands for numbers, booleans and null.
  - Chunk content is a `Node`, because the source takes the `descripcion` value
    without checking its type.
- **Retrieval to prompt.** `Retrieval.BuildPrompt` models `get_ai_response` from
  the index's positions to the prompt string. It covers the list comprehension
  over `knowledge_chunks`, `"\n\n".join` and the f-string.
  - Python list indexing is modelled as written: a negative position counts from
    the end, and a position outside `[-n, n)` raises `IndexError`.
  - `join` raises `TypeError` on an item that is not a string.
  - Both exceptions are `Err` results.

Supporting modules:

- `Strings` models `str.join` and `filter(None, …)`.
- `Wrappers` holds `Option` and `Result`.
- `Examples` works through concrete documents.

The model follows the code in three places where a reader might expect otherwise:

- An out-of-range position is not always an error. The code only fails outside
  `[-n, n)`. The index pads a short answer with `-1`, and Python
  resolves `-1` to the last chunk. See `Retrieval.MissingHitPicksLast` and
  `Examples.PaddedSearch`.
- Only the `descripcion` key is skipped while walking a dict. So a string under
  `etiqueta` yields a chunk of its own, `<parent> -> etiqueta`, after the
  labelled description chunk. See `Examples.LabelledDescription`.
- The description chunk is emitted even at the root. Its source is then `""`, or
  `"Etiqueta <label>"` when the dict has a label.

## Model

| member | source | states |
|---|---|---|
| `Strings.Join` | app.py:54 | `sep.join(parts)` has the total length of the parts plus one separator between each pair; a single part is returned as it is |
| `Strings.JoinAppend` | app.py:54 | appending a part to a non-empty list appends the separator and that part to the joined string |
| `Strings.JoinContains` | app.py:54 | every part occurs verbatim in the joined string |
| `Strings.NonEmpty` | app.py:32 | `filter(None, parts)` keeps every non-empty part, only parts of the input, and no empty string |
| `Strings.NonEmptySingle` | app.py:32 | a single part survives the filter exactly when it is non-empty |
| `Strings.NonEmptyAppend` | app.py:32 | filtering `a + b` is filtering `a` followed by filtering `b`; with `NonEmptySingle` this fixes the filter's order and multiplicities |
| `Flattener.Lookup` | app.py:29-32 | `key in data` / `data[key]`: absent exactly when no entry has the key; otherwise the value is one stored under that key |
| `Flattener.Label` | app.py:31 | `data.get('etiqueta')`: a label exactly when the dict has an `etiqueta` entry, and then the text stored under it |
| `Flattener.DescChunks` | app.py:29-32 | at most one description chunk, present exactly when the dict has `descripcion`, holding that value at `DescSource(parent, label)`; `DescriptionFirst` places it before the entries' chunks |
| `Flattener.DescParts` | app.py:30-32 | filtering the breadcrumb parts drops only an empty parent, never the label annotation |
| `Flattener.DescSource` | app.py:30-32 | the description chunk's source is the parent, `"Etiqueta L"` at the root, or `parent -> Etiqueta L` |
| `Flattener.Flatten` | app.py:26-39 | every chunk emitted under a non-empty breadcrumb `p` has source `p` or one that starts with `p -> ` |
| `Flattener.FlattenEntries` | app.py:33-35 | the chunks of a dict's entries all lie under the dict's breadcrumb |
| `Flattener.EntryChunks` | app.py:34-35 | an entry's chunks lie under the parent breadcrumb; its value is walked one step deeper under its key |
| `Flattener.FlattenItems` | app.py:36-37 | the chunks of a list's items all lie under the list's breadcrumb |
| `Flattener.ChildSource` | app.py:35 | a child's breadcrumb is its key at the root, otherwise the parent's breadcrumb, ` -> ` and the key; `ChildWithin` and `EntryInOrder` use it |
| `Flattener.ChildWithin` | app.py:35 | whatever lies under `parent -> key` (or `key` at the root) lies under `parent` |
| `Flattener.LeafChunks` | app.py:38-39 | a string yields exactly `{source: p, content: s}` when `p` is non-empty and nothing at the root; any other scalar yields nothing |
| `Flattener.FlattenItemsAppend` | app.py:37 | walking the items of `xs + ys` gives the chunks of `xs` followed by those of `ys` |
| `Flattener.FlattenEntriesAppend` | app.py:33-35 | walking the entries of `es + fs` gives the chunks of `es` followed by those of `fs` |
| `Flattener.ListConcat` | app.py:36-37 | a list's chunks are its parts' chunks concatenated in order |
| `Flattener.ListOfOne` | app.py:37 | a one-item list yields its item's chunks under the same breadcrumb: list membership never extends the breadcrumb |
| `Flattener.DescriptionFirst` | app.py:29-32 | a dict with `descripcion` emits first the chunk whose content is that value and whose source is `DescSource(parent, label)` |
| `Flattener.NoDescription` | app.py:28-35 | a dict without `descripcion` emits only its entries' chunks |
| `Flattener.EntryInOrder` | app.py:33-35 | each entry contributes at its own position in insertion order: nothing for `descripcion`, otherwise its value's chunks under `ChildSource(parent, key)`, `etiqueta` included |
| `Flattener.SourcesUnderParent` | app.py:30-38 | under a non-empty breadcrumb `p` every emitted source is non-empty and equals `p` or starts with `p -> ` |
| `Flattener.SmartFlatten` | app.py:26-39 | the append-and-extend walk returns exactly `Flatten(data, parentSource)` |
| `Flattener.SmartFlattenEntries` | app.py:33-35 | the loop over a dict's items, recursing into every key but `descripcion`, returns exactly `FlattenEntries(es, parentSource)` |
| `Flattener.SmartFlattenItems` | app.py:36-37 | the loop over a list's elements, recursing with the same breadcrumb, returns exactly `FlattenItems(xs, parentSource)` |
| `Retrieval.Resolve` | app.py:53 | a valid Python index designates element `i mod n`, below `n` |
| `Retrieval.ContentAt` | app.py:53 | `chunks[i]['content']` succeeds exactly for `-n <= i < n`, with the designated chunk's content, else raises IndexError(i) |
| `Retrieval.Retrieve` | app.py:53 | one content per position, in the index's order, exactly when every position is valid; otherwise the IndexError of the first invalid position |
| `Retrieval.RetrieveInRange` | app.py:53 | with every position in `[0, n)`, entry j is `chunks[positions[j]].content` |
| `Retrieval.MissingHitPicksLast` | app.py:52-53 | a `-1` padding position retrieves the last chunk's content |
| `Retrieval.Texts` | app.py:54 | the join's items are the contents' strings, in order, exactly when all are strings; otherwise TypeError at the first non-string |
| `Retrieval.Context` | app.py:54 | the context exists exactly when every content is a string; it is empty for no contents and the sole text for one |
| `Retrieval.ContextHoldsEachContent` | app.py:54 | every retrieved content appears verbatim in the context |
| `Retrieval.Prompt` | app.py:55 | the prompt starts with the fixed instruction, holds the context right after it, then the question marker, the question and the answer cue |
| `Retrieval.PromptRoundTrip` | app.py:55 | the context can be read back out of the prompt unchanged |
| `Retrieval.PromptInjective` | app.py:55 | for a fixed question distinct contexts give distinct prompts, and for a fixed context distinct questions do |
| `Retrieval.BuildPrompt` | app.py:52-55 | IndexError exactly when a position is invalid; a prompt exactly when all positions are valid and all their contents are strings, and then it is the prompt of the joined texts in index order |
| `Examples.DescriptionOnly` | app.py:29-32 | `{descripcion: "x"}` under `root` yields the one chunk `("root", "x")` |
| `Examples.LabelledDescription` | app.py:29-35 | `{descripcion: "x", etiqueta: "L1"}` under `root` yields `("root -> Etiqueta L1", "x")` then `("root -> etiqueta", "L1")` |
| `Examples.NestedKeysAtRoot` | app.py:33-35 | `{"a": {"b": "leaf"}}` at the root yields `("a -> b", "leaf")` |
| `Examples.BareStringDropped` | app.py:38 | a bare string at the root yields nothing |
| `Examples.ListSharesBreadcrumb` | app.py:36-37 | two described dicts in a list under `ctx` yield `("ctx", "x")` then `("ctx", "y")` |
| `Examples.PaddedSearch` | app.py:52-55 | positions `[1, 0, -1]` over two chunks give the context `dos`, `uno`, `dos` |

## Left out

- Configuration is not modelled: the `GOOGLE_API_KEY` environment variable and the Gemini client setup (app.py:12-16). This is process environment and a foreign API.
- The start-up `print` logging (app.py:17, 20, 24, 42) is I/O.
- Loading `ai_memory.index` and `knowledge_base.json` (app.py:21-23) is file I/O and an opaque binary format. The parsed document is the input of `Flatten`. The start-up call `smart_flatten(knowledge_base_nested)` is `Flatten(root, "")`.
- The question embedding (app.py:50) is a foreign library call. As written, `model_emb` is never defined, so at run time this line raises NameError, which the handler turns into a 500 answer.
- The nearest-neighbour search `index.search(question_embedding, k)` with `k = 5` (app.py:51-52) is float-vector search in a foreign library. Its returned positions, the row `indices[0]`, are an input sequence of integers. Distances are ignored. The model does not require the sequence to have length 5.
- The generative call and its text (app.py:56-57) are a remote service.
- The Flask application, CORS, the routes, the missing-`query` 400 guard and the JSON responses (app.py:46-47, 59-74) are HTTP plumbing. The exceptions this core raises are modelled as `Err` results, and the handler's conversion of them into a 500 answer is not.
- Flattener.Flatten: labels are required to be strings (`WellLabelled`). The source formats any label with an f-string, which for a non-string calls Python's `str()` and its repr formatting. That formatting is not modelled.
- Flattener.Lookup: a dict is a sequence of entries, and lookup takes the first match. Python dicts have distinct keys, so there it is the only match. A sequence with repeated keys is still accepted: the walk visits every entry in turn, and lookup takes the first. `json.load` cannot produce such a dict, because it keeps the last value for a repeated key.
- A vector-only entry point and a question-less prompt do not exist in `app.py`, so they are not modelled.
