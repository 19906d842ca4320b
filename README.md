# Shop assistant core, modelled in Dafny

The system is a chat assistant for an online cosmetics shop (`app.py`). It
loads the product catalog and turns each product into a flat text block of
four tagged lines (`Producto:`, `Precio:`, `Descripción:`, `Categorías:`).
These blocks are indexed for similarity search. For each question it does
three things:

- it classifies the question by keyword lists;
- for product, category and promotion questions, it parses the top
  retrieved block back into a dict of fields;
- for anything else, it asks a language model.

The answer is appended to the conversation as one system message. This
project models the string logic between those external services, and
proves properties of it.

It has eight modules:

- `Wrappers`: `Option` and `Result`. A Python exception becomes
  `Failure(IndexError)` or `Failure(AttributeError)`.
- `PyStr`: the Python string operations the code uses, over `seq<char>`:
  - `startswith`, and `in` as substring search;
  - `lower` (ASCII and Latin-1 capitals) and `strip` (Python's whitespace
    set);
  - `split` on one character, and `join`;
  - `replace(tag, "")`, which removes every non-overlapping occurrence and
    not just the prefix.
- `PyDict`: a Python dict of strings as an insertion-ordered list of
  pairs. Assigning to an existing key keeps its position; a new key goes at
  the end.
- `Catalog`: the product record, the serialiser, and the `fetch_products`
  loop as a method over the already-decoded product list.
- `Extractor`: the parse loop of `respuesta_embeddings`, written two ways:
  - as a method with a `for` loop, proved equal to a left fold
    (`ParseLines`);
  - as the fold itself, which the lemmas and the round trip are stated on.
- `Intent`: `clasificar_intension`.
- `Formatter`: `respuesta` with its template table.
- `Dispatch`: `modelo_llm` and `assistant`.

The external services are parameters:

- the retriever is a function from a question to ranked documents
  (`string -> seq<string>`);
- the language model is a function from a prompt to its printed response
  (`string -> string`).

Results proved:

- **Serialiser.** When no field holds a line break, every block splits
  into exactly its four tagged lines in order. A missing name or price
  becomes `N/A`, missing categories `Sin categorías`, and a missing
  description the empty string.
- **Round trip.** Parsing a block gives back the four fields, under
  `name`, `price`, `description` and `categories`, in block order. This
  holds when each field has no line break, does not contain its own tag,
  and has no surrounding whitespace.
- **All four keys.** Parsing any serialised block yields exactly the four
  keys, with no side condition.
- **Parser.** Untagged lines are ignored, the last line with a given tag
  wins, and no key outside the four is ever written.
- **Classifier.** It is total, it follows the stated priority (iff in every
  direction), and it ignores case.
- **Dead category phrases.** The category phrases "tipos de producto" and
  "clases de producto" contain the product keyword "producto". A question
  holding either phrase is therefore always `search_product`. Only
  "categorías" and "variedad" can ever produce `list_categories`.
- **Dispatch.** No classifier label is a template key, so `modelo_llm`
  always returns the model's printed response. `assistant` appends exactly one
  message. Retrieval questions never consult the model, and other questions
  never consult the retriever.

## Model

| member | source | states |
|---|---|---|
| PyStr.StartsWithConcat | app.py:102-108 | `s.startswith(p)` holds exactly when `s` is `p` followed by some string |
| PyStr.Contains | app.py:132-136 | `w in s` holds only when `w` is no longer than `s` |
| PyStr.ContainsIff | app.py:132 | `keyword in question` holds exactly when the keyword occurs at some position of the question |
| PyStr.ContainsSuffix | app.py:128-132 | a string holding `a + w` also holds `w` (used to show that `... de producto` contains `producto`) |
| PyStr.Lower | app.py:125 | lower-casing keeps the length and maps each character, position by position, through the single-character case mapping |
| PyStr.LowerIdempotent | app.py:125 | lower-casing twice is lower-casing once |
| PyStr.TrimLeft | app.py:103 | the left half of `strip()` gives a suffix of the input that does not start with whitespace |
| PyStr.TrimRight | app.py:103 | the right half of `strip()` gives a prefix of the input that does not end with whitespace |
| PyStr.Strip | app.py:103 | the result of `strip()` neither starts nor ends with whitespace |
| PyStr.StripSpec | app.py:103 | the stripped string is a substring of the input, with only whitespace cut away on either side |
| PyStr.StripUnpadded | app.py:103 | a string without surrounding whitespace is left unchanged by `strip()` |
| PyStr.Split | app.py:99 | `split` always gives at least one piece |
| PyStr.SplitConcat | app.py:99 | splitting `a + sep + b` gives the pieces of `a` followed by the pieces of `b` |
| PyStr.Join | app.py:41 | `sep.join(xs)` of no pieces is the empty string; otherwise it starts with the first piece |
| PyStr.JoinFour | app.py:44 | joining four pieces puts the separator between each neighbouring pair and nowhere else |
| PyStr.SplitFour | app.py:99 | four pieces without a line break, joined by line breaks, split back into exactly those four pieces |
| PyStr.JoinSplit | app.py:99 | joining the pieces of a split with the separator gives back the string |
| PyStr.SplitJoin | app.py:99 | splitting a join of separator-free pieces gives back the pieces |
| PyStr.RemoveAll | app.py:103 | `replace(tag, "")` never makes the string longer |
| PyStr.RemoveAbsent | app.py:103 | removing a tag that does not occur leaves the string unchanged |
| PyStr.RemoveLeading | app.py:103 | a leading occurrence of the tag is removed along with every later one |
| PyStr.RemovePrefix | app.py:103 | on a line that starts with the tag, `replace(tag, "")` is the same as cutting the tag off and removing it from the rest |
| PyDict.GetFound | app.py:80-83 | a value `d.get(k)` finds is one the dict holds under that key |
| PyDict.GetNone | app.py:80-83 | a key is missing exactly when no entry of the dict carries it |
| PyDict.Keys | app.py:100-109 | a key is in the key set exactly when the dict holds a value for it |
| PyDict.Put | app.py:103 | after `d[k] = v` the key holds `v`, every other key is unchanged, and the key set gains `k`; the size grows only for a new key |
| PyDict.PutUnique | app.py:103 | `d[k] = v` keeps every key of the dict unique, as Python dicts are |
| PyDict.PutNew | app.py:103 | assigning a new key appends it at the end of the insertion order |
| Catalog.CategoriesText | app.py:40-41 | no category names give `Sin categorías`; one name gives that name; more names give a text starting with the first name |
| Catalog.Serialize | app.py:43-44 | the block is the four tagged lines `Producto:`, `Precio:`, `Descripción:`, `Categorías:` joined by line breaks |
| Catalog.SerializedLines | app.py:37-44 | when no field holds a line break, a block split on line breaks is exactly the lines `Producto: name`, `Precio: price`, `Descripción: description`, `Categorías: categories`, in that order |
| Catalog.Sentinels | app.py:37-41 | a missing name or price is written `N/A`; an empty or missing category list is written `Sin categorías`; otherwise the names are joined by `", "` |
| Catalog.FetchProducts | app.py:31-48 | a status other than 200 gives no documents; status 200 gives one block per product, in order, each the serialisation of its product |
| Extractor.LineTag | app.py:101-109 | a line picks a key only from the four field keys, and only with a tag it starts with; it picks none exactly when it starts with none of the four tags |
| Extractor.TagValue | app.py:103-109 | the value read from a line never has surrounding whitespace; on a line starting with the tag it is the rest of the line with every occurrence of the tag removed, then stripped |
| Extractor.ParseLine | app.py:102-109 | a line without a tag leaves the dict unchanged; a tagged line sets its key to the value read from it and leaves every other key as it was |
| Extractor.ParseLines | app.py:100-109 | the parse loop only adds keys, and only field keys |
| Extractor.ParseBlock | app.py:99-110 | the `for` loop over the split document computes the fold `ParseLines` from the empty dict, and writes only field keys |
| Extractor.ParseLinesUnique | app.py:100-109 | the parse loop never gives a key two entries |
| Extractor.ExtractUnique | app.py:92-112 | the dict `respuesta_embeddings` returns never repeats a key |
| Extractor.Extract | app.py:94-112 | the extracted dict has only field keys, and is `{}` when nothing is retrieved |
| Extractor.RespuestaEmbeddings | app.py:92-112 | no document gives `{}`; otherwise only the first ranked document is parsed |
| Extractor.ParseLinesConcat | app.py:101-109 | parsing two runs of lines is parsing the second from the dict the first left |
| Extractor.UnmatchedLineIgnored | app.py:101-109 | a line that starts with none of the four tags (`LineTag` is `None`) can be removed without changing the result |
| Extractor.UntouchedKey | app.py:101-109 | a key no line contributes keeps its value through the loop |
| Extractor.ContributingLine | app.py:102-109 | a tagged line sets its key to the stripped remainder, whatever the dict held |
| Extractor.LastWins | app.py:101-109 | when several lines carry one key, the value is that of the last of them |
| Extractor.TaggedLineKey | app.py:102-109 | a line starting with one of the four tags is read under that tag's key (no line starts with two of the tags) |
| Extractor.TaggedValue | app.py:103 | the value read from `tag + " " + field` is the field, when the field neither contains the tag nor has surrounding whitespace |
| Extractor.RoundTrip | app.py:99-110 | a block whose fields are clean parses back to the dict name, price, description, categories holding exactly the product's four fields, sentinels included, in that order |
| Extractor.ParseCleanLines | app.py:101-109 | the four tagged lines of clean fields parse, in order, to the four-entry dict of those fields |
| Extractor.AllKeysPresent | app.py:99-110 | whatever the product's fields hold, the parsed block has exactly the four field keys |
| Intent.ClassifyLowered | app.py:132-139 | the label of a lower-cased question is one of the four, and is `unknown_intent` exactly when no product, category or promotion keyword occurs |
| Intent.ContainsAnyIff | app.py:132-136 | the `any(...)` test on a list holds exactly when some keyword of the list occurs in the question |
| Intent.Classify | app.py:123-139 | the classifier is total: every question, the empty one included, gets one of the four labels |
| Intent.Priority | app.py:125-139 | `search_product` iff a product keyword occurs in the lower-cased question; `list_categories` iff none does but a category keyword does; `check_promotions` iff neither does but a promotion keyword does; `unknown_intent` iff no keyword occurs |
| Intent.IgnoresCase | app.py:125 | a lower-cased question is classified like the original |
| Intent.CategoryPhrasesShadowed | app.py:128-133 | a question holding "tipos de producto" or "clases de producto" is always `search_product` |
| Intent.ShadowedBy | app.py:128-133 | a lower-cased question holding `producto` after any lead is classified `search_product` |
| Intent.PhrasesEndInProducto | app.py:128-129 | both category phrases `tipos de producto` and `clases de producto` end in the product keyword `producto` |
| Intent.EmptyQuestion | app.py:123-139 | the empty question gets `unknown_intent` |
| Formatter.Repr | app.py:155 | `str(d)` of a dict of strings is enclosed in braces, is `{}` for the empty dict, and otherwise opens with the `'key': 'value'` of the first entry; it differs from Python when a value holds `'`, `\` or a non-printable character |
| Formatter.PriceAnswer | app.py:63 | the price template begins `El producto '`, quotes the name right after it, and ends with the price followed by a full stop |
| Formatter.ProductAnswer | app.py:64-69 | the product template begins with its fixed lead, gives the name right after it, and ends with the categories |
| Formatter.Respuesta | app.py:75-89 | a label outside the four template keys gives exactly "Lo siento, no entendí tu consulta."; `general_help` gives its fixed text; `general` gives its lead line followed by the printed payload; the product templates fail exactly when given a plain string, with `AttributeError` |
| Formatter.Defaults | app.py:77-85 | the product templates are filled with the dict's fields; a key outside the dict's keys reads `N/A` for the name, the price and the description, and `Sin categorías` for the categories; a key in the dict reads its stored value |
| Formatter.EmptyFields | app.py:77-85 | with an empty dict the price answer is "El producto 'N/A' tiene un precio de N/A." and the product answer lists `N/A`, `N/A`, `Sin categorías` |
| Formatter.SentinelPriceText | app.py:63 | the price template filled with `N/A` for name and price reads "El producto 'N/A' tiene un precio de N/A." |
| Formatter.LabelsAreNotTemplates | app.py:62-72 | no classifier label is a key of the template table |
| Formatter.ClassifiedFallsThrough | app.py:88-89 | any classifier label given to the formatter gives the apology |
| Formatter.AnswersFromBlock | app.py:77-85 | price and product answers over the parsed block of a clean product quote that product's own name, price, description and categories |
| Dispatch.Prompt | app.py:118 | the prompt is `Consulta: `, then the question, then the fixed request for a clear answer |
| Dispatch.ModeloLlm | app.py:115-121 | `modelo_llm` returns the model's printed response to the prompt unchanged, never a formatted template |
| Dispatch.Answer | app.py:146-153 | search, category and promotion questions are answered with the dict parsed from the top document; any other question with the model's printed response |
| Dispatch.Assistant | app.py:143-155 | an empty conversation fails with `IndexError`; otherwise the result is one message longer, keeps the input as an unchanged prefix, and ends with a system message printing the answer to the last message |
| Dispatch.OnlyLastMessage | app.py:145-155 | the appended message depends only on the last message, not on the history before it |
| Dispatch.RetrievalIgnoresModel | app.py:148-151 | for a question with a keyword, the conversation does not depend on the language model |
| Dispatch.ModelIgnoresRetriever | app.py:152-155 | for a question without a keyword, the conversation does not depend on the retriever, and the new message holds the model's printed response |
| Dispatch.NothingRetrieved | app.py:111-112 | a retrieval question with no retrieved document gets the message `{}` |
| Dispatch.CatalogAnswer | app.py:143-155 | when the top document for a retrieval question is a clean product's block, the message prints that product's four fields under their keys in block order |

## Left out

- The WooCommerce HTTP request and JSON decoding (app.py:23-33) are not
  modelled. `FetchProducts` takes the status code and the decoded product
  list as parameters.
- The BeautifulSoup markup stripping (app.py:39) is a foreign library. The
  description is taken as plain text already.
- The product record keeps only the category names, not the category
  objects they are read from (app.py:40). So it cannot express a category
  object without a `name`, for which the source raises `KeyError` at
  app.py:40.
- The embeddings, the FAISS index and the similarity ranking (app.py:51-56,
  94) are foreign numeric code. The retriever is an opaque function from
  the question to a ranked list of document texts.
- The OpenAI chat model (app.py:59, 118) is an external service. It is an
  opaque function from the prompt to a string.
- `llm.invoke` returns a message object, and app.py:155 stores `str()` of
  it. So the user sees the printed object, not the bare text. The model is
  exact when the `llm` parameter stands for `str(llm.invoke(prompt))`:
  `Str` of a string is the string itself.
- The LangGraph graph, `ToolNode` and `tools_condition` (app.py:159-181)
  are library orchestration. One call of `assistant` is modelled. Message
  objects carry only a role and a content.
- The Streamlit interface (app.py:184-198) only renders. The `.env`
  loading (app.py:15-20) only reads configuration.
- PyStr.Lower: lower-cases only the ASCII capitals and the Latin-1
  capitals U+00C0–U+00DE (except U+00D7). It is not Python's full Unicode
  case mapping. The keyword "categorías" holds the non-ASCII 'í', which
  this range covers.
- Formatter.Repr: prints a dict as `{'k': 'v', ...}`. It does not model
  the rest of Python's `repr` of strings, so it differs from Python when a
  key or value holds `'` (Python switches to double quotes), `\` (Python
  doubles it) or a non-printable character (Python escapes it).
- Dicts are lists of entries, and the type allows a key to repeat.
  No Python dict does. `Formatter.Repr` and `Formatter.Respuesta` accept
  such lists too. Every dict the model builds is proved free of repeats
  (`PutUnique`, `ExtractUnique`), but the type does not enforce it.
- Python's `str.format` is modelled only for the four fixed templates. A
  value holding braces is inserted as it is, as Python does.
- Extractor.RoundTrip: needs each field to avoid only its own tag. This is
  weaker than forbidding all four tags in every field, so the theorem
  covers more products. Without the side conditions the block is not
  lossless. A field holding its own tag loses every occurrence of it, and
  surrounding whitespace is stripped.
- Missing descriptions: `fetch_products` writes `''` for a missing
  description (app.py:39), while `respuesta` reads a missing `description`
  as `N/A` (app.py:82). The model follows each place as written.
