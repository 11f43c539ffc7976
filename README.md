# nixopts-search: search state and plain-text serialiser, in Dafny

This project models the two pieces of logic in nixopts-search that are more
than markup: the search page's state and result derivation
(`src/components/Search.tsx`), and the plain-text serialiser of the build
script that prepares option descriptions (`nix/build.py`).

- `types.dfy` (module `Types`): the record shapes of `src/types.d.ts`.
  `OptionRecord` is the TypeScript `Option` type, and `Types.Option` is the
  usual Some/None wrapper.
- `search.dfy` (module `Search`) covers the search page:
  - `normalize` of URL parameters, seeding of the search store from them, and the choice of the active dataset;
  - the store as a class (`SearchStore`) whose `limit` grows by `ChunkSize` = 250 and is reset while options load;
  - the index build loop on a `Document` class;
  - the field list, the `shownOptions` derivation and the `limited` / "Load more" conditions.

  The flexsearch index is abstract. It is a function from (query, fields, limit) to the list positions of the hits. Each hit is resolved through the map of documents that the build loop filled.
- `plaintext.dfy` (module `PlainText`) covers the build script:
  - the element tree;
  - the pure `PlainText` function;
  - `Pieces`, the sequence of strings passed to `write`;
  - the recursive `SerializePlainText` method, which appends them to a `TextBuffer` (the `data` list);
  - `WritePlainText` / `ToPlainText`, which are proved equal to `PlainText`;
  - the field rewrite of `replace`, with the two Markdown conversions as parameters.

Behaviour of the code that a reader may not expect:

- An empty query lists the loaded options whatever the field flags are (`Search.NoFieldsEmptyQueryListsOptions`). It is not an empty result when no field is enabled.
- A non-empty query with no field enabled passes an empty field list to the library. What the library returns for it is not modelled.
- Deduplication across the two fields (`merge: true`) is left to the library. The model does not assume it.
- Flags read from the URL are on unless the parameter, or the first value of a repeated key, is the empty string. An empty array also turns a flag off. Any other text turns a flag on, "false" included (`Search.FlagTextIsNotParsed`).
- An empty array parameter gives `undefined`, not the default. This is why the store's query can be `UndefinedQuery`.

## Model

| member | source | states |
|---|---|---|
| `Search.Normalize` | src/components/Search.tsx:21-26 | a string is returned as is; a non-empty array gives its first element; an empty array gives `undefined`; only a missing parameter gives the default |
| `Search.FlagFromParam` | src/components/Search.tsx:54-55 | a flag is off iff the parameter is `""`, an empty array, or an array starting with `""`; a missing flag is on |
| `Search.FlagTextIsNotParsed` | src/components/Search.tsx:54-55 | the flag text is not parsed: "false" and "0" turn a flag on, only "" turns it off |
| `Search.SeedQuery` | src/components/Search.tsx:53 | the seeded query is the parameter's string, `""` when missing, `undefined` for an empty array |
| `Search.SelectedAsWritten` | src/components/Search.tsx:58-62 | the selection as written may also be an inherited `Object.prototype` name, besides a catalogue key or the default |
| `Search.SelectDataset` | src/components/Search.tsx:58-62 | the active dataset is a catalogue key or the default set; a requested key the catalogue has is chosen; anything other than the default was requested |
| `Search.DatasetPath` | src/components/Search.tsx:29-31 | a dataset has a path to fetch iff the catalogue has its key, and it is that entry's path |
| `Search.InheritedKeySelectsMissingDataset` | src/components/Search.tsx:58-62 | `set=constructor` selects a dataset with no path as written, and the default set after the correction |
| `Search.SelectedDatasetHasPath` | src/components/Search.tsx:58-62 | when the default set is in the catalogue, the selected dataset always has a path |
| `Search.SelectionAgreesOnOwnKeys` | src/components/Search.tsx:58-62 | the correction changes nothing except for inherited names and the key "undefined" |
| `Search.LimitAfter` | src/components/Search.tsx:86 | after any history of "Load more" and loading events the limit is a positive multiple of 250 |
| `Search.LoadMoreAdds` | src/components/Search.tsx:86 | each "Load more" adds exactly one chunk, after any history |
| `Search.LoadMoreFromStart` | src/components/Search.tsx:50-51 | n presses of "Load more" from the start give 250 + 250·n |
| `Search.LoadingResets` | src/components/Search.tsx:121-125 | a dataset load forgets every earlier "Load more": the limit is back to 250 plus one chunk per later press |
| `Search.SearchStore.constructor` | src/components/Search.tsx:50-56 | the store starts with limit 250, no selected option, and the query and flags seeded from the URL |
| `Search.SearchStore.IncreaseLimit` | src/components/Search.tsx:86 | the limit grows by exactly 250 and the event history records the press |
| `Search.SearchStore.ResetLimitWhileLoading` | src/components/Search.tsx:121-125 | while options load the limit becomes 250; otherwise it is unchanged |
| `Search.SearchFields` | src/components/Search.tsx:98-101 | `"title"` is searched iff title search is on, `"description"` iff description search is on, title first, no repeats, empty with both off |
| `Search.Index.Search` | src/components/Search.tsx:106-113 | one entry per hit, in hit order; an entry is present iff a document is stored under the hit's id, and is that document |
| `Search.Document.constructor` | src/components/Search.tsx:68-77 | a new index stores no documents and searches with the given lookup |
| `Search.Document.AddAsync` | src/components/Search.tsx:80 | adding stores the option under its id and changes no other entry |
| `Search.PositionMap` | src/components/Search.tsx:79-81 | the ids stored are exactly the list positions, each holding the option at that position |
| `Search.BuildIndex` | src/components/Search.tsx:79-83 | the built index stores exactly every option under its list position |
| `Search.Slice` | src/components/Search.tsx:116 | the result is a prefix of its input, of length min(length, limit) |
| `Search.Present` | src/components/Search.tsx:114 | the kept documents are exactly the present ones, never more than the hits |
| `Search.PresentAppend` | src/components/Search.tsx:113-114 | dropping missing documents keeps the order of the others |
| `Search.PresentAll` | src/components/Search.tsx:113-114 | when every hit has a document, all of them are kept, position by position |
| `Search.ShownOptions` | src/components/Search.tsx:90-117 | the previous list (or `[]`) is kept until the scheduler fires and an index exists; after that, an empty query gives a prefix of the loaded options and any other query a prefix of the hits' documents, each of length min(count, limit) |
| `Search.EmptyQueryIgnoresIndex` | src/components/Search.tsx:103-105 | an empty query lists the first `limit` loaded options in their order, the same for every index |
| `Search.NoFieldsEmptyQueryListsOptions` | src/components/Search.tsx:98-105 | with both field flags off, an empty query still lists the loaded options |
| `Search.ShownAreLoadedOptions` | src/components/Search.tsx:103-116 | with an index built from the loaded options, every shown option is one of them |
| `Search.HitsInOrder` | src/components/Search.tsx:106-116 | when every hit has a document, a non-empty query shows the documents of the first `limit` hits in hit order |
| `Search.LimitedIffLoadMore` | src/components/Search.tsx:119 | for a freshly derived list, `limited` holds iff the "Load more" condition holds |
| `Search.ShownWithinStoreLimit` | src/components/Search.tsx:90-119 | a fresh list read from a valid store holds at most the chunks its event history granted, a multiple of 250 |
| `Search.BuiltIndexShowsLoadedOptions` | src/components/Search.tsx:79-116 | with the document built from the loaded options, every shown option is one of them |
| `Search.StaleListOutgrowsLimit` | src/components/Search.tsx:182 | a kept list longer than a limit that was reset shows "Load more" while `limited` is false |
| `PlainText.LowerAscii` | nix/build.py:27 | lower-casing keeps the length and lowers each ASCII capital |
| `PlainText.SuppressesTextExamples` | nix/build.py:27 | illustration on six fixed tags, not a general proof: `script`, `SCRIPT` and `Style` suppress text; `scripts`, `p` and the empty name do not |
| `PlainText.Emit` | nix/build.py:32-33 | an optional field contributes at most one piece |
| `PlainText.SerializePlainText` | nix/build.py:13-33 | the buffer grows by exactly the pieces of the element, in write order |
| `PlainText.SerializeChildren` | nix/build.py:29-30 | the buffer grows by the children's pieces, child by child |
| `PlainText.ChildPiecesLoopStep` | nix/build.py:29-30 | one more child appends that child's pieces |
| `PlainText.ChildPiecesStep` | nix/build.py:29-30 | the pieces of the first i+1 children are those of the first i followed by child i's |
| `PlainText.ChildPiecesAppend` | nix/build.py:23-24 | the pieces of a concatenation of children are the concatenation of their pieces |
| `PlainText.TextBuffer.constructor` | nix/build.py:38 | the buffer starts empty |
| `PlainText.TextBuffer.Write` | nix/build.py:39 | `write` appends its argument and nothing else |
| `PlainText.JoinAppend` | nix/build.py:41 | joining a concatenation is the concatenation of the joins |
| `PlainText.JoinEmit` | nix/build.py:32-33 | an absent or empty field contributes nothing, a non-empty one itself |
| `PlainText.JoinPieces` | nix/build.py:36-41 | joining what is written for an element gives its pure plain text |
| `PlainText.JoinChildPieces` | nix/build.py:23-24 | joining the children's pieces gives the children's plain text |
| `PlainText.WritePlainText` | nix/build.py:36-41 | the buffer-and-join result equals the pure plain text |
| `PlainText.ToPlainText` | nix/build.py:44-45 | the converter returns the pure plain text of the element, never longer than all its text and tail fields together |
| `PlainText.PiecesAreFields` | nix/build.py:13-33 | every piece written is a non-empty text or tail value of the tree |
| `PlainText.ChildPiecesAreFields` | nix/build.py:23-24 | every piece written for the children is a non-empty text or tail value of one of them |
| `PlainText.PlainTextWithinBudget` | nix/build.py:13-33 | the output is at most as long as all text and tail fields together |
| `PlainText.ChildrenTextWithinBudget` | nix/build.py:29-30 | the children's output is at most as long as their text and tail fields together |
| `PlainText.SkippedNodeWritesOnlyTail` | nix/build.py:16-33 | a comment or processing instruction writes its tail only, nothing of its text or subtree |
| `PlainText.NamedElementPieces` | nix/build.py:25-33 | a named element's non-empty text is dropped iff its tag is `script`/`style`; children and tail are written either way |
| `PlainText.NoTagLikeOrdinaryTag` | nix/build.py:20-30 | a tag-less element writes exactly what a named, non-`script`/`style` element would |
| `PlainText.OptionDict.Replace` | nix/build.py:61-67 | on success both description fields are rewritten from the original description, and nothing else changes; a missing or non-text description changes nothing |
| `PlainText.ReplaceFailure` | nix/build.py:62-65 | `replace` fails iff the description is missing or not text |
| `PlainText.Replaced` | nix/build.py:64-65 | `descriptionHTML` and `description` hold the two conversions of the original description; every other key keeps its value; only `descriptionHTML` may be added |

## Findings

| source | as written | input that shows it | evidently intended | confidence | as-written member | corrected member |
|---|---|---|---|---|---|---|
| src/components/Search.tsx:58-62 | `set in meta.modules` is also true for names that every object inherits from `Object.prototype` | the URL parameter `set=constructor` with a catalogue lacking that key: the page selects "constructor", and `meta.modules["constructor"].path` is not a dataset path | fall back to `meta.defaultSet` unless the catalogue itself has the key | high; not executed | `Search.SelectedAsWritten`, shown by `Search.InheritedKeySelectsMissingDataset` | `Search.SelectDataset`, with `Search.SelectedDatasetHasPath` |

## Left out

- Search.Index.Search: the library's lookup is uninterpreted. Nothing is assumed about which options match a query, the ranking, deduplication across fields, or whether it respects `limit`. Only the enrich step and the filter after it are modelled. `Index.Search` resolves each hit id to its stored document and keeps an id with no document as an absent entry. `Present`, the `.filter` of line 114, then drops those entries.
- The text encoder and the tokenisers (src/components/Search.tsx:34-46) and the index configuration (68-77) belong to the library and are not modelled.
- The debounce (src/components/Search.tsx:88) is timing in a library primitive. Whether the scheduler has fired is the boolean parameter `scheduled` of `ShownOptions`.
- The reactive machinery (`createResource`, `createEffect`, `createMemo`) is represented only by its sequential meaning. The memo's previous value is a parameter. The loading effect is the method `ResetLimitWhileLoading`. Staleness of an index build still running when the dataset changes, and the awaiting in `addAsync`, are not modelled.
- Writing the state back to the URL (src/components/Search.tsx:127-134) is not modelled. False flags are written as `""` and a missing flag reads as on, so whether a false flag survives the round trip depends on how the router stores empty values. The router is not part of this model.
- The network fetches of the option lists and of the catalogue (src/components/Search.tsx:29-32, src/App.tsx:8-11) are I/O. `DatasetPath` models only the lookup of the path.
- Search.SelectedAsWritten: for an empty-array `set` parameter, JavaScript selects the value `undefined` when the catalogue has the key "undefined". The model returns the key "undefined" itself.
- Setting the query, the flags and the selected option from the form (src/components/Search/Form.tsx) and all rendering are UI and are not modelled.
- The Markdown conversions of `replace` (nix/build.py:64-65) are parameters of `Replace`. The Markdown extension that installs the serialiser (48-55), the thread-pool map (78-79) and the JSON file I/O (70-82) are not modelled.
- PlainText.LowerAscii: it lowers ASCII letters only, whereas Python's `str.lower` is Unicode-aware. Two non-ASCII characters lower to ASCII: U+0130 (İ) lowers to "i" followed by the combining dot U+0307, and the Kelvin sign U+212A lowers to "k". The combining dot keeps the comparison unequal, and "k" is in neither word, so the comparison on line 27 comes out the same.
- `assert root is not None` (nix/build.py:37) has no counterpart, because an `Element` value is never absent.
- Integer widths: `limit` is an unbounded natural. JavaScript numbers lose precision only after about 3.6·10^13 presses of "Load more".
