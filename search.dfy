/** The search page (src/components/Search.tsx): URL parameters seed the
    search store and choose the dataset; the loaded options are indexed by
    list position; a result list is derived from the query, the enabled
    fields and a growable limit. The full-text index itself is a library;
    here it is an uninterpreted lookup from (query, fields, limit) to the
    positions of the matching options. */
module Search {
  import opened Types

  /** The step by which the result window grows, and its initial size. */
  const ChunkSize: nat := 250

  function Min(a: nat, b: nat): nat
  {
    if a <= b then a else b
  }

  // ---------------------------------------------------------------------------
  // URL parameters
  // ---------------------------------------------------------------------------

  /** One search parameter as the router hands it over: missing, a single
      string, or the strings of a repeated key. */
  datatype Param = Absent | Single(s: string) | Many(items: seq<string>)

  datatype SearchParams = SearchParams(query: Param, setKey: Param, title: Param, descr: Param)

  /** What `normalize(value, default)` returns: a string taken from the
      parameter, the default, or `undefined` (the first element of an empty
      array). */
  datatype Normalized<T> = FromParam(s: string) | Default(d: T) | Undefined

  /** `normalize`: a string is kept, an array gives its first element (an
      empty array is truthy too, and gives `undefined`), a missing parameter
      gives the default. */
  function Normalize<T>(value: Param, default: T): (r: Normalized<T>)
    ensures value.Single? ==> r == FromParam(value.s)
    ensures value.Many? && |value.items| > 0 ==> r == FromParam(value.items[0])
    ensures value.Many? && value.items == [] ==> r.Undefined?
    ensures value.Absent? <==> r.Default?
    ensures r.Default? ==> r.d == default
  {
    match value
    case Single(s) => FromParam(s)
    case Many(items) => if |items| > 0 then FromParam(items[0]) else Undefined
    case Absent => Default(default)
  }

  /** JavaScript's `Boolean(...)` of a normalised flag. */
  function Truthy(n: Normalized<bool>): bool
  {
    match n
    case FromParam(s) => s != ""
    case Default(b) => b
    case Undefined => false
  }

  /** `Boolean(normalize(param, true))`: a search flag is on unless the
      parameter is the empty string (or an array that starts with it, or an
      empty array); a missing parameter turns it on. */
  function FlagFromParam(p: Param): (b: bool)
    ensures p.Absent? ==> b
    ensures !b <==> p == Single("") || p == Many([]) || (p.Many? && |p.items| > 0 && p.items[0] == "")
  {
    Truthy(Normalize(p, true))
  }

  /** The text of a flag is not parsed: "false" and "0" turn it on. */
  lemma FlagTextIsNotParsed()
    ensures FlagFromParam(Single("false")) && FlagFromParam(Single("0"))
    ensures !FlagFromParam(Single(""))
  {
  }

  /** The query text held by the store; `undefined` when the parameter was
      an empty array. */
  datatype Query = Query(text: string) | UndefinedQuery

  /** `normalize(searchParams.query, "")`. */
  function SeedQuery(p: Param): (q: Query)
    ensures p.Absent? ==> q == Query("")
    ensures p.Single? ==> q == Query(p.s)
    ensures p.Many? ==> q == (if |p.items| > 0 then Query(p.items[0]) else UndefinedQuery)
  {
    match Normalize(p, "")
    case FromParam(s) => Query(s)
    case Default(d) => Query(d)
    case Undefined => UndefinedQuery
  }

  // ---------------------------------------------------------------------------
  // Choosing the dataset
  // ---------------------------------------------------------------------------

  /** The dataset key the `set` parameter asks for, if it names one. */
  function Requested(p: Param): Option<string>
  {
    match p
    case Single(s) => Some(s)
    case Many(items) => if |items| > 0 then Some(items[0]) else None
    case Absent => None
  }

  /** Property names every plain JavaScript object inherits from
      `Object.prototype`; the `in` operator reports them as present. */
  const ObjectPrototypeKeys: set<string> := {
    "constructor", "hasOwnProperty", "isPrototypeOf", "propertyIsEnumerable",
    "toLocaleString", "toString", "valueOf", "__proto__",
    "__defineGetter__", "__defineSetter__", "__lookupGetter__", "__lookupSetter__"
  }

  /** The selection exactly as written: `set in meta.modules ? set : meta.defaultSet`,
      where `in` also sees inherited properties and turns `undefined` into
      the key "undefined". */
  function SelectedAsWritten(meta: Meta, p: Param): (r: string)
    ensures r in meta.modules || r in ObjectPrototypeKeys || r == meta.defaultSet
  {
    var key := match Normalize(p, meta.defaultSet)
               case FromParam(s) => s
               case Default(d) => d
               case Undefined => "undefined";
    if key in meta.modules || key in ObjectPrototypeKeys then key else meta.defaultSet
  }

  /** The active dataset: the requested key if the catalogue has it, the
      default set otherwise. */
  function SelectDataset(meta: Meta, p: Param): (r: string)
    ensures r in meta.modules || r == meta.defaultSet
    ensures Requested(p).Some? && Requested(p).value in meta.modules ==> r == Requested(p).value
    ensures r != meta.defaultSet ==> Requested(p) == Some(r)
  {
    match Normalize(p, meta.defaultSet)
    case FromParam(s) => if s in meta.modules then s else meta.defaultSet
    case Default(d) => d
    case Undefined => meta.defaultSet
  }

  /** `meta.modules[key].path`: where the options of a dataset are fetched
      from, if the catalogue has the dataset. */
  function DatasetPath(meta: Meta, key: string): (r: Option<string>)
    ensures r.Some? <==> key in meta.modules
    ensures r.Some? ==> r.value == meta.modules[key].path
  {
    if key in meta.modules then Some(meta.modules[key].path) else None
  }

  /** With `set=constructor` the page selects a dataset the catalogue does
      not have, so there is no path to fetch; the corrected selection falls
      back to the default. */
  lemma InheritedKeySelectsMissingDataset()
    ensures var meta := Meta(map["nixos" := Module("NixOS", "nixos.json")], "nixos", []);
            && SelectedAsWritten(meta, Single("constructor")) == "constructor"
            && DatasetPath(meta, SelectedAsWritten(meta, Single("constructor"))).None?
            && SelectDataset(meta, Single("constructor")) == "nixos"
  {
  }

  /** When the default set is in the catalogue, the selected dataset always
      has a path to fetch. */
  lemma SelectedDatasetHasPath(meta: Meta, p: Param)
    requires meta.defaultSet in meta.modules
    ensures DatasetPath(meta, SelectDataset(meta, p)).Some?
  {
  }

  /** The two selections differ only on inherited names and on "undefined". */
  lemma SelectionAgreesOnOwnKeys(meta: Meta, p: Param)
    requires Requested(p).Some? ==> Requested(p).value !in ObjectPrototypeKeys || Requested(p).value in meta.modules
    requires p == Many([]) ==> "undefined" !in meta.modules
    ensures SelectedAsWritten(meta, p) == SelectDataset(meta, p)
  {
  }

  // ---------------------------------------------------------------------------
  // The search store and its limit
  // ---------------------------------------------------------------------------

  /** What changes the limit: the "Load more" button, and a dataset load in
      progress. */
  datatype LimitEvent = LoadMore | OptionsLoading

  function NextLimit(limit: nat, e: LimitEvent): nat
  {
    match e
    case LoadMore => limit + ChunkSize
    case OptionsLoading => ChunkSize
  }

  /** The limit after a history of events, starting from `ChunkSize`. It is
      always a positive multiple of the chunk size. */
  function LimitAfter(events: seq<LimitEvent>): (r: nat)
    ensures r >= ChunkSize && r % ChunkSize == 0
    decreases |events|
  {
    if events == [] then ChunkSize
    else NextLimit(LimitAfter(events[..|events| - 1]), events[|events| - 1])
  }

  function Repeat<T>(e: T, n: nat): (r: seq<T>)
    ensures |r| == n && forall i :: 0 <= i < n ==> r[i] == e
  {
    seq(n, _ => e)
  }

  /** Each "Load more" after any history adds exactly one chunk. */
  lemma {:induction false} LoadMoreAdds(before: seq<LimitEvent>, n: nat)
    ensures LimitAfter(before + Repeat(LoadMore, n)) == LimitAfter(before) + ChunkSize * n
  {
    if n == 0 {
      assert before + Repeat(LoadMore, 0) == before;
    } else {
      var evs := before + Repeat(LoadMore, n);
      assert evs[..|evs| - 1] == before + Repeat(LoadMore, n - 1);
      LoadMoreAdds(before, n - 1);
    }
  }

  /** From the start, n presses of "Load more" give 250 + 250 * n. */
  lemma LoadMoreFromStart(n: nat)
    ensures LimitAfter(Repeat(LoadMore, n)) == ChunkSize + ChunkSize * n
  {
    LoadMoreAdds([], n);
    assert [] + Repeat(LoadMore, n) == Repeat(LoadMore, n);
  }

  /** A dataset load forgets every earlier "Load more". */
  lemma LoadingResets(before: seq<LimitEvent>, n: nat)
    ensures LimitAfter(before + [OptionsLoading] + Repeat(LoadMore, n)) == ChunkSize + ChunkSize * n
  {
    var loaded := before + [OptionsLoading];
    assert loaded[..|loaded| - 1] == before;
    LoadMoreAdds(loaded, n);
  }

  /** The query state the derived result list reads. */
  datatype QueryState = QueryState(query: Query, titleSearch: bool, descrSearch: bool, limit: nat)

  /** The store of the search page (`SearchStore` in src/types.d.ts),
      updated in place by `setStore`. `history` records the events that
      changed `limit`. */
  class SearchStore {
    var limit: nat
    var selectedOption: Option<OptionRecord>
    var query: Query
    var titleSearch: bool
    var descrSearch: bool
    ghost var history: seq<LimitEvent>

    ghost predicate Valid()
      reads this
    {
      limit == LimitAfter(history)
    }

    /** `createStore` seeded from the URL parameters. */
    constructor (params: SearchParams)
      ensures Valid() && history == []
      ensures limit == ChunkSize && selectedOption == None
      ensures query == SeedQuery(params.query)
      ensures titleSearch == FlagFromParam(params.title)
      ensures descrSearch == FlagFromParam(params.descr)
    {
      limit := ChunkSize;
      selectedOption := None;
      query := SeedQuery(params.query);
      titleSearch := FlagFromParam(params.title);
      descrSearch := FlagFromParam(params.descr);
      history := [];
    }

    /** `increaseLimit`: one more chunk. */
    method IncreaseLimit()
      requires Valid()
      modifies this`limit, this`history
      ensures Valid() && history == old(history) + [LoadMore]
      ensures limit == old(limit) + ChunkSize
    {
      limit := limit + ChunkSize;
      history := history + [LoadMore];
      assert history[..|history| - 1] == old(history);
    }

    /** The effect that resets the limit while the options are loading. */
    method ResetLimitWhileLoading(loading: bool)
      requires Valid()
      modifies this`limit, this`history
      ensures Valid()
      ensures loading ==> limit == ChunkSize && history == old(history) + [OptionsLoading]
      ensures !loading ==> limit == old(limit) && history == old(history)
    {
      if loading {
        limit := ChunkSize;
        history := history + [OptionsLoading];
        assert history[..|history| - 1] == old(history);
      }
    }

    function State(): QueryState
      reads this
    {
      QueryState(query, titleSearch, descrSearch, limit)
    }
  }

  // ---------------------------------------------------------------------------
  // The index
  // ---------------------------------------------------------------------------

  datatype Field = Title | Description

  /** The fields to search: `"title"` iff title search is on, then
      `"description"` iff description search is on. */
  function SearchFields(titleSearch: bool, descrSearch: bool): (r: seq<Field>)
    ensures Title in r <==> titleSearch
    ensures Description in r <==> descrSearch
    ensures |r| == (if titleSearch then 1 else 0) + (if descrSearch then 1 else 0)
    ensures titleSearch && descrSearch ==> r == [Title, Description]
  {
    (if titleSearch then [Title] else []) + (if descrSearch then [Description] else [])
  }

  /** The library's ranked lookup: the ids of the matching documents. */
  type Lookup = (Query, seq<Field>, nat) -> seq<nat>

  /** A built index: the stored documents by id, and its lookup. */
  datatype Index = Index(docs: map<nat, OptionRecord>, lookup: Lookup)
  {
    /** `search` with `enrich`: each hit, in hit order, with the document
        stored under its id, or nothing when no document is stored there. */
    function Search(q: Query, fields: seq<Field>, limit: nat): (r: seq<Option<OptionRecord>>)
      ensures |r| == |lookup(q, fields, limit)|
      ensures forall i :: 0 <= i < |r| ==>
                (r[i].Some? <==> lookup(q, fields, limit)[i] in docs) &&
                (r[i].Some? ==> r[i].value == docs[lookup(q, fields, limit)[i]])
    {
      var hits := lookup(q, fields, limit);
      seq(|hits|, i requires 0 <= i < |hits| => if hits[i] in docs then Some(docs[hits[i]]) else None)
    }
  }

  /** The flexsearch `Document`, filled one option at a time. */
  class Document {
    var docs: map<nat, OptionRecord>
    const lookup: Lookup

    constructor (lookup: Lookup)
      ensures docs == map[] && this.lookup == lookup
    {
      docs := map[];
      this.lookup := lookup;
    }

    /** `addAsync(id, opt)`: store the option under the id. */
    method AddAsync(id: nat, opt: OptionRecord)
      modifies this`docs
      ensures docs == old(docs)[id := opt]
    {
      docs := docs[id := opt];
    }

    function Snapshot(): Index
      reads this
    {
      Index(docs, lookup)
    }
  }

  /** Every option stored under its position in the list. */
  function PositionMap(opts: seq<OptionRecord>): (m: map<nat, OptionRecord>)
    ensures forall id: nat :: id in m <==> id < |opts|
    ensures forall id :: 0 <= id < |opts| ==> m[id] == opts[id]
  {
    map id: nat | id < |opts| :: opts[id]
  }

  /** The index build: one `addAsync` per option, keyed by its position. */
  method BuildIndex(opts: seq<OptionRecord>, lookup: Lookup) returns (doc: Document)
    ensures fresh(doc)
    ensures doc.lookup == lookup && doc.docs == PositionMap(opts)
  {
    doc := new Document(lookup);
    for idx := 0 to |opts|
      invariant doc.docs == PositionMap(opts[..idx])
    {
      doc.AddAsync(idx, opts[idx]);
      assert PositionMap(opts[..idx])[idx := opts[idx]] == PositionMap(opts[..idx + 1]);
    }
    assert opts[..|opts|] == opts;
  }

  // ---------------------------------------------------------------------------
  // The shown options
  // ---------------------------------------------------------------------------

  /** `results.slice(0, n)`: the first n elements, or all when fewer. */
  function Slice<T>(s: seq<T>, n: nat): (r: seq<T>)
    ensures r <= s && |r| == Min(|s|, n)
  {
    s[..Min(|s|, n)]
  }

  /** `.filter((x) => x)` over the enriched hits: the present documents. */
  function Present(xs: seq<Option<OptionRecord>>): (r: seq<OptionRecord>)
    ensures |r| <= |xs|
    ensures forall x :: x in r <==> Some(x) in xs
  {
    if xs == [] then []
    else (if xs[0].Some? then [xs[0].value] else []) + Present(xs[1..])
  }

  /** The documents of the hits, in hit order. */
  function Hits(index: Index, st: QueryState): seq<OptionRecord>
  {
    Present(index.Search(st.query, SearchFields(st.titleSearch, st.descrSearch), st.limit))
  }

  /** The `shownOptions` memo. Until the scheduler has fired and an index
      exists, the previous list (or none) is kept; an empty query lists the
      loaded options themselves; any other query lists the hits' documents.
      Both lists are cut to the limit. */
  function ShownOptions(prev: Option<seq<OptionRecord>>, scheduled: bool, index: Option<Index>,
                        options: seq<OptionRecord>, st: QueryState): (r: seq<OptionRecord>)
    ensures !scheduled || index.None? ==> r == prev.GetOr([])
    ensures scheduled && index.Some? ==> |r| <= st.limit
    ensures scheduled && index.Some? && st.query == Query("") ==>
              r <= options && |r| == Min(|options|, st.limit)
    ensures scheduled && index.Some? && st.query != Query("") ==>
              r <= Hits(index.value, st) && |r| == Min(|Hits(index.value, st)|, st.limit)
  {
    if !scheduled || index.None? then prev.GetOr([])
    else
      var results := if st.query == Query("") then options else Hits(index.value, st);
      Slice(results, st.limit)
  }

  /** `limited`: the list is exactly as long as the limit. */
  predicate Limited(shown: seq<OptionRecord>, limit: nat)
  {
    |shown| == limit
  }

  /** The condition under which the "Load more" button shows. */
  predicate ShowsLoadMore(shown: seq<OptionRecord>, limit: nat)
  {
    |shown| >= limit
  }

  // ---------------------------------------------------------------------------
  // Lemmas
  // ---------------------------------------------------------------------------

  /** Dropping the absent hits keeps the order of the present ones. */
  lemma {:induction false} PresentAppend(a: seq<Option<OptionRecord>>, b: seq<Option<OptionRecord>>)
    ensures Present(a + b) == Present(a) + Present(b)
    decreases a
  {
    if a == [] {
      assert a + b == b;
    } else {
      assert (a + b)[1..] == a[1..] + b;
      PresentAppend(a[1..], b);
    }
  }

  /** When every hit has a stored document, the hits are kept in full. */
  lemma {:induction false} PresentAll(xs: seq<Option<OptionRecord>>)
    requires forall i :: 0 <= i < |xs| ==> xs[i].Some?
    ensures |Present(xs)| == |xs|
    ensures forall i :: 0 <= i < |xs| ==> Present(xs)[i] == xs[i].value
    decreases xs
  {
    if xs != [] {
      PresentAll(xs[1..]);
    }
  }

  /** A fresh list is the empty-query list of the loaded options, in their
      own order; the index has no say in it. */
  lemma EmptyQueryIgnoresIndex(prev: Option<seq<OptionRecord>>, i1: Index, i2: Index,
                               options: seq<OptionRecord>, st: QueryState)
    requires st.query == Query("")
    ensures ShownOptions(prev, true, Some(i1), options, st) == options[..Min(|options|, st.limit)]
    ensures ShownOptions(prev, true, Some(i1), options, st) == ShownOptions(prev, true, Some(i2), options, st)
  {
  }

  /** The field flags do not filter an empty query: with both off, every
      loaded option up to the limit is still listed. */
  lemma NoFieldsEmptyQueryListsOptions(prev: Option<seq<OptionRecord>>, index: Index,
                                       options: seq<OptionRecord>, limit: nat)
    requires |options| > 0 && limit > 0
    ensures ShownOptions(prev, true, Some(index), options, QueryState(Query(""), false, false, limit)) != []
  {
  }

  /** When the index was built from the loaded options, everything a fresh
      list shows is one of those options. */
  lemma ShownAreLoadedOptions(prev: Option<seq<OptionRecord>>, index: Index,
                              options: seq<OptionRecord>, st: QueryState)
    requires index.docs == PositionMap(options)
    ensures forall x :: x in ShownOptions(prev, true, Some(index), options, st) ==> x in options
  {
    var r := ShownOptions(prev, true, Some(index), options, st);
    forall x | x in r
      ensures x in options
    {
      if st.query != Query("") {
        var fields := SearchFields(st.titleSearch, st.descrSearch);
        var found := index.Search(st.query, fields, st.limit);
        assert x in Hits(index, st);
        assert Some(x) in found;
        var i :| 0 <= i < |found| && found[i] == Some(x);
        var id := index.lookup(st.query, fields, st.limit)[i];
        assert x == index.docs[id] == options[id];
      }
    }
  }

  /** A non-empty query whose hits all have documents shows the first hits,
      in hit order, one per id. */
  lemma HitsInOrder(prev: Option<seq<OptionRecord>>, index: Index,
                    options: seq<OptionRecord>, st: QueryState)
    requires st.query != Query("")
    requires forall id :: id in index.lookup(st.query, SearchFields(st.titleSearch, st.descrSearch), st.limit) ==> id in index.docs
    ensures var ids := index.lookup(st.query, SearchFields(st.titleSearch, st.descrSearch), st.limit);
            var r := ShownOptions(prev, true, Some(index), options, st);
            && |r| == Min(|ids|, st.limit)
            && forall i :: 0 <= i < |r| ==> r[i] == index.docs[ids[i]]
  {
    var fields := SearchFields(st.titleSearch, st.descrSearch);
    var found := index.Search(st.query, fields, st.limit);
    PresentAll(found);
  }

  /** For a fresh list, `limited` and the "Load more" button agree. */
  lemma LimitedIffLoadMore(prev: Option<seq<OptionRecord>>, index: Index,
                           options: seq<OptionRecord>, st: QueryState)
    ensures var r := ShownOptions(prev, true, Some(index), options, st);
            Limited(r, st.limit) <==> ShowsLoadMore(r, st.limit)
  {
  }

  /** The store's state as the memo reads it: a fresh list never holds
      more entries than the chunks granted by the store's event history. */
  lemma ShownWithinStoreLimit(store: SearchStore, prev: Option<seq<OptionRecord>>, index: Index,
                              options: seq<OptionRecord>)
    requires store.Valid()
    ensures var r := ShownOptions(prev, true, Some(index), options, store.State());
            |r| <= LimitAfter(store.history) && LimitAfter(store.history) % ChunkSize == 0
  {
  }

  /** The index `BuildIndex` returns, as the memo sees it: everything a
      fresh list shows is one of the options the index was built from. */
  lemma BuiltIndexShowsLoadedOptions(doc: Document, prev: Option<seq<OptionRecord>>,
                                     options: seq<OptionRecord>, st: QueryState)
    requires doc.docs == PositionMap(options)
    ensures forall x :: x in ShownOptions(prev, true, Some(doc.Snapshot()), options, st) ==> x in options
  {
    ShownAreLoadedOptions(prev, doc.Snapshot(), options, st);
  }

  /** A kept list can be longer than a limit reset since: then the button
      shows while `limited` is false. */
  lemma StaleListOutgrowsLimit(o: OptionRecord)
    ensures var r := ShownOptions(Some(Repeat(o, 2 * ChunkSize)), false, None, [], QueryState(Query(""), true, true, ChunkSize));
            ShowsLoadMore(r, ChunkSize) && !Limited(r, ChunkSize)
  {
  }
}
