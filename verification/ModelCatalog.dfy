/** The model catalog: three listings merged into one, kept over failing refreshes. */
module ModelCatalog {
  import opened Wrappers

  type ModelId = string

  datatype Provider = OpenCode | Ollama | OtherProvider(name: string)

  datatype Model = Model(id: ModelId, free: bool, provider: Provider, providers: seq<Provider>)

  /** Only Ollama is kept apart. */
  function Normalized(p: Provider): Provider { if p == Ollama then Ollama else OpenCode }

  // ----- Providers of a row -----

  function AddProvider(out: seq<Provider>, p: Provider): seq<Provider> {
    if Normalized(p) in out then out else out + [Normalized(p)]
  }

  function AddAll(out: seq<Provider>, ps: seq<Provider>): seq<Provider> {
    if |ps| == 0 then out else AddProvider(AddAll(out, ps[..|ps| - 1]), ps[|ps| - 1])
  }

  function ProvidersFor(m: Model): seq<Provider> { AddAll(AddProvider([], m.provider), m.providers) }

  method ProvidersOf(m: Model) returns (out: seq<Provider>)
    ensures out == ProvidersFor(m)
  {
    var seen: set<Provider> := {Normalized(m.provider)};
    out := [Normalized(m.provider)];
    for i := 0 to |m.providers|
      invariant out == AddAll(AddProvider([], m.provider), m.providers[..i])
      invariant forall p :: p in seen <==> p in out
    {
      assert m.providers[..i + 1][..i] == m.providers[..i];
      var p := Normalized(m.providers[i]);
      if p !in seen {
        seen := seen + {p};
        out := out + [p];
      }
    }
    assert m.providers[..|m.providers|] == m.providers;
  }

  /** Not empty, without duplicates, and headed by the primary. */
  predicate WellListed(m: Model) {
    && m.provider == Normalized(m.provider)
    && |m.providers| > 0 && m.providers[0] == m.provider
    && forall i, j :: 0 <= i < j < |m.providers| ==> m.providers[i] != m.providers[j]
  }

  lemma {:induction false} AddAllListed(out: seq<Provider>, ps: seq<Provider>)
    requires |out| > 0 && forall i, j :: 0 <= i < j < |out| ==> out[i] != out[j]
    ensures var r := AddAll(out, ps);
            |r| > 0 && r[0] == out[0] && forall i, j :: 0 <= i < j < |r| ==> r[i] != r[j]
  {
    if |ps| > 0 { AddAllListed(out, ps[..|ps| - 1]); }
  }

  lemma {:induction false} ProvidersListed(m: Model)
    requires m.provider == Normalized(m.provider)
    ensures WellListed(m.(providers := ProvidersFor(m)))
  {
    assert AddProvider([], m.provider) == [m.provider];
    AddAllListed([m.provider], m.providers);
  }

  // ----- Merging -----

  /** The last row with this id, or the length. */
  function IndexOf(rows: seq<Model>, id: ModelId): (i: nat)
    ensures i <= |rows|
    ensures i < |rows| ==> rows[i].id == id
    ensures i == |rows| ==> forall j :: 0 <= j < |rows| ==> rows[j].id != id
  {
    if |rows| == 0 then 0
    else if rows[|rows| - 1].id == id then |rows| - 1
    else
      var i := IndexOf(rows[..|rows| - 1], id);
      if i == |rows| - 1 then |rows| else i
  }

  function Annotated(m: Model, provider: Provider): Model {
    m.(providers := ProvidersFor(m.(providers := m.providers + [provider])))
  }

  function MergeOnePaid(rows: seq<Model>, raw: string, provider: Provider): seq<Model> {
    var id := TrimSpace(raw);
    if id == "" then rows
    else
      var i := IndexOf(rows, id);
      if i < |rows| then rows[i := Annotated(rows[i], provider)]
      else rows + [Model(id, false, provider, [Normalized(provider)])]
  }

  function MergePaid(rows: seq<Model>, raws: seq<string>, provider: Provider): seq<Model> {
    if |raws| == 0 then rows
    else MergeOnePaid(MergePaid(rows, raws[..|raws| - 1], provider), raws[|raws| - 1], provider)
  }

  /** A recovered row: paid, by OpenCode first, with everyone who served it. */
  function Recovered(id: ModelId, providers: seq<Provider>): Model {
    Model(id, false, OpenCode, ProvidersFor(Model(id, false, OpenCode, providers)))
  }

  function MergeOnePrevious(rows: seq<Model>, m: Model): seq<Model> {
    if m.free || Normalized(m.provider) != OpenCode || m.id == "" then rows
    else
      var i := IndexOf(rows, m.id);
      if i < |rows| then rows[i := Recovered(m.id, rows[i].providers + ProvidersFor(m))]
      else rows + [Recovered(m.id, m.providers)]
  }

  function MergePrevious(rows: seq<Model>, previous: seq<Model>): seq<Model> {
    if |previous| == 0 then rows
    else MergeOnePrevious(MergePrevious(rows, previous[..|previous| - 1]), previous[|previous| - 1])
  }

  // ----- Free models -----

  predicate HasFreeDefault(id: ModelId) {
    id == "big-pickle" || (|id| > 5 && id[|id| - 5..] == "-free")
  }

  /** Allow and deny lists; deny wins. */
  datatype Lists = Lists(allow: set<ModelId>, deny: set<ModelId>)

  predicate IsFree(lists: Lists, id: ModelId) {
    (id in lists.allow || HasFreeDefault(id)) && id !in lists.deny
  }

  function FreeRows(lists: Lists, ids: seq<ModelId>): seq<Model> {
    if |ids| == 0 then []
    else
      var last := ids[|ids| - 1];
      FreeRows(lists, ids[..|ids| - 1]) + if IsFree(lists, last) then [Model(last, true, OpenCode, [OpenCode])] else []
  }

  // ----- One fetch -----

  /** A source: not configured, failing, or listing ids. */
  datatype Listing = Absent | Failing | Listed(ids: seq<string>)

  datatype Fetch = Fetch(open: Option<seq<ModelId>>, paid: Listing, ollama: Listing)

  datatype Merged = Merged(rows: seq<Model>, partial: bool)

  function FetchAndMerge(lists: Lists, f: Fetch, previous: seq<Model>): Option<Merged> {
    if f.open == None then None
    else
      var free := FreeRows(lists, f.open.value);
      var recover := f.paid.Failing? || (f.paid.Listed? && f.paid.ids == []);
      var rows := if recover then MergePrevious(free, previous)
                  else if f.paid.Listed? then MergePaid(free, f.paid.ids, OpenCode) else free;
      match f.ollama
      case Absent => Some(Merged(rows, recover))
      case Failing => Some(Merged(rows, true))
      case Listed(ids) => Some(Merged(if ids == [] then rows else MergePaid(rows, ids, Ollama), recover))
  }

  // ----- Every row is well listed, and ids stay distinct -----

  predicate AllListed(rows: seq<Model>) {
    forall i :: 0 <= i < |rows| ==> WellListed(rows[i])
  }

  predicate DistinctIds(rows: seq<Model>) {
    forall i, j :: 0 <= i < j < |rows| ==> rows[i].id != rows[j].id
  }

  lemma {:induction false} OnePaidKeeps(rows: seq<Model>, raw: string, provider: Provider)
    requires AllListed(rows) && provider == Normalized(provider)
    ensures AllListed(MergeOnePaid(rows, raw, provider))
    ensures DistinctIds(rows) ==> DistinctIds(MergeOnePaid(rows, raw, provider))
  {
    var i := IndexOf(rows, TrimSpace(raw));
    if i < |rows| { ProvidersListed(rows[i].(providers := rows[i].providers + [provider])); }
  }

  lemma {:induction false} PaidKeeps(rows: seq<Model>, raws: seq<string>, provider: Provider)
    requires AllListed(rows) && provider == Normalized(provider)
    ensures AllListed(MergePaid(rows, raws, provider))
    ensures DistinctIds(rows) ==> DistinctIds(MergePaid(rows, raws, provider))
  {
    if |raws| > 0 {
      PaidKeeps(rows, raws[..|raws| - 1], provider);
      OnePaidKeeps(MergePaid(rows, raws[..|raws| - 1], provider), raws[|raws| - 1], provider);
    }
  }

  lemma {:induction false} OnePreviousKeeps(rows: seq<Model>, m: Model)
    requires AllListed(rows)
    ensures AllListed(MergeOnePrevious(rows, m))
    ensures DistinctIds(rows) ==> DistinctIds(MergeOnePrevious(rows, m))
  {
    var i := IndexOf(rows, m.id);
    if i < |rows| {
      ProvidersListed(Model(m.id, false, OpenCode, rows[i].providers + ProvidersFor(m)));
    } else {
      ProvidersListed(Model(m.id, false, OpenCode, m.providers));
    }
  }

  lemma {:induction false} PreviousKeeps(rows: seq<Model>, previous: seq<Model>)
    requires AllListed(rows)
    ensures AllListed(MergePrevious(rows, previous))
    ensures DistinctIds(rows) ==> DistinctIds(MergePrevious(rows, previous))
  {
    if |previous| > 0 {
      PreviousKeeps(rows, previous[..|previous| - 1]);
      OnePreviousKeeps(MergePrevious(rows, previous[..|previous| - 1]), previous[|previous| - 1]);
    }
  }

  predicate NoRepeats(ids: seq<ModelId>) {
    forall i, j :: 0 <= i < j < |ids| ==> ids[i] != ids[j]
  }

  lemma {:induction false} FreeKeeps(lists: Lists, ids: seq<ModelId>)
    ensures AllListed(FreeRows(lists, ids))
    ensures forall i :: 0 <= i < |FreeRows(lists, ids)| ==> FreeRows(lists, ids)[i].id in ids
    ensures NoRepeats(ids) ==> DistinctIds(FreeRows(lists, ids))
  {
    if |ids| > 0 {
      var front, last := ids[..|ids| - 1], ids[|ids| - 1];
      FreeKeeps(lists, front);
      var rows := FreeRows(lists, front);
      forall i | 0 <= i < |rows|
        ensures rows[i].id in ids && (NoRepeats(ids) ==> rows[i].id != last)
      {
        var j :| 0 <= j < |front| && front[j] == rows[i].id;
        assert ids[j] == rows[i].id;
      }
    }
  }

  /** Whatever the sources return: every row's providers are not empty, without duplicates and
      headed by the primary, and ids are distinct when the public list's are. */
  lemma {:induction false} FetchKeeps(lists: Lists, f: Fetch, previous: seq<Model>)
    requires f.open.Some?
    ensures AllListed(FetchAndMerge(lists, f, previous).value.rows)
    ensures NoRepeats(f.open.value) ==> DistinctIds(FetchAndMerge(lists, f, previous).value.rows)
  {
    var free := FreeRows(lists, f.open.value);
    FreeKeeps(lists, f.open.value);
    PreviousKeeps(free, previous);
    if f.paid.Listed? { PaidKeeps(free, f.paid.ids, OpenCode); }
    if f.ollama.Listed? {
      PaidKeeps(MergePrevious(free, previous), f.ollama.ids, Ollama);
      if f.paid.Listed? { PaidKeeps(MergePaid(free, f.paid.ids, OpenCode), f.ollama.ids, Ollama); }
      PaidKeeps(free, f.ollama.ids, Ollama);
    }
  }

  // ----- A paid OpenCode model survives failing listings -----

  /** The catalog routes this id to the paid OpenCode pool. */
  predicate PaidOpenCode(rows: seq<Model>, id: ModelId) {
    exists i :: 0 <= i < |rows| && rows[i].id == id && !rows[i].free && rows[i].provider == OpenCode
  }

  lemma {:induction false} OnePaidSpares(rows: seq<Model>, raw: string, provider: Provider, id: ModelId)
    requires PaidOpenCode(rows, id)
    ensures PaidOpenCode(MergeOnePaid(rows, raw, provider), id)
  {
    var i :| 0 <= i < |rows| && rows[i].id == id && !rows[i].free && rows[i].provider == OpenCode;
    var r := MergeOnePaid(rows, raw, provider);
    assert r[i].id == id && !r[i].free && r[i].provider == OpenCode;
  }

  lemma {:induction false} PaidSpares(rows: seq<Model>, raws: seq<string>, provider: Provider, id: ModelId)
    requires PaidOpenCode(rows, id)
    ensures PaidOpenCode(MergePaid(rows, raws, provider), id)
  {
    if |raws| > 0 {
      PaidSpares(rows, raws[..|raws| - 1], provider, id);
      OnePaidSpares(MergePaid(rows, raws[..|raws| - 1], provider), raws[|raws| - 1], provider, id);
    }
  }

  lemma {:induction false} OnePreviousSpares(rows: seq<Model>, m: Model, id: ModelId)
    requires PaidOpenCode(rows, id) || (m.id == id && id != "" && !m.free && m.provider == OpenCode)
    ensures PaidOpenCode(MergeOnePrevious(rows, m), id)
  {
    var r := MergeOnePrevious(rows, m);
    if m.id == id && id != "" && !m.free && m.provider == OpenCode {
      var i := IndexOf(rows, id);
      assert r[i].id == id && !r[i].free && r[i].provider == OpenCode;
    } else {
      var i :| 0 <= i < |rows| && rows[i].id == id && !rows[i].free && rows[i].provider == OpenCode;
      assert r[i].id == id && !r[i].free && r[i].provider == OpenCode;
    }
  }

  lemma {:induction false} PreviousSpares(rows: seq<Model>, previous: seq<Model>, id: ModelId)
    requires PaidOpenCode(previous, id) && id != ""
    ensures PaidOpenCode(MergePrevious(rows, previous), id)
  {
    var n := |previous| - 1;
    assert forall i :: 0 <= i < n ==> previous[..n][i] == previous[i];
    if PaidOpenCode(previous[..n], id) { PreviousSpares(rows, previous[..n], id); }
    OnePreviousSpares(MergePrevious(rows, previous[..n]), previous[n], id);
  }

  /** The Go listing fails, or succeeds with nothing. */
  predicate GoDown(f: Fetch) { f.paid.Failing? || f.paid == Listed([]) }

  lemma {:induction false} FetchSpares(lists: Lists, f: Fetch, previous: seq<Model>, id: ModelId)
    requires f.open.Some? && GoDown(f) && PaidOpenCode(previous, id) && id != ""
    ensures PaidOpenCode(FetchAndMerge(lists, f, previous).value.rows, id)
  {
    var rows := MergePrevious(FreeRows(lists, f.open.value), previous);
    PreviousSpares(FreeRows(lists, f.open.value), previous, id);
    if f.ollama.Listed? { PaidSpares(rows, f.ollama.ids, Ollama, id); }
  }

  // ----- What the catalog holds after a fetch -----

  predicate Has(rows: seq<Model>, id: ModelId) { exists m :: m in rows && m.id == id }

  /** The listing names the model, up to white space. */
  predicate Names(ids: seq<string>, id: ModelId) { id != "" && exists raw :: raw in ids && TrimSpace(raw) == id }

  predicate Offers(listing: Listing, id: ModelId) { listing.Listed? && Names(listing.ids, id) }

  /** Free of charge: by the allow list or by its name, unless denied. */
  predicate Free(lists: Lists, id: ModelId) {
    id !in lists.deny && (id in lists.allow || id == "big-pickle" || (|id| >= 6 && "-free" == id[|id| - 5..]))
  }

  /** A model the catalog had as a paid one of OpenCode. */
  predicate WasPaid(previous: seq<Model>, id: ModelId) {
    id != "" && exists m :: m in previous && m.id == id && !m.free && m.provider != Ollama
  }

  lemma {:induction false} FreeRowsHold(lists: Lists, ids: seq<ModelId>, id: ModelId)
    ensures Has(FreeRows(lists, ids), id) <==> id in ids && Free(lists, id)
    ensures forall m :: m in FreeRows(lists, ids) ==> m == Model(m.id, true, OpenCode, [OpenCode])
  {
    if |ids| > 0 {
      var n := |ids| - 1;
      FreeRowsHold(lists, ids[..n], id);
      assert ids == ids[..n] + [ids[n]];
      var before, after := FreeRows(lists, ids[..n]), FreeRows(lists, ids);
      assert forall m :: m in before ==> m in after;
      if IsFree(lists, ids[n]) { assert Model(ids[n], true, OpenCode, [OpenCode]) in after; }
    }
  }

  lemma {:induction false} AddAllHolds(out: seq<Provider>, ps: seq<Provider>, p: Provider)
    ensures p in AddAll(out, ps) <==> p in out || exists x :: x in ps && Normalized(x) == p
  {
    if |ps| > 0 {
      AddAllHolds(out, ps[..|ps| - 1], p);
      assert ps == ps[..|ps| - 1] + [ps[|ps| - 1]];
    }
  }

  lemma {:induction false} ProvidersHold(m: Model, p: Provider)
    ensures p in ProvidersFor(m) <==> Normalized(m.provider) == p || exists x :: x in m.providers && Normalized(x) == p
  {
    AddAllHolds(AddProvider([], m.provider), m.providers, p);
  }

  /** Replacing a row by one with the same id. */
  lemma {:induction false} HasSame(rows: seq<Model>, i: nat, m: Model, id: ModelId)
    requires i < |rows| && m.id == rows[i].id
    ensures Has(rows[i := m], id) <==> Has(rows, id)
  {
    var r := rows[i := m];
    if Has(rows, id) {
      var x :| x in rows && x.id == id;
      var j :| 0 <= j < |rows| && rows[j] == x;
      assert r[j].id == id && r[j] in r;
    }
    if Has(r, id) {
      var x :| x in r && x.id == id;
      var j :| 0 <= j < |r| && r[j] == x;
      assert rows[j].id == id && rows[j] in rows;
    }
  }

  lemma {:induction false} HasSnoc(rows: seq<Model>, m: Model, id: ModelId)
    ensures Has(rows + [m], id) <==> Has(rows, id) || m.id == id
  {
    assert m in rows + [m];
    assert forall x :: x in rows ==> x in rows + [m];
  }

  lemma {:induction false} OnePaidHolds(rows: seq<Model>, raw: string, provider: Provider, id: ModelId)
    ensures Has(MergeOnePaid(rows, raw, provider), id) <==> Has(rows, id) || (id != "" && TrimSpace(raw) == id)
  {
    var name := TrimSpace(raw);
    var i := IndexOf(rows, name);
    if name != "" {
      if i < |rows| {
        HasSame(rows, i, Annotated(rows[i], provider), id);
        assert rows[i] in rows;
      } else {
        HasSnoc(rows, Model(name, false, provider, [Normalized(provider)]), id);
      }
    }
  }

  lemma {:induction false} PaidHolds(rows: seq<Model>, raws: seq<string>, provider: Provider, id: ModelId)
    ensures Has(MergePaid(rows, raws, provider), id) <==> Has(rows, id) || Names(raws, id)
  {
    if |raws| > 0 {
      hide MergeOnePaid, TrimSpace, Has;
      var n := |raws| - 1;
      PaidHolds(rows, raws[..n], provider, id);
      OnePaidHolds(MergePaid(rows, raws[..n], provider), raws[n], provider, id);
      assert raws == raws[..n] + [raws[n]];
    }
  }

  lemma {:induction false} OnePreviousHolds(rows: seq<Model>, m: Model, id: ModelId)
    ensures Has(MergeOnePrevious(rows, m), id) <==>
            Has(rows, id) || (id != "" && m.id == id && !m.free && m.provider != Ollama)
  {
    var i := IndexOf(rows, m.id);
    if !(m.free || Normalized(m.provider) != OpenCode || m.id == "") {
      if i < |rows| {
        HasSame(rows, i, Recovered(m.id, rows[i].providers + ProvidersFor(m)), id);
        assert rows[i] in rows;
      } else {
        HasSnoc(rows, Recovered(m.id, m.providers), id);
      }
    }
  }

  lemma {:induction false} PreviousHolds(rows: seq<Model>, previous: seq<Model>, id: ModelId)
    ensures Has(MergePrevious(rows, previous), id) <==> Has(rows, id) || WasPaid(previous, id)
  {
    if |previous| > 0 {
      hide MergeOnePrevious, Has;
      var n := |previous| - 1;
      PreviousHolds(rows, previous[..n], id);
      OnePreviousHolds(MergePrevious(rows, previous[..n]), previous[n], id);
      assert previous == previous[..n] + [previous[n]];
    }
  }

  /** After a fetch the catalog holds exactly the free models of the public list, the paid ones
      listed, or, when that listing fails or is empty, those it had before, and the ones
      Ollama lists; it is partial exactly if a listing failed or the paid one was empty. */
  lemma {:induction false} FetchHolds(lists: Lists, f: Fetch, previous: seq<Model>, id: ModelId)
    requires f.open.Some?
    ensures var m := FetchAndMerge(lists, f, previous).value;
            && (Has(m.rows, id) <==>
                  || (id in f.open.value && Free(lists, id))
                  || (if GoDown(f) then WasPaid(previous, id) else Offers(f.paid, id))
                  || Offers(f.ollama, id))
            && (m.partial <==> GoDown(f) || f.ollama.Failing?)
    ensures FetchAndMerge(lists, f.(open := None), previous) == None
  {
    hide MergePaid, MergePrevious, FreeRows, Has, Free, Names, WasPaid;
    var free := FreeRows(lists, f.open.value);
    FreeRowsHold(lists, f.open.value, id);
    PreviousHolds(free, previous, id);
    var rows := if GoDown(f) then MergePrevious(free, previous)
                else if f.paid.Listed? then MergePaid(free, f.paid.ids, OpenCode) else free;
    if f.paid.Listed? { PaidHolds(free, f.paid.ids, OpenCode, id); }
    if f.ollama.Listed? {
      PaidHolds(rows, f.ollama.ids, Ollama, id);
      if f.ollama.ids == [] { NamesNothing(id); }
    }
  }

  lemma {:induction false} NamesNothing(id: ModelId)
    ensures !Names([], id)
  {
  }

  // ----- What each row says -----

  /** A row's flag, whether its primary is OpenCode, and whether Ollama serves it too. */
  datatype Fact = Fact(free: bool, open: bool, ollama: bool)

  predicate RowSays(m: Model, fact: Fact) {
    && (fact.open || fact.ollama) && m.free == fact.free && m.provider == (if fact.open then OpenCode else Ollama)
    && (OpenCode in m.providers <==> fact.open) && (Ollama in m.providers <==> fact.ollama)
    && forall p :: p in m.providers ==> p == OpenCode || p == Ollama
  }

  /** Every row with this id says this; without a fact there is none. */
  predicate Says(rows: seq<Model>, id: ModelId, fact: Option<Fact>) {
    && (Has(rows, id) <==> fact.Some?)
    && forall m :: m in rows && m.id == id ==> fact.Some? && RowSays(m, fact.value)
  }

  /** One more listing that names the model. */
  function OnceListed(fact: Option<Fact>, provider: Provider): Option<Fact> {
    if fact == None then Some(Fact(false, provider == OpenCode, provider == Ollama))
    else if provider == Ollama then Some(fact.value.(ollama := true))
    else Some(fact.value)
  }

  lemma {:induction false} SaysSnoc(rows: seq<Model>, m: Model, id: ModelId, fact: Option<Fact>)
    requires Says(rows, id, fact) && (m.id == id ==> fact == None)
    ensures m.id != id ==> Says(rows + [m], id, fact)
    ensures forall f :: m.id == id && RowSays(m, f) ==> Says(rows + [m], id, Some(f))
  {
    HasSnoc(rows, m, id);
  }

  /** All rows with an id are one row when ids are distinct. */
  lemma {:induction false} SaysUpdate(rows: seq<Model>, i: nat, m: Model, id: ModelId, fact: Option<Fact>, next: Fact)
    requires Says(rows, id, fact) && DistinctIds(rows) && i < |rows| && m.id == rows[i].id
    requires m.id == id ==> RowSays(m, next)
    ensures Says(rows[i := m], id, if m.id == id then Some(next) else fact)
  {
    HasSame(rows, i, m, id);
    var r := rows[i := m];
    assert rows[i] in rows;
    forall x | x in r && x.id == id
      ensures if m.id == id then RowSays(x, next) else fact.Some? && RowSays(x, fact.value)
    {
      var j :| 0 <= j < |r| && r[j] == x;
      if j != i { assert rows[j] in rows && rows[j].id != rows[i].id; }
    }
    if m.id == id { assert Has(rows, id); }
  }

  lemma {:induction false} AnnotatedSays(m: Model, fact: Fact, provider: Provider)
    requires RowSays(m, fact) && (provider == OpenCode || provider == Ollama) && (provider == OpenCode ==> fact.open)
    ensures RowSays(Annotated(m, provider), OnceListed(Some(fact), provider).value)
  {
    var r := m.(providers := m.providers + [provider]);
    ProvidersHold(r, OpenCode);
    ProvidersHold(r, Ollama);
    forall p | p in ProvidersFor(r) ensures p == OpenCode || p == Ollama { ProvidersHold(r, p); }
    assert provider in r.providers && forall x :: x in m.providers ==> x in r.providers;
  }

  lemma {:induction false} OnePaidSays(rows: seq<Model>, raw: string, provider: Provider, id: ModelId,
                                       fact: Option<Fact>)
    requires Says(rows, id, fact) && DistinctIds(rows) && (provider == OpenCode || provider == Ollama)
    requires provider == OpenCode && fact.Some? ==> fact.value.open
    ensures var named := id != "" && TrimSpace(raw) == id;
            Says(MergeOnePaid(rows, raw, provider), id, if named then OnceListed(fact, provider) else fact)
  {
    hide TrimSpace, ProvidersFor, OnceListed;
    var name := TrimSpace(raw);
    var i := IndexOf(rows, name);
    if name != "" && i < |rows| {
      var m := Annotated(rows[i], provider);
      if name == id {
        assert rows[i] in rows;
        ListedIsSome(fact, provider);
        AnnotatedSays(rows[i], fact.value, provider);
        SaysUpdate(rows, i, m, id, fact, OnceListed(fact, provider).value);
      } else {
        SaysUpdate(rows, i, m, id, fact, Fact(false, false, false));
      }
    } else if name != "" {
      if name == id {
        forall x | x in rows ensures x.id != id { var j :| 0 <= j < |rows| && rows[j] == x; }
        assert !Has(rows, id);
      }
      ListedIsSome(fact, provider);
      NewSays(name, provider);
      SaysSnoc(rows, Model(name, false, provider, [Normalized(provider)]), id, fact);
    }
  }

  lemma {:induction false} ListedIsSome(fact: Option<Fact>, provider: Provider)
    ensures OnceListed(fact, provider).Some?
    ensures fact == None ==> OnceListed(fact, provider) == Some(Fact(false, provider == OpenCode, provider == Ollama))
    ensures fact.Some? && fact.value.open ==> OnceListed(fact, provider).value.open
    ensures OnceListed(OnceListed(fact, provider), provider) == OnceListed(fact, provider)
    ensures provider == OpenCode && (fact == None || fact.value.open) ==> OnceListed(fact, provider).value.open
  {
  }

  lemma {:induction false} NewSays(name: ModelId, provider: Provider)
    requires provider == OpenCode || provider == Ollama
    ensures RowSays(Model(name, false, provider, [Normalized(provider)]),
                    Fact(false, provider == OpenCode, provider == Ollama))
  {
  }

  lemma {:induction false} PaidSays(rows: seq<Model>, raws: seq<string>, provider: Provider, id: ModelId,
                                    fact: Option<Fact>)
    requires Says(rows, id, fact) && DistinctIds(rows) && AllListed(rows)
    requires (provider == OpenCode || provider == Ollama) && (provider == OpenCode && fact.Some? ==> fact.value.open)
    ensures Says(MergePaid(rows, raws, provider), id, if Names(raws, id) then OnceListed(fact, provider) else fact)
  {
    if |raws| == 0 {
      NamesNothing(id);
    } else {
      hide MergeOnePaid, TrimSpace, Says, OnceListed, Names;
      var n := |raws| - 1;
      PaidSays(rows, raws[..n], provider, id, fact);
      PaidKeeps(rows, raws[..n], provider);
      NamesSnoc(raws[..n], raws[n], id);
      assert raws == raws[..n] + [raws[n]];
      ListedIsSome(fact, provider);
      OnePaidSays(MergePaid(rows, raws[..n], provider), raws[n], provider, id,
                  if Names(raws[..n], id) then OnceListed(fact, provider) else fact);
    }
  }

  lemma {:induction false} NamesSnoc(raws: seq<string>, raw: string, id: ModelId)
    ensures Names(raws + [raw], id) <==> Names(raws, id) || (id != "" && TrimSpace(raw) == id)
  {
    assert raw in raws + [raw];
    assert forall x :: x in raws ==> x in raws + [raw];
  }

  /** Ollama served a model that the catalog had as a paid one of OpenCode. */
  predicate HadOllama(previous: seq<Model>, id: ModelId) {
    exists m :: m in previous && m.id == id && id != "" && !m.free && m.provider != Ollama && Ollama in m.providers
  }

  function Kept(fact: Option<Fact>, ollama: bool): Option<Fact> {
    Some(Fact(false, true, ollama || (fact.Some? && fact.value.ollama)))
  }

  lemma {:induction false} RecoveredSays(id: ModelId, providers: seq<Provider>)
    ensures RowSays(Recovered(id, providers), Fact(false, true, Ollama in providers))
  {
    var m := Model(id, false, OpenCode, providers);
    ProvidersHold(m, OpenCode);
    ProvidersHold(m, Ollama);
    forall p | p in ProvidersFor(m) ensures p == OpenCode || p == Ollama { ProvidersHold(m, p); }
  }

  lemma {:induction false} OnePreviousSays(rows: seq<Model>, m: Model, id: ModelId, fact: Option<Fact>)
    requires Says(rows, id, fact) && DistinctIds(rows)
    ensures var kept := id != "" && m.id == id && !m.free && m.provider != Ollama;
            Says(MergeOnePrevious(rows, m), id, if kept then Kept(fact, Ollama in m.providers) else fact)
  {
    hide ProvidersFor;
    var i := IndexOf(rows, m.id);
    if !(m.free || Normalized(m.provider) != OpenCode || m.id == "") {
      if i < |rows| {
        var all := rows[i].providers + ProvidersFor(m);
        RecoveredSays(m.id, all);
        ProvidersHold(m, Ollama);
        assert rows[i] in rows;
        SaysUpdate(rows, i, Recovered(m.id, all), id, fact, Fact(false, true, Ollama in all));
      } else {
        RecoveredSays(m.id, m.providers);
        if m.id == id {
          forall x | x in rows ensures x.id != id { var j :| 0 <= j < |rows| && rows[j] == x; }
          assert !Has(rows, id);
        }
        SaysSnoc(rows, Recovered(m.id, m.providers), id, fact);
      }
    }
  }

  lemma {:induction false} PreviousSays(rows: seq<Model>, previous: seq<Model>, id: ModelId, fact: Option<Fact>)
    requires Says(rows, id, fact) && DistinctIds(rows) && AllListed(rows)
    ensures Says(MergePrevious(rows, previous), id,
                 if WasPaid(previous, id) then Kept(fact, HadOllama(previous, id)) else fact)
  {
    if |previous| > 0 {
      hide MergeOnePrevious, Says;
      var n := |previous| - 1;
      var front, m := previous[..n], previous[n];
      PreviousSays(rows, front, id, fact);
      PreviousKeeps(rows, front);
      assert previous == front + [m];
      assert m in previous && forall x :: x in front ==> x in previous;
      OnePreviousSays(MergePrevious(rows, front), m, id,
                      if WasPaid(front, id) then Kept(fact, HadOllama(front, id)) else fact);
    }
  }

  /** What a fetch makes of each model it holds: free exactly if the public list has it and it is
      free, and it was not recovered as a paid one; of OpenCode first exactly if the public or
      the paid list has it or it was recovered, and only then served by OpenCode; served by
      Ollama exactly if Ollama lists it, or if it was recovered and Ollama served it before. */
  lemma {:induction false} FetchSays(lists: Lists, f: Fetch, previous: seq<Model>, id: ModelId)
    requires f.open.Some? && NoRepeats(f.open.value)
    ensures var free, kept := id in f.open.value && Free(lists, id), GoDown(f) && WasPaid(previous, id);
            var open := free || kept || (!GoDown(f) && Offers(f.paid, id));
            var ollama := Offers(f.ollama, id) || (kept && HadOllama(previous, id));
            Says(FetchAndMerge(lists, f, previous).value.rows, id,
                 if open || ollama then Some(Fact(free && !kept, open, ollama)) else None)
  {
    hide MergePaid, MergePrevious, FreeRows, Says, Free, Names, WasPaid, HadOllama;
    var rows := FreeRows(lists, f.open.value);
    FreeKeeps(lists, f.open.value);
    FreeSays(lists, f.open.value, id);
    var fact := if id in f.open.value && Free(lists, id) then Some(Fact(true, true, false)) else None;
    if GoDown(f) {
      PreviousSays(rows, previous, id, fact);
      PreviousKeeps(rows, previous);
      rows, fact := MergePrevious(rows, previous), if WasPaid(previous, id) then Kept(fact, HadOllama(previous, id))
                                                   else fact;
    } else if f.paid.Listed? {
      PaidSays(rows, f.paid.ids, OpenCode, id, fact);
      PaidKeeps(rows, f.paid.ids, OpenCode);
      rows := MergePaid(rows, f.paid.ids, OpenCode);
      if Names(f.paid.ids, id) { fact := OnceListed(fact, OpenCode); }
    }
    if f.ollama.Listed? {
      PaidSays(rows, f.ollama.ids, Ollama, id, fact);
      if f.ollama.ids == [] { NamesNothing(id); }
    }
  }

  lemma {:induction false} FreeSays(lists: Lists, ids: seq<ModelId>, id: ModelId)
    ensures Says(FreeRows(lists, ids), id,
                 if id in ids && Free(lists, id) then Some(Fact(true, true, false)) else None)
  {
    FreeRowsHold(lists, ids, id);
  }

  // ----- Refreshes, one at a time -----

  /** `flight` holds the snapshot read by the fetch in flight, if any; `fetching` counts the
      callers that are fetching. */
  datatype State = State(rows: seq<Model>, loaded: bool, stale: bool, flight: Option<seq<Model>>, fetching: nat)

  datatype Step = Arrive | Complete(fetch: Fetch)

  const EMPTY := State([], false, false, None, 0)

  /** A caller that finds a fetch in flight waits for it; only a fetch completes. */
  function Stepped(lists: Lists, s: State, step: Step): State {
    match step
    case Arrive => if s.flight.Some? then s else s.(flight := Some(s.rows), fetching := s.fetching + 1)
    case Complete(f) =>
      if s.fetching == 0 then s
      else
        var previous := if s.flight.Some? then s.flight.value else [];
        match FetchAndMerge(lists, f, previous)
        case None => s.(stale := true, flight := None, fetching := s.fetching - 1)
        case Some(m) => State(m.rows, true, m.partial, None, s.fetching - 1)
  }

  function Ran(lists: Lists, s: State, steps: seq<Step>): State {
    if |steps| == 0 then s else Stepped(lists, Ran(lists, s, steps[..|steps| - 1]), steps[|steps| - 1])
  }

  /** A refresh that fails keeps the rows and marks them stale; another one replaces them, and
      they are stale exactly if a listing failed or the paid one was empty. */
  lemma {:induction false} CompleteSteps(lists: Lists, s: State, f: Fetch)
    requires SingleFlight(s) && s.flight.Some?
    ensures var t := Stepped(lists, s, Complete(f));
            && t.flight == None && t.fetching == 0
            && (if f.open == None then t.rows == s.rows && t.stale && t.loaded == s.loaded
                else t.rows == FetchAndMerge(lists, f, s.rows).value.rows && t.loaded
                     && (t.stale <==> f.paid.Failing? || f.paid == Listed([]) || f.ollama.Failing?))
  {
    hide MergePaid, MergePrevious, FreeRows;
  }

  /** At most one caller fetches, and what it read when it started is still current. */
  predicate SingleFlight(s: State) {
    s.fetching == (if s.flight.Some? then 1 else 0) && (s.flight.Some? ==> s.flight.value == s.rows)
  }

  lemma {:induction false} RunSingleFlight(lists: Lists, s: State, steps: seq<Step>)
    requires SingleFlight(s)
    ensures SingleFlight(Ran(lists, s, steps))
  {
    if |steps| > 0 { RunSingleFlight(lists, s, steps[..|steps| - 1]); }
  }

  lemma {:induction false} StepListed(lists: Lists, s: State, step: Step)
    requires SingleFlight(s) && AllListed(s.rows)
    ensures AllListed(Stepped(lists, s, step).rows)
  {
    if step.Complete? && step.fetch.open.Some? {
      FetchKeeps(lists, step.fetch, if s.flight.Some? then s.flight.value else []);
    }
  }

  /** Along every run of overlapping refreshes: at most one fetch is in flight, no fetch
      overwrites rows it has not read, and every row is well listed. */
  lemma {:induction false} RunsKeepListed(lists: Lists, steps: seq<Step>)
    ensures SingleFlight(Ran(lists, EMPTY, steps)) && Ran(lists, EMPTY, steps).fetching <= 1
    ensures AllListed(Ran(lists, EMPTY, steps).rows)
  {
    RunSingleFlight(lists, EMPTY, steps);
    if |steps| > 0 {
      var front := steps[..|steps| - 1];
      RunsKeepListed(lists, front);
      StepListed(lists, Ran(lists, EMPTY, front), steps[|steps| - 1]);
    }
  }

  /** No public list that was fetched names a model twice. */
  predicate ListsOnce(steps: seq<Step>) {
    forall i :: 0 <= i < |steps| && steps[i].Complete? && steps[i].fetch.open.Some?
      ==> NoRepeats(steps[i].fetch.open.value)
  }

  /** Along every such run no id appears twice in the catalog, whatever fails and whatever
      rows are recovered. */
  lemma {:induction false} RunsKeepDistinct(lists: Lists, steps: seq<Step>)
    requires ListsOnce(steps)
    ensures DistinctIds(Ran(lists, EMPTY, steps).rows)
  {
    if |steps| > 0 {
      var front, last := steps[..|steps| - 1], steps[|steps| - 1];
      assert forall i :: 0 <= i < |front| ==> front[i] == steps[i];
      RunsKeepDistinct(lists, front);
      var s := Ran(lists, EMPTY, front);
      if last.Complete? && last.fetch.open.Some? {
        FetchKeeps(lists, last.fetch, if s.flight.Some? then s.flight.value else []);
      }
    }
  }

  predicate NeverUp(steps: seq<Step>) {
    forall i :: 0 <= i < |steps| && steps[i].Complete? ==> GoDown(steps[i].fetch)
  }

  lemma {:induction false} StepSpares(lists: Lists, s: State, step: Step, id: ModelId)
    requires SingleFlight(s) && PaidOpenCode(s.rows, id) && id != ""
    requires step.Complete? ==> GoDown(step.fetch)
    ensures PaidOpenCode(Stepped(lists, s, step).rows, id)
  {
    if step.Complete? && step.fetch.open.Some? && s.flight.Some? { FetchSpares(lists, step.fetch, s.flight.value, id); }
  }

  /** A paid OpenCode model stays one through any number of refreshes whose Go listing fails
      or is empty, whatever the public list and Ollama return. */
  lemma {:induction false} PaidSurvivesOutage(lists: Lists, s: State, steps: seq<Step>, id: ModelId)
    requires SingleFlight(s) && PaidOpenCode(s.rows, id) && id != "" && NeverUp(steps)
    ensures PaidOpenCode(Ran(lists, s, steps).rows, id)
  {
    if |steps| > 0 {
      var front := steps[..|steps| - 1];
      assert forall i :: 0 <= i < |front| ==> front[i] == steps[i];
      PaidSurvivesOutage(lists, s, front, id);
      RunSingleFlight(lists, s, front);
      StepSpares(lists, Ran(lists, s, front), steps[|steps| - 1], id);
    }
  }

  // ----- The catalog in place -----

  /** The map from ids to their last rows. */
  ghost predicate Indexes(index: map<ModelId, nat>, rows: seq<Model>) {
    && (forall id :: id in index <==> IndexOf(rows, id) < |rows|)
    && (forall id :: id in index ==> index[id] == IndexOf(rows, id))
  }

  lemma {:induction false} IndexOfSnoc(rows: seq<Model>, m: Model, id: ModelId)
    ensures IndexOf(rows + [m], id) ==
            if m.id == id then |rows| else if IndexOf(rows, id) == |rows| then |rows| + 1 else IndexOf(rows, id)
  {
    assert (rows + [m])[..|rows|] == rows;
  }

  lemma {:induction false} IndexOfUpdate(rows: seq<Model>, i: nat, m: Model, id: ModelId)
    requires i < |rows| && m.id == rows[i].id
    ensures IndexOf(rows[i := m], id) == IndexOf(rows, id)
  {
    var n := |rows| - 1;
    if i < n {
      assert rows[i := m][..n] == rows[..n][i := m];
      IndexOfUpdate(rows[..n], i, m, id);
    } else {
      assert rows[i := m][..n] == rows[..n];
    }
  }

  lemma {:induction false} IndexesSnoc(index: map<ModelId, nat>, rows: seq<Model>, m: Model)
    requires Indexes(index, rows)
    ensures Indexes(index[m.id := |rows|], rows + [m])
  {
    forall id ensures IndexOf(rows + [m], id) ==
                      if m.id == id then |rows| else if IndexOf(rows, id) == |rows| then |rows| + 1
                      else IndexOf(rows, id)
    {
      IndexOfSnoc(rows, m, id);
    }
  }

  lemma {:induction false} IndexesUpdate(index: map<ModelId, nat>, rows: seq<Model>, i: nat, m: Model)
    requires Indexes(index, rows) && i < |rows| && m.id == rows[i].id
    ensures Indexes(index, rows[i := m])
  {
    forall id ensures IndexOf(rows[i := m], id) == IndexOf(rows, id) { IndexOfUpdate(rows, i, m, id); }
  }

  method IndexRows(rows: seq<Model>) returns (index: map<ModelId, nat>)
    ensures Indexes(index, rows)
  {
    index := map[];
    for i := 0 to |rows|
      invariant Indexes(index, rows[..i])
    {
      assert rows[..i + 1] == rows[..i] + [rows[i]];
      IndexesSnoc(index, rows[..i], rows[i]);
      index := index[rows[i].id := i];
    }
    assert rows[..|rows|] == rows;
  }

  lemma {:induction false} MergePaidSnoc(rows: seq<Model>, raws: seq<string>, k: nat, provider: Provider)
    requires k < |raws|
    ensures MergePaid(rows, raws[..k + 1], provider)
            == MergeOnePaid(MergePaid(rows, raws[..k], provider), raws[k], provider)
  {
    assert raws[..k + 1][..k] == raws[..k];
  }

  lemma {:induction false} NothingToMerge(rows: seq<Model>, provider: Provider)
    ensures MergePaid(rows, [], provider) == rows
  {
  }

  method MergePaidModels(rows: seq<Model>, upstream: seq<string>, provider: Provider) returns (merged: seq<Model>)
    ensures merged == MergePaid(rows, upstream, provider)
  {
    hide TrimSpace, IndexOf, ProvidersFor, MergePaid;
    merged := rows;
    NothingToMerge(rows, provider);
    var index: map<ModelId, nat> := IndexRows(rows);
    for k := 0 to |upstream|
      invariant Indexes(index, merged) && merged == MergePaid(rows, upstream[..k], provider)
    {
      MergePaidSnoc(rows, upstream, k, provider);
      var id := TrimSpace(upstream[k]);
      if id == "" { continue; }
      if id in index {
        var i := index[id];
        var providers := ProvidersOf(merged[i].(providers := merged[i].providers + [provider]));
        IndexesUpdate(index, merged, i, merged[i].(providers := providers));
        merged := merged[i := merged[i].(providers := providers)];
        continue;
      }
      IndexesSnoc(index, merged, Model(id, false, provider, [Normalized(provider)]));
      merged := merged + [Model(id, false, provider, [Normalized(provider)])];
      index := index[id := |merged| - 1];
    }
    assert upstream[..|upstream|] == upstream;
  }

  method MergePreviousOpenCodePaid(rows: seq<Model>, previous: seq<Model>) returns (merged: seq<Model>)
    ensures merged == MergePrevious(rows, previous)
  {
    merged := rows;
    if |previous| == 0 { return; }
    var index: map<ModelId, nat> := IndexRows(rows);
    for k := 0 to |previous|
      invariant Indexes(index, merged) && merged == MergePrevious(rows, previous[..k])
    {
      assert previous[..k + 1][..k] == previous[..k];
      var m := previous[k];
      if m.free || Normalized(m.provider) != OpenCode || m.id == "" { continue; }
      if m.id in index {
        var i := index[m.id];
        var theirs := ProvidersOf(m);
        var providers := ProvidersOf(Model(m.id, false, OpenCode, merged[i].providers + theirs));
        var entry := merged[i].(free := false, provider := OpenCode, providers := providers);
        IndexesUpdate(index, merged, i, entry);
        merged := merged[i := entry];
        continue;
      }
      var providers := ProvidersOf(Model(m.id, false, OpenCode, m.providers));
      IndexesSnoc(index, merged, Model(m.id, false, OpenCode, providers));
      merged := merged + [Model(m.id, false, OpenCode, providers)];
      index := index[m.id := |merged| - 1];
    }
    assert previous[..|previous|] == previous;
  }

  class Catalog {
    var rows: seq<Model>
    var loaded: bool
    var stale: bool
    var inFlight: bool
    const lists: Lists
    /** The fetches in flight, with what they read. */
    ghost var flight: Option<seq<Model>>
    ghost var fetching: nat

    ghost function View(): State
      reads this
    {
      State(rows, loaded, stale, flight, fetching)
    }

    ghost predicate Valid()
      reads this
    {
      SingleFlight(View()) && inFlight == flight.Some?
    }

    constructor (lists: Lists)
      ensures Valid() && View() == EMPTY && this.lists == lists
    {
      rows, loaded, stale, inFlight, this.lists := [], false, false, false, lists;
      flight, fetching := None, 0;
    }

    method ClassifyOpenCodeFree(ids: seq<ModelId>) returns (classified: seq<Model>)
      ensures classified == FreeRows(lists, ids)
    {
      classified := [];
      for i := 0 to |ids|
        invariant classified == FreeRows(lists, ids[..i])
      {
        assert ids[..i + 1][..i] == ids[..i];
        var free := ids[i] in lists.allow || HasFreeDefault(ids[i]);
        if ids[i] in lists.deny { free := false; }
        if !free { continue; }
        classified := classified + [Model(ids[i], true, OpenCode, [OpenCode])];
      }
      assert ids[..|ids|] == ids;
    }

    /** The fetch itself runs without the lock. */
    method FetchAll(f: Fetch, previous: seq<Model>) returns (r: Option<Merged>)
      ensures r == FetchAndMerge(lists, f, previous)
    {
      if f.open.None? { return None; }
      var merged := ClassifyOpenCodeFree(f.open.value);
      var partial := false;
      if f.paid.Failing? {
        partial := true;
        merged := MergePreviousOpenCodePaid(merged, previous);
      } else if f.paid.Listed? {
        if |f.paid.ids| == 0 {
          partial := true;
          merged := MergePreviousOpenCodePaid(merged, previous);
        } else {
          merged := MergePaidModels(merged, f.paid.ids, OpenCode);
        }
      }
      if f.ollama.Absent? { return Some(Merged(merged, partial)); }
      if f.ollama.Failing? { return Some(Merged(merged, true)); }
      if |f.ollama.ids| == 0 { return Some(Merged(merged, partial)); }
      merged := MergePaidModels(merged, f.ollama.ids, Ollama);
      r := Some(Merged(merged, partial));
    }

    /** The locked start of a refresh: only a caller that finds no fetch in flight fetches. */
    method Begin() returns (fetches: bool, previous: seq<Model>)
      requires Valid()
      modifies this
      ensures Valid() && View() == Stepped(lists, old(View()), Arrive)
      ensures fetches <==> !old(inFlight)
      ensures fetches ==> flight == Some(previous)
    {
      if inFlight { return false, []; }
      inFlight := true;
      flight, fetching := Some(rows), fetching + 1;
      fetches, previous := true, rows;
    }

    /** The locked end of a refresh, by the caller that fetched. */
    method End(f: Fetch, previous: seq<Model>)
      requires Valid() && flight == Some(previous)
      modifies this
      ensures Valid() && View() == Stepped(lists, old(View()), Complete(f))
    {
      var merged := FetchAll(f, previous);
      inFlight := false;
      flight, fetching := None, 0;
      if merged.None? {
        stale := true;
        return;
      }
      rows, loaded, stale := merged.value.rows, true, merged.value.partial;
    }
  }
}
