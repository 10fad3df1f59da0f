/**
 * The compact form of a provider snapshot: the thinking options that models share are stored
 * once, in a table that models refer to by index. Compacting fills the table while it walks the
 * nested lists; expanding looks the options up again.
 */
module ProviderSnapshotCodec {
  import opened JsonText
  import opened Wrappers

  datatype SelectOption = SelectOption(
    id: string, title: string, description: Option<string>, isDefault: Option<bool>, metadata: Option<Json>)

  /** A model; `fields` stands for what the codec copies without looking at it. */
  datatype Model = Model(
    provider: string,
    fields: string,
    thinkingOptions: Option<seq<SelectOption>>,
    defaultThinkingOptionId: Option<string>)

  datatype Entry = Entry(provider: string, fields: string, models: Option<seq<Model>>)

  datatype ThinkingSet = ThinkingSet(options: seq<SelectOption>, defaultOptionId: Option<string>)

  datatype CompactModel = CompactModel(
    fields: string, defaultThinkingOptionId: Option<string>, thinkingSet: Option<nat>)

  datatype CompactEntry = CompactEntry(provider: string, fields: string, models: Option<seq<CompactModel>>)

  datatype Snapshot = Snapshot(entries: seq<CompactEntry>, thinkingSets: seq<ThinkingSet>)

  /** How a set is turned into the key under which it is shared. */
  type KeyOf = ThinkingSet -> string

  datatype Table = Table(sets: seq<ThinkingSet>, indexes: map<string, nat>)

  const EMPTY: Table := Table([], map[])

  function SetOf(m: Model): Option<ThinkingSet> {
    if m.thinkingOptions.None? then None else Some(ThinkingSet(m.thinkingOptions.value, m.defaultThinkingOptionId))
  }

  // ---------------------------------------------------------------------------
  // Compacting
  // ---------------------------------------------------------------------------

  /** A set enters the table unless its key is there already. */
  function Intern(key: KeyOf, t: Table, s: ThinkingSet): Table {
    if key(s) in t.indexes then t else Table(t.sets + [s], t.indexes[key(s) := |t.sets|])
  }

  function InternModel(key: KeyOf, t: Table, m: Model): Table {
    if SetOf(m).None? then t else Intern(key, t, SetOf(m).value)
  }

  function InternModels(key: KeyOf, t: Table, ms: seq<Model>): Table {
    if ms == [] then t else InternModel(key, InternModels(key, t, ms[..|ms| - 1]), ms[|ms| - 1])
  }

  function InternEntries(key: KeyOf, t: Table, es: seq<Entry>): Table {
    if es == [] then t
    else
      var before := InternEntries(key, t, es[..|es| - 1]);
      InternModels(key, before, es[|es| - 1].models.GetOr([]))
  }

  /** The table knows every set of the models. */
  predicate Knows(key: KeyOf, t: Table, ms: seq<Model>) {
    forall i :: 0 <= i < |ms| ==> KnowsModel(key, t, ms[i])
  }

  predicate KnowsModel(key: KeyOf, t: Table, m: Model) {
    SetOf(m).Some? ==> key(SetOf(m).value) in t.indexes
  }

  predicate KnowsAll(key: KeyOf, t: Table, es: seq<Entry>) {
    forall i :: 0 <= i < |es| ==> Knows(key, t, es[i].models.GetOr([]))
  }

  function Compact(key: KeyOf, t: Table, m: Model): CompactModel
    requires KnowsModel(key, t, m)
  {
    if SetOf(m).None? then CompactModel(m.fields, m.defaultThinkingOptionId, None)
    else CompactModel(m.fields, None, Some(t.indexes[key(SetOf(m).value)]))
  }

  function CompactModels(key: KeyOf, t: Table, ms: seq<Model>): seq<CompactModel>
    requires Knows(key, t, ms)
  {
    if ms == [] then [] else [Compact(key, t, ms[0])] + CompactModels(key, t, ms[1..])
  }

  function CompactOne(key: KeyOf, t: Table, e: Entry): CompactEntry
    requires Knows(key, t, e.models.GetOr([]))
  {
    CompactEntry(e.provider, e.fields, if e.models.None? then None else Some(CompactModels(key, t, e.models.value)))
  }

  function CompactEntries(key: KeyOf, t: Table, es: seq<Entry>): seq<CompactEntry>
    requires KnowsAll(key, t, es)
  {
    if es == [] then [] else [CompactOne(key, t, es[0])] + CompactEntries(key, t, es[1..])
  }

  // ---------------------------------------------------------------------------
  // Expanding
  // ---------------------------------------------------------------------------

  datatype MissingSet = MissingSet(index: nat)

  function ExpandModel(provider: string, m: CompactModel, sets: seq<ThinkingSet>): Result<Model, MissingSet> {
    match m.thinkingSet
    case None => Ok(Model(provider, m.fields, None, m.defaultThinkingOptionId))
    case Some(i) =>
      if i >= |sets| then Err(MissingSet(i))
      else Ok(Model(provider, m.fields, Some(sets[i].options),
                    if sets[i].defaultOptionId.Some? then sets[i].defaultOptionId else m.defaultThinkingOptionId))
  }

  /** An expanded model takes its options from its set, and its default from there or, if missing, from itself. */
  lemma ExpandedFromSet(provider: string, m: CompactModel, sets: seq<ThinkingSet>)
    requires m.thinkingSet.Some? && m.thinkingSet.value < |sets|
    ensures var s := sets[m.thinkingSet.value];
            && (s.defaultOptionId.Some? ==>
                  ExpandModel(provider, m, sets) == Ok(Model(provider, m.fields, Some(s.options), s.defaultOptionId)))
            && (s.defaultOptionId.None? ==>
                  ExpandModel(provider, m, sets)
                  == Ok(Model(provider, m.fields, Some(s.options), m.defaultThinkingOptionId)))
  {
  }

  function ExpandModels(provider: string, ms: seq<CompactModel>, sets: seq<ThinkingSet>)
    : Result<seq<Model>, MissingSet>
  {
    if ms == [] then Ok([])
    else
      match ExpandModel(provider, ms[0], sets)
      case Err(e) => Err(e)
      case Ok(m) =>
        match ExpandModels(provider, ms[1..], sets)
        case Err(e) => Err(e)
        case Ok(rest) => Ok([m] + rest)
  }

  function ExpandEntry(e: CompactEntry, sets: seq<ThinkingSet>): Result<Entry, MissingSet> {
    match e.models
    case None => Ok(Entry(e.provider, e.fields, None))
    case Some(ms) =>
      match ExpandModels(e.provider, ms, sets)
      case Err(err) => Err(err)
      case Ok(expanded) => Ok(Entry(e.provider, e.fields, Some(expanded)))
  }

  function ExpandEntries(es: seq<CompactEntry>, sets: seq<ThinkingSet>): Result<seq<Entry>, MissingSet> {
    if es == [] then Ok([])
    else
      match ExpandEntry(es[0], sets)
      case Err(e) => Err(e)
      case Ok(entry) =>
        match ExpandEntries(es[1..], sets)
        case Err(e) => Err(e)
        case Ok(rest) => Ok([entry] + rest)
  }

  function Expand(s: Snapshot): Result<seq<Entry>, MissingSet> {
    ExpandEntries(s.entries, s.thinkingSets)
  }

  // ---------------------------------------------------------------------------
  // The table
  // ---------------------------------------------------------------------------

  /** Keys and positions correspond one to one. */
  ghost predicate Indexed(key: KeyOf, t: Table) {
    && (forall k :: k in t.indexes ==> t.indexes[k] < |t.sets| && key(t.sets[t.indexes[k]]) == k)
    && (forall i :: 0 <= i < |t.sets| ==> key(t.sets[i]) in t.indexes && t.indexes[key(t.sets[i])] == i)
  }

  /** A later state of the same table. */
  ghost predicate Extends(t: Table, u: Table) {
    && t.sets <= u.sets
    && (forall k :: k in t.indexes ==> k in u.indexes && u.indexes[k] == t.indexes[k])
  }

  /** Some model of the list has this set. */
  predicate HasSet(ms: seq<Model>, s: ThinkingSet) {
    exists i :: 0 <= i < |ms| && SetOf(ms[i]) == Some(s)
  }

  predicate Occurs(es: seq<Entry>, s: ThinkingSet) {
    exists i :: 0 <= i < |es| && HasSet(es[i].models.GetOr([]), s)
  }

  lemma HasSetLast(ms: seq<Model>, s: ThinkingSet)
    requires ms != []
    ensures HasSet(ms, s) <==> HasSet(ms[..|ms| - 1], s) || SetOf(ms[|ms| - 1]) == Some(s)
  {
    var before := ms[..|ms| - 1];
    if HasSet(before, s) {
      var i :| 0 <= i < |before| && SetOf(before[i]) == Some(s);
      assert SetOf(ms[i]) == Some(s);
    }
    if HasSet(ms, s) {
      var i :| 0 <= i < |ms| && SetOf(ms[i]) == Some(s);
      assert i < |before| ==> SetOf(before[i]) == Some(s);
    }
  }

  lemma OccursLast(es: seq<Entry>, s: ThinkingSet)
    requires es != []
    ensures Occurs(es, s) <==> Occurs(es[..|es| - 1], s) || HasSet(es[|es| - 1].models.GetOr([]), s)
  {
    hide HasSet;
    var before := es[..|es| - 1];
    if Occurs(before, s) {
      var i :| 0 <= i < |before| && HasSet(before[i].models.GetOr([]), s);
      assert es[i] == before[i];
    }
    if Occurs(es, s) {
      var i :| 0 <= i < |es| && HasSet(es[i].models.GetOr([]), s);
      assert i < |before| ==> before[i] == es[i];
    }
  }

  lemma InternModelKeeps(key: KeyOf, t: Table, m: Model)
    requires Indexed(key, t)
    ensures var u := InternModel(key, t, m);
            && Indexed(key, u) && Extends(t, u) && KnowsModel(key, u, m)
            && forall s :: s in u.sets ==> s in t.sets || SetOf(m) == Some(s)
  {
  }

  lemma {:induction false} InternModelsKeeps(key: KeyOf, t: Table, ms: seq<Model>)
    requires Indexed(key, t)
    ensures var u := InternModels(key, t, ms);
            && Indexed(key, u) && Extends(t, u) && Knows(key, u, ms)
            && forall s :: s in u.sets ==> s in t.sets || HasSet(ms, s)
  {
    if ms != [] {
      hide Indexed, InternModel, HasSet;
      var before, last := ms[..|ms| - 1], ms[|ms| - 1];
      InternModelsKeeps(key, t, before);
      InternModelKeeps(key, InternModels(key, t, before), last);
      forall i | 0 <= i < |ms| ensures KnowsModel(key, InternModels(key, t, ms), ms[i]) {
        assert i < |before| ==> ms[i] == before[i];
      }
      forall s | HasSet(before, s) || SetOf(last) == Some(s) ensures HasSet(ms, s) {
        HasSetLast(ms, s);
      }
    }
  }

  lemma KnowsLater(key: KeyOf, t: Table, u: Table, ms: seq<Model>)
    requires Knows(key, t, ms) && Extends(t, u)
    ensures Knows(key, u, ms)
  {
    assert forall i :: 0 <= i < |ms| ==> KnowsModel(key, t, ms[i]);
  }

  lemma {:induction false} InternEntriesKeeps(key: KeyOf, t: Table, es: seq<Entry>)
    requires Indexed(key, t)
    ensures var u := InternEntries(key, t, es);
            && Indexed(key, u) && Extends(t, u) && KnowsAll(key, u, es)
            && forall s :: s in u.sets ==> s in t.sets || Occurs(es, s)
  {
    if es != [] {
      hide Indexed, InternModels, HasSet, Occurs, Knows;
      var before, last := es[..|es| - 1], es[|es| - 1].models.GetOr([]);
      var middle, u := InternEntries(key, t, before), InternEntries(key, t, es);
      InternEntriesKeeps(key, t, before);
      InternModelsKeeps(key, middle, last);
      forall i | 0 <= i < |es| ensures Knows(key, u, es[i].models.GetOr([])) {
        if i < |before| {
          assert es[i] == before[i];
          KnowsLater(key, middle, u, before[i].models.GetOr([]));
        }
      }
      forall s | Occurs(before, s) || HasSet(last, s) ensures Occurs(es, s) {
        OccursLast(es, s);
      }
    }
  }

  /** The compact form of a snapshot. */
  function CompactSnapshot(key: KeyOf, es: seq<Entry>): Snapshot {
    InternEntriesKeeps(key, EMPTY, es);
    var t := InternEntries(key, EMPTY, es);
    Snapshot(CompactEntries(key, t, es), t.sets)
  }

  // ---------------------------------------------------------------------------
  // Round trip
  // ---------------------------------------------------------------------------

  /** The set that stands for a model's set in the table: the first one with its key. */
  function Representative(key: KeyOf, t: Table, s: ThinkingSet): ThinkingSet
    requires Indexed(key, t) && key(s) in t.indexes
  {
    t.sets[t.indexes[key(s)]]
  }

  /** What a model comes back as. */
  function Back(key: KeyOf, t: Table, provider: string, m: Model): Model
    requires Indexed(key, t) && KnowsModel(key, t, m)
  {
    if SetOf(m).None? then m.(provider := provider)
    else
      var s := Representative(key, t, SetOf(m).value);
      Model(provider, m.fields, Some(s.options), s.defaultOptionId)
  }

  function BackModels(key: KeyOf, t: Table, provider: string, ms: seq<Model>): seq<Model>
    requires Indexed(key, t) && Knows(key, t, ms)
  {
    if ms == [] then [] else [Back(key, t, provider, ms[0])] + BackModels(key, t, provider, ms[1..])
  }

  function BackEntry(key: KeyOf, t: Table, e: Entry): Entry
    requires Indexed(key, t) && Knows(key, t, e.models.GetOr([]))
  {
    if e.models.None? then e else e.(models := Some(BackModels(key, t, e.provider, e.models.value)))
  }

  function BackEntries(key: KeyOf, t: Table, es: seq<Entry>): seq<Entry>
    requires Indexed(key, t) && KnowsAll(key, t, es)
  {
    if es == [] then [] else [BackEntry(key, t, es[0])] + BackEntries(key, t, es[1..])
  }

  lemma {:induction false} ExpandModelsBack(key: KeyOf, t: Table, provider: string, ms: seq<Model>)
    requires Indexed(key, t) && Knows(key, t, ms)
    ensures ExpandModels(provider, CompactModels(key, t, ms), t.sets) == Ok(BackModels(key, t, provider, ms))
  {
    if ms != [] {
      ExpandModelsBack(key, t, provider, ms[1..]);
      assert CompactModels(key, t, ms)[1..] == CompactModels(key, t, ms[1..]);
      assert KnowsModel(key, t, ms[0]);
      assert ExpandModel(provider, Compact(key, t, ms[0]), t.sets) == Ok(Back(key, t, provider, ms[0]));
      hide Indexed, Back, Compact, ExpandModel;
    }
  }

  lemma {:induction false} ExpandEntriesBack(key: KeyOf, t: Table, es: seq<Entry>)
    requires Indexed(key, t) && KnowsAll(key, t, es)
    ensures ExpandEntries(CompactEntries(key, t, es), t.sets) == Ok(BackEntries(key, t, es))
  {
    if es != [] {
      hide Indexed, Knows, ExpandModels, CompactModels, BackModels;
      ExpandEntriesBack(key, t, es[1..]);
      assert CompactEntries(key, t, es)[1..] == CompactEntries(key, t, es[1..]);
      assert Knows(key, t, es[0].models.GetOr([]));
      if es[0].models.Some? {
        ExpandModelsBack(key, t, es[0].provider, es[0].models.value);
      }
    }
  }

  /** Every compacted snapshot expands: its indices never miss the table. */
  lemma AlwaysExpands(key: KeyOf, es: seq<Entry>)
    ensures Expand(CompactSnapshot(key, es)).Ok?
  {
    InternEntriesKeeps(key, EMPTY, es);
    ExpandEntriesBack(key, InternEntries(key, EMPTY, es), es);
  }

  predicate ModelsMatch(provider: string, ms: seq<Model>) {
    forall i :: 0 <= i < |ms| ==> ms[i].provider == provider
  }

  /** Every model belongs to its entry's provider. */
  predicate ProvidersMatch(es: seq<Entry>) {
    forall i :: 0 <= i < |es| ==> ModelsMatch(es[i].provider, es[i].models.GetOr([]))
  }

  /** No two different sets of the snapshot share a key. */
  ghost predicate Distinguishes(key: KeyOf, es: seq<Entry>) {
    forall a, b :: Occurs(es, a) && Occurs(es, b) && key(a) == key(b) ==> a == b
  }

  /** Every set of the models stands for itself. */
  ghost predicate Faithful(key: KeyOf, t: Table, ms: seq<Model>)
    requires Indexed(key, t) && Knows(key, t, ms)
  {
    forall i :: 0 <= i < |ms| && SetOf(ms[i]).Some? ==>
      KnowsModel(key, t, ms[i]) && Representative(key, t, SetOf(ms[i]).value) == SetOf(ms[i]).value
  }

  lemma {:induction false} ModelsComeBack(key: KeyOf, t: Table, provider: string, ms: seq<Model>)
    requires Indexed(key, t) && Knows(key, t, ms)
    ensures BackModels(key, t, provider, ms) == ms <==> ModelsMatch(provider, ms) && Faithful(key, t, ms)
  {
    if ms != [] {
      ModelsComeBack(key, t, provider, ms[1..]);
      assert KnowsModel(key, t, ms[0]);
      assert ms == [ms[0]] + ms[1..];
      assert Back(key, t, provider, ms[0]) == ms[0] <==>
        ms[0].provider == provider
        && (SetOf(ms[0]).Some? ==> Representative(key, t, SetOf(ms[0]).value) == SetOf(ms[0]).value);
      assert BackModels(key, t, provider, ms) == ms <==>
        Back(key, t, provider, ms[0]) == ms[0] && BackModels(key, t, provider, ms[1..]) == ms[1..];
    }
  }

  ghost predicate AllFaithful(key: KeyOf, t: Table, es: seq<Entry>)
    requires Indexed(key, t) && KnowsAll(key, t, es)
  {
    forall i :: 0 <= i < |es| ==>
      Knows(key, t, es[i].models.GetOr([])) && Faithful(key, t, es[i].models.GetOr([]))
  }

  lemma {:induction false} EntriesComeBack(key: KeyOf, t: Table, es: seq<Entry>)
    requires Indexed(key, t) && KnowsAll(key, t, es)
    ensures BackEntries(key, t, es) == es <==> ProvidersMatch(es) && AllFaithful(key, t, es)
  {
    if es != [] {
      hide Indexed, Knows, Faithful, ModelsMatch, BackModels;
      EntriesComeBack(key, t, es[1..]);
      var ms := es[0].models.GetOr([]);
      assert Knows(key, t, ms);
      ModelsComeBack(key, t, es[0].provider, ms);
      assert es == [es[0]] + es[1..];
      NothingComesBack(key, t, es[0].provider);
      assert BackEntry(key, t, es[0]) == es[0] <==> BackModels(key, t, es[0].provider, ms) == ms;
      assert BackEntries(key, t, es) == es <==>
        BackEntry(key, t, es[0]) == es[0] && BackEntries(key, t, es[1..]) == es[1..];
    }
  }

  lemma NothingComesBack(key: KeyOf, t: Table, provider: string)
    requires Indexed(key, t)
    ensures Knows(key, t, []) && BackModels(key, t, provider, []) == []
  {
  }

  /** A set that occurs has a model, and that model's set stands for itself exactly when keys tell sets apart. */
  lemma FaithfulIffDistinguished(key: KeyOf, es: seq<Entry>, t: Table)
    requires Indexed(key, t) && KnowsAll(key, t, es) && forall s :: s in t.sets ==> Occurs(es, s)
    ensures AllFaithful(key, t, es) <==> Distinguishes(key, es)
  {
    if AllFaithful(key, t, es) {
      forall a, b | Occurs(es, a) && Occurs(es, b) && key(a) == key(b) ensures a == b {
        OccurringIsFaithful(key, t, es, a);
        OccurringIsFaithful(key, t, es, b);
      }
    }
    if Distinguishes(key, es) {
      forall i | 0 <= i < |es| ensures Faithful(key, t, es[i].models.GetOr([])) {
        DistinguishedIsFaithful(key, t, es, i);
      }
    }
  }

  lemma OccurringIsFaithful(key: KeyOf, t: Table, es: seq<Entry>, s: ThinkingSet)
    requires Indexed(key, t) && KnowsAll(key, t, es) && AllFaithful(key, t, es) && Occurs(es, s)
    ensures key(s) in t.indexes && Representative(key, t, s) == s
  {
    var i :| 0 <= i < |es| && HasSet(es[i].models.GetOr([]), s);
    var ms := es[i].models.GetOr([]);
    assert Knows(key, t, ms) && Faithful(key, t, ms);
    var j :| 0 <= j < |ms| && SetOf(ms[j]) == Some(s);
    assert KnowsModel(key, t, ms[j]);
  }

  lemma DistinguishedIsFaithful(key: KeyOf, t: Table, es: seq<Entry>, i: nat)
    requires Indexed(key, t) && KnowsAll(key, t, es) && Distinguishes(key, es) && i < |es|
    requires forall s :: s in t.sets ==> Occurs(es, s)
    ensures Knows(key, t, es[i].models.GetOr([])) && Faithful(key, t, es[i].models.GetOr([]))
  {
    var ms := es[i].models.GetOr([]);
    assert Knows(key, t, ms);
    forall j | 0 <= j < |ms| && SetOf(ms[j]).Some?
      ensures KnowsModel(key, t, ms[j]) && Representative(key, t, SetOf(ms[j]).value) == SetOf(ms[j]).value
    {
      var s := SetOf(ms[j]).value;
      assert KnowsModel(key, t, ms[j]);
      assert HasSet(ms, s) && Occurs(es, s);
      assert Representative(key, t, s) in t.sets;
    }
  }

  /**
   * Compacting and expanding gives the snapshot back exactly when every model belongs to its
   * entry's provider and no two different sets of options in it share a key.
   */
  lemma RoundTrip(key: KeyOf, es: seq<Entry>)
    ensures Expand(CompactSnapshot(key, es)) == Ok(es) <==> ProvidersMatch(es) && Distinguishes(key, es)
  {
    var t := InternEntries(key, EMPTY, es);
    InternEntriesKeeps(key, EMPTY, es);
    hide Indexed, InternEntries;
    ExpandEntriesBack(key, t, es);
    EntriesComeBack(key, t, es);
    FaithfulIffDistinguished(key, es, t);
  }

  // ---------------------------------------------------------------------------
  // The shared table is tight
  // ---------------------------------------------------------------------------

  predicate Refers(ms: seq<CompactModel>, i: nat) {
    exists j :: 0 <= j < |ms| && ms[j].thinkingSet == Some(i)
  }

  predicate Referenced(s: Snapshot, i: nat) {
    exists k :: 0 <= k < |s.entries| && Refers(s.entries[k].models.GetOr([]), i)
  }

  lemma {:induction false} CompactModelAt(key: KeyOf, t: Table, ms: seq<Model>, j: nat)
    requires Knows(key, t, ms) && j < |ms|
    ensures |CompactModels(key, t, ms)| == |ms|
    ensures KnowsModel(key, t, ms[j]) && CompactModels(key, t, ms)[j] == Compact(key, t, ms[j])
    decreases ms
  {
    assert KnowsModel(key, t, ms[0]) && KnowsModel(key, t, ms[j]);
    if |ms| > 1 {
      CompactModelAt(key, t, ms[1..], if j > 0 then j - 1 else 0);
    }
  }

  lemma {:induction false} CompactEntryAt(key: KeyOf, t: Table, es: seq<Entry>, k: nat)
    requires KnowsAll(key, t, es) && k < |es|
    ensures |CompactEntries(key, t, es)| == |es|
    ensures Knows(key, t, es[k].models.GetOr([])) && CompactEntries(key, t, es)[k] == CompactOne(key, t, es[k])
    decreases es
  {
    hide Knows, CompactModels;
    assert Knows(key, t, es[0].models.GetOr([])) && Knows(key, t, es[k].models.GetOr([]));
    if |es| > 1 {
      CompactEntryAt(key, t, es[1..], if k > 0 then k - 1 else 0);
    }
  }

  /** The table holds no set twice, and none that no model refers to. */
  lemma TableIsTight(key: KeyOf, es: seq<Entry>)
    ensures var s := CompactSnapshot(key, es);
            && (forall i, j :: 0 <= i < j < |s.thinkingSets| ==> key(s.thinkingSets[i]) != key(s.thinkingSets[j]))
            && (forall i: nat :: i < |s.thinkingSets| ==> Referenced(s, i))
  {
    var t := InternEntries(key, EMPTY, es);
    InternEntriesKeeps(key, EMPTY, es);
    forall i: nat | i < |t.sets| ensures Referenced(CompactSnapshot(key, es), i) {
      assert t.sets[i] in t.sets;
      SetIsReferenced(key, t, es, i);
    }
  }

  lemma SetIsReferenced(key: KeyOf, t: Table, es: seq<Entry>, i: nat)
    requires Indexed(key, t) && KnowsAll(key, t, es) && i < |t.sets| && Occurs(es, t.sets[i])
    ensures Referenced(Snapshot(CompactEntries(key, t, es), t.sets), i)
  {
    var k :| 0 <= k < |es| && HasSet(es[k].models.GetOr([]), t.sets[i]);
    var ms := es[k].models.GetOr([]);
    CompactEntryAt(key, t, es, k);
    var j :| 0 <= j < |ms| && SetOf(ms[j]) == Some(t.sets[i]);
    CompactModelAt(key, t, ms, j);
    assert Refers(CompactModels(key, t, ms), i);
  }

  // ---------------------------------------------------------------------------
  // Filling the table in place
  // ---------------------------------------------------------------------------

  lemma CompactModelStable(key: KeyOf, t: Table, u: Table, m: Model)
    requires KnowsModel(key, t, m) && Extends(t, u)
    ensures KnowsModel(key, u, m) && Compact(key, u, m) == Compact(key, t, m)
  {
  }

  /** What was compacted stays right when the table grows. */
  lemma {:induction false} CompactModelsStable(key: KeyOf, t: Table, u: Table, ms: seq<Model>)
    requires Knows(key, t, ms) && Extends(t, u)
    ensures Knows(key, u, ms) && CompactModels(key, u, ms) == CompactModels(key, t, ms)
  {
    KnowsLater(key, t, u, ms);
    if ms != [] {
      assert KnowsModel(key, t, ms[0]);
      CompactModelStable(key, t, u, ms[0]);
      CompactModelsStable(key, t, u, ms[1..]);
      hide KnowsModel, Compact;
    }
  }

  lemma {:induction false} CompactEntriesStable(key: KeyOf, t: Table, u: Table, es: seq<Entry>)
    requires KnowsAll(key, t, es) && Extends(t, u)
    ensures KnowsAll(key, u, es) && CompactEntries(key, u, es) == CompactEntries(key, t, es)
  {
    hide Knows, CompactModels, Extends;
    forall i | 0 <= i < |es| ensures Knows(key, u, es[i].models.GetOr([])) {
      assert Knows(key, t, es[i].models.GetOr([]));
      KnowsLater(key, t, u, es[i].models.GetOr([]));
    }
    if es != [] {
      assert Knows(key, t, es[0].models.GetOr([]));
      CompactModelsStable(key, t, u, es[0].models.GetOr([]));
      CompactEntriesStable(key, t, u, es[1..]);
    }
  }

  lemma {:induction false} CompactModelsAppend(key: KeyOf, t: Table, ms: seq<Model>, m: Model)
    requires Knows(key, t, ms) && KnowsModel(key, t, m)
    ensures Knows(key, t, ms + [m])
    ensures CompactModels(key, t, ms + [m]) == CompactModels(key, t, ms) + [Compact(key, t, m)]
    decreases ms
  {
    hide KnowsModel, Compact;
    if ms == [] {
      assert ms + [m] == [m] && [m][1..] == [];
    } else {
      assert KnowsModel(key, t, ms[0]);
      assert (ms + [m])[0] == ms[0] && (ms + [m])[1..] == ms[1..] + [m];
      CompactModelsAppend(key, t, ms[1..], m);
    }
  }

  lemma {:induction false} CompactEntriesAppend(key: KeyOf, t: Table, es: seq<Entry>, e: Entry)
    requires KnowsAll(key, t, es) && Knows(key, t, e.models.GetOr([]))
    ensures KnowsAll(key, t, es + [e])
    ensures CompactEntries(key, t, es + [e]) == CompactEntries(key, t, es) + [CompactOne(key, t, e)]
    decreases es
  {
    hide Knows, CompactOne;
    if es == [] {
      assert es + [e] == [e] && [e][1..] == [];
    } else {
      assert Knows(key, t, es[0].models.GetOr([]));
      assert (es + [e])[0] == es[0] && (es + [e])[1..] == es[1..] + [e];
      CompactEntriesAppend(key, t, es[1..], e);
    }
  }

  lemma InternModelsNext(key: KeyOf, t: Table, ms: seq<Model>, i: nat)
    requires i < |ms|
    ensures InternModels(key, t, ms[..i + 1]) == InternModel(key, InternModels(key, t, ms[..i]), ms[i])
  {
    hide InternModel;
    assert ms[..i + 1][..i] == ms[..i];
  }

  class ThinkingTable {
    const key: KeyOf
    var thinkingSets: seq<ThinkingSet>
    var thinkingSetIndexes: map<string, nat>

    function View(): Table
      reads this
    {
      Table(thinkingSets, thinkingSetIndexes)
    }

    constructor (key: KeyOf)
      ensures this.key == key && View() == EMPTY
    {
      this.key, thinkingSets, thinkingSetIndexes := key, [], map[];
    }

    /** Compacts one model, adding its set to the table if it is new. */
    method CompactOneModel(m: Model) returns (c: CompactModel)
      modifies this
      ensures View() == InternModel(key, old(View()), m)
      ensures KnowsModel(key, View(), m) && c == Compact(key, View(), m)
    {
      if m.thinkingOptions.None? {
        return CompactModel(m.fields, m.defaultThinkingOptionId, None);
      }
      var thinkingSet := ThinkingSet(m.thinkingOptions.value, m.defaultThinkingOptionId);
      var k := key(thinkingSet);
      if k in thinkingSetIndexes {
        return CompactModel(m.fields, None, Some(thinkingSetIndexes[k]));
      }
      var index := |thinkingSets|;
      thinkingSets := thinkingSets + [thinkingSet];
      thinkingSetIndexes := thinkingSetIndexes[k := index];
      return CompactModel(m.fields, None, Some(index));
    }

    method CompactAll(ms: seq<Model>) returns (cs: seq<CompactModel>)
      requires Indexed(key, View())
      modifies this
      ensures View() == InternModels(key, old(View()), ms)
      ensures Knows(key, View(), ms) && cs == CompactModels(key, View(), ms)
    {
      cs := [];
      var i := 0;
      while i < |ms|
        invariant 0 <= i <= |ms|
        invariant Indexed(key, View()) && View() == InternModels(key, old(View()), ms[..i])
        invariant Knows(key, View(), ms[..i]) && cs == CompactModels(key, View(), ms[..i])
      {
        hide Indexed, Knows, KnowsModel, InternModel, InternModels, CompactModels, Extends, Compact;
        ghost var before := View();
        InternModelKeeps(key, before, ms[i]);
        InternModelsNext(key, old(View()), ms, i);
        CompactModelsStable(key, before, InternModel(key, before, ms[i]), ms[..i]);
        var c := CompactOneModel(ms[i]);
        CompactModelsAppend(key, View(), ms[..i], ms[i]);
        assert ms[..i + 1] == ms[..i] + [ms[i]];
        cs := cs + [c];
        i := i + 1;
      }
      assert ms[..i] == ms;
    }
  }

  method CompactProviderSnapshot(key: KeyOf, es: seq<Entry>) returns (s: Snapshot)
    ensures s == CompactSnapshot(key, es)
  {
    var table := new ThinkingTable(key);
    var entries: seq<CompactEntry> := [];
    var i := 0;
    while i < |es|
      invariant 0 <= i <= |es| && table.key == key
      invariant Indexed(key, table.View()) && table.View() == InternEntries(key, EMPTY, es[..i])
      invariant KnowsAll(key, table.View(), es[..i]) && entries == CompactEntries(key, table.View(), es[..i])
    {
      hide Indexed, Knows, KnowsAll, Extends, CompactModels;
      ghost var before := table.View();
      var e := es[i];
      InternModelsKeeps(key, before, e.models.GetOr([]));
      ghost var after := InternModels(key, before, e.models.GetOr([]));
      CompactEntriesStable(key, before, after, es[..i]);
      var compact := CompactEntry(e.provider, e.fields, None);
      if e.models.Some? {
        var ms := table.CompactAll(e.models.value);
        compact := CompactEntry(e.provider, e.fields, Some(ms));
      }
      CompactEntriesAppend(key, after, es[..i], e);
      assert es[..i + 1] == es[..i] + [e];
      assert es[..i + 1][..|es[..i + 1]| - 1] == es[..i];
      entries := entries + [compact];
      i := i + 1;
    }
    assert es[..i] == es;
    s := Snapshot(entries, table.thinkingSets);
  }
}
