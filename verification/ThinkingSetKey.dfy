/**
 * The key under which thinking sets are shared: their JSON text. It tells different sets apart,
 * so a snapshot of JSON data comes back whole.
 */
module ThinkingSetKey {
  import opened Wrappers
  import opened JsonText
  import opened ProviderSnapshotCodec

  /** A member that is written only if it has a value. */
  function Optional(name: string, value: Option<Json>): seq<Member> {
    if value.None? then [] else [Member(name, value.value)]
  }

  function TextValue(s: Option<string>): Option<Json> { if s.None? then None else Some(Text(s.value)) }

  function BoolValue(b: Option<bool>): Option<Json> { if b.None? then None else Some(Bool(b.value)) }

  function OptionMembers(o: SelectOption): seq<Member> {
    [Member("id", Text(o.id)), Member("label", Text(o.title))]
    + (Optional("description", TextValue(o.description))
       + (Optional("isDefault", BoolValue(o.isDefault)) + Optional("metadata", o.metadata)))
  }

  function OptionJson(o: SelectOption): Json { Object(OptionMembers(o)) }

  function OptionsJson(options: seq<SelectOption>): seq<Json> {
    seq(|options|, i requires 0 <= i < |options| => OptionJson(options[i]))
  }

  function DefaultMember(s: ThinkingSet): seq<Member> {
    Optional("defaultOptionId", TextValue(s.defaultOptionId))
  }

  function SetJson(s: ThinkingSet): Json {
    Object([Member("options", Array(OptionsJson(s.options)))] + DefaultMember(s))
  }

  function KeyText(s: ThinkingSet): string { Stringify(SetJson(s)) }

  /** The options hold JSON data. */
  predicate HoldsJson(s: ThinkingSet) {
    forall i :: 0 <= i < |s.options| ==> s.options[i].metadata.Some? ==> IsJson(s.options[i].metadata.value)
  }

  lemma OptionalIsJson(name: string, value: Option<Json>)
    requires value.Some? ==> IsJson(value.value)
    ensures AllJsonMembers(Optional(name, value))
  {
  }

  lemma OptionIsJson(o: SelectOption)
    requires o.metadata.Some? ==> IsJson(o.metadata.value)
    ensures IsJson(OptionJson(o))
  {
    OptionalIsJson("metadata", o.metadata);
    assert AllJsonMembers(OptionMembers(o));
  }

  lemma SetIsJson(s: ThinkingSet)
    requires HoldsJson(s)
    ensures IsJson(SetJson(s))
  {
    forall i | 0 <= i < |s.options| ensures IsJson(OptionsJson(s.options)[i]) {
      OptionIsJson(s.options[i]);
    }
    var members := [Member("options", Array(OptionsJson(s.options)))] + DefaultMember(s);
    assert IsJson(Array(OptionsJson(s.options)));
    assert AllJsonMembers(members);
  }

  /** An optional member in front of others named differently can be told from its absence. */
  lemma OptionalIsUnique(name: string, a: Option<Json>, b: Option<Json>, x: seq<Member>, y: seq<Member>)
    requires Optional(name, a) + x == Optional(name, b) + y
    requires x != [] ==> x[0].name != name
    requires y != [] ==> y[0].name != name
    ensures a == b && x == y
  {
    var s, t := Optional(name, a) + x, Optional(name, b) + y;
    assert a.Some? ==> s[0] == Member(name, a.value) && s[1..] == x;
    assert b.Some? ==> t[0] == Member(name, b.value) && t[1..] == y;
    assert a.None? ==> s == x;
    assert b.None? ==> t == y;
  }

  lemma OptionJsonIsUnique(a: SelectOption, b: SelectOption)
    requires OptionJson(a) == OptionJson(b)
    ensures a == b
  {
    var s, t := OptionMembers(a), OptionMembers(b);
    assert s[0] == Member("id", Text(a.id)) && s[1] == Member("label", Text(a.title));
    assert t[0] == Member("id", Text(b.id)) && t[1] == Member("label", Text(b.title));
    var metaA, metaB := Optional("metadata", a.metadata), Optional("metadata", b.metadata);
    var restA := Optional("isDefault", BoolValue(a.isDefault)) + metaA;
    var restB := Optional("isDefault", BoolValue(b.isDefault)) + metaB;
    assert s[2..] == Optional("description", TextValue(a.description)) + restA;
    assert t[2..] == Optional("description", TextValue(b.description)) + restB;
    OptionalIsUnique("description", TextValue(a.description), TextValue(b.description), restA, restB);
    OptionalIsUnique("isDefault", BoolValue(a.isDefault), BoolValue(b.isDefault), metaA, metaB);
    assert metaA + [] == metaA && metaB + [] == metaB;
    OptionalIsUnique("metadata", a.metadata, b.metadata, [], []);
  }

  lemma SetJsonIsUnique(a: ThinkingSet, b: ThinkingSet)
    requires SetJson(a) == SetJson(b)
    ensures a == b
  {
    hide OptionJson;
    var x, y := DefaultMember(a), DefaultMember(b);
    var s := [Member("options", Array(OptionsJson(a.options)))] + x;
    var t := [Member("options", Array(OptionsJson(b.options)))] + y;
    assert s[0] == t[0] && s[1..] == x && t[1..] == y;
    assert x + [] == x && y + [] == y;
    OptionalIsUnique("defaultOptionId", TextValue(a.defaultOptionId), TextValue(b.defaultOptionId), [], []);
    assert OptionsJson(a.options) == OptionsJson(b.options);
    forall i | 0 <= i < |a.options| ensures |a.options| == |b.options| && a.options[i] == b.options[i] {
      assert OptionsJson(a.options)[i] == OptionsJson(b.options)[i];
      OptionJsonIsUnique(a.options[i], b.options[i]);
    }
    assert |OptionsJson(a.options)| == |a.options| && |OptionsJson(b.options)| == |b.options|;
    assert a.options == b.options;
  }

  /** Two sets of JSON data share a key only if they are the same. */
  lemma KeyTextIsInjective(a: ThinkingSet, b: ThinkingSet)
    requires HoldsJson(a) && HoldsJson(b) && KeyText(a) == KeyText(b)
    ensures a == b
  {
    hide SetJson, Stringify, IsJson, HoldsJson;
    SetIsJson(a);
    SetIsJson(b);
    StringifyIsInjective(SetJson(a), SetJson(b));
    SetJsonIsUnique(a, b);
  }

  /** With JSON text as the key: a snapshot of JSON data comes back exactly when its providers match. */
  lemma JsonRoundTrip(es: seq<Entry>)
    requires forall s :: Occurs(es, s) ==> HoldsJson(s)
    ensures Expand(CompactSnapshot(KeyText, es)) == Ok(es) <==> ProvidersMatch(es)
  {
    RoundTrip(KeyText, es);
    forall a, b | Occurs(es, a) && Occurs(es, b) && KeyText(a) == KeyText(b) ensures a == b {
      KeyTextIsInjective(a, b);
    }
  }

  /** The names under which a set and its options are written. */
  lemma WrittenMembers(id: string, title: string, description: string, metadata: Json, default: string)
    ensures var o := SelectOption(id, title, Some(description), Some(true), Some(metadata));
            SetJson(ThinkingSet([o], Some(default))) ==
            Object([Member("options", Array([Object([Member("id", Text(id)), Member("label", Text(title)),
                                                     Member("description", Text(description)),
                                                     Member("isDefault", Bool(true)), Member("metadata", metadata)])])),
                    Member("defaultOptionId", Text(default))])
    ensures SetJson(ThinkingSet([], None)) == Object([Member("options", Array([]))])
  {
    var o := SelectOption(id, title, Some(description), Some(true), Some(metadata));
    assert OptionsJson([o]) == [OptionJson(o)] && OptionsJson([]) == [];
    assert OptionMembers(o) == [Member("id", Text(id)), Member("label", Text(title)),
                                Member("description", Text(description)),
                                Member("isDefault", Bool(true)), Member("metadata", metadata)];
    assert [Member("options", Array([]))] + [] == [Member("options", Array([]))];
  }
}
