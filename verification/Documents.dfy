/** JSON documents and the provider registry, as the validator reads them. */
module Documents {
  import opened Workflows

  /** A parsed JSON value. An object lists its members in the order of the mapping. */
  datatype Json =
    | Null
    | Bool(b: bool)
    | Num(n: Number)
    | Str(s: string)
    | List(items: seq<Json>)
    | Obj(members: seq<(string, Json)>)

  type Members = seq<(string, Json)>

  function Keys(o: Members): seq<string> {
    seq(|o|, i requires 0 <= i < |o| => o[i].0)
  }

  /** `value.get(key)`, apart from the difference between an absent member and a null one. */
  function Get(o: Members, key: string): Option<Json> {
    if o == [] then None
    else if o[0].0 == key then Some(o[0].1)
    else Get(o[1..], key)
  }

  /** `value.get(key)`: an absent member reads as null. */
  function GetOrNull(o: Members, key: string): Json {
    match Get(o, key)
    case None => Null
    case Some(v) => v
  }

  function GetOr(o: Members, key: string, default: Json): Json {
    match Get(o, key)
    case None => default
    case Some(v) => v
  }

  /** `_require_keys` */
  predicate OnlyKeys(o: Members, allowed: set<string>) {
    forall i | 0 <= i < |o| :: o[i].0 in allowed
  }

  /** An integer that is not a boolean: Python's `True` is an `int`, JSON's `true` is not. */
  predicate IsInteger(j: Json) {
    j.Num? && j.n.Whole?
  }

  predicate NonEmptyText(j: Json) {
    j.Str? && j.s != ""
  }

  // ---------------------------------------------------------------- registry

  datatype Alias = AliasText(text: string) | AliasOther

  /** A model entry that is a mapping, or something else. */
  datatype ModelEntry = Model(aliases: seq<Alias>, efforts: seq<string>) | NotAMapping

  /** `models` is absent when the definition has no mapping of models. */
  datatype ProviderDef = ProviderDef(models: Option<seq<(string, ModelEntry)>>, efforts: seq<string>, allowUnknown: bool)

  /** `lower` stands for `str.lower`, `isPromptFile` for the file checks of prompt references. */
  datatype Context = Context(
    providers: map<Provider, ProviderDef>,
    native: set<Provider>,
    hostKnown: bool,
    lower: string -> string,
    isPromptFile: string -> bool)

  // ---------------------------------------------------------------- facts about objects

  lemma {:induction false} GetMeansMember(o: Members, key: string)
    ensures Get(o, key).Some? <==> key in Keys(o)
    ensures Get(o, key).Some? ==> (key, Get(o, key).value) in o
  {
    if o != [] {
      assert o == [o[0]] + o[1..];
      GetMeansMember(o[1..], key);
      assert Keys(o) == [o[0].0] + Keys(o[1..]);
    }
  }

  lemma {:induction false} MemberMeansGet(o: Members, i: nat)
    requires Distinct(Keys(o)) && i < |o|
    ensures Get(o, o[i].0) == Some(o[i].1)
  {
    assert forall k | 0 <= k < |o| :: Keys(o)[k] == o[k].0;
    if i > 0 {
      assert Keys(o)[0] != Keys(o)[i];
      assert Keys(o[1..]) == Keys(o)[1..];
      MemberMeansGet(o[1..], i - 1);
    }
  }
}
