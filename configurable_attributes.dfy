/** The attribute registries the construction pipeline fills: for cores, routers and channels,
    a map from attribute key to the kind of value the front end may render. The source of
    `insert_manual`, `extend_from_element` and `ConfigurableAttributes` (src/configurable_attributes.rs)
    is not part of this model; their behaviour here is an assumption, described on each member. */
module ConfigurableAttributes {
  import opened Types

  datatype AttributeType = Text | Number | Coordinates | Boolean | Routing

  type Registry = map<string, AttributeType>

  /** ASSUMED numeric test: a non-empty run of decimal digits. */
  predicate IsNumber(value: string) {
    |value| > 0 && forall i :: 0 <= i < |value| ==> '0' <= value[i] <= '9'
  }

  /** ASSUMED classification of a free-form value: numbers are `Number`, anything else `Text`. */
  function Classify(value: string): AttributeType {
    if IsNumber(value) then Number else Text
  }

  /** The keys an attribute bag declares. */
  function KeysOf(attrs: Option<Attributes>): set<string> {
    if attrs.None? then {} else attrs.value.Keys
  }

  /** ASSUMED behaviour of `extend_from_element`: every key of the bag that the registry does
      not hold yet is added with the kind of its value; keys already present keep their kind
      (first seen wins). */
  function Extend(registry: Registry, attrs: Option<Attributes>): (r: Registry)
    ensures r.Keys == registry.Keys + KeysOf(attrs)
    ensures forall k :: k in registry ==> r[k] == registry[k]
    ensures forall k :: k in r && k !in registry ==> attrs.Some? && r[k] == Classify(attrs.value[k])
  {
    match attrs
    case None => registry
    case Some(bag) => registry + map k | k in bag && k !in registry :: Classify(bag[k])
  }

  /** True when some bag of `bags` declares `key`. */
  predicate Declares(bags: seq<Option<Attributes>>, key: string) {
    exists i :: 0 <= i < |bags| && key in KeysOf(bags[i])
  }

  /** The registry after `extend_from_element` has run over `bags` in order. Keys present at
      the start keep their kind, the registry gains exactly the declared keys, and every
      inferred kind is `Number` or `Text`. */
  function ExtendAll(registry: Registry, bags: seq<Option<Attributes>>): (r: Registry)
    ensures forall k :: k in registry ==> k in r && r[k] == registry[k]
    ensures forall k :: k in r <==> k in registry || Declares(bags, k)
    ensures forall k :: k in r && k !in registry ==> r[k] == Number || r[k] == Text
    decreases |bags|
  {
    if |bags| == 0 then registry
    else Extend(ExtendAll(registry, bags[..|bags| - 1]), bags[|bags| - 1])
  }

  lemma ExtendAllSnoc(registry: Registry, bags: seq<Option<Attributes>>, bag: Option<Attributes>)
    ensures ExtendAll(registry, bags + [bag]) == Extend(ExtendAll(registry, bags), bag)
  {
    assert (bags + [bag])[..|bags|] == bags;
  }

  /** Scanning two runs of bags is scanning the first, then the second. */
  lemma {:induction false} ExtendAllAppend(registry: Registry, front: seq<Option<Attributes>>, back: seq<Option<Attributes>>)
    ensures ExtendAll(registry, front + back) == ExtendAll(ExtendAll(registry, front), back)
    decreases |back|
  {
    if |back| > 0 {
      var last := back[|back| - 1];
      var init := back[..|back| - 1];
      assert front + back == (front + init) + [last];
      ExtendAllSnoc(registry, front + init, last);
      ExtendAllAppend(registry, front, init);
      ExtendAllSnoc(ExtendAll(registry, front), init, last);
      assert init + [last] == back;
    } else {
      assert front + back == front;
    }
  }

  /** First seen wins: a key the registry did not hold gets the kind of its value in the
      first bag that declares it, whatever later bags say about it. */
  lemma {:induction false} FirstSeenWins(registry: Registry, bags: seq<Option<Attributes>>, key: string, i: nat)
    requires key !in registry
    requires i < |bags| && key in KeysOf(bags[i])
    requires forall j :: 0 <= j < i ==> key !in KeysOf(bags[j])
    ensures key in ExtendAll(registry, bags)
    ensures ExtendAll(registry, bags)[key] == Classify(bags[i].value[key])
    decreases |bags|
  {
    var front := bags[..|bags| - 1];
    if i == |bags| - 1 {
      assert !Declares(front, key) by {
        forall j | 0 <= j < |front| ensures key !in KeysOf(front[j]) {
          assert front[j] == bags[j];
        }
      }
    } else {
      assert front[i] == bags[i];
      forall j | 0 <= j < i ensures key !in KeysOf(front[j]) {
        assert front[j] == bags[j];
      }
      FirstSeenWins(registry, front, key, i);
    }
  }

  /** A first core declaring `@age` as "30" and a later one declaring it as "thirty": the
      key is a number, decided by the first occurrence. */
  lemma AgeDecidedByFirstCore()
    ensures ExtendAll(map[], [Some(map["@age" := "30"]), Some(map["@age" := "thirty"])])["@age"] == Number
  {
    var bags := [Some(map["@age" := "30"]), Some(map["@age" := "thirty"])];
    FirstSeenWins(map[], bags, "@age", 0);
    assert IsNumber("30");
  }

  /** The registries and algorithm information handed to the front end. */
  datatype ConfigurableAttributes = ConfigurableAttributes(
    coreAttributes: Registry,
    routerAttributes: Registry,
    observedAlgorithm: Option<string>,
    algorithms: seq<string>,
    channelAttributes: Registry)

  /** The value a system holds before the pipeline has run (the decoder's default). */
  function Empty(): ConfigurableAttributes {
    ConfigurableAttributes(map[], map[], None, [], map[])
  }
}
