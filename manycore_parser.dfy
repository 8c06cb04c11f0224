/** The construction pipeline of `ManycoreSystem::parse_file` (src/lib.rs), from the decoded
    system to the validated, cross-referenced one. Reading the file and decoding the XML are
    not part of this model: `ParseFile` starts from the system the decoder produced. */
module ManycoreParser {
  import opened Types
  import opened Errors
  import opened Cores
  import Router
  import opened ConfigurableAttributes
  import opened IdValidation
  import opened TaskPlacement

  /** The keys the pipeline pins in the registries. */
  const ID_KEY: string := "@id"
  const COORDINATES_KEY: string := "@coordinates"
  const BORDER_ROUTERS_KEY: string := "@borderRouters"
  const ROUTING_KEY: string := "@routingAlgorithm"

  /** The border routers of a system (src/borders.rs is not part of this model); the pipeline
      only asks whether a system has them. */
  datatype BorderRouter = BorderRouter(otherAttributes: Option<Attributes>)
  datatype Borders = Borders(routers: seq<BorderRouter>)

  /** The count-mismatch error as src/lib.rs:95 builds it. The format string names the
      expected count inline and fills its three positional holes with rows, columns and the
      core count, in that order: "found" shows the rows, "rows" the columns, and "columns"
      the core count. */
  function CountMismatchAsWritten(rows: u8, columns: u8, found: nat): (e: ManycoreError)
    ensures e.CoreCountMismatch? && e.expected == rows as int * columns as int
    ensures e.found == rows as int && e.rows == columns as int && e.columns == found
  {
    CoreCountMismatch(columns as int * rows as int, rows as int, columns as int, found)
  }

  /** A 2 x 3 grid with 5 cores is reported as "found 2" with rows 3 and columns 5. */
  lemma CountMismatchAsWrittenMisreports()
    ensures var e := CountMismatchAsWritten(2, 3, 5);
            e.found != 5 && e.rows * e.columns != e.expected
  {
  }

  /** The count-mismatch error as the message evidently intends it: it reports the core count
      found, and the rows and columns whose product is the expected count. */
  function CountMismatch(rows: u8, columns: u8, found: nat): (e: ManycoreError)
    ensures e.CoreCountMismatch? && e.found == found
    ensures e.rows == rows as int && e.columns == columns as int && e.expected == e.rows * e.columns
  {
    CoreCountMismatch(columns as int * rows as int, found, rows as int, columns as int)
  }

  /** The core ids, in order. */
  function Ids(cs: seq<Core>): seq<int> {
    seq(|cs|, k requires 0 <= k < |cs| => cs[k].id as int)
  }

  predicate SortedById(cs: seq<Core>) {
    forall i, j :: 0 <= i < j < |cs| ==> cs[i].id <= cs[j].id
  }

  lemma IdsConcat(a: seq<Core>, b: seq<Core>)
    ensures Ids(a + b) == Ids(a) + Ids(b)
  {
  }

  /** Reordering the cores reorders their ids: equal multisets of cores have equal multisets
      of ids. */
  lemma {:induction false} IdsPreservePermutation(s: seq<Core>, t: seq<Core>)
    requires multiset(s) == multiset(t)
    ensures multiset(Ids(s)) == multiset(Ids(t))
    decreases |s|
  {
    assert |t| == |multiset(t)|;
    if |s| > 0 {
      var x := s[0];
      assert x in multiset(t);
      var j :| 0 <= j < |t| && t[j] == x;
      var rest := t[..j] + t[j + 1..];
      assert t == t[..j] + [x] + t[j + 1..];
      assert s == [x] + s[1..];
      assert multiset(t) == multiset(t[..j]) + multiset{x} + multiset(t[j + 1..]);
      assert multiset(s) == multiset{x} + multiset(s[1..]);
      assert multiset(rest) == multiset(t[..j]) + multiset(t[j + 1..]);
      assert multiset(s[1..]) == multiset(s) - multiset{x};
      assert multiset(s[1..]) == multiset(rest);
      IdsPreservePermutation(s[1..], rest);
      IdsConcat([x], s[1..]);
      IdsConcat(t[..j], t[j + 1..]);
      IdsConcat(t[..j] + [x], t[j + 1..]);
      IdsConcat(t[..j], [x]);
    }
  }

  /** Routers are owned: no two distinct cores share one. */
  ghost predicate OwnsRouters(cs: seq<Core>) {
    forall c, d :: c in cs && d in cs && c != d ==> c.router != d.router
  }

  /** The allocated-task fields, in core order. */
  function AllocatedTasks(cs: seq<Core>): seq<Option<u16>> {
    seq(|cs|, k requires 0 <= k < |cs| => cs[k].allocatedTask)
  }

  /** The cores' own attribute bags, in core order. */
  function CoreBags(cs: seq<Core>): seq<Option<Attributes>> {
    seq(|cs|, k requires 0 <= k < |cs| => cs[k].otherAttributes)
  }

  /** The routers' attribute bags, in core order. */
  function RouterBags(cs: seq<Core>): seq<Option<Attributes>> {
    seq(|cs|, k requires 0 <= k < |cs| => cs[k].router.OtherAttributes())
  }

  /** One core's channel attribute bags, in the order its channel map yields them. */
  function ChannelBagsOf(channels: seq<Channel>): seq<Option<Attributes>> {
    seq(|channels|, k requires 0 <= k < |channels| => channels[k].otherAttributes)
  }

  /** Every core's channel attribute bags, core after core. */
  function ChannelBags(cs: seq<Core>): seq<Option<Attributes>>
    decreases |cs|
  {
    if |cs| == 0 then []
    else ChannelBags(cs[..|cs| - 1]) + ChannelBagsOf(cs[|cs| - 1].channels)
  }

  /** The core registry before the scan: `@id` and `@coordinates` pinned. */
  function PinnedCoreAttributes(): Registry {
    map[ID_KEY := Text, COORDINATES_KEY := Coordinates]
  }

  /** The channel registry before the scan: `@routingAlgorithm` pinned. */
  function PinnedChannelAttributes(): Registry {
    map[ROUTING_KEY := Routing]
  }

  /** What the pipeline hands to the front end for the sorted cores `cs`: the pinned keys
      with their fixed kinds whatever the bags say, every key some bag declares, the
      `@borderRouters` flag exactly when the system has borders, and the observed algorithm
      and the catalogue unchanged. */
  function ConfiguredAttributes(cs: seq<Core>, routingAlgo: Option<string>,
                                supportedAlgorithms: seq<string>, hasBorders: bool): (ca: ConfigurableAttributes)
    ensures ID_KEY in ca.coreAttributes && ca.coreAttributes[ID_KEY] == Text
    ensures COORDINATES_KEY in ca.coreAttributes && ca.coreAttributes[COORDINATES_KEY] == Coordinates
    ensures forall k :: k in ca.coreAttributes <==> k == ID_KEY || k == COORDINATES_KEY || Declares(CoreBags(cs), k)
    ensures forall k :: k in ca.routerAttributes <==> Declares(RouterBags(cs), k)
    ensures ROUTING_KEY in ca.channelAttributes && ca.channelAttributes[ROUTING_KEY] == Routing
    ensures forall k :: k in ca.channelAttributes <==>
              k == ROUTING_KEY || Declares(ChannelBags(cs), k) || (hasBorders && k == BORDER_ROUTERS_KEY)
    ensures (BORDER_ROUTERS_KEY in ca.channelAttributes && ca.channelAttributes[BORDER_ROUTERS_KEY] == Boolean)
            <==> hasBorders
    ensures !Declares(ChannelBags(cs), BORDER_ROUTERS_KEY) ==> (BORDER_ROUTERS_KEY in ca.channelAttributes <==> hasBorders)
    ensures ca.observedAlgorithm == routingAlgo && ca.algorithms == supportedAlgorithms
  {
    assert |ROUTING_KEY| != |BORDER_ROUTERS_KEY|;
    var channels := ExtendAll(PinnedChannelAttributes(), ChannelBags(cs));
    ConfigurableAttributes(
      ExtendAll(PinnedCoreAttributes(), CoreBags(cs)),
      ExtendAll(map[], RouterBags(cs)),
      routingAlgo,
      supportedAlgorithms,
      if hasBorders then channels[BORDER_ROUTERS_KEY := Boolean] else channels)
  }

  /** A system as the XML decoder produces it, with the fields the pipeline reads or writes.
      Namespace attributes and the task graph are not part of this model. */
  class ManycoreSystem {
    const rows: u8
    const columns: u8
    /** The routing algorithm named by the decoded channel data; absent when none is named. */
    const routingAlgo: Option<string>
    /** The cores, in document order until the pipeline sorts them. */
    const cores: array<Core>
    const borders: Option<Borders>
    /** Task id -> index of the core it is allocated to; derived. */
    var taskCoreMap: map<u16, nat>
    /** The attributes the front end may request; derived. */
    var configurableAttributes: ConfigurableAttributes

    constructor Decoded(rows: u8, columns: u8, routingAlgo: Option<string>, cores: array<Core>,
                        borders: Option<Borders>)
      requires OwnsRouters(cores[..])
      ensures this.rows == rows && this.columns == columns && this.routingAlgo == routingAlgo
      ensures this.cores == cores && this.borders == borders
      ensures taskCoreMap == map[] && configurableAttributes == Empty()
      ensures Valid()
    {
      this.rows := rows;
      this.columns := columns;
      this.routingAlgo := routingAlgo;
      this.cores := cores;
      this.borders := borders;
      taskCoreMap := map[];
      configurableAttributes := Empty();
    }

    /** `rows * columns`, the number of cores the grid must hold. */
    function ExpectedCores(): nat {
      rows as int * columns as int
    }

    /** Each core owns its router. */
    ghost predicate Valid()
      reads cores
    {
      OwnsRouters(cores[..])
    }

    ghost function CoreObjects(): set<Core>
      reads cores
    {
      CoreSet(cores[..])
    }

    ghost function RouterObjects(): set<Router.Router>
      reads cores
    {
      RouterSet(cores[..])
    }
  }

  /** `sort_by` on the core list, ordering by id: an insertion sort, in place. */
  method SortById(a: array<Core>)
    modifies a
    ensures SortedById(a[..])
    ensures multiset(a[..]) == old(multiset(a[..]))
  {
    var i := 0;
    while i < a.Length
      invariant 0 <= i <= a.Length
      invariant SortedById(a[..i])
      invariant multiset(a[..]) == old(multiset(a[..]))
    {
      InsertAt(a, i);
      i := i + 1;
    }
    assert a[..a.Length] == a[..];
  }

  /** Moves `a[i]` left until `a[..i + 1]` is sorted by id. */
  method InsertAt(a: array<Core>, i: nat)
    requires i < a.Length && SortedById(a[..i])
    modifies a
    ensures SortedById(a[..i + 1])
    ensures multiset(a[..]) == old(multiset(a[..]))
  {
    var j := i;
    while 0 < j && a[j].id < a[j - 1].id
      invariant 0 <= j <= i
      invariant multiset(a[..]) == old(multiset(a[..]))
      invariant forall p, q :: 0 <= p < q <= i && p != j && q != j ==> a[p].id <= a[q].id
      invariant forall q :: j < q <= i ==> a[j].id <= a[q].id
    {
      Swap(a, j - 1, j);
      j := j - 1;
    }
  }

  method Swap(a: array<Core>, i: nat, j: nat)
    requires i < j < a.Length
    modifies a
    ensures a[i] == old(a[j]) && a[j] == old(a[i])
    ensures forall k :: 0 <= k < a.Length && k != i && k != j ==> a[k] == old(a[k])
    ensures multiset(a[..]) == old(multiset(a[..]))
  {
    a[i], a[j] := a[j], a[i];
  }

  lemma SortedIds(cs: seq<Core>)
    requires SortedById(cs)
    ensures Sorted(Ids(cs))
  {
  }

  lemma NonEmptyGrid(columns: u8, rows: u8)
    requires columns as int * rows as int != 0
    ensures columns > 0 && rows > 0
  {
  }

  /** Reordering the cores keeps the same core and router objects, each core owning its router. */
  lemma SortKeepsObjects(original: seq<Core>, sorted: seq<Core>)
    requires multiset(sorted) == multiset(original) && OwnsRouters(original)
    ensures OwnsRouters(sorted)
    ensures CoreSet(sorted) == CoreSet(original) && RouterSet(sorted) == RouterSet(original)
  {
    SameMembers(sorted, original);
  }

  lemma SameMembers(s: seq<Core>, t: seq<Core>)
    requires multiset(s) == multiset(t)
    ensures forall c :: c in s <==> c in t
  {
    forall c ensures c in s <==> c in t {
      assert c in s <==> c in multiset(s);
      assert c in t <==> c in multiset(t);
    }
  }

  lemma PrefixSnoc(cs: seq<Core>, i: nat)
    requires i < |cs|
    ensures AllocatedTasks(cs[..i + 1]) == AllocatedTasks(cs[..i]) + [cs[i].allocatedTask]
    ensures CoreBags(cs[..i + 1]) == CoreBags(cs[..i]) + [cs[i].otherAttributes]
    ensures RouterBags(cs[..i + 1]) == RouterBags(cs[..i]) + [cs[i].router.OtherAttributes()]
    ensures ChannelBags(cs[..i + 1]) == ChannelBags(cs[..i]) + ChannelBagsOf(cs[i].channels)
  {
    assert cs[..i + 1][..i] == cs[..i];
  }

  lemma GridBound(columns: u8, rows: u8)
    ensures columns as int * rows as int <= 0xFF * 0xFF
  {
    MulMonotone(rows as int, 0xFF, columns as int);
    MulMonotone(columns as int, 0xFF, 0xFF);
  }

  /** The core's edge flags are derived from its id. */
  ghost predicate EdgeDerived(core: Core, columns: u8, rows: u8)
    requires columns > 0
    reads core
  {
    core.matrixEdge == Some(MatrixEdgeOf(core.id, columns, rows))
  }

  /** The core's router carries the core's id. */
  ghost predicate RouterMirrored(core: Core)
    reads core.router
  {
    core.router.Id() == core.id
  }

  /** The core at index `k` of a constructed system: its id is `k`, its edge flags are
      derived and its router carries its id. */
  ghost predicate Derived(core: Core, k: nat, columns: u8, rows: u8)
    requires columns > 0
    reads core, core.router
  {
    core.id as int == k && EdgeDerived(core, columns, rows) && RouterMirrored(core)
  }

  /** Per core: derive the edge flags (src/lib.rs:152-153) and mirror the id in the
      router (src/lib.rs:160-161). `i as u8` truncates; here `i` is the core's id, so it
      never does. */
  method DeriveCore(core: Core, i: nat, columns: u8, rows: u8)
    requires columns > 0 && core.id as int == i
    modifies core, core.router
    ensures Derived(core, i, columns, rows)
  {
    core.PopulateMatrixEdge(columns, rows);
    core.router.SetId((i % 0x100) as u8);
  }

  /** One step of the loop's derivation: the core at index `i` is derived, and the cores
      before it, which own other routers, stay derived. */
  method DeriveNext(cores: array<Core>, i: nat, columns: u8, rows: u8)
    requires columns > 0 && i < cores.Length && cores[i].id as int == i && OwnsRouters(cores[..])
    requires forall k :: 0 <= k < i ==> Derived(cores[k], k, columns, rows)
    modifies cores[i], cores[i].router
    ensures forall k :: 0 <= k < i + 1 ==> Derived(cores[k], k, columns, rows)
  {
    var core := cores[i];
    label BeforeDerive:
    DeriveCore(core, i, columns, rows);
    forall k | 0 <= k < i + 1 ensures Derived(cores[k], k, columns, rows) {
      if k < i {
        assert cores[k] != core by {
          assert cores[k].id as int == k;
        }
        assert cores[k] in cores[..] && core in cores[..];
        assert cores[k].router != core.router;
        assert old@BeforeDerive(Derived(cores[k], k, columns, rows));
      }
    }
  }

  /** The channel loop of src/lib.rs:166-168: every channel's bag, in order. */
  method ScanChannels(registry: Registry, channels: seq<Channel>) returns (r: Registry)
    ensures r == ExtendAll(registry, ChannelBagsOf(channels))
  {
    r := registry;
    var j := 0;
    while j < |channels|
      invariant 0 <= j <= |channels|
      invariant r == ExtendAll(registry, ChannelBagsOf(channels[..j]))
    {
      assert ChannelBagsOf(channels[..j + 1]) == ChannelBagsOf(channels[..j]) + [channels[j].otherAttributes];
      ExtendAllSnoc(registry, ChannelBagsOf(channels[..j]), channels[j].otherAttributes);
      r := Extend(r, channels[j].otherAttributes);
      j := j + 1;
    }
    assert channels[..j] == channels;
  }

  ghost function CoreSet(cs: seq<Core>): set<Core> {
    set c | c in cs
  }

  ghost function RouterSet(cs: seq<Core>): set<Router.Router> {
    set c | c in cs :: c.router
  }

  /** What the loop has accumulated: the task map and the core, router and channel
      registries. */
  datatype Scan = Scan(taskCoreMap: map<u16, nat>, coreAttributes: Registry,
                       routerAttributes: Registry, channelAttributes: Registry)

  /** One loop step for the core at index `i` (src/lib.rs:155-158, 163-168): its task, then
      its own, its router's and its channels' attribute bags. */
  function ScanStep(acc: Scan, i: nat, core: Core): Scan
  {
    Scan(
      if core.allocatedTask.Some? then acc.taskCoreMap[core.allocatedTask.value := i] else acc.taskCoreMap,
      Extend(acc.coreAttributes, core.otherAttributes),
      Extend(acc.routerAttributes, core.router.OtherAttributes()),
      ExtendAll(acc.channelAttributes, ChannelBagsOf(core.channels)))
  }

  /** One step maps the core's task, if any, to index `i` and keeps every other entry; each
      registry keeps every key it already held, with its kind. */
  lemma ScanStepKeeps(acc: Scan, i: nat, core: Core)
    ensures var r := ScanStep(acc, i, core);
            && (forall t :: t in r.taskCoreMap <==> t in acc.taskCoreMap || core.allocatedTask == Some(t))
            && (forall t :: t in r.taskCoreMap ==>
                  r.taskCoreMap[t] == if core.allocatedTask == Some(t) then i else acc.taskCoreMap[t])
            && (forall k :: k in acc.coreAttributes ==>
                  k in r.coreAttributes && r.coreAttributes[k] == acc.coreAttributes[k])
            && (forall k :: k in acc.routerAttributes ==>
                  k in r.routerAttributes && r.routerAttributes[k] == acc.routerAttributes[k])
            && (forall k :: k in acc.channelAttributes ==>
                  k in r.channelAttributes && r.channelAttributes[k] == acc.channelAttributes[k])
  {
  }

  /** The loop's accumulation over the cores `cs`, step by step from the pinned registries
      of src/lib.rs:111-114. */
  function ScanOf(cs: seq<Core>): Scan
    decreases |cs|
  {
    if |cs| == 0 then Scan(map[], PinnedCoreAttributes(), map[], PinnedChannelAttributes())
    else ScanStep(ScanOf(cs[..|cs| - 1]), |cs| - 1, cs[|cs| - 1])
  }

  /** The step-by-step accumulation is the task map and the registries folded over the whole
      list of cores. */
  lemma {:induction false} ScanOfFolds(cs: seq<Core>)
    ensures ScanOf(cs).taskCoreMap == TaskCoreMap(AllocatedTasks(cs))
    ensures ScanOf(cs).coreAttributes == ExtendAll(PinnedCoreAttributes(), CoreBags(cs))
    ensures ScanOf(cs).routerAttributes == ExtendAll(map[], RouterBags(cs))
    ensures ScanOf(cs).channelAttributes == ExtendAll(PinnedChannelAttributes(), ChannelBags(cs))
    decreases |cs|
  {
    if |cs| > 0 {
      var i := |cs| - 1;
      ScanOfFolds(cs[..i]);
      PrefixSnoc(cs, i);
      assert cs[..i + 1] == cs;
      TaskCoreMapSnoc(AllocatedTasks(cs[..i]), cs[i].allocatedTask);
      ExtendAllSnoc(PinnedCoreAttributes(), CoreBags(cs[..i]), cs[i].otherAttributes);
      ExtendAllSnoc(map[], RouterBags(cs[..i]), cs[i].router.OtherAttributes());
      ExtendAllAppend(PinnedChannelAttributes(), ChannelBags(cs[..i]), ChannelBagsOf(cs[i].channels));
    }
  }

  /** The bookkeeping of one loop step, as the source performs it: the channel bags are
      scanned one by one. */
  method RecordCore(ghost cs: seq<Core>, core: Core, i: nat, acc: Scan) returns (acc': Scan)
    requires i < |cs| && cs[i] == core && acc == ScanOf(cs[..i])
    ensures acc' == ScanOf(cs[..i + 1])
  {
    assert cs[..i + 1][..i] == cs[..i];
    var taskCoreMap := acc.taskCoreMap;
    if core.allocatedTask.Some? {
      taskCoreMap := taskCoreMap[core.allocatedTask.value := i];
    }
    var coreAttributes := Extend(acc.coreAttributes, core.otherAttributes);
    var routerAttributes := Extend(acc.routerAttributes, core.router.OtherAttributes());
    var channelAttributes := ScanChannels(acc.channelAttributes, core.channels);
    acc' := Scan(taskCoreMap, coreAttributes, routerAttributes, channelAttributes);
  }

  /** The loop of src/lib.rs:116-169 over the sorted cores, with the registries pinned as
      src/lib.rs:111-114 leaves them. It stops at the first core whose id breaks the sequence
      0, 1, 2, ...; past that core nothing is derived. Otherwise every core gets its edge flags
      and its router's id, and the task map and the three registries cover all cores. */
  method ValidateAndDerive(cores: array<Core>, columns: u8, rows: u8)
    returns (err: Option<ManycoreError>, scan: Scan)
    requires columns > 0 && cores.Length > 0 && OwnsRouters(cores[..])
    modifies CoreSet(cores[..]), RouterSet(cores[..])
    ensures err == CheckIds(Ids(cores[..]))
    ensures err.None? ==> forall k :: 0 <= k < cores.Length ==> Derived(cores[k], k, columns, rows)
    ensures err.None? ==> scan == ScanOf(cores[..])
  {
    ghost var cs := cores[..];
    scan := ScanOf([]);
    // the id accepted last; -1 before the first core
    var prevId: i16 := -1;
    var last := cores.Length - 1;
    var i := 0;
    while i <= last
      invariant 0 <= i <= cores.Length && i <= 0x100
      invariant cores[..] == cs
      invariant prevId as int == i - 1
      invariant forall k :: 0 <= k < i ==> Derived(cs[k], k, columns, rows)
      invariant scan == ScanOf(cs[..i])
    {
      var core := cores[i];
      assert core == cs[i];

      // the ids must run 0 -> 1 -> 2 -> ...
      var validationId := core.id as i16;
      if validationId - prevId != 1 {
        CheckIdsReportsFirst(Ids(cs), i);
        err := Some(IdSequenceError(prevId as int, validationId as int));
        return;
      }
      prevId := prevId + 1;

      DeriveNext(cores, i, columns, rows);
      scan := RecordCore(cs, core, i, scan);
      i := i + 1;
    }
    assert cs[..i] == cs;
    CheckIdsAccepts(Ids(cs));
    err := None;
  }

  /** The post-decode part of `ManycoreSystem::parse_file`: checks the core count, sorts the
      cores by id, checks that the ids run 0, 1, 2, ..., and for each core derives its edge
      flags, records its task, sets its router's id and scans its attribute bags; then stores
      the task map and the configurable attributes. `supportedAlgorithms` is the fixed
      catalogue of routing algorithms. */
  method ParseFile(manycore: ManycoreSystem, supportedAlgorithms: seq<string>)
    returns (r: Result<ManycoreSystem, ManycoreError>)
    requires manycore.Valid()
    modifies manycore, manycore.cores, manycore.CoreObjects(), manycore.RouterObjects()
    ensures manycore.Valid()
    ensures r.Success? ==> r.value == manycore
    // the count check comes first and changes nothing
    ensures manycore.cores.Length != manycore.ExpectedCores() ==>
              r == Failure(CountMismatch(manycore.rows, manycore.columns, manycore.cores.Length))
              && manycore.cores[..] == old(manycore.cores[..])
              && unchanged(manycore.CoreObjects()) && unchanged(manycore.RouterObjects())
    ensures r.Failure? && r.error.CoreCountMismatch? ==> manycore.cores.Length != manycore.ExpectedCores()
    // past it, the cores are sorted by id, whatever the document order
    ensures manycore.cores.Length == manycore.ExpectedCores() ==>
              SortedById(manycore.cores[..]) && multiset(manycore.cores[..]) == old(multiset(manycore.cores[..]))
    // an empty grid cannot be inspected
    ensures manycore.cores.Length == manycore.ExpectedCores() == 0 ==> r == Failure(CoreInspection)
    // the id check, against its specification and against what it means
    ensures manycore.cores.Length == manycore.ExpectedCores() > 0 ==>
              CheckIds(Ids(manycore.cores[..])) == if r.Success? then None else Some(r.error)
    ensures manycore.cores.Length == manycore.ExpectedCores() > 0 ==>
              (r.Success? <==> multiset(Ids(old(manycore.cores[..]))) == multiset(Range(manycore.cores.Length)))
    // on success: ids are indices, routers mirror their cores, edge flags are derived
    ensures r.Success? ==> forall k :: 0 <= k < manycore.cores.Length ==>
              && manycore.cores[k].id as int == k
              && manycore.cores[k].router.Id() == manycore.cores[k].id
              && manycore.cores[k].matrixEdge == Some(MatrixEdgeOf(manycore.cores[k].id, manycore.columns, manycore.rows))
    ensures r.Success? ==> manycore.taskCoreMap == TaskCoreMap(AllocatedTasks(manycore.cores[..]))
    ensures r.Success? ==>
              manycore.configurableAttributes == ConfiguredAttributes(
                manycore.cores[..], manycore.routingAlgo, supportedAlgorithms, manycore.borders.Some?)
    // on failure the derived fields are never stored
    ensures r.Failure? ==>
              && manycore.taskCoreMap == old(manycore.taskCoreMap)
              && manycore.configurableAttributes == old(manycore.configurableAttributes)
  {
    var cores := manycore.cores;
    ghost var original := cores[..];
    var n := cores.Length;
    GridBound(manycore.columns, manycore.rows);
    var expected := (manycore.columns as usize) * (manycore.rows as usize);
    assert expected as int == manycore.ExpectedCores();
    if n != expected as int {
      return Failure(CountMismatch(manycore.rows, manycore.columns, n));
    }

    SortById(cores);
    ghost var sorted := cores[..];
    SortKeepsObjects(original, sorted);
    IdsPreservePermutation(sorted, original);
    SortedIds(sorted);
    SortedAcceptedIffPermutation(Ids(sorted));
    CheckIdsAccepts(Ids(sorted));

    if n == 0 {
      // `len - 1` underflows: a debug build panics; a release build wraps around and
      // `get_mut(0)` finds no core.
      return Failure(CoreInspection);
    }
    NonEmptyGrid(manycore.columns, manycore.rows);
    assert manycore.Valid();
    assert manycore.CoreObjects() == CoreSet(original);
    assert manycore.RouterObjects() == RouterSet(original);
    r := Construct(manycore, supportedAlgorithms);
  }

  /** The part of `ManycoreSystem::parse_file` past the sort (src/lib.rs:116-191), on a
      non-empty grid: the loop either stops at the first core whose id is out of sequence,
      storing nothing, or derives every core and stores the task map and the configurable
      attributes. */
  method Construct(manycore: ManycoreSystem, supportedAlgorithms: seq<string>)
    returns (r: Result<ManycoreSystem, ManycoreError>)
    requires manycore.columns > 0 && manycore.cores.Length > 0 && manycore.Valid()
    modifies manycore, manycore.CoreObjects(), manycore.RouterObjects()
    ensures manycore.Valid()
    ensures r.Success? ==> r.value == manycore
    ensures CheckIds(Ids(manycore.cores[..])) == if r.Success? then None else Some(r.error)
    ensures r.Success? ==> forall k :: 0 <= k < manycore.cores.Length ==>
              Derived(manycore.cores[k], k, manycore.columns, manycore.rows)
    ensures r.Success? ==> manycore.taskCoreMap == TaskCoreMap(AllocatedTasks(manycore.cores[..]))
    ensures r.Success? ==>
              manycore.configurableAttributes == ConfiguredAttributes(
                manycore.cores[..], manycore.routingAlgo, supportedAlgorithms, manycore.borders.Some?)
    ensures r.Failure? ==>
              && manycore.taskCoreMap == old(manycore.taskCoreMap)
              && manycore.configurableAttributes == old(manycore.configurableAttributes)
  {
    var cores := manycore.cores;
    var err, scan := ValidateAndDerive(cores, manycore.columns, manycore.rows);
    if err.Some? {
      return Failure(err.value);
    }
    ScanOfFolds(cores[..]);
    var channelAttributes := scan.channelAttributes;

    manycore.taskCoreMap := scan.taskCoreMap;
    if manycore.borders.Some? {
      channelAttributes := channelAttributes[BORDER_ROUTERS_KEY := Boolean];
    }
    manycore.configurableAttributes := ConfigurableAttributes(
      scan.coreAttributes, scan.routerAttributes, manycore.routingAlgo, supportedAlgorithms, channelAttributes);
    return Success(manycore);
  }
}
