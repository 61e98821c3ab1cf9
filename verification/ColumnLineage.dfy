/** Column lineage between the schemas of a domain, from lower layers to higher ones. */
module ColumnLineage {
  import opened Basics

  datatype Node = Node(urn: string, kind: string, name: string, dataType: string)

  /** What a schema field's URN says: platform.domain.schema.asset.column. */
  datatype Path = Path(platform: string, domain: string, schema: string, asset: string)

  /** NoLayer stands for a schema path that the layer table does not hold. */
  datatype Layer = Raw | Staging | Core | Analytics | Mart | Report | Unknown | NoLayer

  datatype Edge = Edge(source: Node, target: Node, sourceLayer: Layer, targetLayer: Layer)

  /** The rules of names: how a URN splits, which layer a schema name suggests, which columns match. */
  datatype Rules = Rules(parse: string -> Option<Path>, layer: string -> Layer, matches: (Node, Node) -> bool)

  /** The parts come from a split at dots, and every schema name gets a layer. */
  ghost predicate Sensible(c: Rules) {
    && (forall u :: c.parse(u).Some? ==> DotFree(c.parse(u).value))
    && (forall s :: c.layer(s) != NoLayer)
  }

  predicate DotFree(p: Path) {
    '.' !in p.platform && '.' !in p.domain && '.' !in p.schema
  }

  function SortRank(l: Layer): nat {
    match l
    case Raw => 0
    case Staging => 1
    case Core => 2
    case Analytics => 3
    case Mart => 4
    case Report => 5
    case Unknown => 99
    case NoLayer => 99
  }

  // ---- Names and keys -------------------------------------------------------------------------

  predicate IsColumn(c: Rules, n: Node) {
    n.kind == "schemaField" && c.parse(n.urn).Some? && c.parse(n.urn).value.asset != ""
  }

  function PathOf(c: Rules, n: Node): Path {
    if c.parse(n.urn).Some? then c.parse(n.urn).value else Path("", "", "", "")
  }

  function SchemaPath(p: Path): string {
    p.platform + "." + p.domain + "." + p.schema
  }

  function Key(c: Rules, n: Node): string {
    PathOf(c, n).domain + ":" + SchemaPath(PathOf(c, n))
  }

  function Asset(c: Rules, n: Node): string {
    PathOf(c, n).asset
  }

  function ByKey(c: Rules): Node -> string {
    n => Key(c, n)
  }

  function ByAsset(c: Rules): Node -> string {
    n => Asset(c, n)
  }

  function LayerOf(c: Rules, n: Node): Layer {
    c.layer(PathOf(c, n).schema)
  }

  function UpToColon(key: string): string {
    if key == "" || key[0] == ':' then "" else [key[0]] + UpToColon(key[1..])
  }

  function PastColon(key: string): string {
    if key == "" then "" else if key[0] == ':' then key[1..] else PastColon(key[1..])
  }

  function EdgeId(s: Node, t: Node): string {
    "col-lineage-" + s.urn + "|" + t.urn
  }

  /** The table of layers by schema path, later columns overwriting earlier ones. */
  function LayerTable(c: Rules, cols: seq<Node>): map<string, Layer> {
    if cols == [] then map[]
    else
      var last := cols[|cols| - 1];
      LayerTable(c, cols[..|cols| - 1])[SchemaPath(PathOf(c, last)) := LayerOf(c, last)]
  }

  function LookUp(table: map<string, Layer>, path: string): Layer {
    if path in table then table[path] else NoLayer
  }

  // ---- Which links are wanted -----------------------------------------------------------------

  function Filter<T>(items: seq<T>, keyOf: T -> string, k: string): seq<T> {
    if items == [] then []
    else
      var rest := Filter(items[..|items| - 1], keyOf, k);
      if keyOf(items[|items| - 1]) == k then rest + [items[|items| - 1]] else rest
  }

  function Columns(c: Rules, nodes: seq<Node>): seq<Node> {
    if nodes == [] then []
    else
      var rest := Columns(c, nodes[..|nodes| - 1]);
      if IsColumn(c, nodes[|nodes| - 1]) then rest + [nodes[|nodes| - 1]] else rest
  }

  function FirstMatch(c: Rules, s: Node, targets: seq<Node>): Option<Node> {
    if targets == [] then None
    else if c.matches(s, targets[0]) then Some(targets[0])
    else FirstMatch(c, s, targets[1..])
  }

  /** The columns of an asset in the schema with the given key. */
  function Peers(c: Rules, cols: seq<Node>, key: string, asset: string): seq<Node> {
    Filter(Filter(cols, ByKey(c), key), ByAsset(c), asset)
  }

  function LayerAt(c: Rules, cols: seq<Node>, key: string): Layer {
    LookUp(LayerTable(c, cols), PastColon(key))
  }

  /** Whether columns of one schema may feed those of another; keys say which. */
  predicate Feeds(c: Rules, cols: seq<Node>, ks: string, kt: string) {
    var ls, lt := LayerAt(c, cols, ks), LayerAt(c, cols, kt);
    UpToColon(ks) == UpToColon(kt) && ls != lt && SortRank(ls) <= SortRank(lt)
  }

  /** A link the rules allow: `t` is the first match of `s` in its asset in a schema that `s` feeds. */
  predicate Candidate(c: Rules, cols: seq<Node>, s: Node, t: Node) {
    && s in cols
    && Feeds(c, cols, Key(c, s), Key(c, t))
    && FirstMatch(c, s, Peers(c, cols, Key(c, t), Asset(c, s))) == Some(t)
  }

  lemma {:induction false} FilterHolds<T>(items: seq<T>, keyOf: T -> string, k: string)
    ensures forall x :: x in Filter(items, keyOf, k) <==> x in items && keyOf(x) == k
    ensures Filter(items, keyOf, k) == [] <==> forall x <- items :: keyOf(x) != k
  {
    if items != [] {
      FilterHolds(items[..|items| - 1], keyOf, k);
      assert items == items[..|items| - 1] + [items[|items| - 1]];
    }
  }

  lemma {:induction false} FirstMatchHolds(c: Rules, s: Node, targets: seq<Node>)
    ensures var r := FirstMatch(c, s, targets);
      && (r.Some? ==> r.value in targets && c.matches(s, r.value))
      && (r.None? ==> forall t <- targets :: !c.matches(s, t))
  {
    if targets != [] {
      FirstMatchHolds(c, s, targets[1..]);
    }
  }

  lemma {:induction false} ColumnsHold(c: Rules, nodes: seq<Node>)
    ensures forall n :: n in Columns(c, nodes) <==> n in nodes && IsColumn(c, n)
  {
    if nodes != [] {
      ColumnsHold(c, nodes[..|nodes| - 1]);
      assert nodes == nodes[..|nodes| - 1] + [nodes[|nodes| - 1]];
    }
  }

  lemma {:induction false} KeySplits(key: string)
    requires ':' in key
    ensures UpToColon(key) + ":" + PastColon(key) == key
  {
    if key[0] != ':' {
      assert ':' in key[1..];
      KeySplits(key[1..]);
    } else {
      assert key == ":" + key[1..];
    }
  }

  // ---- The builder ----------------------------------------------------------------------------

  /** The keys in the order of their first use, each once. */
  function FirstUses<T>(items: seq<T>, keyOf: T -> string): seq<string> {
    if items == [] then []
    else
      var before, k := FirstUses(items[..|items| - 1], keyOf), keyOf(items[|items| - 1]);
      if k in before then before else before + [k]
  }

  lemma {:induction false} FirstUsesHold<T>(items: seq<T>, keyOf: T -> string)
    ensures Distinct(FirstUses(items, keyOf))
    ensures forall k :: k in FirstUses(items, keyOf) <==> exists x <- items :: keyOf(x) == k
  {
    if items != [] {
      FirstUsesHold(items[..|items| - 1], keyOf);
      assert items == items[..|items| - 1] + [items[|items| - 1]];
    }
  }

  /** The dictionary that groups the items, in the order of its keys' first use. */
  ghost predicate Grouped<T(!new)>(items: seq<T>, keyOf: T -> string, order: seq<string>, groups: map<string, seq<T>>) {
    && order == FirstUses(items, keyOf)
    && (forall k :: k in groups <==> k in order)
    && (forall x <- items :: keyOf(x) in groups)
    && (forall k <- groups :: groups[k] == Filter(items, keyOf, k) && groups[k] != [])
  }

  lemma GroupedOneMore<T(!new)>(items: seq<T>, x: T, keyOf: T -> string, order: seq<string>,
                                groups: map<string, seq<T>>)
    requires Grouped(items, keyOf, order, groups)
    ensures keyOf(x) in groups ==>
      Grouped(items + [x], keyOf, order, groups[keyOf(x) := groups[keyOf(x)] + [x]])
    ensures keyOf(x) !in groups ==>
      Grouped(items + [x], keyOf, order + [keyOf(x)], groups[keyOf(x) := [x]])
  {
    var k, more := keyOf(x), items + [x];
    assert more[..|items|] == items;
    if k !in groups {
      FilterHolds(items, keyOf, k);
    }
    forall other ensures Filter(more, keyOf, other) == Filter(items, keyOf, other) + if other == k then [x] else [] {
    }
  }

  method Group<T(!new)>(items: seq<T>, keyOf: T -> string) returns (order: seq<string>, groups: map<string, seq<T>>)
    ensures Grouped(items, keyOf, order, groups)
  {
    order, groups := [], map[];
    for i := 0 to |items|
      invariant Grouped(items[..i], keyOf, order, groups)
    {
      var x := items[i];
      GroupedOneMore(items[..i], x, keyOf, order, groups);
      if keyOf(x) !in groups {
        order := order + [keyOf(x)];
        groups := groups[keyOf(x) := [x]];
      } else {
        groups := groups[keyOf(x) := groups[keyOf(x)] + [x]];
      }
      assert items[..i + 1] == items[..i] + [x];
    }
    assert items[..|items|] == items;
  }

  datatype Limits = Limits(maxEdges: int, thinned: bool)

  function Ids(edges: seq<Edge>): set<string> {
    set e | e in edges :: EdgeId(e.source, e.target)
  }

  /** Nothing left to do for a source column: it has its link, there is none, or it was cut off. */
  predicate Covered(c: Rules, g: Limits, edges: seq<Edge>, s: Node, peers: seq<Node>) {
    g.thinned || |edges| >= g.maxEdges
    || FirstMatch(c, s, peers).None? || EdgeId(s, FirstMatch(c, s, peers).value) in Ids(edges)
  }

  predicate Sound(c: Rules, cols: seq<Node>, e: Edge) {
    && Candidate(c, cols, e.source, e.target)
    && e.sourceLayer == LayerAt(c, cols, Key(c, e.source))
    && e.targetLayer == LayerAt(c, cols, Key(c, e.target))
  }

  predicate IdsDistinct(edges: seq<Edge>) {
    forall i, j :: 0 <= i < j < |edges| ==>
      EdgeId(edges[i].source, edges[i].target) != EdgeId(edges[j].source, edges[j].target)
  }

  ghost predicate Good(c: Rules, cols: seq<Node>, g: Limits, edges: seq<Edge>) {
    && (forall e <- edges :: Sound(c, cols, e))
    && IdsDistinct(edges)
    && |edges| <= (if g.maxEdges < 0 then 0 else g.maxEdges)
  }

  method LinkColumn(c: Rules, ghost cols: seq<Node>, g: Limits, s: Node, peers: seq<Node>, ls: Layer, lt: Layer,
                    edges: seq<Edge>) returns (out: seq<Edge>)
    requires Good(c, cols, g, edges) && |edges| < g.maxEdges
    requires forall t :: FirstMatch(c, s, peers) == Some(t) ==> Sound(c, cols, Edge(s, t, ls, lt))
    ensures Good(c, cols, g, out) && edges <= out && Covered(c, g, out, s, peers)
  {
    out := edges;
    for i := 0 to |peers|
      invariant out == edges && FirstMatch(c, s, peers) == FirstMatch(c, s, peers[i..])
    {
      if c.matches(s, peers[i]) {
        if EdgeId(s, peers[i]) !in Ids(edges) {
          out := edges + [Edge(s, peers[i], ls, lt)];
          assert out[|edges|] in out;
        }
        return;
      }
      assert peers[i..][1..] == peers[i + 1..];
    }
  }

  /** The same, for a source column against the schema with key `kt`. */
  predicate Served(c: Rules, cols: seq<Node>, g: Limits, edges: seq<Edge>, s: Node, kt: string) {
    Covered(c, g, edges, s, Peers(c, cols, kt, Asset(c, s)))
  }

  lemma ServedGrows(c: Rules, cols: seq<Node>, g: Limits, edges: seq<Edge>, out: seq<Edge>)
    requires edges <= out
    ensures forall s, kt :: Served(c, cols, g, edges, s, kt) ==> Served(c, cols, g, out, s, kt)
  {
    CoveredGrows(c, g, edges, out);
  }

  lemma CoveredGrows(c: Rules, g: Limits, edges: seq<Edge>, out: seq<Edge>)
    requires edges <= out
    ensures forall s, peers :: Covered(c, g, edges, s, peers) ==> Covered(c, g, out, s, peers)
  {
  }

  lemma LinkIsSound(c: Rules, cols: seq<Node>, s: Node, ks: string, kt: string, t: Node)
    requires s in cols && Key(c, s) == ks && Feeds(c, cols, ks, kt)
    requires FirstMatch(c, s, Peers(c, cols, kt, Asset(c, s))) == Some(t)
    ensures Sound(c, cols, Edge(s, t, LayerAt(c, cols, ks), LayerAt(c, cols, kt)))
  {
    var inSchema := Filter(cols, ByKey(c), kt);
    FirstMatchHolds(c, s, Peers(c, cols, kt, Asset(c, s)));
    FilterHolds(inSchema, ByAsset(c), Asset(c, s));
    FilterHolds(cols, ByKey(c), kt);
  }

  /** Links the columns of one asset; the cap ends the loop and thinning leaves columns out. */
  method LinkAsset(c: Rules, ghost cols: seq<Node>, g: Limits, ghost ks: string, ghost kt: string, ghost asset: string,
                   sources: seq<Node>, peers: seq<Node>, ls: Layer, lt: Layer, edges: seq<Edge>)
    returns (out: seq<Edge>)
    requires Good(c, cols, g, edges) && Feeds(c, cols, ks, kt)
    requires ls == LayerAt(c, cols, ks) && lt == LayerAt(c, cols, kt) && peers == Peers(c, cols, kt, asset)
    requires forall s <- sources :: s in cols && Key(c, s) == ks && Asset(c, s) == asset
    ensures Good(c, cols, g, out) && edges <= out
    ensures forall s <- sources :: Covered(c, g, out, s, peers)
  {
    out := edges;
    if peers == [] {
      return;
    }
    for i := 0 to |sources|
      invariant Good(c, cols, g, out) && edges <= out
      invariant forall s <- sources[..i] :: Covered(c, g, out, s, peers)
    {
      var s := sources[i];
      if |out| >= g.maxEdges {
        break;
      }
      var drawnOut: bool := *;
      if g.thinned && drawnOut {
        continue;
      }
      forall t | FirstMatch(c, s, peers) == Some(t) ensures Sound(c, cols, Edge(s, t, ls, lt)) {
        LinkIsSound(c, cols, s, ks, kt, t);
      }
      ghost var was := out;
      out := LinkColumn(c, cols, g, s, peers, ls, lt, out);
      CoveredGrows(c, g, was, out);
    }
  }

  /** Links the columns of one schema to those of another, asset by asset. */
  method LinkSchemas(c: Rules, ghost cols: seq<Node>, g: Limits, ghost ks: string, ghost kt: string,
                     sources: seq<Node>, targets: seq<Node>, ls: Layer, lt: Layer, edges: seq<Edge>)
    returns (out: seq<Edge>)
    requires Good(c, cols, g, edges) && Feeds(c, cols, ks, kt)
    requires sources == Filter(cols, ByKey(c), ks) && targets == Filter(cols, ByKey(c), kt)
    requires ls == LayerAt(c, cols, ks) && lt == LayerAt(c, cols, kt)
    ensures Good(c, cols, g, out) && edges <= out
    ensures forall s <- cols | Key(c, s) == ks :: Served(c, cols, g, out, s, kt)
  {
    var sOrder, sGroups := Group(sources, ByAsset(c));
    var tOrder, tGroups := Group(targets, ByAsset(c));
    out := edges;
    for a := 0 to |sOrder|
      invariant Good(c, cols, g, out) && edges <= out
      invariant AssetsServed(c, cols, g, out, sources, kt, sOrder[..a])
    {
      var asset := sOrder[a];
      var peers := if asset in tGroups then tGroups[asset] else [];
      GroupMembers(c, cols, ks, asset);
      PeersInGroup(c, cols, kt, asset, tOrder, tGroups);
      ghost var was := out;
      out := LinkAsset(c, cols, g, ks, kt, asset, sGroups[asset], peers, ls, lt, out);
      AssetsOneMore(c, cols, g, was, out, ks, kt, sOrder[..a], asset);
      assert sOrder[..a + 1] == sOrder[..a] + [asset];
    }
    assert sOrder[..|sOrder|] == sOrder;
    AllAssetsServed(c, cols, g, out, ks, kt, sOrder, sGroups);
  }

  /** The source columns of the listed assets have been dealt with. */
  ghost predicate AssetsServed(c: Rules, cols: seq<Node>, g: Limits, edges: seq<Edge>, sources: seq<Node>, kt: string,
                               assets: seq<string>) {
    forall s <- sources | Asset(c, s) in assets :: Served(c, cols, g, edges, s, kt)
  }

  lemma GroupMembers(c: Rules, cols: seq<Node>, ks: string, asset: string)
    ensures forall s :: s in Peers(c, cols, ks, asset) <==> s in cols && Key(c, s) == ks && Asset(c, s) == asset
  {
    FilterHolds(Filter(cols, ByKey(c), ks), ByAsset(c), asset);
    FilterHolds(cols, ByKey(c), ks);
  }

  lemma AssetsOneMore(c: Rules, cols: seq<Node>, g: Limits, edges: seq<Edge>, out: seq<Edge>, ks: string, kt: string,
                      assets: seq<string>, asset: string)
    requires edges <= out && AssetsServed(c, cols, g, edges, Filter(cols, ByKey(c), ks), kt, assets)
    requires forall s <- Peers(c, cols, ks, asset) :: Covered(c, g, out, s, Peers(c, cols, kt, asset))
    ensures AssetsServed(c, cols, g, out, Filter(cols, ByKey(c), ks), kt, assets + [asset])
  {
    ServedGrows(c, cols, g, edges, out);
    GroupMembers(c, cols, ks, asset);
    FilterHolds(cols, ByKey(c), ks);
  }

  lemma AllAssetsServed(c: Rules, cols: seq<Node>, g: Limits, edges: seq<Edge>, ks: string, kt: string,
                        order: seq<string>, groups: map<string, seq<Node>>)
    requires Grouped(Filter(cols, ByKey(c), ks), ByAsset(c), order, groups)
    requires AssetsServed(c, cols, g, edges, Filter(cols, ByKey(c), ks), kt, order)
    ensures forall s <- cols | Key(c, s) == ks :: Served(c, cols, g, edges, s, kt)
  {
    FilterHolds(cols, ByKey(c), ks);
    forall s <- cols | Key(c, s) == ks ensures Served(c, cols, g, edges, s, kt) {
      assert ByAsset(c)(s) in groups;
    }
  }

  lemma PeersInGroup(c: Rules, cols: seq<Node>, kt: string, asset: string, order: seq<string>,
                     groups: map<string, seq<Node>>)
    requires Grouped(Filter(cols, ByKey(c), kt), ByAsset(c), order, groups)
    ensures Peers(c, cols, kt, asset) == if asset in groups then groups[asset] else []
  {
    if asset !in groups {
      FilterHolds(Filter(cols, ByKey(c), kt), ByAsset(c), asset);
    }
  }

  // ---- Domains --------------------------------------------------------------------------------

  function RankAt(table: map<string, Layer>, key: string): nat {
    SortRank(LookUp(table, PastColon(key)))
  }

  predicate InOrder(table: map<string, Layer>, keys: seq<string>) {
    forall i, j :: 0 <= i < j < |keys| ==> RankAt(table, keys[i]) <= RankAt(table, keys[j])
  }

  function Insert(table: map<string, Layer>, keys: seq<string>, k: string): seq<string> {
    if keys == [] || RankAt(table, keys[|keys| - 1]) <= RankAt(table, k) then keys + [k]
    else Insert(table, keys[..|keys| - 1], k) + [keys[|keys| - 1]]
  }

  lemma {:induction false} InsertHolds(table: map<string, Layer>, keys: seq<string>, k: string)
    ensures forall x :: x in Insert(table, keys, k) <==> x in keys || x == k
  {
    if keys != [] {
      assert keys == keys[..|keys| - 1] + [keys[|keys| - 1]];
      InsertHolds(table, keys[..|keys| - 1], k);
    }
  }

  lemma OneOnTop(table: map<string, Layer>, keys: seq<string>, last: string)
    requires InOrder(table, keys) && forall x <- keys :: RankAt(table, x) <= RankAt(table, last)
    ensures InOrder(table, keys + [last])
  {
    assert forall i :: 0 <= i < |keys| ==> keys[i] in keys;
  }

  lemma {:induction false} InsertInOrder(table: map<string, Layer>, keys: seq<string>, k: string)
    requires InOrder(table, keys)
    ensures InOrder(table, Insert(table, keys, k))
  {
    if keys != [] {
      var front, last := keys[..|keys| - 1], keys[|keys| - 1];
      assert forall x <- front :: RankAt(table, x) <= RankAt(table, last);
      if RankAt(table, last) <= RankAt(table, k) {
        OneOnTop(table, keys, k);
      } else {
        InsertInOrder(table, front, k);
        InsertHolds(table, front, k);
        OneOnTop(table, Insert(table, front, k), last);
      }
    }
  }

  /** Keys by layer, lower layers first; keys of one layer stay in order. */
  method Sorted(table: map<string, Layer>, keys: seq<string>) returns (r: seq<string>)
    ensures InOrder(table, r) && forall x :: x in r <==> x in keys
  {
    r := [];
    for i := 0 to |keys|
      invariant InOrder(table, r) && forall x :: x in r <==> x in keys[..i]
    {
      InsertHolds(table, r, keys[i]);
      InsertInOrder(table, r, keys[i]);
      r := Insert(table, r, keys[i]);
    }
  }

  /** Every column of the one schema has been dealt with against the other. */
  ghost predicate Linked(c: Rules, cols: seq<Node>, g: Limits, edges: seq<Edge>, ks: string, kt: string) {
    forall s <- cols | Key(c, s) == ks :: Served(c, cols, g, edges, s, kt)
  }

  /** The same, if the second schema is on a higher layer. */
  ghost predicate LinkedUp(c: Rules, cols: seq<Node>, g: Limits, table: map<string, Layer>, edges: seq<Edge>,
                           ks: string, kt: string) {
    RankAt(table, ks) < RankAt(table, kt) ==> Linked(c, cols, g, edges, ks, kt)
  }

  lemma LinkedUpGrows(c: Rules, cols: seq<Node>, g: Limits, table: map<string, Layer>, edges: seq<Edge>, out: seq<Edge>)
    requires edges <= out
    ensures forall ks, kt :: LinkedUp(c, cols, g, table, edges, ks, kt) ==> LinkedUp(c, cols, g, table, out, ks, kt)
  {
    ServedGrows(c, cols, g, edges, out);
  }

  /** All schemas of one domain have been dealt with. */
  ghost predicate DomainDone(c: Rules, cols: seq<Node>, g: Limits, table: map<string, Layer>, edges: seq<Edge>,
                             keys: seq<string>) {
    forall ks <- keys, kt <- keys :: LinkedUp(c, cols, g, table, edges, ks, kt)
  }

  lemma DomainDoneGrows(c: Rules, cols: seq<Node>, g: Limits, table: map<string, Layer>, edges: seq<Edge>,
                        out: seq<Edge>)
    requires edges <= out
    ensures forall keys :: DomainDone(c, cols, g, table, edges, keys) ==> DomainDone(c, cols, g, table, out, keys)
  {
    LinkedUpGrows(c, cols, g, table, edges, out);
  }

  lemma SmallDomainDone(c: Rules, cols: seq<Node>, g: Limits, table: map<string, Layer>, edges: seq<Edge>,
                        keys: seq<string>)
    requires |keys| < 2
    ensures DomainDone(c, cols, g, table, edges, keys)
  {
    forall ks <- keys, kt <- keys ensures LinkedUp(c, cols, g, table, edges, ks, kt) {
      assert ks == keys[0] == kt;
    }
  }

  /** One schema has been dealt with against the later ones before `j`. */
  ghost predicate LinkedFrom(c: Rules, cols: seq<Node>, g: Limits, table: map<string, Layer>, edges: seq<Edge>,
                             sorted: seq<string>, i: nat, j: nat)
    requires i < |sorted|
  {
    forall j' :: i < j' < j && j' < |sorted| ==> LinkedUp(c, cols, g, table, edges, sorted[i], sorted[j'])
  }

  lemma LinkedOneMore(c: Rules, cols: seq<Node>, g: Limits, table: map<string, Layer>, edges: seq<Edge>, out: seq<Edge>,
                      sorted: seq<string>, i: nat, j: nat)
    requires edges <= out && i < j < |sorted|
    requires LinkedFrom(c, cols, g, table, edges, sorted, i, j)
    requires LinkedUp(c, cols, g, table, out, sorted[i], sorted[j])
    ensures LinkedFrom(c, cols, g, table, out, sorted, i, j + 1)
  {
    LinkedUpGrows(c, cols, g, table, edges, out);
  }

  predicate Filed(byKey: map<string, seq<Node>>, domain: string, key: string) {
    key in byKey && ':' in key && UpToColon(key) == domain
  }

  predicate AllFiled(byKey: map<string, seq<Node>>, domain: string, keys: seq<string>) {
    forall k <- keys :: Filed(byKey, domain, k)
  }

  lemma SortedFiled(byKey: map<string, seq<Node>>, domain: string, keys: seq<string>, sorted: seq<string>)
    requires AllFiled(byKey, domain, keys) && forall k <- sorted :: k in keys
    ensures AllFiled(byKey, domain, sorted)
  {
  }

  lemma LinkedFromGrows(c: Rules, cols: seq<Node>, g: Limits, table: map<string, Layer>, edges: seq<Edge>,
                        out: seq<Edge>, sorted: seq<string>, n: nat)
    requires edges <= out && n <= |sorted|
    requires forall i :: 0 <= i < n ==> LinkedFrom(c, cols, g, table, edges, sorted, i, |sorted|)
    ensures forall i :: 0 <= i < n ==> LinkedFrom(c, cols, g, table, out, sorted, i, |sorted|)
  {
    LinkedUpGrows(c, cols, g, table, edges, out);
    forall i | 0 <= i < n ensures LinkedFrom(c, cols, g, table, out, sorted, i, |sorted|) {
      assert LinkedFrom(c, cols, g, table, edges, sorted, i, |sorted|);
    }
  }

  lemma AllLinked(c: Rules, cols: seq<Node>, g: Limits, table: map<string, Layer>, edges: seq<Edge>,
                  sorted: seq<string>, keys: seq<string>)
    requires InOrder(table, sorted) && forall x :: x in sorted <==> x in keys
    requires forall i :: 0 <= i < |sorted| ==> LinkedFrom(c, cols, g, table, edges, sorted, i, |sorted|)
    ensures DomainDone(c, cols, g, table, edges, keys)
  {
    forall ks <- keys, kt <- keys ensures LinkedUp(c, cols, g, table, edges, ks, kt) {
      assert ks in sorted && kt in sorted;
      var i :| 0 <= i < |sorted| && sorted[i] == ks;
      var j :| 0 <= j < |sorted| && sorted[j] == kt;
      assert LinkedFrom(c, cols, g, table, edges, sorted, i, |sorted|);
    }
  }

  /** The schemas of one domain, each against the later ones. */
  method LinkDomain(c: Rules, ghost cols: seq<Node>, g: Limits, table: map<string, Layer>, ghost order: seq<string>,
                    byKey: map<string, seq<Node>>, domain: string, keys: seq<string>, edges: seq<Edge>)
    returns (out: seq<Edge>)
    requires Good(c, cols, g, edges) && table == LayerTable(c, cols) && Grouped(cols, ByKey(c), order, byKey)
    requires AllFiled(byKey, domain, keys)
    ensures Good(c, cols, g, out) && edges <= out && DomainDone(c, cols, g, table, out, keys)
  {
    var sorted := Sorted(table, keys);
    SortedFiled(byKey, domain, keys, sorted);
    out := edges;
    for i := 0 to |sorted|
      invariant Good(c, cols, g, out) && edges <= out
      invariant forall i' :: 0 <= i' < i ==> LinkedFrom(c, cols, g, table, out, sorted, i', |sorted|)
    {
      ghost var was := out;
      out := LinkFrom(c, cols, g, table, order, byKey, domain, sorted, i, out);
      LinkedFromGrows(c, cols, g, table, was, out, sorted, i);
    }
    AllLinked(c, cols, g, table, out, sorted, keys);
  }

  /** One schema against the later ones. */
  method LinkFrom(c: Rules, ghost cols: seq<Node>, g: Limits, table: map<string, Layer>, ghost order: seq<string>,
                  byKey: map<string, seq<Node>>, domain: string, sorted: seq<string>, i: nat, edges: seq<Edge>)
    returns (out: seq<Edge>)
    requires Good(c, cols, g, edges) && table == LayerTable(c, cols) && Grouped(cols, ByKey(c), order, byKey)
    requires AllFiled(byKey, domain, sorted)
    requires InOrder(table, sorted) && i < |sorted|
    ensures Good(c, cols, g, out) && edges <= out && LinkedFrom(c, cols, g, table, out, sorted, i, |sorted|)
  {
    out := edges;
    for j := i + 1 to |sorted|
      invariant Good(c, cols, g, out) && edges <= out && LinkedFrom(c, cols, g, table, out, sorted, i, j)
    {
      ghost var was := out;
      out := LinkPair(c, cols, g, table, order, byKey, domain, sorted[i], sorted[j], out);
      LinkedOneMore(c, cols, g, table, was, out, sorted, i, j);
    }
  }

  /** Two schemas. Rebuilding their keys from the parts gives the same keys. */
  method LinkPair(c: Rules, ghost cols: seq<Node>, g: Limits, table: map<string, Layer>, ghost order: seq<string>,
                  byKey: map<string, seq<Node>>, domain: string, source: string, target: string, edges: seq<Edge>)
    returns (out: seq<Edge>)
    requires Good(c, cols, g, edges) && table == LayerTable(c, cols) && Grouped(cols, ByKey(c), order, byKey)
    requires Filed(byKey, domain, source) && Filed(byKey, domain, target)
    requires RankAt(table, source) <= RankAt(table, target)
    ensures Good(c, cols, g, out) && edges <= out && LinkedUp(c, cols, g, table, out, source, target)
  {
    var sourcePath, targetPath := PastColon(source), PastColon(target);
    var ls, lt := LookUp(table, sourcePath), LookUp(table, targetPath);
    if ls == lt {
      return edges;
    }
    KeySplits(source);
    KeySplits(target);
    var ks, kt := domain + ":" + sourcePath, domain + ":" + targetPath;
    out := LinkSchemas(c, cols, g, ks, kt, byKey[ks], byKey[kt], ls, lt, edges);
  }

  method GroupDomains(keys: seq<string>) returns (domains: seq<string>, byDomain: map<string, seq<string>>)
    ensures forall x <- domains :: x in byDomain && byDomain[x] == Filter(keys, UpToColon, x)
    ensures forall k <- keys :: UpToColon(k) in domains
  {
    domains, byDomain := Group(keys, UpToColon);
  }

  method LinkDomains(c: Rules, ghost cols: seq<Node>, g: Limits, table: map<string, Layer>, order: seq<string>,
                     byKey: map<string, seq<Node>>) returns (edges: seq<Edge>, ghost done: seq<string>)
    requires table == LayerTable(c, cols) && Grouped(cols, ByKey(c), order, byKey)
    ensures Good(c, cols, g, edges) && DomainsDone(c, cols, g, table, edges, order, done)
    ensures forall k <- order :: UpToColon(k) in done
  {
    var domains, byDomain := GroupDomains(order);
    edges, done := [], domains;
    for d := 0 to |domains|
      invariant Good(c, cols, g, edges) && DomainsDone(c, cols, g, table, edges, order, domains[..d])
    {
      edges := LinkNext(c, cols, g, table, order, byKey, domains[d], byDomain[domains[d]], domains[..d], edges);
      assert domains[..d + 1] == domains[..d] + [domains[d]];
    }
    assert domains[..|domains|] == domains;
  }

  method LinkNext(c: Rules, ghost cols: seq<Node>, g: Limits, table: map<string, Layer>, ghost order: seq<string>,
                  byKey: map<string, seq<Node>>, domain: string, keys: seq<string>, ghost done: seq<string>,
                  edges: seq<Edge>) returns (out: seq<Edge>)
    requires Good(c, cols, g, edges) && table == LayerTable(c, cols) && Grouped(cols, ByKey(c), order, byKey)
    requires keys == Filter(order, UpToColon, domain) && DomainsDone(c, cols, g, table, edges, order, done)
    ensures Good(c, cols, g, out) && DomainsDone(c, cols, g, table, out, order, done + [domain])
  {
    out := LinkKeys(c, cols, g, table, order, byKey, domain, keys, edges);
    DomainsOneMore(c, cols, g, table, edges, out, order, done, domain);
  }

  ghost predicate DomainsDone(c: Rules, cols: seq<Node>, g: Limits, table: map<string, Layer>, edges: seq<Edge>,
                              order: seq<string>, domains: seq<string>) {
    forall x <- domains :: DomainDone(c, cols, g, table, edges, Filter(order, UpToColon, x))
  }

  lemma DomainsOneMore(c: Rules, cols: seq<Node>, g: Limits, table: map<string, Layer>, edges: seq<Edge>,
                       out: seq<Edge>, order: seq<string>, domains: seq<string>, domain: string)
    requires edges <= out && DomainsDone(c, cols, g, table, edges, order, domains)
    requires DomainDone(c, cols, g, table, out, Filter(order, UpToColon, domain))
    ensures DomainsDone(c, cols, g, table, out, order, domains + [domain])
  {
    DomainDoneGrows(c, cols, g, table, edges, out);
  }

  /** A domain with one schema has nothing to link. */
  method LinkKeys(c: Rules, ghost cols: seq<Node>, g: Limits, table: map<string, Layer>, ghost order: seq<string>,
                  byKey: map<string, seq<Node>>, domain: string, keys: seq<string>, edges: seq<Edge>)
    returns (out: seq<Edge>)
    requires Good(c, cols, g, edges) && table == LayerTable(c, cols) && Grouped(cols, ByKey(c), order, byKey)
    requires keys == Filter(order, UpToColon, domain)
    ensures Good(c, cols, g, out) && edges <= out && DomainDone(c, cols, g, table, out, keys)
  {
    if |keys| < 2 {
      SmallDomainDone(c, cols, g, table, edges, keys);
      return edges;
    }
    FilterHolds(order, UpToColon, domain);
    KeysHaveColons(c, cols, order, byKey);
    assert AllFiled(byKey, domain, keys);
    out := LinkDomain(c, cols, g, table, order, byKey, domain, keys, edges);
  }

  method CollectColumns(c: Rules, nodes: seq<Node>) returns (cols: seq<Node>, table: map<string, Layer>)
    ensures cols == Columns(c, nodes) && table == LayerTable(c, cols)
  {
    cols, table := [], map[];
    for i := 0 to |nodes|
      invariant cols == Columns(c, nodes[..i]) && table == LayerTable(c, cols)
    {
      assert nodes[..i + 1][..i] == nodes[..i];
      if IsColumn(c, nodes[i]) {
        cols := cols + [nodes[i]];
        table := table[SchemaPath(PathOf(c, nodes[i])) := LayerOf(c, nodes[i])];
        assert cols[..|cols| - 1] == Columns(c, nodes[..i]);
      }
    }
    assert nodes[..|nodes|] == nodes;
  }

  /** The whole builder. Its edges are links the rules allow, none twice and no more than the cap;
      and unless thinning or the cap cut some off, every such link to a higher layer is there. */
  method BuildColumnLineage(c: Rules, nodes: seq<Node>, g: Limits) returns (edges: seq<Edge>)
    ensures Good(c, Columns(c, nodes), g, edges)
    ensures !g.thinned && |edges| < g.maxEdges ==>
        forall s, t :: Candidate(c, Columns(c, nodes), s, t) && Climbs(c, Columns(c, nodes), s, t) ==>
          EdgeId(s, t) in Ids(edges)
  {
    var cols, table := CollectColumns(c, nodes);
    var order, byKey := Group(cols, ByKey(c));
    ghost var done;
    edges, done := LinkDomains(c, cols, g, table, order, byKey);
    forall s, t | Candidate(c, cols, s, t) && Climbs(c, cols, s, t)
      ensures Served(c, cols, g, edges, s, Key(c, t))
    {
      CandidateHolds(c, cols, s, t);
      assert ByKey(c)(s) in byKey && ByKey(c)(t) in byKey;
      FilterHolds(order, UpToColon, UpToColon(Key(c, s)));
      assert UpToColon(Key(c, s)) in done;
      assert LinkedUp(c, cols, g, table, edges, Key(c, s), Key(c, t));
    }
  }

  /** The target's layer is a higher one, as far as the layer table knows. */
  predicate Climbs(c: Rules, cols: seq<Node>, s: Node, t: Node) {
    SortRank(LayerAt(c, cols, Key(c, s))) < SortRank(LayerAt(c, cols, Key(c, t)))
  }

  lemma KeysHaveColons(c: Rules, cols: seq<Node>, order: seq<string>, byKey: map<string, seq<Node>>)
    requires Grouped(cols, ByKey(c), order, byKey)
    ensures forall k <- order :: ':' in k
  {
    forall k <- order ensures ':' in k {
      FilterHolds(cols, ByKey(c), k);
      var n := byKey[k][0];
      assert n in byKey[k] && Key(c, n) == k;
      assert k[|PathOf(c, n).domain|] == ':';
    }
  }

  lemma CandidateHolds(c: Rules, cols: seq<Node>, s: Node, t: Node)
    requires Candidate(c, cols, s, t)
    ensures t in cols && Asset(c, t) == Asset(c, s) && c.matches(s, t)
  {
    FirstMatchHolds(c, s, Peers(c, cols, Key(c, t), Asset(c, s)));
    FilterHolds(Filter(cols, ByKey(c), Key(c, t)), ByAsset(c), Asset(c, s));
    FilterHolds(cols, ByKey(c), Key(c, t));
  }

  // ---- What the lineage is like ---------------------------------------------------------------

  function Height(l: Layer): nat {
    if SortRank(l) == 99 then 6 else SortRank(l)
  }

  function UrnHeight(c: Rules, urn: string): nat {
    if c.parse(urn).Some? then Height(c.layer(c.parse(urn).value.schema)) else 6
  }

  /** The columns' domains are among `domains`, and their platforms hold no colon. */
  ghost predicate Over(c: Rules, cols: seq<Node>, domains: set<string>) {
    forall n <- cols :: PathOf(c, n).domain in domains && ':' !in PathOf(c, n).platform
  }

  /** No domain with a colon continues another one after it. */
  predicate NoClash(domains: set<string>) {
    forall d <- domains | ':' in d :: UpToColon(d) !in domains
  }

  lemma {:induction false} PlainKey(domain: string, rest: string)
    requires ':' !in domain
    ensures UpToColon(domain + ":" + rest) == domain && PastColon(domain + ":" + rest) == rest
  {
    var key := domain + ":" + rest;
    if domain == "" {
      assert key[0] == ':' && key[1..] == rest;
    } else {
      assert key[0] == domain[0] && key[1..] == domain[1..] + ":" + rest;
      assert domain[0] in domain && forall x <- domain[1..] :: x in domain;
      PlainKey(domain[1..], rest);
    }
  }

  lemma {:induction false} ColonedKey(domain: string, rest: string)
    requires ':' in domain
    ensures UpToColon(domain + rest) == UpToColon(domain) && PastColon(domain + rest) == PastColon(domain) + rest
    ensures ':' !in UpToColon(domain) && forall x <- PastColon(domain) :: x in domain
    ensures forall x <- UpToColon(domain) :: x in domain
  {
    assert (domain + rest)[0] == domain[0] && (domain + rest)[1..] == domain[1..] + rest;
    if domain[0] != ':' {
      ColonedKey(domain[1..], rest);
    }
  }

  lemma SchemaPathDetermines(p: Path, q: Path)
    requires DotFree(p) && DotFree(q) && SchemaPath(p) == SchemaPath(q)
    ensures p.platform == q.platform && p.domain == q.domain && p.schema == q.schema
  {
    assert SchemaPath(p) == p.platform + ("." + (p.domain + ("." + p.schema)));
    assert SchemaPath(q) == q.platform + ("." + (q.domain + ("." + q.schema)));
    FirstPart('.', p.platform, p.domain + ("." + p.schema), q.platform, q.domain + ("." + q.schema));
    FirstPart('.', p.domain, p.schema, q.domain, q.schema);
  }

  lemma {:induction false} TableHolds(c: Rules, cols: seq<Node>, n: Node)
    requires Sensible(c) && n in cols && forall m <- cols :: IsColumn(c, m)
    ensures LookUp(LayerTable(c, cols), SchemaPath(PathOf(c, n))) == LayerOf(c, n)
    decreases cols
  {
    var front, last := cols[..|cols| - 1], cols[|cols| - 1];
    assert cols == front + [last];
    if SchemaPath(PathOf(c, n)) == SchemaPath(PathOf(c, last)) {
      SchemaPathDetermines(PathOf(c, n), PathOf(c, last));
    } else {
      TableHolds(c, front, n);
    }
  }

  lemma {:induction false} TableMisses(c: Rules, cols: seq<Node>, path: string)
    requires forall m <- cols :: SchemaPath(PathOf(c, m)) != path
    ensures LookUp(LayerTable(c, cols), path) == NoLayer
    decreases cols
  {
    if cols != [] {
      var front := cols[..|cols| - 1];
      assert cols == front + [cols[|cols| - 1]];
      TableMisses(c, front, path);
    }
  }

  /** The layer of a column whose domain holds no colon is found. */
  lemma PlainLayer(c: Rules, nodes: seq<Node>, n: Node)
    requires Sensible(c) && n in Columns(c, nodes) && ':' !in PathOf(c, n).domain
    ensures LayerAt(c, Columns(c, nodes), Key(c, n)) == LayerOf(c, n) && UpToColon(Key(c, n)) == PathOf(c, n).domain
  {
    ColumnsHold(c, nodes);
    PlainKey(PathOf(c, n).domain, SchemaPath(PathOf(c, n)));
    TableHolds(c, Columns(c, nodes), n);
  }

  /** A schema path begins with its platform, and that holds no colon. */
  lemma NoPathHasColon(x: string, p: Path, q: Path)
    requires DotFree(p) && DotFree(q) && '.' !in x && ':' !in q.platform
    ensures SchemaPath(q) != x + (":" + SchemaPath(p))
  {
    var head := x + ":" + p.platform;
    assert head[|x|] == ':' && ':' in head;
    assert x + (":" + SchemaPath(p)) == head + ("." + (p.domain + "." + p.schema));
    assert SchemaPath(q) == q.platform + ("." + (q.domain + "." + q.schema));
    if SchemaPath(q) == x + (":" + SchemaPath(p)) {
      FirstPart('.', q.platform, q.domain + "." + q.schema, head, p.domain + "." + p.schema);
      assert false;
    }
  }

  lemma ColonedText(domain: string, path: string)
    requires ':' in domain
    ensures UpToColon(domain + ":" + path) == UpToColon(domain) && ':' !in UpToColon(domain)
    ensures PastColon(domain + ":" + path) == PastColon(domain) + (":" + path)
    ensures forall x <- PastColon(domain) :: x in domain
  {
    ColonedKey(domain, ":" + path);
    assert domain + ":" + path == domain + (":" + path);
  }

  /** For a column whose domain holds one, the table is asked for what stands behind it. */
  lemma ColonedParts(c: Rules, n: Node)
    requires ':' in PathOf(c, n).domain
    ensures UpToColon(Key(c, n)) == UpToColon(PathOf(c, n).domain) && ':' !in UpToColon(Key(c, n))
    ensures PastColon(Key(c, n)) == PastColon(PathOf(c, n).domain) + (":" + SchemaPath(PathOf(c, n)))
    ensures forall x <- PastColon(PathOf(c, n).domain) :: x in PathOf(c, n).domain
  {
    ColonedText(PathOf(c, n).domain, SchemaPath(PathOf(c, n)));
  }

  /** No layer is found for a column whose domain holds a colon. */
  ghost predicate ColonedMiss(c: Rules, cols: seq<Node>) {
    forall n <- cols | ':' in PathOf(c, n).domain :: LayerAt(c, cols, Key(c, n)) == NoLayer
  }

  lemma PlainPlatformsMiss(c: Rules, nodes: seq<Node>)
    requires Sensible(c) && forall n <- Columns(c, nodes) :: ':' !in PathOf(c, n).platform
    ensures ColonedMiss(c, Columns(c, nodes))
  {
    var cols := Columns(c, nodes);
    ColumnsHold(c, nodes);
    forall n <- cols | ':' in PathOf(c, n).domain ensures LayerAt(c, cols, Key(c, n)) == NoLayer {
      var p := PathOf(c, n);
      ColonedParts(c, n);
      forall m <- cols ensures SchemaPath(PathOf(c, m)) != PastColon(p.domain) + (":" + SchemaPath(p)) {
        NoPathHasColon(PastColon(p.domain), p, PathOf(c, m));
      }
      TableMisses(c, cols, PastColon(Key(c, n)));
    }
  }

  /** The columns' domains are among `domains`. */
  ghost predicate Within(c: Rules, cols: seq<Node>, domains: set<string>) {
    forall n <- cols :: PathOf(c, n).domain in domains
  }

  /** No domain of the list holds a colon, whatever the platforms; or the platforms hold none and
      no domain continues another one after a colon. */
  ghost predicate Tame(c: Rules, cols: seq<Node>, domains: set<string>) {
    || (forall n <- cols :: ':' !in PathOf(c, n).domain)
    || (Over(c, cols, domains) && NoClash(domains))
  }

  lemma MissesClimb(c: Rules, nodes: seq<Node>, domains: set<string>, s: Node, t: Node)
    requires Sensible(c) && Within(c, Columns(c, nodes), domains) && NoClash(domains)
    requires ColonedMiss(c, Columns(c, nodes)) && Candidate(c, Columns(c, nodes), s, t)
    ensures ClimbsIn(c, s, t)
  {
    CandidateHolds(c, Columns(c, nodes), s, t);
    ColumnsHold(c, nodes);
    forall n <- [s, t] ensures
        if ':' in PathOf(c, n).domain
        then LayerAt(c, Columns(c, nodes), Key(c, n)) == NoLayer && UpToColon(Key(c, n)) !in domains
        else LayerAt(c, Columns(c, nodes), Key(c, n)) == LayerOf(c, n) && UpToColon(Key(c, n)) == PathOf(c, n).domain
    {
      if ':' in PathOf(c, n).domain {
        ColonedParts(c, n);
      } else {
        PlainLayer(c, nodes, n);
      }
    }
    assert s in [s, t] && t in [s, t];
  }

  /** Every link of a tame list stays in its domain and goes to a higher layer. */
  lemma LinksClimb(c: Rules, nodes: seq<Node>, domains: set<string>, s: Node, t: Node)
    requires Sensible(c) && Tame(c, Columns(c, nodes), domains) && Candidate(c, Columns(c, nodes), s, t)
    ensures ClimbsIn(c, s, t)
  {
    var cols := Columns(c, nodes);
    if forall n <- cols :: ':' !in PathOf(c, n).domain {
      MissesClimb(c, nodes, set n | n in cols :: PathOf(c, n).domain, s, t);
    } else {
      PlainPlatformsMiss(c, nodes);
      MissesClimb(c, nodes, domains, s, t);
    }
  }

  /** A link within one domain and one asset, up to a higher layer by the schemas' own names. */
  predicate ClimbsIn(c: Rules, s: Node, t: Node) {
    && PathOf(c, s).domain == PathOf(c, t).domain && Asset(c, s) == Asset(c, t)
    && UrnHeight(c, s.urn) < UrnHeight(c, t.urn)
  }

  ghost predicate Step(edges: seq<Edge>, u: string, v: string) {
    exists e <- edges :: e.source.urn == u && e.target.urn == v
  }

  /** A walk along edges, as the list of URNs it visits. */
  ghost predicate Walk(edges: seq<Edge>, urns: seq<string>) {
    forall i, j :: 0 <= i && j == i + 1 && j < |urns| ==> Step(edges, urns[i], urns[j])
  }

  lemma {:induction false} WalkClimbs(c: Rules, nodes: seq<Node>, domains: set<string>, g: Limits, edges: seq<Edge>,
                                      urns: seq<string>)
    requires Sensible(c) && Tame(c, Columns(c, nodes), domains)
    requires Good(c, Columns(c, nodes), g, edges) && Walk(edges, urns) && urns != []
    ensures UrnHeight(c, urns[0]) + (|urns| - 1) <= UrnHeight(c, urns[|urns| - 1])
    decreases |urns|
  {
    if |urns| > 1 {
      var rest := urns[1..];
      forall i, j | 0 <= i && j == i + 1 && j < |rest| ensures Step(edges, rest[i], rest[j]) {
        assert Step(edges, urns[i + 1], urns[j + 1]);
      }
      WalkClimbs(c, nodes, domains, g, edges, rest);
      assert Step(edges, urns[0], urns[1]);
      var e :| e in edges && e.source.urn == urns[0] && e.target.urn == urns[1];
      LinksClimb(c, nodes, domains, e.source, e.target);
    }
  }

  /** The lineage is a bounded DAG: a walk has at most 6 edges and never comes back. */
  lemma BoundedDag(c: Rules, nodes: seq<Node>, domains: set<string>, g: Limits, edges: seq<Edge>, urns: seq<string>)
    requires Sensible(c) && Tame(c, Columns(c, nodes), domains)
    requires Good(c, Columns(c, nodes), g, edges) && Walk(edges, urns) && urns != []
    ensures |urns| - 1 <= 6 && (|urns| > 1 ==> urns[0] != urns[|urns| - 1])
  {
    WalkClimbs(c, nodes, domains, g, edges, urns);
  }

  /** No pair of URNs repeats, and a source column has at most one edge into each schema; when URNs
      tell columns apart, so has a source URN. */
  lemma EdgesNeverRepeat(c: Rules, cols: seq<Node>, g: Limits, edges: seq<Edge>, i: nat, j: nat)
    requires Good(c, cols, g, edges) && i < j < |edges|
    ensures edges[i].source.urn != edges[j].source.urn || edges[i].target.urn != edges[j].target.urn
    ensures edges[i].source == edges[j].source ==> Key(c, edges[i].target) != Key(c, edges[j].target)
    ensures (forall m <- cols, n <- cols :: m.urn == n.urn ==> m == n) && edges[i].source.urn == edges[j].source.urn
            ==> Key(c, edges[i].target) != Key(c, edges[j].target)
  {
    var e, f := edges[i], edges[j];
    assert e in edges && f in edges && Sound(c, cols, e) && Sound(c, cols, f);
    assert EdgeId(e.source, e.target) != EdgeId(f.source, f.target);
  }

  /** Where URNs hold no bar, an id names one link, so an id that is known means the link is there. */
  lemma IdsTellLinksApart(s: Node, t: Node, s': Node, t': Node)
    requires '|' !in s.urn && '|' !in s'.urn && EdgeId(s, t) == EdgeId(s', t')
    ensures s.urn == s'.urn && t.urn == t'.urn
  {
    assert EdgeId(s, t)[12..] == s.urn + (['|'] + t.urn) && EdgeId(s', t')[12..] == s'.urn + (['|'] + t'.urn);
    FirstPart('|', s.urn, t.urn, s'.urn, t'.urn);
  }

  // ---- The code's own rules of names ------------------------------------------------------------

  const MARKER := "schemaField:"

  predicate MarkerAt(s: string, i: nat) {
    i + 12 <= |s| && forall k :: 0 <= k < 12 ==> s[i + k] == MARKER[k]
  }

  ghost predicate NoMarker(s: string) {
    forall i: nat :: !MarkerAt(s, i)
  }

  lemma MarkerLetters()
    ensures |MARKER| == 12 && MARKER[0] == 's'
    ensures forall k :: 0 <= k < 12 ==> MARKER[k] != '.' && (k > 0 ==> MARKER[k] != 's')
  {
  }

  /** What stands behind the last marker. */
  function AfterLast(s: string): Option<string> {
    if |s| < 12 then None
    else if AfterLast(s[1..]).Some? then AfterLast(s[1..])
    else if s[..12] == MARKER then Some(s[12..])
    else None
  }

  function Split(s: string): seq<string> {
    if s == "" then [""]
    else if s[0] == '.' then [""] + Split(s[1..])
    else
      var rest := Split(s[1..]);
      if rest == [] then [] else [[s[0]] + rest[0]] + rest[1..]
  }

  function ParseSchemaFieldUrn(urn: string): Option<Path> {
    match AfterLast(urn)
    case None => None
    case Some(path) =>
      var parts := Split(path);
      if |parts| < 5 then None else Some(Path(parts[0], parts[1], parts[2], parts[3]))
  }

  function Lower(ch: char): char {
    if 'A' <= ch <= 'Z' then (ch as int - 'A' as int + 'a' as int) as char else ch
  }

  function LowerAll(s: string): string {
    if s == "" then "" else [Lower(s[0])] + LowerAll(s[1..])
  }

  predicate Contains(s: string, p: string) {
    |p| <= |s| && (s[..|p|] == p || Contains(s[1..], p))
  }

  predicate ContainsAny(s: string, patterns: seq<string>) {
    exists p <- patterns :: Contains(s, p)
  }

  /** LAYER_ORDER, which also is the order of LAYER_PATTERNS. */
  const LAYER_ORDER := [Raw, Staging, Core, Analytics, Mart, Report]

  function Patterns(l: Layer): seq<string> {
    match l
    case Raw => ["raw", "ingest", "landing"]
    case Staging => ["staging", "stg", "temp"]
    case Core => ["core", "curated", "base"]
    case Analytics => ["analytics", "dwh", "warehouse"]
    case Mart => ["mart", "dm", "datamart"]
    case Report => ["report", "bi", "dashboard"]
    case _ => []
  }

  function FirstLayer(name: string, layers: seq<Layer>): Layer {
    if layers == [] then Unknown
    else if ContainsAny(name, Patterns(layers[0])) then layers[0]
    else FirstLayer(name, layers[1..])
  }

  function InferLayer(schema: string): Layer {
    FirstLayer(LowerAll(schema), LAYER_ORDER)
  }

  type Matcher = (Node, Node) -> bool

  function CodeRules(matches: Matcher): Rules {
    Rules(ParseSchemaFieldUrn, InferLayer, matches)
  }

  lemma {:induction false} SplitDotFree(s: string)
    ensures Split(s) != [] && forall p <- Split(s) :: '.' !in p
  {
    if s != "" {
      SplitDotFree(s[1..]);
    }
  }

  lemma CodeIsSensible(matches: Matcher)
    ensures Sensible(CodeRules(matches))
  {
    forall u | ParseSchemaFieldUrn(u).Some? ensures DotFree(ParseSchemaFieldUrn(u).value) {
      SplitDotFree(AfterLast(u).value);
    }
    forall s ensures InferLayer(s) != NoLayer {
      FirstLayerAmong(LowerAll(s), LAYER_ORDER);
    }
  }

  lemma {:induction false} SplitFirst(p: string, rest: string)
    requires '.' !in p
    ensures Split(p + ("." + rest)) == [p] + Split(rest)
  {
    var s := p + ("." + rest);
    if p == "" {
      assert s[0] == '.' && s[1..] == rest;
    } else {
      assert s[0] == p[0] && s[1..] == p[1..] + ("." + rest) && p[0] in p;
      SplitFirst(p[1..], rest);
      assert [p[0]] + p[1..] == p;
    }
  }

  lemma {:induction false} NoMarkerNothingAfter(s: string)
    requires NoMarker(s)
    ensures AfterLast(s).None?
  {
    if |s| >= 12 {
      forall i: nat ensures !MarkerAt(s[1..], i) {
        MarkerShifted(s, s[1..], 1, i);
      }
      NoMarkerNothingAfter(s[1..]);
      MarkerInFront(s);
    }
  }

  lemma MarkerInFront(s: string)
    requires |s| >= 12
    ensures s[..12] == MARKER <==> MarkerAt(s, 0)
  {
    assert forall k :: 0 <= k < 12 ==> s[..12][k] == s[0 + k];
    if MarkerAt(s, 0) {
      assert forall k :: 0 <= k < 12 ==> s[0 + k] == MARKER[k];
    }
  }

  /** A marker in the rest of a text is one of the text. */
  lemma MarkerShifted(s: string, rest: string, n: nat, i: nat)
    requires n <= |s| && rest == s[n..]
    ensures MarkerAt(rest, i) <==> MarkerAt(s, i + n)
  {
    if i + 12 <= |rest| {
      assert forall j :: i <= j < i + 12 ==> rest[j] == s[j + n];
    }
  }

  /** Two texts joined by a dot hold no marker that neither of them holds. */
  lemma NoMarkerJoined(a: string, b: string)
    requires NoMarker(a) && NoMarker(b)
    ensures NoMarker(a + ("." + b))
  {
    var s := a + ("." + b);
    MarkerLetters();
    forall i: nat ensures !MarkerAt(s, i) {
      if i > |a| {
        MarkerShifted(s, b, |a| + 1, i - |a| - 1);
      } else if i + 12 <= |a| {
        assert forall j :: i <= j < i + 12 ==> s[j] == a[j];
        assert MarkerAt(s, i) == MarkerAt(a, i);
      } else {
        var k := |a| - i;
        assert s[i + k] == '.' && MARKER[k] != '.';
      }
    }
  }

  lemma {:induction false} MarkerFound(x: string, path: string)
    requires NoMarker(path)
    ensures AfterLast(x + (MARKER + path)) == Some(path)
    decreases |x|
  {
    var s := x + (MARKER + path);
    if x == "" {
      assert s == MARKER + path;
      OnlyInFront(s, path);
      NoMarkerNothingAfter(s[1..]);
      assert s[..12] == MARKER && s[12..] == path;
    } else {
      assert s[1..] == x[1..] + (MARKER + path);
      MarkerFound(x[1..], path);
    }
  }

  /** A marker cannot begin inside another one. */
  lemma OnlyInFront(s: string, path: string)
    requires s == MARKER + path && NoMarker(path)
    ensures NoMarker(s[1..])
  {
    MarkerLetters();
    forall i: nat ensures !MarkerAt(s[1..], i) {
      MarkerShifted(s, s[1..], 1, i);
      if i + 1 >= 12 {
        assert path == s[12..];
        MarkerShifted(s, path, 12, i - 11);
      } else {
        assert s[(i + 1) + 0] == MARKER[i + 1];
      }
    }
  }

  /** A platform or domain that a URN can carry. */
  ghost predicate UrnPart(d: string) {
    '.' !in d && NoMarker(d)
  }

  function UrnFor(platform: string, domain: string, schema: string): string {
    "urn:li:" + (MARKER + (platform + ("." + (domain + ("." + (schema + ("." + ("t" + ("." + "id")))))))))
  }

  lemma UrnParses(platform: string, domain: string, schema: string)
    requires UrnPart(platform) && UrnPart(domain) && '.' !in schema && |schema| < 12
    ensures ParseSchemaFieldUrn(UrnFor(platform, domain, schema)) == Some(Path(platform, domain, schema, "t"))
  {
    var p3 := "t" + ("." + "id");
    var p2 := schema + ("." + p3);
    var p1 := domain + ("." + p2);
    var path := platform + ("." + p1);
    assert forall s: string, i: nat :: |s| < 12 ==> !MarkerAt(s, i);
    NoMarkerJoined(schema, p3);
    NoMarkerJoined(domain, p2);
    NoMarkerJoined(platform, p1);
    MarkerFound("urn:li:", path);
    SplitFirst(platform, p1);
    SplitFirst(domain, p2);
    SplitFirst(schema, p3);
    SplitFirst("t", "id");
    SplitDotFree("id");
    assert Split(path) == [platform] + ([domain] + ([schema] + (["t"] + Split("id"))));
  }

  lemma {:induction false} LacksLetter(s: string, p: string, ch: char)
    requires ch in p && ch !in s
    ensures !Contains(s, p)
    decreases s
  {
    if |p| <= |s| {
      var i :| 0 <= i < |p| && p[i] == ch;
      assert s[..|p|][i] == s[i] && s[i] in s;
      LacksLetter(s[1..], p, ch);
    }
  }

  /** The sort ranks a layer by its place in LAYER_ORDER, and all other names after those. */
  lemma RankIsPlace(l: Layer, i: nat)
    requires i < |LAYER_ORDER|
    ensures SortRank(l) == i <==> l == LAYER_ORDER[i]
    ensures l !in LAYER_ORDER ==> SortRank(l) > |LAYER_ORDER|
  {
  }

  lemma {:induction false} FirstLayerIs(name: string, layers: seq<Layer>, k: nat)
    requires k < |layers| && ContainsAny(name, Patterns(layers[k]))
    requires forall i :: 0 <= i < k ==> !ContainsAny(name, Patterns(layers[i]))
    ensures FirstLayer(name, layers) == layers[k]
    decreases k
  {
    if k > 0 {
      FirstLayerIs(name, layers[1..], k - 1);
    }
  }

  lemma {:induction false} FirstLayerAmong(name: string, layers: seq<Layer>)
    ensures FirstLayer(name, layers) in layers || FirstLayer(name, layers) == Unknown
  {
    if layers != [] {
      FirstLayerAmong(name, layers[1..]);
    }
  }

  /** Every pattern of the layer has a letter that the name lacks. */
  lemma NotOn(name: string, l: Layer, missing: string)
    requires |missing| == |Patterns(l)|
    requires forall i :: 0 <= i < |missing| ==> missing[i] in Patterns(l)[i] && missing[i] !in name
    ensures !ContainsAny(name, Patterns(l))
  {
    forall p | p in Patterns(l) ensures !Contains(name, p) {
      var i :| 0 <= i < |missing| && Patterns(l)[i] == p;
      LacksLetter(name, p, missing[i]);
    }
  }

  lemma {:induction false} LowersToItself(s: string)
    requires forall i :: 0 <= i < |s| ==> 'a' <= s[i] <= 'z'
    ensures LowerAll(s) == s
  {
    if s != "" {
      LowersToItself(s[1..]);
    }
  }

  /** A schema that is called like its layer, where no pattern of an earlier layer occurs in it. */
  lemma OnLayer(name: string, k: nat)
    requires k < |LAYER_ORDER| && Patterns(LAYER_ORDER[k])[0] == name
    requires forall i :: 0 <= i < |name| ==> 'a' <= name[i] <= 'z'
    requires forall i :: 0 <= i < k ==> !ContainsAny(name, Patterns(LAYER_ORDER[i]))
    ensures InferLayer(name) == LAYER_ORDER[k]
  {
    LowersToItself(name);
    assert name[..|name|] == name && Contains(name, name);
    assert name in Patterns(LAYER_ORDER[k]);
    FirstLayerIs(name, LAYER_ORDER, k);
  }

  lemma RawIsRaw()
    ensures InferLayer("raw") == Raw
  {
    OnLayer("raw", 0);
  }

  lemma StagingIsStaging(name: string)
    requires name == "staging"
    ensures InferLayer(name) == Staging
  {
    assert !ContainsAny(name, Patterns(Raw)) by { NotOn(name, Raw, "rel"); }
    OnLayer(name, 1);
  }

  lemma CoreIsCore(name: string)
    requires name == "core"
    ensures InferLayer(name) == Core
  {
    assert !ContainsAny(name, Patterns(Raw)) by { NotOn(name, Raw, "wil"); }
    assert !ContainsAny(name, Patterns(Staging)) by { NotOn(name, Staging, "sst"); }
    OnLayer(name, 2);
  }

  lemma AnalyticsIsAnalytics(name: string)
    requires name == "analytics"
    ensures InferLayer(name) == Analytics
  {
    assert !ContainsAny(name, Patterns(Raw)) by { NotOn(name, Raw, "wgg"); }
    assert !ContainsAny(name, Patterns(Staging)) by { NotOn(name, Staging, "gge"); }
    assert !ContainsAny(name, Patterns(Core)) by { NotOn(name, Core, "oub"); }
    OnLayer(name, 3);
  }

  lemma MartIsMart(name: string)
    requires name == "mart"
    ensures InferLayer(name) == Mart
  {
    assert !ContainsAny(name, Patterns(Raw)) by { NotOn(name, Raw, "wil"); }
    assert !ContainsAny(name, Patterns(Staging)) by { NotOn(name, Staging, "sse"); }
    assert !ContainsAny(name, Patterns(Core)) by { NotOn(name, Core, "ccb"); }
    assert !ContainsAny(name, Patterns(Analytics)) by { NotOn(name, Analytics, "ndw"); }
    OnLayer(name, 4);
  }

  lemma ReportIsReport(name: string)
    requires name == "report"
    ensures InferLayer(name) == Report
  {
    assert !ContainsAny(name, Patterns(Raw)) by { NotOn(name, Raw, "wil"); }
    assert !ContainsAny(name, Patterns(Staging)) by { NotOn(name, Staging, "ssm"); }
    assert !ContainsAny(name, Patterns(Core)) by { NotOn(name, Core, "ccb"); }
    assert !ContainsAny(name, Patterns(Analytics)) by { NotOn(name, Analytics, "ndw"); }
    assert !ContainsAny(name, Patterns(Mart)) by { NotOn(name, Mart, "mmm"); }
    OnLayer(name, 5);
  }

  /** The schemas called like the layers, in the order of LAYER_ORDER. */
  const PIPELINE := ["raw", "staging", "core", "analytics", "mart", "report"]

  /** Each of them is on its layer, and ranks by its place. */
  lemma PipelineClimbs(i: nat)
    requires i < |PIPELINE|
    ensures InferLayer(PIPELINE[i]) == LAYER_ORDER[i] && SortRank(InferLayer(PIPELINE[i])) == i
  {
    match i
    case 0 => RawIsRaw();
    case 1 => StagingIsStaging("staging");
    case 2 => CoreIsCore("core");
    case 3 => AnalyticsIsAnalytics("analytics");
    case 4 => MartIsMart("mart");
    case _ => ReportIsReport("report");
  }

  /** The same text but for the case of its ASCII letters. */
  predicate SameButCase(a: string, b: string) {
    |a| == |b|
    && forall i :: 0 <= i < |a| ==>
         a[i] == b[i]
         || ('A' <= a[i] <= 'Z' && b[i] as int - a[i] as int == 'a' as int - 'A' as int)
         || ('A' <= b[i] <= 'Z' && a[i] as int - b[i] as int == 'a' as int - 'A' as int)
  }

  lemma {:induction false} LowersAlike(a: string, b: string)
    requires SameButCase(a, b)
    ensures LowerAll(a) == LowerAll(b)
  {
    if a != "" {
      LowersAlike(a[1..], b[1..]);
    }
  }

  /** How a schema's name is spelled, in which case, does not matter to its layer. */
  lemma CaseDoesNotMatter(a: string, b: string)
    requires SameButCase(a, b)
    ensures InferLayer(a) == InferLayer(b)
  {
    LowersAlike(a, b);
  }

  predicate OccursAt(s: string, p: string, i: nat) {
    i + |p| <= |s| && s[i..i + |p|] == p
  }

  lemma {:induction false} ContainsExactly(s: string, p: string)
    ensures Contains(s, p) <==> exists i :: OccursAt(s, p, i)
    decreases s
  {
    if OccursAt(s, p, 0) {
      assert s[..|p|] == p;
    } else if |p| <= |s| && s != [] {
      ContainsExactly(s[1..], p);
      assert s[0..0 + |p|] == s[..|p|];
      forall i: nat ensures OccursAt(s[1..], p, i) <==> OccursAt(s, p, i + 1) {
        if i + 1 + |p| <= |s| {
          assert s[1..][i..i + |p|] == s[i + 1..i + 1 + |p|];
        }
      }
      if i: nat :| OccursAt(s, p, i) {
        assert OccursAt(s[1..], p, i - 1);
      }
    }
  }

  /** Whatever a schema is called, it is on the first layer of LAYER_ORDER with a pattern in the
      lower-cased name, and on none when no pattern is in it. */
  lemma InferredExactly(schema: string, k: nat)
    requires k < |LAYER_ORDER|
    ensures InferLayer(schema) == LAYER_ORDER[k]
            <==> ContainsAny(LowerAll(schema), Patterns(LAYER_ORDER[k]))
                 && forall i :: 0 <= i < k ==> !ContainsAny(LowerAll(schema), Patterns(LAYER_ORDER[i]))
    ensures InferLayer(schema) == Unknown
            <==> forall l <- LAYER_ORDER :: !ContainsAny(LowerAll(schema), Patterns(l))
  {
    var name := LowerAll(schema);
    FirstHolds(name, LAYER_ORDER);
    RanksApart();
    if ContainsAny(name, Patterns(LAYER_ORDER[k]))
       && forall i :: 0 <= i < k ==> !ContainsAny(name, Patterns(LAYER_ORDER[i])) {
      FirstLayerIs(name, LAYER_ORDER, k);
    }
  }

  lemma RanksApart()
    ensures Unknown !in LAYER_ORDER
    ensures Distinct(LAYER_ORDER)
  {
  }

  lemma {:induction false} FirstHolds(name: string, layers: seq<Layer>)
    requires Unknown !in layers
    ensures var l := FirstLayer(name, layers);
      if l == Unknown then forall l <- layers :: !ContainsAny(name, Patterns(l))
      else
        exists i :: 0 <= i < |layers| && layers[i] == l && ContainsAny(name, Patterns(l))
          && (forall j :: 0 <= j < i ==> !ContainsAny(name, Patterns(layers[j])))
    decreases layers
  {
    if layers != [] {
      FirstHolds(name, layers[1..]);
      var l := FirstLayer(name, layers);
      if ContainsAny(name, Patterns(layers[0])) {
        assert layers[0] == l;
      } else if l != Unknown {
        var i :| 0 <= i < |layers[1..]| && layers[1..][i] == l
          && (forall j :: 0 <= j < i ==> !ContainsAny(name, Patterns(layers[1..][j])));
        assert layers[i + 1] == l;
        forall j | 0 <= j < i + 1 ensures !ContainsAny(name, Patterns(layers[j])) {
          assert j > 0 ==> layers[j] == layers[1..][j - 1];
        }
      }
    }
  }

  // ---- Domains that clash -----------------------------------------------------------------------

  /** Columns of one name match, whatever else does. */
  ghost predicate NamesMatch(matches: Matcher) {
    forall s: Node, t: Node :: s.name == t.name ==> matches(s, t)
  }

  function ColumnIn(platform: string, domain: string, schema: string): Node {
    Node(UrnFor(platform, domain, schema), "schemaField", "id", "INT")
  }

  lemma TwoColumns(c: Rules, s: Node, t: Node)
    requires IsColumn(c, s) && IsColumn(c, t)
    ensures Columns(c, [s, t]) == [s, t]
  {
    var cols, none := [s, t], [s];
    assert cols[..1] == none && none[..0] == [];
    assert Columns(c, none) == [s];
  }

  lemma TwoPeers(c: Rules, s: Node, t: Node)
    requires Key(c, s) != Key(c, t) && c.matches(s, t)
    ensures FirstMatch(c, s, Peers(c, [s, t], Key(c, t), Asset(c, t))) == Some(t)
  {
    var cols, one, none := [s, t], [t], [s];
    assert cols[..1] == none && none[..0] == [] && one[..0] == [];
    assert Filter(none, ByKey(c), Key(c, t)) == [];
    assert Filter(cols, ByKey(c), Key(c, t)) == [] + [t];
    assert Filter(one, ByAsset(c), Asset(c, t)) == [] + [t];
  }

  /** Data flows down the pipeline: of two matching columns, of one asset and domain, in two of its
      schemas, the one in the earlier schema feeds the other, and never the other way round. */
  lemma PipelineLinks(matches: Matcher, platform: string, domain: string, i: nat, j: nat)
    requires NamesMatch(matches) && UrnPart(platform) && UrnPart(domain) && ':' !in domain
    requires i < j < |PIPELINE|
    ensures var c := CodeRules(matches);
      var s, t := ColumnIn(platform, domain, PIPELINE[i]), ColumnIn(platform, domain, PIPELINE[j]);
      Columns(c, [s, t]) == [s, t] && Candidate(c, [s, t], s, t) && !Candidate(c, [s, t], t, s)
  {
    var c := CodeRules(matches);
    var s, t := ColumnIn(platform, domain, PIPELINE[i]), ColumnIn(platform, domain, PIPELINE[j]);
    UrnParses(platform, domain, PIPELINE[i]);
    UrnParses(platform, domain, PIPELINE[j]);
    PipelineClimbs(i);
    PipelineClimbs(j);
    CodeIsSensible(matches);
    TwoColumns(c, s, t);
    PlainLayer(c, [s, t], s);
    PlainLayer(c, [s, t], t);
    TwoPeers(c, s, t);
  }

  lemma PrefixIsPart(d: string)
    requires UrnPart(d) && ':' in d
    ensures UrnPart(UpToColon(d)) && ':' !in UpToColon(d)
  {
    ColonedKey(d, "");
    UpToColonIsPrefix(d);
    NoMarkerInPrefix(d, |UpToColon(d)|);
  }

  lemma NoMarkerInPrefix(s: string, n: nat)
    requires NoMarker(s) && n <= |s|
    ensures NoMarker(s[..n])
  {
    forall i: nat ensures !MarkerAt(s[..n], i) {
      assert !MarkerAt(s, i);
      assert forall j :: 0 <= j < n ==> s[..n][j] == s[j];
    }
  }

  lemma {:induction false} UpToColonIsPrefix(d: string)
    ensures |UpToColon(d)| <= |d| && d[..|UpToColon(d)|] == UpToColon(d)
  {
    if d != "" && d[0] != ':' {
      UpToColonIsPrefix(d[1..]);
    }
  }

  /** Two domains that clash: the layer table has no entry under the part behind the colon, and the
      link goes from the mart of the one to the raw layer of the other. */
  lemma ClashGoesBackwards(matches: Matcher, domains: set<string>, d: string)
    requires NamesMatch(matches) && UrnPart(d) && ':' in d && d in domains && UpToColon(d) in domains
    ensures var c, s, t := CodeRules(matches), ColumnIn("m", UpToColon(d), "mart"), ColumnIn("m", d, "raw");
      && Columns(c, [s, t]) == [s, t] && Over(c, [s, t], domains)
      && Candidate(c, [s, t], s, t) && UrnHeight(c, t.urn) < UrnHeight(c, s.urn)
  {
    var c, a := CodeRules(matches), UpToColon(d);
    var s, t := ColumnIn("m", a, "mart"), ColumnIn("m", d, "raw");
    PrefixIsPart(d);
    UrnParses("m", a, "mart");
    UrnParses("m", d, "raw");
    CodeIsSensible(matches);
    assert LayerOf(c, s) == Mart by { MartIsMart("mart"); }
    assert LayerOf(c, t) == Raw by { RawIsRaw(); }
    ClashIsLinked(c, s, t);
  }

  lemma ClashIsLinked(c: Rules, s: Node, t: Node)
    requires Sensible(c) && IsColumn(c, s) && IsColumn(c, t) && c.matches(s, t) && Asset(c, s) == Asset(c, t)
    requires ':' in PathOf(c, t).domain && PathOf(c, s).domain == UpToColon(PathOf(c, t).domain)
    requires ':' !in PathOf(c, s).domain && LayerOf(c, s) == Mart && LayerOf(c, t) == Raw
    requires ':' !in PathOf(c, s).platform && ':' !in PathOf(c, t).platform
    ensures Columns(c, [s, t]) == [s, t] && Candidate(c, [s, t], s, t) && UrnHeight(c, t.urn) < UrnHeight(c, s.urn)
  {
    TwoColumns(c, s, t);
    PlainLayer(c, [s, t], s);
    PlainPlatformsMiss(c, [s, t]);
    ColonedParts(c, t);
    assert Key(c, s) != Key(c, t);
    TwoPeers(c, s, t);
  }

  ghost predicate AllClimb(c: Rules, nodes: seq<Node>) {
    forall s, t :: Candidate(c, Columns(c, nodes), s, t) ==> ClimbsIn(c, s, t)
  }

  /** Over a set of domain names and colon-free platforms every link of every node list climbs, if
      and only if no name with a colon has its part before the first one in the set. */
  lemma ClimbExactly(matches: Matcher, domains: set<string>)
    requires NamesMatch(matches) && forall d <- domains :: UrnPart(d)
    ensures (forall nodes | Over(CodeRules(matches), Columns(CodeRules(matches), nodes), domains) ::
               AllClimb(CodeRules(matches), nodes))
            <==> NoClash(domains)
  {
    var c := CodeRules(matches);
    CodeIsSensible(matches);
    if NoClash(domains) {
      forall nodes, s, t | Over(c, Columns(c, nodes), domains) && Candidate(c, Columns(c, nodes), s, t)
        ensures ClimbsIn(c, s, t)
      {
        LinksClimb(c, nodes, domains, s, t);
      }
    } else {
      var d :| d in domains && ':' in d && UpToColon(d) in domains;
      var s, t := ColumnIn("m", UpToColon(d), "mart"), ColumnIn("m", d, "raw");
      ClashGoesBackwards(matches, domains, d);
      assert !ClimbsIn(c, s, t);
      assert !AllClimb(c, [s, t]);
    }
  }

  // ---- Any platforms ----------------------------------------------------------------------------

  /** Behind its first colon the domain ends like the marker. No URN can then name the schema path
      that the layer table is asked for, because that path would hold the marker. */
  predicate Unfindable(d: string) {
    var rest := PastColon(d);
    |rest| >= 11 && rest[|rest| - 11..] == MARKER[..11]
  }

  lemma {:induction false} LastHoldsNone(s: string)
    ensures AfterLast(s).Some? ==> NoMarker(AfterLast(s).value)
    ensures AfterLast(s).None? ==> NoMarker(s)
  {
    if |s| >= 12 {
      LastHoldsNone(s[1..]);
      MarkerInFront(s);
      if AfterLast(s[1..]).None? {
        forall i: nat ensures i > 0 ==> !MarkerAt(s, i) {
          if i > 0 {
            MarkerShifted(s, s[1..], 1, i - 1);
          }
        }
        forall i: nat ensures !MarkerAt(s[12..], i) {
          MarkerShifted(s, s[12..], 12, i);
        }
      }
    }
  }

  lemma {:induction false} PartsHoldNone(s: string)
    requires NoMarker(s)
    ensures Split(s) != [] && Split(s)[0] <= s && forall p <- Split(s) :: NoMarker(p)
  {
    if s != "" {
      forall i: nat ensures !MarkerAt(s[1..], i) {
        MarkerShifted(s, s[1..], 1, i);
      }
      PartsHoldNone(s[1..]);
      var first := Split(s)[0];
      assert first == s[..|first|];
      NoMarkerInPrefix(s, |first|);
    }
  }

  lemma PathHoldsNone(u: string)
    requires ParseSchemaFieldUrn(u).Some?
    ensures NoMarker(SchemaPath(ParseSchemaFieldUrn(u).value))
  {
    var p := ParseSchemaFieldUrn(u).value;
    LastHoldsNone(u);
    PartsHoldNone(AfterLast(u).value);
    NoMarkerJoined(p.domain, p.schema);
    NoMarkerJoined(p.platform, p.domain + ("." + p.schema));
    assert SchemaPath(p) == p.platform + ("." + (p.domain + ("." + p.schema)));
  }

  lemma UnfindableAsks(d: string, rest: string)
    requires Unfindable(d)
    ensures !NoMarker(PastColon(d) + (":" + rest))
  {
    var x := PastColon(d);
    var n := |x| - 11;
    var s := x + (":" + rest);
    assert forall k :: 0 <= k < 11 ==> x[n..][k] == MARKER[..11][k];
    assert MARKER[11] == ':' && forall k :: 0 <= k < 11 ==> MARKER[k] == MARKER[..11][k];
    forall k | 0 <= k < 12 ensures s[n + k] == MARKER[k] {
      assert k < 11 ==> s[n + k] == x[n..][k];
    }
    assert MarkerAt(s, n);
  }

  lemma UnfindableMiss(matches: Matcher, nodes: seq<Node>)
    requires forall n <- Columns(CodeRules(matches), nodes) | ':' in PathOf(CodeRules(matches), n).domain ::
        Unfindable(PathOf(CodeRules(matches), n).domain)
    ensures ColonedMiss(CodeRules(matches), Columns(CodeRules(matches), nodes))
  {
    var c := CodeRules(matches);
    var cols := Columns(c, nodes);
    ColumnsHold(c, nodes);
    forall n <- cols | ':' in PathOf(c, n).domain ensures LayerAt(c, cols, Key(c, n)) == NoLayer {
      ColonedParts(c, n);
      UnfindableAsks(PathOf(c, n).domain, SchemaPath(PathOf(c, n)));
      forall m <- cols ensures SchemaPath(PathOf(c, m)) != PastColon(Key(c, n)) {
        PathHoldsNone(m.urn);
      }
      TableMisses(c, cols, PastColon(Key(c, n)));
    }
  }

  /** The platform under which the layer table finds a schema of the domain by mistake. */
  function Alias(d: string): string {
    PastColon(d) + ":m"
  }

  lemma AliasIsPart(d: string)
    requires UrnPart(d) && ':' in d && !Unfindable(d)
    ensures UrnPart(Alias(d))
  {
    var x, a := PastColon(d), Alias(d);
    ColonedKey(d, "");
    PastColonIsSuffix(d);
    MarkerLetters();
    assert MARKER[11] == ':' && forall k :: 0 <= k < 11 ==> MARKER[k] != ':';
    assert a[|x|] == ':' && a[|x| + 1] == 'm';
    forall i: nat ensures !MarkerAt(a, i) {
      if i + 12 <= |x| {
        MarkerShifted(d, x, |d| - |x|, i);
        assert forall j :: 0 <= j < |x| ==> a[j] == x[j];
        assert MarkerAt(a, i) == MarkerAt(x, i);
      } else if i + 11 == |x| {
        NotUnfindable(d, i);
      } else if i <= |x| {
        var k := |x| - i;
        assert a[i + k] == ':' && k < 11;
      }
    }
  }

  lemma NotUnfindable(d: string, i: nat)
    requires !Unfindable(d) && i + 11 == |PastColon(d)|
    ensures !MarkerAt(Alias(d), i)
  {
    var x, a := PastColon(d), Alias(d);
    assert x[i..] != MARKER[..11];
    var k :| 0 <= k < 11 && x[i..][k] != MARKER[..11][k];
    assert a[i + k] == x[i..][k] && MARKER[k] == MARKER[..11][k];
  }

  lemma {:induction false} PastColonIsSuffix(d: string)
    ensures |PastColon(d)| <= |d| && d[|d| - |PastColon(d)|..] == PastColon(d)
  {
    if d != "" && d[0] != ':' {
      PastColonIsSuffix(d[1..]);
    }
  }

  /** The schema path that is asked for is the one of the alias. */
  lemma AsksForAlias(c: Rules, n: Node)
    requires ':' in PathOf(c, n).domain && PathOf(c, n).platform == "m"
    ensures PastColon(Key(c, n)) == SchemaPath(PathOf(c, n).(platform := Alias(PathOf(c, n).domain)))
    ensures UpToColon(Key(c, n)) == UpToColon(PathOf(c, n).domain)
  {
    ColonedParts(c, n);
  }

  lemma KeysApart(c: Rules, s: Node, t: Node)
    requires Sensible(c) && IsColumn(c, s) && IsColumn(c, t) && PathOf(c, s).domain == PathOf(c, t).domain
    requires PathOf(c, s).schema != PathOf(c, t).schema
    ensures Key(c, s) != Key(c, t)
  {
    var n := |PathOf(c, s).domain| + 1;
    assert Key(c, s)[n..] == SchemaPath(PathOf(c, s)) && Key(c, t)[n..] == SchemaPath(PathOf(c, t));
    if Key(c, s) == Key(c, t) {
      SchemaPathDetermines(PathOf(c, s), PathOf(c, t));
    }
  }

  lemma ThreeColumns(c: Rules, s: Node, h: Node, t: Node)
    requires IsColumn(c, s) && IsColumn(c, h) && IsColumn(c, t)
    ensures Columns(c, [s, h, t]) == [s, h, t]
  {
    TwoColumns(c, s, h);
    var cols, front := [s, h, t], [s, h];
    assert cols[..2] == front;
  }

  lemma LastPeer(c: Rules, s: Node, h: Node, t: Node)
    requires Key(c, s) != Key(c, t) && Key(c, h) != Key(c, t) && c.matches(s, t)
    ensures FirstMatch(c, s, Peers(c, [s, h, t], Key(c, t), Asset(c, t))) == Some(t)
  {
    var cols, front, one := [s, h, t], [s, h], [t];
    assert cols[..2] == front && one[..0] == [];
    FilterHolds(front, ByKey(c), Key(c, t));
    assert Filter(cols, ByKey(c), Key(c, t)) == [] + [t];
    assert Filter(one, ByAsset(c), Asset(c, t)) == [] + [t];
  }

  /** The mart's layer is found, under its alias, and the raw layer is not. */
  lemma AliasLayers(c: Rules, s: Node, h: Node, t: Node)
    requires Sensible(c) && IsColumn(c, s) && IsColumn(c, h) && IsColumn(c, t)
    requires ':' in PathOf(c, s).domain && PathOf(c, s).domain == PathOf(c, h).domain == PathOf(c, t).domain
    requires PathOf(c, s).platform == PathOf(c, t).platform == "m"
    requires PathOf(c, h).platform == Alias(PathOf(c, s).domain)
    requires PathOf(c, s).schema == PathOf(c, h).schema != PathOf(c, t).schema
    ensures LayerAt(c, [s, h, t], Key(c, s)) == LayerOf(c, s) && LayerAt(c, [s, h, t], Key(c, t)) == NoLayer
    ensures UpToColon(Key(c, s)) == UpToColon(Key(c, t))
  {
    var cols, wanted := [s, h, t], PathOf(c, t).(platform := Alias(PathOf(c, t).domain));
    AsksForAlias(c, s);
    AsksForAlias(c, t);
    assert SchemaPath(PathOf(c, h)) == PastColon(Key(c, s));
    TableHolds(c, cols, h);
    AliasDotFree(c, h, PathOf(c, t));
    forall m <- cols ensures SchemaPath(PathOf(c, m)) != SchemaPath(wanted) {
      if SchemaPath(PathOf(c, m)) == SchemaPath(wanted) {
        SchemaPathDetermines(PathOf(c, m), wanted);
      }
    }
    TableMisses(c, cols, PastColon(Key(c, t)));
  }

  lemma AliasDotFree(c: Rules, h: Node, p: Path)
    requires Sensible(c) && IsColumn(c, h) && DotFree(p) && PathOf(c, h).platform == Alias(p.domain)
    ensures DotFree(p.(platform := Alias(p.domain))) && Alias(p.domain) != "m"
  {
    assert |Alias(p.domain)| >= 2;
  }

  /** A domain with a colon next to a platform that holds one: the link goes from the domain's mart
      back to its own raw layer. */
  lemma AliasGoesBackwards(matches: Matcher, d: string)
    requires NamesMatch(matches) && UrnPart(d) && ':' in d && !Unfindable(d)
    ensures var c := CodeRules(matches);
      var s, h, t := ColumnIn("m", d, "mart"), ColumnIn(Alias(d), d, "mart"), ColumnIn("m", d, "raw");
      && Columns(c, [s, h, t]) == [s, h, t] && Within(c, [s, h, t], {d})
      && Candidate(c, [s, h, t], s, t) && UrnHeight(c, t.urn) < UrnHeight(c, s.urn)
  {
    var c := CodeRules(matches);
    var s, h, t := ColumnIn("m", d, "mart"), ColumnIn(Alias(d), d, "mart"), ColumnIn("m", d, "raw");
    AliasIsPart(d);
    UrnParses("m", d, "mart");
    UrnParses(Alias(d), d, "mart");
    UrnParses("m", d, "raw");
    CodeIsSensible(matches);
    MartIsMart("mart");
    RawIsRaw();
    AliasIsLinked(c, s, h, t);
  }

  lemma AliasIsLinked(c: Rules, s: Node, h: Node, t: Node)
    requires Sensible(c) && IsColumn(c, s) && IsColumn(c, h) && IsColumn(c, t) && c.matches(s, t)
    requires ':' in PathOf(c, s).domain && PathOf(c, s).domain == PathOf(c, h).domain == PathOf(c, t).domain
    requires PathOf(c, s).platform == PathOf(c, t).platform == "m"
    requires PathOf(c, h).platform == Alias(PathOf(c, s).domain)
    requires PathOf(c, s).schema == PathOf(c, h).schema != PathOf(c, t).schema && Asset(c, s) == Asset(c, t)
    requires LayerOf(c, s) == Mart && LayerOf(c, t) == Raw
    ensures Columns(c, [s, h, t]) == [s, h, t] && Candidate(c, [s, h, t], s, t)
    ensures UrnHeight(c, t.urn) < UrnHeight(c, s.urn)
  {
    ThreeColumns(c, s, h, t);
    AliasLayers(c, s, h, t);
    KeysApart(c, s, t);
    KeysApart(c, h, t);
    LastPeer(c, s, h, t);
  }

  /** Over a set of domain names and any platforms every link of every node list climbs, if and only
      if no name with a colon has its part before the first one in the set, and every such name ends
      like the marker behind it. */
  lemma ClimbAnyPlatformExactly(matches: Matcher, domains: set<string>)
    requires NamesMatch(matches) && forall d <- domains :: UrnPart(d)
    ensures (forall nodes | Within(CodeRules(matches), Columns(CodeRules(matches), nodes), domains) ::
               AllClimb(CodeRules(matches), nodes))
            <==> NoClash(domains) && forall d <- domains | ':' in d :: Unfindable(d)
  {
    var c := CodeRules(matches);
    CodeIsSensible(matches);
    if NoClash(domains) && forall d <- domains | ':' in d :: Unfindable(d) {
      forall nodes, s, t | Within(c, Columns(c, nodes), domains) && Candidate(c, Columns(c, nodes), s, t)
        ensures ClimbsIn(c, s, t)
      {
        UnfindableMiss(matches, nodes);
        MissesClimb(c, nodes, domains, s, t);
      }
    } else if d :| d in domains && ':' in d && !Unfindable(d) {
      var s, h, t := ColumnIn("m", d, "mart"), ColumnIn(Alias(d), d, "mart"), ColumnIn("m", d, "raw");
      AliasGoesBackwards(matches, d);
      assert !ClimbsIn(c, s, t) && Within(c, Columns(c, [s, h, t]), domains);
      assert !AllClimb(c, [s, h, t]);
    } else {
      var d :| d in domains && ':' in d && UpToColon(d) in domains;
      var s, t := ColumnIn("m", UpToColon(d), "mart"), ColumnIn("m", d, "raw");
      ClashGoesBackwards(matches, domains, d);
      assert !ClimbsIn(c, s, t) && Within(c, Columns(c, [s, t]), domains);
      assert !AllClimb(c, [s, t]);
    }
  }
}
