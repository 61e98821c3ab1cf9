/** The Solidatus importer: entity types, then nodes and edges in three passes. */
module SolidatusImport {
  import opened Basics

  /** A transition; a missing end is "". */
  datatype Transition = Transition(source: string, target: string)

  /** An export. `order` is the order of the entities in the document. */
  datatype Document = Document(
    order: seq<string>,
    children: map<string, seq<string>>,
    layers: seq<string>,
    roots: seq<string>,
    transitions: seq<Transition>
  )

  /** The entities are the keys of a dictionary. */
  ghost predicate Valid(doc: Document) {
    && Distinct(doc.order)
    && (forall id :: id in doc.order <==> id in doc.children)
  }

  datatype EntityType = Layer | Object | Group | Attribute

  /** A URN by its parts; Render gives its text. */
  datatype Urn = Urn(system: string, entityType: EntityType, id: string)

  datatype Node = Node(urn: Urn, entityType: EntityType, id: string, isLayer: bool, placeholder: bool)
  datatype EdgeType = HAS | FLOWS_TO
  datatype Edge = Edge(source: Urn, target: Urn, edgeType: EdgeType)

  // ---- Entity types ---------------------------------------------------------------------------

  function Upper(ch: char): char {
    if 'a' <= ch <= 'z' then (ch as int - 'a' as int + 'A' as int) as char else ch
  }

  function UpperAll(s: string): string {
    if s == "" then "" else [Upper(s[0])] + UpperAll(s[1..])
  }

  function BeforeDash(id: string): string {
    if id == "" || id[0] == '-' then "" else [id[0]] + BeforeDash(id[1..])
  }

  function DetectFromPrefix(id: string): Option<EntityType> {
    var prefix := UpperAll(BeforeDash(id));
    if prefix == "LYR" then Some(Layer)
    else if prefix == "OBJ" then Some(Object)
    else if prefix == "ATR" then Some(Attribute)
    else if prefix == "GRP" then Some(Group)
    else None
  }

  function RootIds(doc: Document): seq<string> {
    if doc.layers != [] then doc.layers else doc.roots
  }

  function Kids(doc: Document, id: string): seq<string> {
    if id in doc.children then doc.children[id] else []
  }

  /** The last entity of `order` that lists the child. */
  function Parent(doc: Document, order: seq<string>, kid: string): Option<string> {
    if order == [] then None
    else
      var last := order[|order| - 1];
      if kid in Kids(doc, last) then Some(last) else Parent(doc, order[..|order| - 1], kid)
  }

  predicate IsLayer(doc: Document, id: string) {
    DetectFromPrefix(id) == Some(Layer) || (DetectFromPrefix(id).None? && id in RootIds(doc))
  }

  /** The id whose type is looked up for the parent: a parentless entity asks for "". */
  function Asked(parent: Option<string>): string {
    if parent.Some? then parent.value else ""
  }

  /** Whether the parent is a layer, as far as an entity sees that comes after `before`. */
  predicate UnderLayer(doc: Document, parent: Option<string>, before: seq<string>) {
    (parent.Some? && parent.value in RootIds(doc)) || (Asked(parent) in before && IsLayer(doc, Asked(parent)))
  }

  function TypeAfter(doc: Document, before: seq<string>, id: string): EntityType {
    var fromPrefix := DetectFromPrefix(id);
    if fromPrefix.Some? then fromPrefix.value
    else if id in RootIds(doc) then Layer
    else if UnderLayer(doc, Parent(doc, doc.order, id), before) then (if Kids(doc, id) != [] then Object else Attribute)
    else if Kids(doc, id) != [] then Group
    else Attribute
  }

  function UpTo(order: seq<string>, id: string): seq<string> {
    if order == [] || order[0] == id then [] else [order[0]] + UpTo(order[1..], id)
  }

  /** The type of an entity of the document. */
  function TypeOf(doc: Document, id: string): EntityType {
    TypeAfter(doc, UpTo(doc.order, id), id)
  }

  lemma {:induction false} UpToIndex(order: seq<string>, i: nat)
    requires i < |order| && Distinct(order)
    ensures UpTo(order, order[i]) == order[..i]
    decreases i
  {
    if i > 0 {
      UpToIndex(order[1..], i - 1);
      assert order[..i] == [order[0]] + order[1..][..i - 1];
    }
  }

  lemma {:induction false} ParentIs(doc: Document, order: seq<string>, kid: string)
    ensures var p := Parent(doc, order, kid);
      && (p.Some? ==> p.value in order && kid in Kids(doc, p.value))
      && (p.None? ==> forall id <- order :: kid !in Kids(doc, id))
  {
    if order != [] {
      ParentIs(doc, order[..|order| - 1], kid);
      assert order == order[..|order| - 1] + [order[|order| - 1]];
    }
  }

  // ---- Prefixes --------------------------------------------------------------------------------

  /** The prefix that an id of the type is written with. */
  function PrefixOf(t: EntityType): string {
    match t
    case Layer => "LYR"
    case Object => "OBJ"
    case Group => "GRP"
    case Attribute => "ATR"
  }

  /** The prefix, in upper-case letters, is written by these letters, each in either case. */
  predicate SameLetters(p: string, prefix: string) {
    |p| == |prefix|
    && forall i :: 0 <= i < |p| ==> p[i] == prefix[i] || p[i] as int == prefix[i] as int - 'A' as int + 'a' as int
  }

  lemma {:induction false} UpperIsPointwise(p: string)
    ensures |UpperAll(p)| == |p| && forall i :: 0 <= i < |p| ==> UpperAll(p)[i] == Upper(p[i])
  {
    if p != "" {
      UpperIsPointwise(p[1..]);
      assert forall i :: 0 < i < |p| ==> p[i] == p[1..][i - 1] && UpperAll(p)[i] == UpperAll(p[1..])[i - 1];
    }
  }

  lemma UpperExactly(p: string, prefix: string)
    requires forall i :: 0 <= i < |prefix| ==> 'A' <= prefix[i] <= 'Z'
    ensures UpperAll(p) == prefix <==> SameLetters(p, prefix)
  {
    UpperIsPointwise(p);
    if SameLetters(p, prefix) {
      forall i | 0 <= i < |p| ensures Upper(p[i]) == prefix[i] {
      }
    }
  }

  lemma {:induction false} BeforeFirstDash(p: string, rest: string)
    requires '-' !in p
    ensures BeforeDash(p + ("-" + rest)) == p && BeforeDash(p) == p
  {
    if p != "" {
      assert p[0] in p && (p + ("-" + rest))[1..] == p[1..] + ("-" + rest);
      BeforeFirstDash(p[1..], rest);
    }
  }

  /** An id that starts with the prefix of a type, in letters of either case, before a dash or the
      end, has that type wherever it stands in whatever document; and no other prefix means it. */
  lemma PrefixExactly(doc: Document, p: string, id: string, t: EntityType)
    requires '-' !in p && (id == p || (p + "-" <= id))
    ensures DetectFromPrefix(id) == Some(t) <==> SameLetters(p, PrefixOf(t))
    ensures SameLetters(p, PrefixOf(t)) ==> TypeOf(doc, id) == t
  {
    var rest := if id == p then "" else id[|p| + 1..];
    assert id == p || id == p + ("-" + rest);
    BeforeFirstDash(p, rest);
    UpperExactly(p, PrefixOf(t));
  }

  /** A root's child without a known prefix is an object exactly when it has children itself; the
      documentation calls every direct child of a layer an object. */
  lemma RootChildIsObjectExactly(doc: Document, id: string)
    requires DetectFromPrefix(id).None? && id !in RootIds(doc)
    requires Parent(doc, doc.order, id).Some? && Parent(doc, doc.order, id).value in RootIds(doc)
    ensures TypeOf(doc, id) == Object <==> Kids(doc, id) != []
  {
  }

  /** Its type is settled before the parent is looked at, or does not depend on it. */
  predicate Decided(doc: Document, id: string) {
    DetectFromPrefix(id).Some? || id in RootIds(doc) || Kids(doc, id) == []
  }

  predicate SeesLayer(doc: Document, id: string) {
    UnderLayer(doc, Parent(doc, doc.order, id), UpTo(doc.order, id))
  }

  predicate Lists(doc: Document, p: string, id: string) {
    p in doc.children && id in doc.children[p]
  }

  /** The lister that comes last in the document. */
  predicate LastLister(doc: Document, i: nat, id: string) {
    i < |doc.order| && Lists(doc, doc.order[i], id)
    && forall j :: i < j < |doc.order| ==> !Lists(doc, doc.order[j], id)
  }

  lemma {:induction false} ParentIsLast(doc: Document, n: nat, id: string) returns (i: nat)
    requires Valid(doc) && n <= |doc.order|
    ensures Parent(doc, doc.order[..n], id).Some? ==>
      i < n && doc.order[i] == Parent(doc, doc.order[..n], id).value && Lists(doc, doc.order[i], id)
      && forall j :: i < j < n ==> !Lists(doc, doc.order[j], id)
    ensures Parent(doc, doc.order[..n], id).None? ==> forall j :: 0 <= j < n ==> !Lists(doc, doc.order[j], id)
  {
    i := 0;
    if n > 0 {
      assert doc.order[..n][..n - 1] == doc.order[..n - 1] && doc.order[n - 1] in doc.order;
      if Lists(doc, doc.order[n - 1], id) {
        i := n - 1;
      } else {
        i := ParentIsLast(doc, n - 1, id);
      }
    }
  }

  /** An entity counts as a layer's child exactly when the last of its listers is a root, or a layer
      that stands before it; an entity that nobody lists, when an entity "" does. */
  lemma SeesLayerExactly(doc: Document, id: string)
    requires Valid(doc)
    ensures SeesLayer(doc, id) <==>
      (exists i: nat :: LastLister(doc, i, id)
         && (doc.order[i] in RootIds(doc) || (doc.order[i] in UpTo(doc.order, id) && IsLayer(doc, doc.order[i]))))
      || ((forall p :: !Lists(doc, p, id)) && "" in UpTo(doc.order, id) && IsLayer(doc, ""))
  {
    assert doc.order[..|doc.order|] == doc.order;
    var i := ParentIsLast(doc, |doc.order|, id);
    var parent := Parent(doc, doc.order, id);
    if parent.Some? {
      assert LastLister(doc, i, id) && Lists(doc, doc.order[i], id);
      forall j: nat | LastLister(doc, j, id) ensures j == i {
      }
    } else {
      forall p ensures !Lists(doc, p, id) {
        if p in doc.children {
          assert p in doc.order;
        }
      }
    }
  }

  /** Reordering the document keeps an entity's type if and only if the type does not depend on the
      parent, or the entity counts as a layer's child in both orders or in neither. */
  lemma ReorderKeepsTypeExactly(doc: Document, order: seq<string>, id: string)
    requires Valid(doc) && Valid(doc.(order := order))
    ensures TypeOf(doc, id) == TypeOf(doc.(order := order), id)
            <==> Decided(doc, id) || (SeesLayer(doc, id) <==> SeesLayer(doc.(order := order), id))
  {
    var other := doc.(order := order);
    assert Kids(other, id) == Kids(doc, id) && RootIds(other) == RootIds(doc);
    TypeBySight(doc, id);
    TypeBySight(other, id);
  }

  lemma TypeBySight(doc: Document, id: string)
    ensures !Decided(doc, id) ==> TypeOf(doc, id) == if SeesLayer(doc, id) then Object else Group
    ensures Decided(doc, id) ==> TypeOf(doc, id) == TypeAfter(doc.(order := []), [], id)
  {
    assert Kids(doc.(order := []), id) == Kids(doc, id) && RootIds(doc.(order := [])) == RootIds(doc);
  }

  /** What the document says without its order: all listers are roots, or none can make the entity
      a layer's child. */
  ghost predicate OrderFree(doc: Document, id: string) {
    || AllRoots(doc, id)
    || ((forall p :: Lists(doc, p, id) ==> NeverLayer(doc, p, id))
        && ((forall p :: !Lists(doc, p, id)) ==> !("" in doc.children && IsLayer(doc, ""))))
  }

  ghost predicate AllRoots(doc: Document, id: string) {
    (forall p :: Lists(doc, p, id) ==> p in RootIds(doc)) && (exists p :: Lists(doc, p, id))
  }

  /** A lister that is no layer; or the entity itself, or any if it lists itself: a last lister then
      stands behind it. */
  predicate NeverLayer(doc: Document, p: string, id: string) {
    p !in RootIds(doc) && (p == id || Lists(doc, id, id) || !IsLayer(doc, p))
  }

  lemma {:induction false} UpToStops(order: seq<string>, id: string)
    ensures id !in UpTo(order, id) && |UpTo(order, id)| <= |order| && UpTo(order, id) == order[..|UpTo(order, id)|]
    ensures id in order ==> |UpTo(order, id)| < |order| && order[|UpTo(order, id)|] == id
  {
    if order != [] && order[0] != id {
      UpToStops(order[1..], id);
    }
  }

  lemma SightOfLister(doc: Document, id: string, i: nat)
    requires Valid(doc) && LastLister(doc, i, id)
    ensures SeesLayer(doc, id)
            <==> doc.order[i] in RootIds(doc) || (doc.order[i] in UpTo(doc.order, id) && IsLayer(doc, doc.order[i]))
  {
    SeesLayerExactly(doc, id);
    forall j: nat | LastLister(doc, j, id) ensures j == i {
    }
  }

  lemma BlindToNeverLayer(doc: Document, id: string, i: nat)
    requires Valid(doc) && id in doc.children && LastLister(doc, i, id) && NeverLayer(doc, doc.order[i], id)
    ensures !SeesLayer(doc, id)
  {
    SightOfLister(doc, id, i);
    UpToStops(doc.order, id);
    if Lists(doc, id, id) {
      assert id in doc.order;
      var j :| 0 <= j < |doc.order| && doc.order[j] == id;
      assert doc.order[..i + 1][j] == id;
      LaterIsNotBefore(doc.order, id, i);
    }
  }

  lemma NoListerNoSight(doc: Document, id: string)
    requires Valid(doc) && (forall p :: !Lists(doc, p, id)) && !("" in doc.children && IsLayer(doc, ""))
    ensures !SeesLayer(doc, id)
  {
    SeesLayerExactly(doc, id);
    UpToStops(doc.order, id);
    assert forall i: nat :: !LastLister(doc, i, id);
  }

  lemma LastListerExists(doc: Document, id: string) returns (i: nat)
    requires Valid(doc) && exists p :: Lists(doc, p, id)
    ensures LastLister(doc, i, id)
  {
    assert doc.order[..|doc.order|] == doc.order;
    i := ParentIsLast(doc, |doc.order|, id);
    var p :| Lists(doc, p, id);
    assert p in doc.order;
  }

  lemma FreeSight(doc: Document, id: string)
    requires Valid(doc) && id in doc.children && OrderFree(doc, id)
    ensures SeesLayer(doc, id) <==> AllRoots(doc, id)
  {
    if exists p :: Lists(doc, p, id) {
      var i := LastListerExists(doc, id);
      if AllRoots(doc, id) {
        SightOfLister(doc, id, i);
      } else {
        BlindToNeverLayer(doc, id, i);
      }
    } else {
      NoListerNoSight(doc, id);
    }
  }

  /** What stands behind an entity does not stand before it. */
  lemma LaterIsNotBefore(order: seq<string>, id: string, i: nat)
    requires Distinct(order) && i < |order| && id in order[..i + 1]
    ensures order[i] !in UpTo(order, id)
  {
    UpToStops(order, id);
  }

  function Without(order: seq<string>, drop: seq<string>): (r: seq<string>)
    ensures forall x :: x in r <==> x in order && x !in drop
  {
    if order == [] then []
    else (if order[0] in drop then [] else [order[0]]) + Without(order[1..], drop)
  }

  lemma {:induction false} WithoutDiffers(order: seq<string>, drop: seq<string>)
    requires Distinct(order)
    ensures Distinct(Without(order, drop))
  {
    if order != [] {
      WithoutDiffers(order[1..], drop);
      var rest := Without(order[1..], drop);
      assert forall k :: 0 <= k < |rest| ==> rest[k] in rest && rest[k] in order[1..];
      assert order[0] !in order[1..];
    }
  }

  /** The same document with some entities moved to the end. */
  function Moved(doc: Document, last: seq<string>): Document {
    doc.(order := Without(doc.order, last) + last)
  }

  lemma MovedValid(doc: Document, last: seq<string>)
    requires Valid(doc) && Distinct(last) && forall x <- last :: x in doc.children
    ensures Valid(Moved(doc, last))
  {
    WithoutDiffers(doc.order, last);
    var kept := Without(doc.order, last);
    forall j, k | 0 <= j < k < |kept + last| ensures (kept + last)[j] != (kept + last)[k] {
      if j < |kept| && |kept| <= k {
        assert kept[j] in kept && last[k - |kept|] in last;
      }
    }
  }

  /** A root that comes last makes every child it lists a layer's. */
  lemma RootLast(doc: Document, id: string, p: string)
    requires Valid(doc) && Lists(doc, p, id) && p in RootIds(doc)
    ensures Valid(Moved(doc, [p])) && SeesLayer(Moved(doc, [p]), id)
  {
    MovedValid(doc, [p]);
    var other := Moved(doc, [p]);
    assert LastLister(other, |other.order| - 1, id);
    SightOfLister(other, id, |other.order| - 1);
  }

  lemma LayerThenEntity(doc: Document, id: string, p: string)
    requires Valid(doc) && id in doc.children && Lists(doc, p, id) && p != id && IsLayer(doc, p) && !Lists(doc, id, id)
    ensures Valid(Moved(doc, [p, id])) && SeesLayer(Moved(doc, [p, id]), id)
  {
    MovedValid(doc, [p, id]);
    var other := Moved(doc, [p, id]);
    var n := |other.order|;
    UpToIndex(other.order, n - 1);
    assert other.order[..n - 1][n - 2] == p;
    assert LastLister(other, n - 2, id);
    SightOfLister(other, id, n - 2);
  }

  lemma EntityThenLister(doc: Document, id: string, p: string)
    requires Valid(doc) && id in doc.children && Lists(doc, p, id) && p != id && p !in RootIds(doc)
    ensures Valid(Moved(doc, [id, p])) && !SeesLayer(Moved(doc, [id, p]), id)
  {
    MovedValid(doc, [id, p]);
    var other := Moved(doc, [id, p]);
    var n := |other.order|;
    UpToIndex(other.order, n - 2);
    assert p !in other.order[..n - 2];
    assert LastLister(other, n - 1, id);
    SightOfLister(other, id, n - 1);
  }

  lemma UnlistedSight(doc: Document, id: string)
    requires Valid(doc) && forall q :: !Lists(doc, q, id)
    ensures SeesLayer(doc, id) <==> "" in UpTo(doc.order, id) && IsLayer(doc, "")
  {
    SeesLayerExactly(doc, id);
    assert forall i: nat :: !LastLister(doc, i, id);
  }

  lemma MovedListers(doc: Document, last: seq<string>, id: string)
    requires forall q :: !Lists(doc, q, id)
    ensures forall q :: !Lists(Moved(doc, last), q, id)
  {
    forall q ensures !Lists(Moved(doc, last), q, id) {
      assert !Lists(doc, q, id);
    }
  }

  lemma UnlistedBothWays(doc: Document, id: string)
    requires Valid(doc) && id in doc.children && "" in doc.children && id != "" && IsLayer(doc, "")
    requires forall q :: !Lists(doc, q, id)
    ensures Valid(Moved(doc, ["", id])) && SeesLayer(Moved(doc, ["", id]), id)
    ensures Valid(Moved(doc, [id, ""])) && !SeesLayer(Moved(doc, [id, ""]), id)
  {
    var a, b := Moved(doc, ["", id]), Moved(doc, [id, ""]);
    var n := |a.order|;
    MovedValid(doc, ["", id]);
    MovedListers(doc, ["", id], id);
    UnlistedSight(a, id);
    UpToIndex(a.order, n - 1);
    assert a.order[..n - 1][n - 2] == "";
    MovedValid(doc, [id, ""]);
    MovedListers(doc, [id, ""], id);
    UnlistedSight(b, id);
    UpToIndex(b.order, |b.order| - 2);
    assert "" !in b.order[..|b.order| - 2];
  }

  lemma EntityLast(doc: Document, id: string)
    requires Valid(doc) && Lists(doc, id, id) && id !in RootIds(doc)
    ensures Valid(Moved(doc, [id])) && !SeesLayer(Moved(doc, [id]), id)
  {
    MovedValid(doc, [id]);
    var other := Moved(doc, [id]);
    var n := |other.order|;
    assert LastLister(other, n - 1, id);
    UpToStops(other.order, id);
    SightOfLister(other, id, n - 1);
  }

  lemma TwoSights(doc: Document, id: string) returns (yes: seq<string>, no: seq<string>)
    requires Valid(doc) && id in doc.children && !Decided(doc, id) && !OrderFree(doc, id)
    ensures Valid(Moved(doc, yes)) && SeesLayer(Moved(doc, yes), id)
    ensures Valid(Moved(doc, no)) && !SeesLayer(Moved(doc, no), id)
  {
    if p :| Lists(doc, p, id) && p in RootIds(doc) {
      RootLast(doc, id, p);
      yes := [p];
      var q :| Lists(doc, q, id) && q !in RootIds(doc);
      if q == id {
        EntityLast(doc, id);
        no := [id];
      } else {
        EntityThenLister(doc, id, q);
        no := [id, q];
      }
    } else if p :| Lists(doc, p, id) && !NeverLayer(doc, p, id) {
      LayerThenEntity(doc, id, p);
      EntityThenLister(doc, id, p);
      yes, no := [p, id], [id, p];
    } else {
      assert forall p :: !Lists(doc, p, id);
      UnlistedBothWays(doc, id);
      yes, no := ["", id], [id, ""];
    }
  }

  /** An entity has the same type in every order of the document if and only if the type does not
      depend on the parent, or the document without its order says whether the parent is a layer. */
  lemma OrderIndependentExactly(doc: Document, id: string)
    requires Valid(doc) && id in doc.children
    ensures (forall order | Valid(doc.(order := order)) :: TypeOf(doc.(order := order), id) == TypeOf(doc, id))
            <==> Decided(doc, id) || OrderFree(doc, id)
  {
    if Decided(doc, id) || OrderFree(doc, id) {
      forall order | Valid(doc.(order := order)) ensures TypeOf(doc.(order := order), id) == TypeOf(doc, id) {
        FreeInEveryOrder(doc, order, id);
      }
    } else {
      var yes, no := TwoSights(doc, id);
      var a, b := Moved(doc, yes), Moved(doc, no);
      ReorderKeepsTypeExactly(doc, a.order, id);
      ReorderKeepsTypeExactly(doc, b.order, id);
      assert Valid(doc.(order := a.order)) && Valid(doc.(order := b.order));
    }
  }

  lemma FreeInEveryOrder(doc: Document, order: seq<string>, id: string)
    requires Valid(doc) && Valid(doc.(order := order)) && id in doc.children && (Decided(doc, id) || OrderFree(doc, id))
    ensures TypeOf(doc.(order := order), id) == TypeOf(doc, id)
  {
    var other := doc.(order := order);
    ReorderKeepsTypeExactly(doc, order, id);
    if OrderFree(doc, id) {
      SameFreedom(doc, other, id);
      FreeSight(doc, id);
      FreeSight(other, id);
    }
  }

  lemma SameFreedom(doc: Document, other: Document, id: string)
    requires other == doc.(order := other.order)
    ensures OrderFree(other, id) == OrderFree(doc, id) && AllRoots(other, id) == AllRoots(doc, id)
  {
    assert RootIds(other) == RootIds(doc);
    assert forall p, q :: Lists(other, p, q) == Lists(doc, p, q);
    assert forall p :: IsLayer(other, p) == IsLayer(doc, p);
    assert forall p :: NeverLayer(other, p, id) == NeverLayer(doc, p, id);
  }

  /** The parent lookup: of several entities that list a child, the last one stays. */
  method FillParents(doc: Document) returns (parentOf: map<string, string>)
    ensures forall kid :: (if kid in parentOf then Some(parentOf[kid]) else None) == Parent(doc, doc.order, kid)
  {
    parentOf := map[];
    for i := 0 to |doc.order|
      invariant forall kid ::
          (if kid in parentOf then Some(parentOf[kid]) else None) == Parent(doc, doc.order[..i], kid)
    {
      var id := doc.order[i];
      assert doc.order[..i + 1][..i] == doc.order[..i];
      var kids := Kids(doc, id);
      for k := 0 to |kids|
        invariant forall kid :: (if kid in parentOf then Some(parentOf[kid]) else None)
                                == (if kid in kids[..k] then Some(id) else Parent(doc, doc.order[..i], kid))
      {
        parentOf := parentOf[kids[k] := id];
      }
      assert kids[..|kids|] == kids;
    }
    assert doc.order[..|doc.order|] == doc.order;
  }

  /** The entities before the i-th have their types. */
  ghost predicate Typed(doc: Document, result: map<string, EntityType>, i: nat)
    requires i <= |doc.order|
  {
    && (forall id :: id in result <==> id in doc.order[..i])
    && (forall id <- result :: result[id] == TypeOf(doc, id))
  }

  lemma TypedOneMore(doc: Document, result: map<string, EntityType>, i: nat)
    requires i < |doc.order| && Typed(doc, result, i)
    ensures Typed(doc, result[doc.order[i] := TypeOf(doc, doc.order[i])], i + 1)
  {
    assert doc.order[..i + 1] == doc.order[..i] + [doc.order[i]];
  }

  method InferType(doc: Document, parentOf: map<string, string>, result: map<string, EntityType>, i: nat)
    returns (t: EntityType)
    requires Valid(doc) && i < |doc.order|
    requires forall kid :: (if kid in parentOf then Some(parentOf[kid]) else None) == Parent(doc, doc.order, kid)
    requires Typed(doc, result, i)
    ensures t == TypeOf(doc, doc.order[i])
  {
    var id := doc.order[i];
    UpToIndex(doc.order, i);
    var fromPrefix := DetectFromPrefix(id);
    if fromPrefix.Some? {
      return fromPrefix.value;
    }
    if id in RootIds(doc) {
      return Layer;
    }
    var asked := if id in parentOf then parentOf[id] else "";
    TypeLayerExactly(doc, asked);
    if (id in parentOf && parentOf[id] in RootIds(doc)) || (asked in result && result[asked] == Layer) {
      return if Kids(doc, id) != [] then Object else Attribute;
    }
    return if Kids(doc, id) != [] then Group else Attribute;
  }

  method InferEntityTypes(doc: Document) returns (result: map<string, EntityType>)
    requires Valid(doc)
    ensures result.Keys == doc.children.Keys
    ensures forall id <- result :: result[id] == TypeOf(doc, id)
  {
    var parentOf := FillParents(doc);
    result := map[];
    for i := 0 to |doc.order|
      invariant Typed(doc, result, i)
    {
      var t := InferType(doc, parentOf, result, i);
      TypedOneMore(doc, result, i);
      result := result[doc.order[i] := t];
    }
    assert doc.order[..|doc.order|] == doc.order;
  }

  /** Only a prefix or a place among the roots makes a layer. */
  lemma TypeLayerExactly(doc: Document, id: string)
    ensures TypeOf(doc, id) == Layer <==> IsLayer(doc, id)
  {
  }

  // ---- The graph of a document ----------------------------------------------------------------

  function TypeName(t: EntityType): (r: string)
    ensures ':' !in r
  {
    match t
    case Layer => "layer"
    case Object => "object"
    case Group => "group"
    case Attribute => "attribute"
  }

  function Render(u: Urn): string {
    "urn:synodic:" + u.system + ":" + TypeName(u.entityType) + ":" + u.id
  }

  function ExternalType(id: string): EntityType {
    if DetectFromPrefix(id).Some? then DetectFromPrefix(id).value else Attribute
  }

  /** The type of an entity, or of a placeholder for an id that is not one. */
  function TypeIn(doc: Document, id: string): EntityType {
    if id in doc.children then TypeOf(doc, id) else ExternalType(id)
  }

  /** The URN and the node of every id. */
  datatype Naming = Naming(urnOf: string -> Urn, nodeOf: string -> Node)

  function NamingOf(doc: Document, system: string): Naming {
    Naming(
      id => Urn(system, TypeIn(doc, id), id),
      id => Node(Urn(system, TypeIn(doc, id), id), TypeIn(doc, id), id,
                 id in doc.children && id in RootIds(doc), id !in doc.children)
    )
  }

  const PREFIX_TO_TYPE := map["LYR" := "layer", "OBJ" := "object", "ATR" := "attribute", "GRP" := "group"]

  /** From the text of an id to the text of its URN: a known prefix names the type, for entities and
      placeholders alike. */
  lemma PrefixedUrn(doc: Document, system: string, p: string, id: string, prefix: string)
    requires '-' !in p && (id == p || p + "-" <= id) && prefix in PREFIX_TO_TYPE && SameLetters(p, prefix)
    ensures Render(NamingOf(doc, system).urnOf(id)) == "urn:synodic:" + system + ":" + PREFIX_TO_TYPE[prefix] + ":" + id
  {
    var t := if prefix == "LYR" then Layer
             else if prefix == "OBJ" then Object
             else if prefix == "ATR" then Attribute
             else Group;
    assert PrefixOf(t) == prefix && TypeName(t) == PREFIX_TO_TYPE[prefix];
    PrefixExactly(doc, p, id, t);
    assert TypeIn(doc, id) == t;
  }

  /** Without a known prefix a placeholder is an attribute, a root a layer, and any other entity a
      group, an object or an attribute by its children and its parent. */
  lemma UnprefixedUrn(doc: Document, system: string, id: string)
    requires DetectFromPrefix(id).None?
    ensures var text := Render(NamingOf(doc, system).urnOf(id));
      var name := if id !in doc.children then "attribute"
                  else if id in RootIds(doc) then "layer"
                  else if Kids(doc, id) == [] then "attribute"
                  else if SeesLayer(doc, id) then "object" else "group";
      text == "urn:synodic:" + system + ":" + name + ":" + id
  {
  }

  /** Only the layers of a document that names some are its roots; else its own list of roots is. */
  lemma RootsCountWithoutLayers(doc: Document, system: string, roots: seq<string>)
    ensures doc.layers != [] ==> var other := doc.(roots := roots);
      forall id :: TypeOf(other, id) == TypeOf(doc, id)
                   && NamingOf(other, system).nodeOf(id) == NamingOf(doc, system).nodeOf(id)
    ensures forall id :: DetectFromPrefix(id).None? ==>
      (TypeOf(doc, id) == Layer <==> id in if |doc.layers| > 0 then doc.layers else doc.roots)
  {
    if doc.layers != [] {
      var other := doc.(roots := roots);
      forall id ensures TypeOf(other, id) == TypeOf(doc, id) {
        assert forall x :: Kids(other, x) == Kids(doc, x) && IsLayer(other, x) == IsLayer(doc, x);
        ParentSame(doc, other, doc.order, id);
      }
    }
  }

  lemma {:induction false} ParentSame(doc: Document, other: Document, order: seq<string>, kid: string)
    requires doc.children == other.children
    ensures Parent(doc, order, kid) == Parent(other, order, kid)
  {
    if order != [] {
      ParentSame(doc, other, order[..|order| - 1], kid);
    }
  }

  predicate TwoEnded(t: Transition) {
    t.source != "" && t.target != ""
  }

  function WithExternal(doc: Document, known: seq<string>, id: string): seq<string> {
    if id in doc.children || id in known then known else known + [id]
  }

  function WithBoth(doc: Document, known: seq<string>, t: Transition): seq<string> {
    WithExternal(doc, WithExternal(doc, known, t.source), t.target)
  }

  lemma BothIn(doc: Document, ids: seq<string>, t: Transition)
    requires forall x <- doc.children :: x in ids
    ensures t.source in WithBoth(doc, ids, t) && t.target in WithBoth(doc, ids, t)
  {
  }

  lemma ExternalBehind(doc: Document, known: seq<string>, id: string)
    requires Valid(doc)
    ensures WithExternal(doc, doc.order + known, id) == doc.order + WithExternal(doc, known, id)
  {
  }

  lemma BothBehind(doc: Document, known: seq<string>, t: Transition)
    requires Valid(doc)
    ensures WithBoth(doc, doc.order + known, t) == doc.order + WithBoth(doc, known, t)
  {
    ExternalBehind(doc, known, t.source);
    ExternalBehind(doc, WithExternal(doc, known, t.source), t.target);
  }

  /** The ids that transitions refer to and that are no entities, in the order of first use. */
  function Externals(doc: Document, ts: seq<Transition>): seq<string> {
    if ts == [] then []
    else
      var known, t := Externals(doc, ts[..|ts| - 1]), ts[|ts| - 1];
      if TwoEnded(t) then WithBoth(doc, known, t) else known
  }

  function NodesFor(n: Naming, ids: seq<string>): seq<Node> {
    seq(|ids|, i requires 0 <= i < |ids| => n.nodeOf(ids[i]))
  }

  function ChildEdges(doc: Document, n: Naming, id: string, kids: seq<string>): seq<Edge> {
    if kids == [] then []
    else
      var rest, kid := ChildEdges(doc, n, id, kids[..|kids| - 1]), kids[|kids| - 1];
      if kid in doc.children then rest + [Edge(n.urnOf(id), n.urnOf(kid), HAS)] else rest
  }

  function Containment(doc: Document, n: Naming, order: seq<string>): seq<Edge> {
    if order == [] then []
    else
      var last := order[|order| - 1];
      Containment(doc, n, order[..|order| - 1]) + ChildEdges(doc, n, last, Kids(doc, last))
  }

  function Flows(n: Naming, ts: seq<Transition>): seq<Edge> {
    if ts == [] then []
    else
      var rest, t := Flows(n, ts[..|ts| - 1]), ts[|ts| - 1];
      if TwoEnded(t) then rest + [Edge(n.urnOf(t.source), n.urnOf(t.target), FLOWS_TO)] else rest
  }

  function AllIds(doc: Document): seq<string> {
    doc.order + Externals(doc, doc.transitions)
  }

  function AllNodes(doc: Document, system: string): seq<Node> {
    NodesFor(NamingOf(doc, system), AllIds(doc))
  }

  function AllEdges(doc: Document, system: string): seq<Edge> {
    Containment(doc, NamingOf(doc, system), doc.order) + Flows(NamingOf(doc, system), doc.transitions)
  }

  /** A naming that agrees with inferred types and with the prefix rule for placeholders. */
  ghost predicate Fits(n: Naming, doc: Document, system: string, types: map<string, EntityType>) {
    && types.Keys == doc.children.Keys
    && (forall id <- types :: NamesEntity(n, doc, system, id, types[id]))
    && (forall id :: id !in types ==> NamesExternal(n, system, id))
  }

  ghost predicate NamesEntity(n: Naming, doc: Document, system: string, id: string, t: EntityType) {
    n.urnOf(id) == Urn(system, t, id) && n.nodeOf(id) == Node(n.urnOf(id), t, id, id in RootIds(doc), false)
  }

  ghost predicate NamesExternal(n: Naming, system: string, id: string) {
    && n.urnOf(id) == Urn(system, ExternalType(id), id)
    && n.nodeOf(id) == Node(n.urnOf(id), ExternalType(id), id, false, true)
  }

  lemma NameFits(doc: Document, system: string, id: string)
    ensures id in doc.children ==> NamesEntity(NamingOf(doc, system), doc, system, id, TypeOf(doc, id))
    ensures id !in doc.children ==> NamesExternal(NamingOf(doc, system), system, id)
  {
  }

  lemma NamingFits(doc: Document, system: string, types: map<string, EntityType>)
    requires types.Keys == doc.children.Keys && forall id <- types :: types[id] == TypeOf(doc, id)
    ensures Fits(NamingOf(doc, system), doc, system, types)
  {
    var n := NamingOf(doc, system);
    forall id <- types ensures NamesEntity(n, doc, system, id, types[id]) {
      NameFits(doc, system, id);
    }
    forall id | id !in types ensures NamesExternal(n, system, id) {
      NameFits(doc, system, id);
    }
  }

  lemma OneMoreParent(doc: Document, n: Naming, order: seq<string>, i: nat)
    requires i < |order|
    ensures Containment(doc, n, order[..i + 1])
         == Containment(doc, n, order[..i]) + ChildEdges(doc, n, order[i], Kids(doc, order[i]))
  {
    assert order[..i + 1][..i] == order[..i];
  }

  lemma OneMoreTransition(doc: Document, n: Naming, ts: seq<Transition>, i: nat)
    requires i < |ts|
    ensures var t, known := ts[i], Externals(doc, ts[..i]);
      if TwoEnded(t) then
        && Externals(doc, ts[..i + 1]) == WithBoth(doc, known, t)
        && Flows(n, ts[..i + 1]) == Flows(n, ts[..i]) + [Edge(n.urnOf(t.source), n.urnOf(t.target), FLOWS_TO)]
      else
        Externals(doc, ts[..i + 1]) == known && Flows(n, ts[..i + 1]) == Flows(n, ts[..i])
  {
    assert ts[..i + 1][..i] == ts[..i];
  }

  // ---- The builder ----------------------------------------------------------------------------

  class SolidatusGraphBuilder {
    const system: string
    var nodes: seq<Node>
    var edges: seq<Edge>
    var urnMap: map<string, Urn>

    constructor (system: string)
      ensures this.system == system && nodes == [] && edges == [] && urnMap == map[]
    {
      this.system := system;
      nodes, edges, urnMap := [], [], map[];
    }

    /** The nodes and known URNs are those of the ids. */
    ghost predicate Holds(n: Naming, ids: seq<string>)
      reads this
    {
      nodes == NodesFor(n, ids) && Known(urnMap, n, ids)
    }

    method GetOrCreateUrn(id: string, t: EntityType) returns (urn: Urn)
      modifies this`urnMap
      ensures urnMap == if id in old(urnMap) then old(urnMap) else old(urnMap)[id := Urn(system, t, id)]
      ensures urn == urnMap[id]
    {
      if id !in urnMap {
        urnMap := urnMap[id := Urn(system, t, id)];
      }
      urn := urnMap[id];
    }

    /** Pass 1: a node for every entity. */
    method AddEntities(doc: Document, types: map<string, EntityType>, ghost n: Naming)
      requires Valid(doc) && Fits(n, doc, system, types) && nodes == [] && urnMap == map[]
      modifies this`nodes, this`urnMap
      ensures Holds(n, doc.order)
    {
      for i := 0 to |doc.order|
        invariant Holds(n, doc.order[..i])
      {
        var id := doc.order[i];
        assert doc.order[..i + 1] == doc.order[..i] + [id];
        assert id !in doc.order[..i];
        var urn := GetOrCreateUrn(id, types[id]);
        nodes := nodes + [Node(urn, types[id], id, id in RootIds(doc), false)];
      }
      assert doc.order[..|doc.order|] == doc.order;
    }

    /** Pass 2: an edge from every entity to each of its children that is an entity. */
    method AddContainment(doc: Document, ghost n: Naming)
      requires KnowsAll(urnMap, n, doc)
      modifies this`edges, this`urnMap
      ensures urnMap == old(urnMap) && edges == old(edges) + Containment(doc, n, doc.order)
    {
      for i := 0 to |doc.order|
        invariant urnMap == old(urnMap) && edges == old(edges) + Containment(doc, n, doc.order[..i])
      {
        OneMoreParent(doc, n, doc.order, i);
        AddChildren(doc, n, doc.order[i]);
      }
      assert doc.order[..|doc.order|] == doc.order;
    }

    method AddChildren(doc: Document, ghost n: Naming, id: string)
      requires id in urnMap && forall kid <- doc.children :: kid in urnMap
      requires forall x <- urnMap :: urnMap[x] == n.urnOf(x)
      modifies this`edges, this`urnMap
      ensures urnMap == old(urnMap) && edges == old(edges) + ChildEdges(doc, n, id, Kids(doc, id))
    {
      var kids := Kids(doc, id);
      var parentUrn := GetOrCreateUrn(id, Object);
      for k := 0 to |kids|
        invariant urnMap == old(urnMap) && edges == old(edges) + ChildEdges(doc, n, id, kids[..k])
      {
        assert kids[..k + 1][..k] == kids[..k];
        if kids[k] !in doc.children {
          continue;
        }
        var childUrn := GetOrCreateUrn(kids[k], Object);
        edges := edges + [Edge(parentUrn, childUrn, HAS)];
      }
      assert kids[..|kids|] == kids;
    }

    /** A placeholder for a referenced id that is neither an entity nor known. */
    method AddPlaceholder(doc: Document, ghost types: map<string, EntityType>, ghost n: Naming, ghost ids: seq<string>,
                          id: string)
      requires Fits(n, doc, system, types) && Holds(n, ids) && forall x <- doc.children :: x in ids
      modifies this`nodes, this`urnMap
      ensures Holds(n, WithExternal(doc, ids, id))
    {
      if id !in doc.children && id !in urnMap {
        var fromPrefix := DetectFromPrefix(id);
        var t := if fromPrefix.Some? then fromPrefix.value else Attribute;
        var urn := GetOrCreateUrn(id, t);
        nodes := nodes + [Node(urn, t, id, false, true)];
      }
    }

    /** Pass 3: an edge for every transition that has both ends. */
    method AddTransitions(doc: Document, ghost types: map<string, EntityType>, ghost n: Naming)
      requires Valid(doc) && Fits(n, doc, system, types) && Holds(n, doc.order)
      modifies this
      ensures nodes == NodesFor(n, AllIds(doc)) && edges == old(edges) + Flows(n, doc.transitions)
    {
      var ts := doc.transitions;
      assert doc.order + [] == doc.order;
      for i := 0 to |ts|
        invariant Holds(n, doc.order + Externals(doc, ts[..i]))
        invariant edges == old(edges) + Flows(n, ts[..i])
      {
        OneMoreTransition(doc, n, ts, i);
        if !TwoEnded(ts[i]) {
          continue;
        }
        AddTransition(doc, types, n, doc.order + Externals(doc, ts[..i]), ts[i]);
        BothBehind(doc, Externals(doc, ts[..i]), ts[i]);
      }
      assert ts[..|ts|] == ts;
    }

    method AddTransition(doc: Document, ghost types: map<string, EntityType>, ghost n: Naming, ghost ids: seq<string>,
                         t: Transition)
      requires Fits(n, doc, system, types) && Holds(n, ids) && forall x <- doc.children :: x in ids
      modifies this
      ensures Holds(n, WithBoth(doc, ids, t))
      ensures edges == old(edges) + [Edge(n.urnOf(t.source), n.urnOf(t.target), FLOWS_TO)]
    {
      AddPlaceholders(doc, types, n, ids, t);
      BothIn(doc, ids, t);
      AddFlow(n, t);
    }

    method AddPlaceholders(doc: Document, ghost types: map<string, EntityType>, ghost n: Naming, ghost ids: seq<string>,
                           t: Transition)
      requires Fits(n, doc, system, types) && Holds(n, ids) && forall x <- doc.children :: x in ids
      modifies this`nodes, this`urnMap
      ensures Holds(n, WithBoth(doc, ids, t))
    {
      AddPlaceholder(doc, types, n, ids, t.source);
      AddPlaceholder(doc, types, n, WithExternal(doc, ids, t.source), t.target);
    }

    method AddFlow(ghost n: Naming, t: Transition)
      requires t.source in urnMap && t.target in urnMap && forall x <- urnMap :: urnMap[x] == n.urnOf(x)
      modifies this`edges, this`urnMap
      ensures urnMap == old(urnMap)
      ensures edges == old(edges) + [Edge(n.urnOf(t.source), n.urnOf(t.target), FLOWS_TO)]
    {
      var sourceUrn := GetOrCreateUrn(t.source, Object);
      var targetUrn := GetOrCreateUrn(t.target, Object);
      edges := edges + [Edge(sourceUrn, targetUrn, FLOWS_TO)];
    }

    method Fill(doc: Document, types: map<string, EntityType>, ghost n: Naming)
      requires Valid(doc) && Fits(n, doc, system, types) && nodes == [] && edges == [] && urnMap == map[]
      modifies this
      ensures nodes == NodesFor(n, AllIds(doc))
      ensures edges == Containment(doc, n, doc.order) + Flows(n, doc.transitions)
    {
      AddEntities(doc, types, n);
      EntitiesKnown(urnMap, n, doc);
      AddContainment(doc, n);
      assert edges == Containment(doc, n, doc.order) && Holds(n, doc.order);
      AddTransitions(doc, types, n);
    }

    method Build(doc: Document)
      requires Valid(doc) && nodes == [] && edges == [] && urnMap == map[]
      modifies this
      ensures nodes == AllNodes(doc, system) && edges == AllEdges(doc, system)
    {
      var types := InferEntityTypes(doc);
      NamingFits(doc, system, types);
      Fill(doc, types, NamingOf(doc, system));
    }
  }

  ghost predicate KnowsAll(urnMap: map<string, Urn>, n: Naming, doc: Document) {
    && (forall id <- doc.order :: id in urnMap)
    && (forall id <- doc.children :: id in urnMap)
    && (forall id <- urnMap :: urnMap[id] == n.urnOf(id))
  }

  lemma EntitiesKnown(urnMap: map<string, Urn>, n: Naming, doc: Document)
    requires Valid(doc) && Known(urnMap, n, doc.order)
    ensures KnowsAll(urnMap, n, doc)
  {
  }

  ghost predicate Known(urnMap: map<string, Urn>, n: Naming, ids: seq<string>) {
    && (forall id :: id in urnMap <==> id in ids)
    && (forall id <- urnMap :: urnMap[id] == n.urnOf(id))
  }

  // ---- What the graph is like -----------------------------------------------------------------

  predicate Refers(t: Transition, id: string) {
    TwoEnded(t) && (id == t.source || id == t.target)
  }

  /** The ids outside the document that two-ended transitions refer to. */
  function ExternalSet(doc: Document, ts: seq<Transition>): set<string> {
    (set t | t in ts && TwoEnded(t) && t.source !in doc.children :: t.source)
    + (set t | t in ts && TwoEnded(t) && t.target !in doc.children :: t.target)
  }

  lemma {:induction false} ExternalsAre(doc: Document, ts: seq<Transition>)
    ensures Distinct(Externals(doc, ts))
    ensures forall id :: id in Externals(doc, ts) <==> id in ExternalSet(doc, ts)
  {
    if ts != [] {
      var front, t := ts[..|ts| - 1], ts[|ts| - 1];
      ExternalsAre(doc, front);
      assert ts == front + [t];
      var known := Externals(doc, front);
      if TwoEnded(t) {
        WithExternalIs(doc, known, t.source);
        WithExternalIs(doc, WithExternal(doc, known, t.source), t.target);
      }
      ExternalSetOneMore(doc, front, t);
    }
  }

  lemma WithExternalIs(doc: Document, known: seq<string>, id: string)
    requires Distinct(known)
    ensures Distinct(WithExternal(doc, known, id))
    ensures forall x :: x in WithExternal(doc, known, id) <==> x in known || (x == id && id !in doc.children)
  {
  }

  lemma ExternalSetOneMore(doc: Document, ts: seq<Transition>, t: Transition)
    ensures forall id :: id in ExternalSet(doc, ts + [t]) <==>
        id in ExternalSet(doc, ts) || (Refers(t, id) && id !in doc.children)
  {
  }

  lemma {:induction false} SizeOfDistinct(ids: seq<string>, s: set<string>)
    requires Distinct(ids) && forall id :: id in ids <==> id in s
    ensures |ids| == |s|
  {
    if ids == [] {
      assert s == {};
    } else {
      var last, front := ids[|ids| - 1], ids[..|ids| - 1];
      assert ids == front + [last];
      SizeOfDistinct(front, s - {last});
    }
  }

  lemma AllIdsDistinct(doc: Document)
    requires Valid(doc)
    ensures Distinct(AllIds(doc))
    ensures forall id :: id in AllIds(doc) <==> id in doc.children || id in ExternalSet(doc, doc.transitions)
  {
    ExternalsAre(doc, doc.transitions);
    var a, b := doc.order, Externals(doc, doc.transitions);
    forall i, j | 0 <= i < j < |a + b| ensures (a + b)[i] != (a + b)[j] {
      if i < |a| && |a| <= j {
        assert a[i] in a && b[j - |a|] in b;
      }
    }
  }

  /** One node for every entity and one for every external id that a two-ended transition names. */
  lemma NodeCount(doc: Document, system: string)
    requires Valid(doc)
    ensures |AllNodes(doc, system)| == |doc.children| + |ExternalSet(doc, doc.transitions)|
  {
    ExternalsAre(doc, doc.transitions);
    SizeOfDistinct(Externals(doc, doc.transitions), ExternalSet(doc, doc.transitions));
    SizeOfDistinct(doc.order, doc.children.Keys);
    assert |doc.children| == |doc.children.Keys|;
  }

  lemma TypeNamesDiffer(t: EntityType, u: EntityType)
    requires TypeName(t) == TypeName(u)
    ensures t == u
  {
    assert "layer"[0] == 'l' && "object"[0] == 'o' && "group"[0] == 'g' && "attribute"[0] == 'a';
    assert TypeName(t)[0] == TypeName(u)[0];
  }

  /** Within a source system the text of a URN gives back its type and id. */
  lemma RenderInjective(u: Urn, v: Urn)
    requires u.system == v.system && Render(u) == Render(v)
    ensures u == v
  {
    var head := "urn:synodic:" + u.system + ":";
    var p, q := TypeName(u.entityType) + (":" + u.id), TypeName(v.entityType) + (":" + v.id);
    assert Render(u) == head + p && Render(v) == head + q;
    assert Render(u)[|head|..] == p && Render(v)[|head|..] == q;
    FirstPart(':', TypeName(u.entityType), u.id, TypeName(v.entityType), v.id);
    TypeNamesDiffer(u.entityType, v.entityType);
  }

  lemma NodeIs(doc: Document, system: string, i: nat)
    requires i < |AllIds(doc)|
    ensures AllNodes(doc, system)[i].urn == NamingOf(doc, system).urnOf(AllIds(doc)[i])
    ensures AllNodes(doc, system)[i].urn.id == AllIds(doc)[i] && AllNodes(doc, system)[i].urn.system == system
  {
  }

  /** No two nodes have the same URN. */
  lemma UrnsDistinct(doc: Document, system: string, i: nat, j: nat)
    requires Valid(doc) && i < j < |AllNodes(doc, system)|
    ensures Render(AllNodes(doc, system)[i].urn) != Render(AllNodes(doc, system)[j].urn)
  {
    AllIdsDistinct(doc);
    NodeIs(doc, system, i);
    NodeIs(doc, system, j);
    var u, v := AllNodes(doc, system)[i].urn, AllNodes(doc, system)[j].urn;
    if Render(u) == Render(v) {
      RenderInjective(u, v);
      assert false;
    }
  }

  // ---- Edges ----------------------------------------------------------------------------------

  lemma {:induction false} ChildEdgesAre(doc: Document, n: Naming, id: string, kids: seq<string>, e: Edge)
    ensures e in ChildEdges(doc, n, id, kids)
            <==> exists kid <- kids :: kid in doc.children && e == Edge(n.urnOf(id), n.urnOf(kid), HAS)
  {
    if kids != [] {
      ChildEdgesAre(doc, n, id, kids[..|kids| - 1], e);
      assert kids == kids[..|kids| - 1] + [kids[|kids| - 1]];
    }
  }

  lemma {:induction false} ContainmentOf(doc: Document, n: Naming, order: seq<string>, e: Edge)
    ensures e in Containment(doc, n, order)
            <==> exists id <- order :: e in ChildEdges(doc, n, id, Kids(doc, id))
  {
    if order != [] {
      ContainmentOf(doc, n, order[..|order| - 1], e);
      assert order == order[..|order| - 1] + [order[|order| - 1]];
    }
  }

  /** A containment edge is exactly one from an entity to a child that is an entity. */
  lemma ContainmentIs(doc: Document, n: Naming, e: Edge)
    ensures e in Containment(doc, n, doc.order)
            <==> exists id <- doc.order, kid <- Kids(doc, id) ::
                   kid in doc.children && e == Edge(n.urnOf(id), n.urnOf(kid), HAS)
  {
    ContainmentOf(doc, n, doc.order, e);
    forall id {
      ChildEdgesAre(doc, n, id, Kids(doc, id), e);
    }
  }

  lemma {:induction false} FlowsAre(n: Naming, ts: seq<Transition>, e: Edge)
    ensures e in Flows(n, ts)
            <==> exists t <- ts :: TwoEnded(t) && e == Edge(n.urnOf(t.source), n.urnOf(t.target), FLOWS_TO)
  {
    if ts != [] {
      FlowsAre(n, ts[..|ts| - 1], e);
      assert ts == ts[..|ts| - 1] + [ts[|ts| - 1]];
    }
  }

  /** A transition without a source or without a target adds nothing; any other one adds its edge, and
      its ends that are no entities. */
  lemma TransitionAdds(doc: Document, n: Naming, ts: seq<Transition>, t: Transition)
    ensures t.source == "" || t.target == "" ==>
      Flows(n, ts + [t]) == Flows(n, ts) && Externals(doc, ts + [t]) == Externals(doc, ts)
    ensures t.source != "" && t.target != "" ==>
      && Flows(n, ts + [t]) == Flows(n, ts) + [Edge(n.urnOf(t.source), n.urnOf(t.target), FLOWS_TO)]
      && (forall id :: id in Externals(doc, ts + [t])
                       <==> id in Externals(doc, ts) || (id in {t.source, t.target} && id !in doc.children))
  {
    assert (ts + [t])[..|ts|] == ts;
  }

  predicate HasNode(doc: Document, system: string, u: Urn) {
    exists x <- AllNodes(doc, system) :: x.urn == u
  }

  lemma IdHasNode(doc: Document, system: string, id: string)
    requires Valid(doc) && (id in doc.children || exists t <- doc.transitions :: Refers(t, id))
    ensures HasNode(doc, system, NamingOf(doc, system).urnOf(id))
  {
    AllIdsDistinct(doc);
    assert id in AllIds(doc);
    var i :| 0 <= i < |AllIds(doc)| && AllIds(doc)[i] == id;
    NodeIs(doc, system, i);
    assert AllNodes(doc, system)[i] in AllNodes(doc, system);
  }

  /** Every edge joins two nodes of the graph. */
  lemma GraphIsClosed(doc: Document, system: string, e: Edge)
    requires Valid(doc) && e in AllEdges(doc, system)
    ensures HasNode(doc, system, e.source) && HasNode(doc, system, e.target)
  {
    var n := NamingOf(doc, system);
    if e in Containment(doc, n, doc.order) {
      ContainmentIs(doc, n, e);
      var id, kid :| id in doc.order && kid in Kids(doc, id) && kid in doc.children
        && e == Edge(n.urnOf(id), n.urnOf(kid), HAS);
      IdHasNode(doc, system, id);
      IdHasNode(doc, system, kid);
    } else {
      FlowsAre(n, doc.transitions, e);
      var t :| t in doc.transitions && TwoEnded(t) && e == Edge(n.urnOf(t.source), n.urnOf(t.target), FLOWS_TO);
      assert Refers(t, t.source) && Refers(t, t.target);
      IdHasNode(doc, system, t.source);
      IdHasNode(doc, system, t.target);
    }
  }

  /** The places of child references that resolve to an entity. */
  function ResolvedIn(doc: Document, kids: seq<string>): set<nat> {
    set k | 0 <= k < |kids| && kids[k] in doc.children
  }

  function Resolved(doc: Document, order: seq<string>): set<(nat, nat)> {
    set i: nat, k: nat | i < |order| && k in ResolvedIn(doc, Kids(doc, order[i])) :: (i, k)
  }

  function TwoEndedAt(ts: seq<Transition>): set<nat> {
    set k | 0 <= k < |ts| && TwoEnded(ts[k])
  }

  lemma {:induction false} ChildEdgeCount(doc: Document, n: Naming, id: string, kids: seq<string>)
    ensures |ChildEdges(doc, n, id, kids)| == |ResolvedIn(doc, kids)|
    ensures forall e <- ChildEdges(doc, n, id, kids) :: e.edgeType == HAS
  {
    if kids == [] {
      assert ResolvedIn(doc, kids) == {};
    } else {
      var front, last := kids[..|kids| - 1], |kids| - 1;
      ChildEdgeCount(doc, n, id, front);
      assert ResolvedIn(doc, kids) == ResolvedIn(doc, front) + if kids[last] in doc.children then {last} else {};
    }
  }

  function Paired(i: nat, ks: set<nat>): set<(nat, nat)> {
    set k | k in ks :: (i, k)
  }

  lemma {:induction false} PairCount(i: nat, ks: set<nat>)
    ensures |Paired(i, ks)| == |ks|
  {
    if ks == {} {
      assert Paired(i, ks) == {};
    } else {
      var k :| k in ks;
      PairCount(i, ks - {k});
      assert (i, k) !in Paired(i, ks - {k});
      assert Paired(i, ks) == Paired(i, ks - {k}) + {(i, k)};
    }
  }

  lemma ResolvedOneMore(doc: Document, order: seq<string>, last: string)
    ensures Resolved(doc, order + [last]) == Resolved(doc, order) + Paired(|order|, ResolvedIn(doc, Kids(doc, last)))
    ensures Resolved(doc, order) !! Paired(|order|, ResolvedIn(doc, Kids(doc, last)))
  {
    var all, ks := order + [last], ResolvedIn(doc, Kids(doc, last));
    forall i: nat, k: nat
      ensures (i, k) in Resolved(doc, all) <==> (i, k) in Resolved(doc, order) || (i, k) in Paired(|order|, ks)
    {
      assert i < |order| ==> all[i] == order[i];
      assert all[|order|] == last;
    }
  }

  lemma {:induction false} ContainmentCount(doc: Document, n: Naming, order: seq<string>)
    ensures |Containment(doc, n, order)| == |Resolved(doc, order)|
    ensures forall e <- Containment(doc, n, order) :: e.edgeType == HAS
  {
    if order == [] {
      assert Resolved(doc, order) == {};
    } else {
      var front, last := order[..|order| - 1], order[|order| - 1];
      assert order == front + [last];
      ContainmentCount(doc, n, front);
      ChildEdgeCount(doc, n, last, Kids(doc, last));
      PairCount(|front|, ResolvedIn(doc, Kids(doc, last)));
      ResolvedOneMore(doc, front, last);
    }
  }

  lemma {:induction false} FlowCount(n: Naming, ts: seq<Transition>)
    ensures |Flows(n, ts)| == |TwoEndedAt(ts)|
    ensures forall e <- Flows(n, ts) :: e.edgeType == FLOWS_TO
  {
    if ts == [] {
      assert TwoEndedAt(ts) == {};
    } else {
      var front, last := ts[..|ts| - 1], |ts| - 1;
      FlowCount(n, front);
      assert TwoEndedAt(ts) == TwoEndedAt(front) + if TwoEnded(ts[last]) then {last} else {};
    }
  }

  /** The HAS edges number the resolvable child references and the FLOWS_TO edges the two-ended
      transitions, and they come in that order. */
  lemma EdgeCounts(doc: Document, system: string)
    ensures var edges, h := AllEdges(doc, system), |Resolved(doc, doc.order)|;
      && |edges| == h + |TwoEndedAt(doc.transitions)|
      && (forall i :: 0 <= i < |edges| ==> (edges[i].edgeType == HAS <==> i < h))
  {
    var n := NamingOf(doc, system);
    ContainmentCount(doc, n, doc.order);
    FlowCount(n, doc.transitions);
    var a, b := Containment(doc, n, doc.order), Flows(n, doc.transitions);
    var all: seq<Edge> := a + b;
    forall i | 0 <= i < |all| ensures all[i].edgeType == HAS <==> i < |a| {
      if i < |a| {
        assert a[i] in a;
      } else {
        assert b[i - |a|] in b;
      }
    }
  }
}
