/** The hand-written encoders of campaignManagement/models/shared_list.go.
    Each `MarshalXML` is a method that drives an Encoder token by token; what
    it writes is specified by a function giving the element tree (or, for the
    four request encoders that open their operation tag twice, the token
    stream), and the wire rules are stated about those functions. */
module SharedListEncoding {
  import opened Wrappers
  import opened Xml
  import opened Decimal
  import opened Models

  // ----------------------------------------------------------------------
  // Pieces shared by the encoders

  /** The `i:type` discriminator, written only for a non-empty tag.  Its
      name is the literal "i:type" with no namespace, so no `xmlns:i`
      declaration accompanies it. */
  function TypeAttr(tag: string): (attrs: seq<Attr>)
    ensures |attrs| <= 1
    ensures attrs != [] <==> tag != ""
    ensures forall a :: a in attrs ==> a == Attr("i:type", tag)
  {
    if tag != "" then [Attr("i:type", tag)] else []
  }

  /** A field written only when `written` holds. */
  function Opt(written: bool, n: Node): seq<Node>
  {
    if written then [n] else []
  }

  /** A name occurs among the names of `pre` followed by an optional node
      exactly when it occurs in `pre` or is the name of the node written. */
  lemma NamesWithOpt(pre: seq<Node>, written: bool, n: Node, x: string)
    ensures x in NamesOf(pre + Opt(written, n)) <==> x in NamesOf(pre) || (written && x == NameOf(n))
  {
    NamesOfAppend(pre, Opt(written, n));
    assert NamesOf(Opt(written, n)) == if written then [NameOf(n)] else [];
  }

  function PairNode(p: KeyValuePairOfstringstring): Node
  {
    Element("KeyValuePairOfstringstring", [], [Leaf("key", p.key), Leaf("value", p.value)])
  }

  /** The ForwardCompatibilityMap element: one KeyValuePairOfstringstring
      child (key, then value) per pair, in the order of the input. */
  function ForwardCompatibilityMapNode(pairs: seq<KeyValuePairOfstringstring>): (n: Node)
    ensures n.Element? && n.name == "ForwardCompatibilityMap" && n.attrs == []
    ensures |n.children| == |pairs|
    ensures forall i :: 0 <= i < |pairs| ==>
      n.children[i] == Element("KeyValuePairOfstringstring", [], [Leaf("key", pairs[i].key), Leaf("value", pairs[i].value)])
  {
    Element("ForwardCompatibilityMap", [], seq(|pairs|, i requires 0 <= i < |pairs| => PairNode(pairs[i])))
  }

  function LongNode(id: Int64): Node
  {
    Leaf("a1:long", DecimalString(id))
  }

  function LongNodes(ids: seq<Int64>): (ns: seq<Node>)
    ensures |ns| == |ids|
    ensures forall i :: 0 <= i < |ids| ==> ns[i] == LongNode(ids[i])
  {
    seq(|ids|, i requires 0 <= i < |ids| => LongNode(ids[i]))
  }

  /** An id array: nothing for an empty slice; otherwise one wrapper element
      whose only attribute declares the a1 prefix for the Serialization/Arrays
      namespace, holding one `a1:long` child per id, in order, as decimal text. */
  function IdArray(name: string, ids: seq<Int64>): (ns: seq<Node>)
    ensures |ns| == if ids == [] then 0 else 1
    ensures ids != [] ==>
      && ns[0].Element? && ns[0].name == name
      && ns[0].attrs == [Attr("xmlns:a1", SerializationArraysNamespace)]
      && ns[0].children == LongNodes(ids)
  {
    if ids == [] then []
    else [Element(name, [Attr("xmlns:a1", SerializationArraysNamespace)], LongNodes(ids))]
  }

  /** Reads one `a1:long` element back as its value. */
  function ReadLong(n: Node): Option<int>
  {
    if n.Element? && n.name == "a1:long" && |n.children| == 1 && n.children[0].Text? then
      ParseDecimal(n.children[0].text)
    else None
  }

  /** Reads the ids back from the children of an id-array wrapper. */
  function ReadLongs(ns: seq<Node>): Option<seq<int>>
    decreases |ns|
  {
    if ns == [] then Some([])
    else
      match (ReadLong(ns[0]), ReadLongs(ns[1..]))
      case (Some(v), Some(rest)) => Some([v] + rest)
      case _ => None
  }

  /** Reads an id array as it appears among an element's children: absent
      means no ids. */
  function ReadIdArray(name: string, ns: seq<Node>): Option<seq<int>>
  {
    if ns == [] then Some([])
    else if |ns| == 1 && ns[0].Element? && ns[0].name == name then ReadLongs(ns[0].children)
    else None
  }

  lemma {:induction false} ReadLongsOfIds(ids: seq<Int64>)
    ensures ReadLongs(LongNodes(ids)) == Some(ids)
    decreases |ids|
  {
    if ids != [] {
      LongNodesTail(ids);
      ReadLongsOfIds(ids[1..]);
      LongNodeReads(ids[0]);
      assert [ids[0]] + ids[1..] == ids;
    }
  }

  lemma LongNodesTail(ids: seq<Int64>)
    requires ids != []
    ensures LongNodes(ids)[1..] == LongNodes(ids[1..])
    ensures LongNodes(ids)[0] == LongNode(ids[0])
  {
  }

  /** The text written for an id reads back as that id. */
  lemma LongNodeReads(id: Int64)
    ensures ReadLong(LongNode(id)) == Some(id)
  {
    DecimalRoundTrip(id);
  }

  /** The ids written into an id array read back as the same ids, in order. */
  lemma IdArrayRoundTrip(name: string, ids: seq<Int64>)
    ensures ReadIdArray(name, IdArray(name, ids)) == Some(ids)
  {
    if ids != [] {
      ReadLongsOfIds(ids);
    }
  }

  /** An id array followed by two nodes. */
  lemma IdsThenPair(name: string, ids: seq<Int64>, x: Node, y: Node)
    ensures var ns := IdArray(name, ids) + [x, y];
            && NamesOf(ns) == (if ids != [] then [name] else []) + [NameOf(x), NameOf(y)]
            && ReadIdArray(name, ns[..|ns| - 2]) == Some(ids)
            && ns[|ns| - 2] == x && ns[|ns| - 1] == y
  {
    var ids' := IdArray(name, ids);
    var ns := ids' + [x, y];
    NamesOfAppend(ids', [x, y]);
    assert NamesOf(ids') == if ids != [] then [name] else [];
    assert ns[..|ns| - 2] == ids';
    IdArrayRoundTrip(name, ids);
  }

  // ----------------------------------------------------------------------
  // SharedList.MarshalXML

  /** The fields of a SharedList that can reach the wire; AssociationCount,
      Type and both ItemCounts are not among them. */
  datatype ListField = ListForwardCompatibilityMap | ListId | ListName

  /** The wire order of SharedList's fields. */
  const SharedListFields: seq<ListField> := [ListForwardCompatibilityMap, ListId, ListName]

  /** The omission rule of SharedList: the map only when non-empty, Id
      always, Name only when non-empty. */
  predicate SharedListWrites(s: SharedList, field: ListField)
  {
    match field
    case ListForwardCompatibilityMap => |s.entity.forwardCompatibilityMap| > 0
    case ListId => true
    case ListName => s.entity.name != ""
  }

  /** The element name each SharedList field is written under. */
  function ListFieldName(field: ListField): string
  {
    match field
    case ListForwardCompatibilityMap => "ForwardCompatibilityMap"
    case ListId => "Id"
    case ListName => "Name"
  }

  /** The element a field is written as; Id as decimal text. */
  function SharedListField(s: SharedList, field: ListField): (n: Node)
    ensures n.Element? && n.name == ListFieldName(field)
  {
    match field
    case ListForwardCompatibilityMap => ForwardCompatibilityMapNode(s.entity.forwardCompatibilityMap)
    case ListId => Leaf("Id", DecimalString(s.entity.id))
    case ListName => Leaf("Name", s.entity.name)
  }

  /** The children the SharedList schema prescribes for the first k fields
      of the wire order: each of them, in order, when its omission rule lets
      it through. */
  function SharedListSchema(s: SharedList, k: nat): seq<Node>
    requires k <= |SharedListFields|
    decreases k
  {
    if k == 0 then []
    else SharedListSchema(s, k - 1) + Opt(SharedListWrites(s, SharedListFields[k - 1]), SharedListField(s, SharedListFields[k - 1]))
  }

  /** The children SharedList.MarshalXML writes, in the order its code
      writes them. */
  function SharedListChildren(s: SharedList): seq<Node>
  {
    Opt(|s.entity.forwardCompatibilityMap| > 0, ForwardCompatibilityMapNode(s.entity.forwardCompatibilityMap))
    + [Leaf("Id", DecimalString(s.entity.id))]
    + Opt(s.entity.name != "", Leaf("Name", s.entity.name))
  }

  /** The children of a SharedList are exactly what its schema prescribes:
      ForwardCompatibilityMap if non-empty, then Id, then Name if non-empty. */
  lemma SharedListFollowsSchema(s: SharedList)
    ensures SharedListChildren(s) == SharedListSchema(s, |SharedListFields|)
  {
    var o0 := Opt(|s.entity.forwardCompatibilityMap| > 0, ForwardCompatibilityMapNode(s.entity.forwardCompatibilityMap));
    assert SharedListSchema(s, 1) == [] + o0;
    assert [] + o0 == o0;
  }

  /** A SharedList has a child for a field exactly when the omission rule
      lets that field through. */
  lemma SharedListFieldWrittenIff(s: SharedList, f: ListField)
    ensures ListFieldName(f) in NamesOf(SharedListChildren(s)) <==> SharedListWrites(s, f)
  {
    var fcm := SharedListField(s, ListForwardCompatibilityMap);
    var name := SharedListField(s, ListName);
    var o0 := Opt(SharedListWrites(s, ListForwardCompatibilityMap), fcm);
    var o2 := Opt(SharedListWrites(s, ListName), name);
    assert SharedListChildren(s) == o0 + [SharedListField(s, ListId)] + o2;
    NamesOfAppend(o0 + [SharedListField(s, ListId)], o2);
    NamesOfAppend(o0, [SharedListField(s, ListId)]);
    assert NamesOf(o0) == if SharedListWrites(s, ListForwardCompatibilityMap) then ["ForwardCompatibilityMap"] else [];
    assert NamesOf(o2) == if SharedListWrites(s, ListName) then ["Name"] else [];
    assert NamesOf(SharedListChildren(s)) == NamesOf(o0) + ["Id"] + NamesOf(o2);
  }

  /** The element SharedList.MarshalXML writes under the start tag it is given. */
  function SharedListNode(s: SharedList, start: StartElement): (n: Node)
    ensures n.Element? && n.name == start.name
    // the caller's attributes come first and are kept; one `i:type`
    // attribute carrying ItemType follows exactly when ItemType is set
    ensures |n.attrs| == |start.attrs| + (if s.itemType != "" then 1 else 0)
    ensures n.attrs[..|start.attrs|] == start.attrs
    ensures s.itemType != "" ==> n.attrs[|start.attrs|] == Attr("i:type", s.itemType)
    ensures n.children == SharedListChildren(s)
  {
    var attrs := start.attrs + TypeAttr(s.itemType);
    assert attrs[..|start.attrs|] == start.attrs;
    Element(start.name, attrs, SharedListChildren(s))
  }

  /** AssociationCount, the entity's Type and both ItemCounts never reach
      the wire: changing them leaves the element unchanged. */
  lemma SharedListIgnoresUnwrittenFields(s: SharedList, start: StartElement,
                                         associationCount: int, kind: string, entityItemCount: int, itemCount: int)
    ensures var t := s.(itemCount := itemCount,
                        entity := s.entity.(associationCount := associationCount, kind := kind, itemCount := entityItemCount));
            SharedListNode(t, start) == SharedListNode(s, start)
  {
  }

  /** Under a start tag without them, a SharedList has an `i:type`
      attribute exactly when its ItemType is set, and never an `xmlns:i`
      declaration for the prefix it uses. */
  lemma SharedListDiscriminator(s: SharedList, start: StartElement)
    requires !HasAttr(start.attrs, "i:type") && !HasAttr(start.attrs, "xmlns:i")
    ensures HasAttr(SharedListNode(s, start).attrs, "i:type") <==> s.itemType != ""
    ensures !HasAttr(SharedListNode(s, start).attrs, "xmlns:i")
  {
    var attrs := SharedListNode(s, start).attrs;
    assert attrs == start.attrs + TypeAttr(s.itemType);
    if s.itemType != "" {
      assert attrs[|start.attrs|] in attrs;
    }
  }

  // ----------------------------------------------------------------------
  // SharedListItem.MarshalXML

  /** The fields of a list item that can reach the wire. */
  datatype ItemField =
    ItemForwardCompatibilityMap | ItemType | ItemId | ItemMatchType | ItemText | ItemUrl | ItemBrandId

  /** The wire order of a list item's fields. */
  const ItemFields: seq<ItemField> :=
    [ItemForwardCompatibilityMap, ItemType, ItemId, ItemMatchType, ItemText, ItemUrl, ItemBrandId]

  /** The omission rule of SharedListItem: every field only when non-zero. */
  predicate ItemWrites(item: SharedListItem, field: ItemField)
  {
    match field
    case ItemForwardCompatibilityMap => |item.forwardCompatibilityMap| > 0
    case ItemType => item.kind != ""
    case ItemId => item.id != 0
    case ItemMatchType => item.matchType != ""
    case ItemText => item.text != ""
    case ItemUrl => item.url != ""
    case ItemBrandId => item.brandId != 0
  }

  /** The element name of each field. */
  function ItemFieldName(field: ItemField): string
  {
    match field
    case ItemForwardCompatibilityMap => "ForwardCompatibilityMap"
    case ItemType => "Type"
    case ItemId => "Id"
    case ItemMatchType => "MatchType"
    case ItemText => "Text"
    case ItemUrl => "Url"
    case ItemBrandId => "BrandId"
  }

  /** The element a field is written as; the ids as decimal text. */
  function ItemFieldNode(item: SharedListItem, field: ItemField): (n: Node)
    ensures n.Element? && n.name == ItemFieldName(field)
  {
    match field
    case ItemForwardCompatibilityMap => ForwardCompatibilityMapNode(item.forwardCompatibilityMap)
    case ItemType => Leaf("Type", item.kind)
    case ItemId => Leaf("Id", DecimalString(item.id))
    case ItemMatchType => Leaf("MatchType", item.matchType)
    case ItemText => Leaf("Text", item.text)
    case ItemUrl => Leaf("Url", item.url)
    case ItemBrandId => Leaf("BrandId", DecimalString(item.brandId))
  }

  /** The children the list-item schema prescribes for the first k fields
      of the wire order: each of them, in order, when its omission rule lets
      it through. */
  function ItemSchema(item: SharedListItem, k: nat): seq<Node>
    requires k <= |ItemFields|
    decreases k
  {
    if k == 0 then []
    else ItemSchema(item, k - 1) + Opt(ItemWrites(item, ItemFields[k - 1]), ItemFieldNode(item, ItemFields[k - 1]))
  }

  /** The children SharedListItem.MarshalXML writes: the whole schema. */
  function ItemChildren(item: SharedListItem): seq<Node>
  {
    ItemSchema(item, |ItemFields|)
  }

  lemma ItemFieldNameInjective(f: ItemField, g: ItemField)
    ensures ItemFieldName(f) == ItemFieldName(g) ==> f == g
  {
  }

  /** The position of a field in the wire order. */
  function ItemFieldIndex(f: ItemField): (k: nat)
    ensures k < |ItemFields| && ItemFields[k] == f
  {
    match f
    case ItemForwardCompatibilityMap => 0
    case ItemType => 1
    case ItemId => 2
    case ItemMatchType => 3
    case ItemText => 4
    case ItemUrl => 5
    case ItemBrandId => 6
  }

  lemma {:induction false} ItemSchemaNames(item: SharedListItem, k: nat, f: ItemField)
    requires k <= |ItemFields|
    ensures ItemFieldName(f) in NamesOf(ItemSchema(item, k)) <==> ItemFieldIndex(f) < k && ItemWrites(item, f)
    decreases k
  {
    if k > 0 {
      var g := ItemFields[k - 1];
      var n := ItemFieldNode(item, g);
      NamesWithOpt(ItemSchema(item, k - 1), ItemWrites(item, g), n, ItemFieldName(f));
      ItemFieldNameInjective(f, g);
      ItemSchemaNames(item, k - 1, f);
    }
  }

  /** A list item's element has a child for a field exactly when that field
      is non-zero. */
  lemma ItemFieldWrittenIff(item: SharedListItem, f: ItemField)
    ensures ItemFieldName(f) in NamesOf(ItemChildren(item)) <==> ItemWrites(item, f)
  {
    ItemSchemaNames(item, |ItemFields|, f);
  }

  /** The discriminator SharedListItem.MarshalXML writes: ItemType if set,
      otherwise the item's Type.  It works on its own copy of the item. */
  function Discriminator(item: SharedListItem): (d: string)
    ensures item.itemType != "" ==> d == item.itemType
    ensures item.itemType == "" ==> d == item.kind
    ensures d != "" <==> item.itemType != "" || item.kind != ""
  {
    if item.itemType == "" && item.kind != "" then item.kind else item.itemType
  }

  function SharedListItemNode(item: SharedListItem, start: StartElement): (n: Node)
    ensures n.Element? && n.name == start.name
    ensures n.children == ItemChildren(item)
    // a discriminator is added exactly when ItemType or Type is set ...
    ensures |n.attrs| == |start.attrs| + (if item.itemType != "" || item.kind != "" then 1 else 0)
    ensures n.attrs[..|start.attrs|] == start.attrs
    // ... and it is ItemType when that is set, Type otherwise
    ensures item.itemType != "" ==> n.attrs[|start.attrs|] == Attr("i:type", item.itemType)
    ensures item.itemType == "" && item.kind != "" ==> n.attrs[|start.attrs|] == Attr("i:type", item.kind)
  {
    var attrs := start.attrs + TypeAttr(Discriminator(item));
    assert attrs[..|start.attrs|] == start.attrs;
    Element(start.name, attrs, ItemChildren(item))
  }

  /** SharedList.MarshalXML and SharedListItem.MarshalXML write well-nested
      tokens: the outer start tag first, its end tag last, and every tag in
      between closed in reverse order of opening. */
  lemma ListEncodersWellNested(s: SharedList, item: SharedListItem, start: StartElement)
    ensures var ts := Serialize(SharedListNode(s, start));
            && WellNested(ts) && ts[0].Start? && ts[0].element.name == start.name
            && ts[|ts| - 1] == End(start.name)
    ensures var ts := Serialize(SharedListItemNode(item, start));
            && WellNested(ts) && ts[0].Start? && ts[0].element.name == start.name
            && ts[|ts| - 1] == End(start.name)
  {
    SerializeWellNested(SharedListNode(s, start));
    SerializeWellNested(SharedListItemNode(item, start));
  }

  /** A NegativeSite item with only Url and Type set is written as just a
      Type element and a Url element, discriminated by its Type. */
  lemma NegativeSiteItemWritesTypeAndUrl(url: string)
    requires url != ""
    ensures var item := SharedListItem(SharedListItemTypeNegativeSite, [], "", 0, "", "", url, 0);
            var n := SharedListItemNode(item, StartElement("SharedListItem", []));
            && n.attrs == [Attr("i:type", "NegativeSite")]
            && n.children == [Leaf("Type", "NegativeSite"), Leaf("Url", url)]
  {
    var item := SharedListItem(SharedListItemTypeNegativeSite, [], "", 0, "", "", url, 0);
    assert ItemSchema(item, 1) == [] + [];
    assert ItemSchema(item, 2) == [] + [] + [Leaf("Type", "NegativeSite")];
    assert ItemSchema(item, 3) == ItemSchema(item, 2);
    assert ItemSchema(item, 4) == ItemSchema(item, 2);
    assert ItemSchema(item, 5) == ItemSchema(item, 2);
    assert ItemSchema(item, 6) == ItemSchema(item, 2) + [Leaf("Url", url)];
    assert ItemSchema(item, 7) == ItemSchema(item, 6);
  }

  // ----------------------------------------------------------------------
  // The five request encoders of shared_list.go

  const SharedListStart := StartElement("SharedList", [])

  /** The SharedList element followed by the scope, as three operations end. */
  function SharedListAndScope(sl: SharedList, scope: EntityScope): (ns: seq<Node>)
    ensures NamesOf(ns) == ["SharedList", "SharedEntityScope"]
    ensures ns[0] == SharedListNode(sl, SharedListStart)
    ensures ns[1] == Leaf("SharedEntityScope", scope)
  {
    [SharedListNode(sl, SharedListStart), Leaf("SharedEntityScope", scope)]
  }

  /** GetListItemsBySharedListRequest.MarshalXML: the operation tag as given,
      then an EMPTY element of the same name carrying `xmlns` (written even
      when Namespace is empty), then SharedList and SharedEntityScope. */
  function GetListItemsBySharedListRequestNode(req: GetListItemsBySharedListRequest, start: StartElement): Node
  {
    Element(start.name, start.attrs,
            [Element(start.name, [Attr("xmlns", req.namespace)], [])]
            + SharedListAndScope(req.sharedList, req.sharedEntityScope))
  }

  /** In the GetListItems request encoder the namespace never reaches the
      payload: the operation element keeps only the caller's attributes, the
      one element that declares `xmlns` has no content, and SharedList and
      SharedEntityScope are its siblings, outside its scope. */
  lemma GetListItemsRequestNamespaceOnEmptyChild(req: GetListItemsBySharedListRequest, start: StartElement)
    requires !HasAttr(start.attrs, "xmlns")
    ensures var n := GetListItemsBySharedListRequestNode(req, start);
            && !HasAttr(n.attrs, "xmlns")
            && NamesOf(n.children) == [start.name, "SharedList", "SharedEntityScope"]
            && n.children[0].attrs == [Attr("xmlns", req.namespace)]
            && n.children[0].children == []
            && !HasAttr(n.children[1].attrs, "xmlns")
            && !HasAttr(n.children[2].attrs, "xmlns")
  {
    var n := GetListItemsBySharedListRequestNode(req, start);
    var empty := Element(start.name, [Attr("xmlns", req.namespace)], []);
    var tail := SharedListAndScope(req.sharedList, req.sharedEntityScope);
    assert n.children == [empty] + tail;
    NamesOfAppend([empty], tail);
    SharedListWithoutNamespace(req.sharedList);
  }

  /** A SharedList written under its plain start tag declares no namespace. */
  lemma SharedListWithoutNamespace(s: SharedList)
    ensures !HasAttr(SharedListNode(s, SharedListStart).attrs, "xmlns")
  {
    assert SharedListNode(s, SharedListStart).attrs == [] + TypeAttr(s.itemType);
  }

  /** The token stream of the other four request encoders: the operation
      start tag as given, a SECOND start tag of the same name with `xmlns`
      appended when Namespace is set, the children, and a single end tag. */
  function ReopenedOperationTokens(start: StartElement, namespace: string, children: seq<Node>): seq<Token>
  {
    [Start(start)]
    + (if namespace != "" then [Start(StartElement(start.name, start.attrs + [Attr("xmlns", namespace)]))] else [])
    + SerializeAll(children)
    + [End(start.name)]
  }

  /** Without a namespace the reopened form is an ordinary element; with
      one, the single end tag closes the second start tag and the operation
      element itself is left open, so the stream is not well-nested. */
  lemma ReopenedOperationLeavesOneOpen(start: StartElement, namespace: string, children: seq<Node>)
    ensures namespace == "" ==>
      ReopenedOperationTokens(start, namespace, children) == Serialize(Element(start.name, start.attrs, children))
    ensures namespace != "" ==> Scan(ReopenedOperationTokens(start, namespace, children), []) == Some([start.name])
    ensures namespace != "" ==> !WellNested(ReopenedOperationTokens(start, namespace, children))
  {
    if namespace != "" {
      var first := [Start(start)];
      var second := [Start(StartElement(start.name, start.attrs + [Attr("xmlns", namespace)]))];
      var ts := first + second + SerializeAll(children) + [End(start.name)];
      assert Scan(first, []) == Some([start.name]) by {
        assert first[1..] == [];
        assert [] + [start.name] == [start.name];
      }
      assert Scan(second, [start.name]) == Some([start.name, start.name]) by {
        assert second[1..] == [];
        assert [start.name] + [start.name] == [start.name, start.name];
      }
      ScanAppend(first, second, []);
      ScanSerializeAll(children, [start.name, start.name]);
      ScanAppend(first + second, SerializeAll(children), []);
      assert Scan([End(start.name)], [start.name, start.name]) == Some([start.name]) by {
        assert [End(start.name)][1..] == [];
        assert [start.name, start.name][..1] == [start.name];
      }
      ScanAppend(first + second + SerializeAll(children), [End(start.name)], []);
    }
  }

  function GetSharedEntitiesChildren(req: GetSharedEntitiesRequest): (ns: seq<Node>)
    ensures NamesOf(ns) == ["SharedEntityType", "SharedEntityScope"]
    ensures ns[0].children == [Text(req.sharedEntityType)] && ns[1].children == [Text(req.sharedEntityScope)]
  {
    [Leaf("SharedEntityType", req.sharedEntityType), Leaf("SharedEntityScope", req.sharedEntityScope)]
  }

  function AssociationsChildren(req: GetSharedEntityAssociationsBySharedEntityIdsRequest): (ns: seq<Node>)
    ensures NamesOf(ns) ==
      ["EntityType"] + (if req.sharedEntityIds != [] then ["SharedEntityIds"] else []) + ["SharedEntityType", "SharedEntityScope"]
    ensures ns[0] == Leaf("EntityType", req.entityType)
    ensures ns[|ns| - 2] == Leaf("SharedEntityType", req.sharedEntityType)
    ensures ns[|ns| - 1] == Leaf("SharedEntityScope", req.sharedEntityScope)
    ensures ReadIdArray("SharedEntityIds", ns[1..|ns| - 2]) == Some(req.sharedEntityIds)
  {
    var ns := [Leaf("EntityType", req.entityType)]
      + IdArray("SharedEntityIds", req.sharedEntityIds)
      + [Leaf("SharedEntityType", req.sharedEntityType), Leaf("SharedEntityScope", req.sharedEntityScope)];
    assert ns[1..|ns| - 2] == IdArray("SharedEntityIds", req.sharedEntityIds);
    IdArrayRoundTrip("SharedEntityIds", req.sharedEntityIds);
    ns
  }

  /** The ListItems wrapper, written only for a non-empty item list. */
  function ListItemsWrapper(items: seq<Node>): (ns: seq<Node>)
    ensures |ns| == if items == [] then 0 else 1
    ensures items != [] ==> ns[0] == Element("ListItems", [], items)
  {
    if items == [] then [] else [Element("ListItems", [], items)]
  }

  /** The item encoding AddListItemsToSharedListRequest.MarshalXML writes in
      its own loop: the same children as SharedListItem.MarshalXML, but the
      discriminator is ItemType alone, never back-filled from Type. */
  function InlineItemNode(item: SharedListItem): (n: Node)
    ensures n.Element? && n.name == "SharedListItem" && n.children == ItemChildren(item)
    ensures n.attrs == TypeAttr(item.itemType)
  {
    Element("SharedListItem", TypeAttr(item.itemType), ItemChildren(item))
  }

  /** The inline encoding agrees with SharedListItem.MarshalXML exactly when
      back-filling would change nothing: ItemType is set or Type is empty. */
  lemma InlineItemAgreesIffNoBackFill(item: SharedListItem)
    ensures InlineItemNode(item) == SharedListItemNode(item, StartElement("SharedListItem", []))
        <==> (item.itemType != "" || item.kind == "")
  {
    if item.itemType == "" && item.kind != "" {
      assert |InlineItemNode(item).attrs| == 0;
      assert |SharedListItemNode(item, StartElement("SharedListItem", [])).attrs| == 1;
    }
  }

  function InlineItemNodes(items: seq<SharedListItem>): (ns: seq<Node>)
    ensures |ns| == |items|
    ensures forall i :: 0 <= i < |items| ==> ns[i] == InlineItemNode(items[i])
  {
    seq(|items|, i requires 0 <= i < |items| => InlineItemNode(items[i]))
  }

  function AddInlineChildren(req: AddListItemsToSharedListRequest): (ns: seq<Node>)
    ensures NamesOf(ns) ==
      (if req.listItems != [] then ["ListItems"] else []) + ["SharedList", "SharedEntityScope"]
  {
    var w := ListItemsWrapper(InlineItemNodes(req.listItems));
    var sl := SharedListNode(req.sharedList, SharedListStart);
    var scope := Leaf("SharedEntityScope", req.sharedEntityScope);
    NamesThenPair(w, sl, scope);
    assert NamesOf(w) == if req.listItems != [] then ["ListItems"] else [];
    w + [sl, scope]
  }

  /** The names of some nodes followed by two more. */
  lemma NamesThenPair(pre: seq<Node>, x: Node, y: Node)
    ensures NamesOf(pre + [x, y]) == NamesOf(pre) + [NameOf(x), NameOf(y)]
  {
    NamesOfAppend(pre, [x, y]);
  }

  function DeleteChildren(req: DeleteListItemsFromSharedListRequest): (ns: seq<Node>)
    ensures NamesOf(ns) ==
      (if req.listItemIds != [] then ["ListItemIds"] else []) + ["SharedList", "SharedEntityScope"]
    ensures ReadIdArray("ListItemIds", ns[..|ns| - 2]) == Some(req.listItemIds)
    ensures ns[|ns| - 2] == SharedListNode(req.sharedList, SharedListStart)
    ensures ns[|ns| - 1] == Leaf("SharedEntityScope", req.sharedEntityScope)
  {
    var sl := SharedListNode(req.sharedList, SharedListStart);
    var scope := Leaf("SharedEntityScope", req.sharedEntityScope);
    IdsThenPair("ListItemIds", req.listItemIds, sl, scope);
    IdArray("ListItemIds", req.listItemIds) + [sl, scope]
  }

  function GetSharedEntitiesRequestTokens(req: GetSharedEntitiesRequest, start: StartElement): seq<Token>
  {
    ReopenedOperationTokens(start, req.namespace, GetSharedEntitiesChildren(req))
  }

  function AssociationsRequestTokens(req: GetSharedEntityAssociationsBySharedEntityIdsRequest, start: StartElement): seq<Token>
  {
    ReopenedOperationTokens(start, req.namespace, AssociationsChildren(req))
  }

  function AddListItemsRequestTokens(req: AddListItemsToSharedListRequest, start: StartElement): seq<Token>
  {
    ReopenedOperationTokens(start, req.namespace, AddInlineChildren(req))
  }

  function DeleteListItemsRequestTokens(req: DeleteListItemsFromSharedListRequest, start: StartElement): seq<Token>
  {
    ReopenedOperationTokens(start, req.namespace, DeleteChildren(req))
  }

  lemma GetSharedEntitiesRequestLeavesOperationOpen(req: GetSharedEntitiesRequest, start: StartElement)
    requires req.namespace != ""
    ensures Scan(GetSharedEntitiesRequestTokens(req, start), []) == Some([start.name])
  {
    ReopenedOperationLeavesOneOpen(start, req.namespace, GetSharedEntitiesChildren(req));
  }

  lemma AssociationsRequestLeavesOperationOpen(req: GetSharedEntityAssociationsBySharedEntityIdsRequest, start: StartElement)
    requires req.namespace != ""
    ensures Scan(AssociationsRequestTokens(req, start), []) == Some([start.name])
  {
    ReopenedOperationLeavesOneOpen(start, req.namespace, AssociationsChildren(req));
  }

  lemma AddListItemsRequestLeavesOperationOpen(req: AddListItemsToSharedListRequest, start: StartElement)
    requires req.namespace != ""
    ensures Scan(AddListItemsRequestTokens(req, start), []) == Some([start.name])
  {
    ReopenedOperationLeavesOneOpen(start, req.namespace, AddInlineChildren(req));
  }

  lemma DeleteListItemsRequestLeavesOperationOpen(req: DeleteListItemsFromSharedListRequest, start: StartElement)
    requires req.namespace != ""
    ensures Scan(DeleteListItemsRequestTokens(req, start), []) == Some([start.name])
  {
    ReopenedOperationLeavesOneOpen(start, req.namespace, DeleteChildren(req));
  }

  // ----------------------------------------------------------------------
  // The encoders, token by token

  lemma SerializeAllOpt(cs: seq<Node>, written: bool, n: Node)
    ensures SerializeAll(cs + Opt(written, n)) == SerializeAll(cs) + (if written then Serialize(n) else [])
  {
    if written {
      SerializeAllSnoc(cs, n);
    } else {
      assert cs + [] == cs;
    }
  }

  lemma PairTokens(p: KeyValuePairOfstringstring)
    ensures Serialize(PairNode(p)) ==
      [Start(StartElement("KeyValuePairOfstringstring", []))]
      + Serialize(Leaf("key", p.key)) + Serialize(Leaf("value", p.value))
      + [End("KeyValuePairOfstringstring")]
  {
    SerializeAllPair(Leaf("key", p.key), Leaf("value", p.value));
  }

  /** The ForwardCompatibilityMap loop of the encoders: the wrapper, then
      per pair a KeyValuePairOfstringstring holding key and value. */
  method EncodeForwardCompatibilityMap(e: Encoder, pairs: seq<KeyValuePairOfstringstring>)
    modifies e
    ensures e.tokens == old(e.tokens) + Serialize(ForwardCompatibilityMapNode(pairs))
  {
    ghost var t0 := e.tokens;
    ghost var n := ForwardCompatibilityMapNode(pairs);
    var wrapper := StartElement("ForwardCompatibilityMap", []);
    e.EncodeToken(Start(wrapper));
    ghost var t1 := e.tokens;
    for i := 0 to |pairs|
      invariant e.tokens == t1 + SerializeAll(n.children[..i])
    {
      ghost var prev := e.tokens;
      var pairStart := StartElement("KeyValuePairOfstringstring", []);
      e.EncodeToken(Start(pairStart));
      EncodeTextElement(e, "key", pairs[i].key);
      EncodeTextElement(e, "value", pairs[i].value);
      e.EncodeToken(End(pairStart.name));
      PairTokens(pairs[i]);
      SerializeAllPrefixStep(n.children, i, t1, prev, e.tokens);
    }
    assert n.children[..|pairs|] == n.children;
    ghost var t2 := e.tokens;
    e.EncodeToken(End(wrapper.name));
    ElementAssemble(n, t0, t1, t2, e.tokens);
  }

  method EncodeIdArray(e: Encoder, name: string, ids: seq<Int64>)
    modifies e
    ensures e.tokens == old(e.tokens) + SerializeAll(IdArray(name, ids))
  {
    if |ids| > 0 {
      ghost var t0 := e.tokens;
      ghost var n := IdArray(name, ids)[0];
      var idsStart := StartElement(name, [Attr("xmlns:a1", SerializationArraysNamespace)]);
      e.EncodeToken(Start(idsStart));
      ghost var t1 := e.tokens;
      for i := 0 to |ids|
        invariant e.tokens == t1 + SerializeAll(n.children[..i])
      {
        ghost var prev := e.tokens;
        EncodeTextElement(e, "a1:long", DecimalString(ids[i]));
        SerializeAllPrefixStep(n.children, i, t1, prev, e.tokens);
      }
      assert n.children[..|ids|] == n.children;
      ghost var t2 := e.tokens;
      e.EncodeToken(End(idsStart.name));
      ElementAssemble(n, t0, t1, t2, e.tokens);
      SerializeAllSingle(n);
    } else {
      assert e.tokens + [] == e.tokens;
    }
  }

  /** SharedList.MarshalXML (value receiver: `start` is the method's own copy). */
  method MarshalSharedList(e: Encoder, s: SharedList, start: StartElement)
    modifies e
    ensures e.tokens == old(e.tokens) + Serialize(SharedListNode(s, start))
  {
    ghost var t0 := e.tokens;
    var st := start;
    if s.itemType != "" {
      st := StartElement(st.name, st.attrs + [Attr("i:type", s.itemType)]);
    }
    assert st == StartElement(start.name, start.attrs + TypeAttr(s.itemType));
    e.EncodeToken(Start(st));
    ghost var t1 := e.tokens;
    EncodeSharedListFields(e, s);
    ghost var t2 := e.tokens;
    e.EncodeToken(End(st.name));
    ElementAssemble(SharedListNode(s, start), t0, t1, t2, e.tokens);
  }

  /** The three optional-or-not writes of the SharedList encoder. */
  lemma SharedListFieldsAssemble(s: SharedList, t0: seq<Token>, t1: seq<Token>, t2: seq<Token>, t3: seq<Token>)
    requires |s.entity.forwardCompatibilityMap| > 0 ==> t1 == t0 + Serialize(ForwardCompatibilityMapNode(s.entity.forwardCompatibilityMap))
    requires |s.entity.forwardCompatibilityMap| == 0 ==> t1 == t0
    requires t2 == t1 + Serialize(Leaf("Id", DecimalString(s.entity.id)))
    requires s.entity.name != "" ==> t3 == t2 + Serialize(Leaf("Name", s.entity.name))
    requires s.entity.name == "" ==> t3 == t2
    ensures t3 == t0 + SerializeAll(SharedListChildren(s))
  {
    OptMiddleOptAssemble(|s.entity.forwardCompatibilityMap| > 0, ForwardCompatibilityMapNode(s.entity.forwardCompatibilityMap),
                         Leaf("Id", DecimalString(s.entity.id)),
                         s.entity.name != "", Leaf("Name", s.entity.name), t0, t1, t2, t3);
  }

  /** Tokens written as an optional node, a node and an optional node, in
      that order, are those of the three as one sequence of children. */
  lemma OptMiddleOptAssemble(wa: bool, a: Node, b: Node, wc: bool, c: Node,
                             t0: seq<Token>, t1: seq<Token>, t2: seq<Token>, t3: seq<Token>)
    requires wa ==> t1 == t0 + Serialize(a)
    requires !wa ==> t1 == t0
    requires t2 == t1 + Serialize(b)
    requires wc ==> t3 == t2 + Serialize(c)
    requires !wc ==> t3 == t2
    ensures t3 == t0 + SerializeAll(Opt(wa, a) + [b] + Opt(wc, c))
  {
    var c1 := Opt(wa, a);
    var ta := if wa then Serialize(a) else [];
    var tc := if wc then Serialize(c) else [];
    assert t1 == t0 + ta;
    assert t3 == t2 + tc;
    SerializeAllOpt([], wa, a);
    assert [] + c1 == c1;
    assert SerializeAll(c1) == ta;
    SerializeAllSnoc(c1, b);
    SerializeAllOpt(c1 + [b], wc, c);
    var mid := ta + Serialize(b) + tc;
    assert SerializeAll(c1 + [b] + Opt(wc, c)) == mid;
    AppendAssoc(t0, ta, Serialize(b));
    AppendAssoc(t0, ta + Serialize(b), tc);
    assert t3 == t0 + mid;
  }


  method EncodeSharedListFields(e: Encoder, s: SharedList)
    modifies e
    ensures e.tokens == old(e.tokens) + SerializeAll(SharedListChildren(s))
  {
    ghost var t0 := e.tokens;
    var fcm := s.entity.forwardCompatibilityMap;
    if |fcm| > 0 {
      EncodeForwardCompatibilityMap(e, fcm);
    }
    ghost var t1 := e.tokens;
    EncodeTextElement(e, "Id", DecimalString(s.entity.id));
    ghost var t2 := e.tokens;
    if s.entity.name != "" {
      EncodeTextElement(e, "Name", s.entity.name);
    }
    SharedListFieldsAssemble(s, t0, t1, t2, e.tokens);
  }

  /** The tokens of one field of a list item: its element when the
      omission rule lets it through, nothing otherwise. */
  function ItemFieldTokens(item: SharedListItem, f: ItemField): seq<Token>
  {
    if ItemWrites(item, f) then Serialize(ItemFieldNode(item, f)) else []
  }

  /** If the tokens so far are the first k fields of the schema, appending
      field k gives the first k + 1. */
  lemma ItemFieldStep(item: SharedListItem, k: nat, f: ItemField, before: seq<Token>, prev: seq<Token>, now: seq<Token>)
    requires k < |ItemFields| && ItemFields[k] == f
    requires prev == before + SerializeAll(ItemSchema(item, k))
    requires now == prev + ItemFieldTokens(item, f)
    ensures now == before + SerializeAll(ItemSchema(item, k + 1))
  {
    SerializeAllOpt(ItemSchema(item, k), ItemWrites(item, f), ItemFieldNode(item, f));
    AppendAssoc(before, SerializeAll(ItemSchema(item, k)), ItemFieldTokens(item, f));
  }

  /** Seven field blocks written one after the other, in wire order, are
      the item's children. */
  lemma ItemFieldsAssemble(item: SharedListItem, t0: seq<Token>, t1: seq<Token>, t2: seq<Token>, t3: seq<Token>,
                           t4: seq<Token>, t5: seq<Token>, t6: seq<Token>, t7: seq<Token>)
    requires t1 == t0 + ItemFieldTokens(item, ItemForwardCompatibilityMap)
    requires t2 == t1 + ItemFieldTokens(item, ItemType)
    requires t3 == t2 + ItemFieldTokens(item, ItemId)
    requires t4 == t3 + ItemFieldTokens(item, ItemMatchType)
    requires t5 == t4 + ItemFieldTokens(item, ItemText)
    requires t6 == t5 + ItemFieldTokens(item, ItemUrl)
    requires t7 == t6 + ItemFieldTokens(item, ItemBrandId)
    ensures t7 == t0 + SerializeAll(ItemChildren(item))
  {
    assert t0 + [] == t0;
    ItemFieldStep(item, 0, ItemForwardCompatibilityMap, t0, t0, t1);
    ItemFieldStep(item, 1, ItemType, t0, t1, t2);
    ItemFieldStep(item, 2, ItemId, t0, t2, t3);
    ItemFieldStep(item, 3, ItemMatchType, t0, t3, t4);
    ItemFieldStep(item, 4, ItemText, t0, t4, t5);
    ItemFieldStep(item, 5, ItemUrl, t0, t5, t6);
    ItemFieldStep(item, 6, ItemBrandId, t0, t6, t7);
  }

  /** One field block of SharedListItem.MarshalXML. */
  method EncodeItemField(e: Encoder, item: SharedListItem, f: ItemField)
    modifies e
    ensures e.tokens == old(e.tokens) + ItemFieldTokens(item, f)
  {
    match f
    case ItemForwardCompatibilityMap =>
      if |item.forwardCompatibilityMap| > 0 {
        EncodeForwardCompatibilityMap(e, item.forwardCompatibilityMap);
      }
    case ItemType =>
      if item.kind != "" {
        EncodeTextElement(e, "Type", item.kind);
      }
    case ItemId =>
      if item.id != 0 {
        EncodeTextElement(e, "Id", DecimalString(item.id));
      }
    case ItemMatchType =>
      if item.matchType != "" {
        EncodeTextElement(e, "MatchType", item.matchType);
      }
    case ItemText =>
      if item.text != "" {
        EncodeTextElement(e, "Text", item.text);
      }
    case ItemUrl =>
      if item.url != "" {
        EncodeTextElement(e, "Url", item.url);
      }
    case ItemBrandId =>
      if item.brandId != 0 {
        EncodeTextElement(e, "BrandId", DecimalString(item.brandId));
      }
    if !ItemWrites(item, f) {
      assert e.tokens + [] == e.tokens;
    }
  }

  /** The body of SharedListItem.MarshalXML between its start and end tags,
      the same blocks the AddListItemsToSharedList encoder repeats inline:
      ForwardCompatibilityMap, Type, Id, MatchType, Text, Url, BrandId. */
  method EncodeItemFields(e: Encoder, item: SharedListItem)
    modifies e
    ensures e.tokens == old(e.tokens) + SerializeAll(ItemChildren(item))
  {
    ghost var t0 := e.tokens;
    EncodeItemField(e, item, ItemForwardCompatibilityMap);
    ghost var t1 := e.tokens;
    EncodeItemField(e, item, ItemType);
    ghost var t2 := e.tokens;
    EncodeItemField(e, item, ItemId);
    ghost var t3 := e.tokens;
    EncodeItemField(e, item, ItemMatchType);
    ghost var t4 := e.tokens;
    EncodeItemField(e, item, ItemText);
    ghost var t5 := e.tokens;
    EncodeItemField(e, item, ItemUrl);
    ghost var t6 := e.tokens;
    EncodeItemField(e, item, ItemBrandId);
    ItemFieldsAssemble(item, t0, t1, t2, t3, t4, t5, t6, e.tokens);
  }

  /** SharedListItem.MarshalXML: back-fills the discriminator from Type on
      its own copy of the item, appends it to its own copy of `start`. */
  method MarshalSharedListItem(e: Encoder, item: SharedListItem, start: StartElement)
    modifies e
    ensures e.tokens == old(e.tokens) + Serialize(SharedListItemNode(item, start))
  {
    var itemType := item.itemType;
    if itemType == "" && item.kind != "" {
      itemType := item.kind;
    }
    var st := start;
    if itemType != "" {
      st := StartElement(st.name, st.attrs + [Attr("i:type", itemType)]);
    }
    assert st == StartElement(start.name, start.attrs + TypeAttr(Discriminator(item)));
    SharedListItemTokens(item, start);
    e.EncodeToken(Start(st));
    EncodeItemFields(e, item);
    e.EncodeToken(End(st.name));
  }

  lemma SharedListItemTokens(item: SharedListItem, start: StartElement)
    ensures Serialize(SharedListItemNode(item, start)) ==
      [Start(StartElement(start.name, start.attrs + TypeAttr(Discriminator(item))))]
      + SerializeAll(ItemChildren(item)) + [End(start.name)]
  {
  }

  // ----------------------------------------------------------------------
  // The request encoders, token by token

  lemma ThreeChildTokens(name: string, attrs: seq<Attr>, x: Node, y: Node, z: Node)
    ensures Serialize(Element(name, attrs, [x, y, z])) ==
      [Start(StartElement(name, attrs))] + Serialize(x) + Serialize(y) + Serialize(z) + [End(name)]
  {
    SerializeAllAppend([x], [y, z]);
    SerializeAllSingle(x);
    SerializeAllPair(y, z);
    assert [x] + [y, z] == [x, y, z];
  }

  lemma GetListItemsRequestTokens(req: GetListItemsBySharedListRequest, start: StartElement)
    ensures Serialize(GetListItemsBySharedListRequestNode(req, start)) ==
      [Start(start)]
      + Serialize(Element(start.name, [Attr("xmlns", req.namespace)], []))
      + Serialize(SharedListNode(req.sharedList, SharedListStart))
      + Serialize(Leaf("SharedEntityScope", req.sharedEntityScope))
      + [End(start.name)]
  {
    var empty := Element(start.name, [Attr("xmlns", req.namespace)], []);
    var sl := SharedListNode(req.sharedList, SharedListStart);
    var scope := Leaf("SharedEntityScope", req.sharedEntityScope);
    assert GetListItemsBySharedListRequestNode(req, start) == Element(start.name, start.attrs, [empty, sl, scope]);
    ThreeChildTokens(start.name, start.attrs, empty, sl, scope);
  }

  lemma GetListItemsAssemble(req: GetListItemsBySharedListRequest, start: StartElement,
                             t0: seq<Token>, t1: seq<Token>, t2: seq<Token>, t3: seq<Token>, t4: seq<Token>, t5: seq<Token>)
    requires t1 == t0 + [Start(start)]
    requires t2 == t1 + Serialize(Element(start.name, [Attr("xmlns", req.namespace)], []))
    requires t3 == t2 + Serialize(SharedListNode(req.sharedList, SharedListStart))
    requires t4 == t3 + Serialize(Leaf("SharedEntityScope", req.sharedEntityScope))
    requires t5 == t4 + [End(start.name)]
    ensures t5 == t0 + Serialize(GetListItemsBySharedListRequestNode(req, start))
  {
    GetListItemsRequestTokens(req, start);
    AppendFive(t0, [Start(start)], Serialize(Element(start.name, [Attr("xmlns", req.namespace)], [])),
               Serialize(SharedListNode(req.sharedList, SharedListStart)),
               Serialize(Leaf("SharedEntityScope", req.sharedEntityScope)), [End(start.name)],
               t1, t2, t3, t4, t5);
  }

  /** `EncodeElement(struct{}{}, start)`: a struct with no fields is written
      as an empty element. */
  method EncodeEmptyElement(e: Encoder, start: StartElement)
    modifies e
    ensures e.tokens == old(e.tokens) + Serialize(Element(start.name, start.attrs, []))
  {
    e.EncodeToken(Start(start));
    e.EncodeToken(End(start.name));
  }

  /** GetListItemsBySharedListRequest.MarshalXML. */
  method MarshalGetListItemsBySharedListRequest(e: Encoder, req: GetListItemsBySharedListRequest, start: StartElement)
    modifies e
    ensures e.tokens == old(e.tokens) + Serialize(GetListItemsBySharedListRequestNode(req, start))
  {
    ghost var t0 := e.tokens;
    e.EncodeToken(Start(start));
    ghost var t1 := e.tokens;
    var namespaceStart := StartElement(start.name, [Attr("xmlns", req.namespace)]);
    EncodeEmptyElement(e, namespaceStart);
    ghost var t2 := e.tokens;
    MarshalSharedList(e, req.sharedList, SharedListStart);
    ghost var t3 := e.tokens;
    EncodeTextElement(e, "SharedEntityScope", req.sharedEntityScope);
    ghost var t4 := e.tokens;
    e.EncodeToken(End(start.name));
    GetListItemsAssemble(req, start, t0, t1, t2, t3, t4, e.tokens);
  }

  /** Four writes in a row: the operation start tag (and its reopening), the
      children, the end tag. */
  lemma ReopenedAssemble(start: StartElement, namespace: string, children: seq<Node>,
                         t0: seq<Token>, t1: seq<Token>, t2: seq<Token>, t3: seq<Token>)
    requires t1 == t0 + [Start(start)]
      + (if namespace != "" then [Start(StartElement(start.name, start.attrs + [Attr("xmlns", namespace)]))] else [])
    requires t2 == t1 + SerializeAll(children)
    requires t3 == t2 + [End(start.name)]
    ensures t3 == t0 + ReopenedOperationTokens(start, namespace, children)
  {
  }

  /** The opening shared by the four reopening encoders: the start tag as
      given, then, when Namespace is set, the same tag again with `xmlns`
      appended (to the method's own copy of `start`). */
  method EncodeReopenedStart(e: Encoder, start: StartElement, namespace: string)
    modifies e
    ensures e.tokens == old(e.tokens) + [Start(start)]
      + (if namespace != "" then [Start(StartElement(start.name, start.attrs + [Attr("xmlns", namespace)]))] else [])
  {
    e.EncodeToken(Start(start));
    if namespace != "" {
      var st := StartElement(start.name, start.attrs + [Attr("xmlns", namespace)]);
      e.EncodeToken(Start(st));
    } else {
      assert e.tokens + [] == e.tokens;
    }
  }

  /** GetSharedEntitiesRequest.MarshalXML. */
  method MarshalGetSharedEntitiesRequest(e: Encoder, req: GetSharedEntitiesRequest, start: StartElement)
    modifies e
    ensures e.tokens == old(e.tokens) + GetSharedEntitiesRequestTokens(req, start)
  {
    ghost var t0 := e.tokens;
    EncodeReopenedStart(e, start, req.namespace);
    ghost var t1 := e.tokens;
    EncodeTextElement(e, "SharedEntityType", req.sharedEntityType);
    EncodeTextElement(e, "SharedEntityScope", req.sharedEntityScope);
    ghost var t2 := e.tokens;
    e.EncodeToken(End(start.name));
    var cs := GetSharedEntitiesChildren(req);
    SerializeAllPair(cs[0], cs[1]);
    ReopenedAssemble(start, req.namespace, cs, t0, t1, t2, e.tokens);
  }

  /** GetSharedEntityAssociationsBySharedEntityIdsRequest.MarshalXML. */
  method MarshalGetSharedEntityAssociationsBySharedEntityIdsRequest(
    e: Encoder, req: GetSharedEntityAssociationsBySharedEntityIdsRequest, start: StartElement)
    modifies e
    ensures e.tokens == old(e.tokens) + AssociationsRequestTokens(req, start)
  {
    ghost var t0 := e.tokens;
    EncodeReopenedStart(e, start, req.namespace);
    ghost var t1 := e.tokens;
    EncodeTextElement(e, "EntityType", req.entityType);
    ghost var ta := e.tokens;
    EncodeIdArray(e, "SharedEntityIds", req.sharedEntityIds);
    ghost var tb := e.tokens;
    EncodeTextElement(e, "SharedEntityType", req.sharedEntityType);
    ghost var tc := e.tokens;
    EncodeTextElement(e, "SharedEntityScope", req.sharedEntityScope);
    ghost var t2 := e.tokens;
    e.EncodeToken(End(start.name));
    AssociationsChildrenAssemble(req, t1, ta, tb, tc, t2);
    AssociationsAssemble(req, start, t0, t1, t2, e.tokens);
  }

  lemma AssociationsAssemble(req: GetSharedEntityAssociationsBySharedEntityIdsRequest, start: StartElement,
                             t0: seq<Token>, t1: seq<Token>, t2: seq<Token>, t3: seq<Token>)
    requires t1 == t0 + [Start(start)]
      + (if req.namespace != "" then [Start(StartElement(start.name, start.attrs + [Attr("xmlns", req.namespace)]))] else [])
    requires t2 == t1 + SerializeAll(AssociationsChildren(req))
    requires t3 == t2 + [End(start.name)]
    ensures t3 == t0 + AssociationsRequestTokens(req, start)
  {
    ReopenedAssemble(start, req.namespace, AssociationsChildren(req), t0, t1, t2, t3);
  }

  /** Four consecutive writes: a node, a node sequence, two nodes. */
  lemma FourPartTokens(x: Node, ids: seq<Node>, y: Node, z: Node,
                       t1: seq<Token>, ta: seq<Token>, tb: seq<Token>, tc: seq<Token>, t2: seq<Token>)
    requires ta == t1 + Serialize(x)
    requires tb == ta + SerializeAll(ids)
    requires tc == tb + Serialize(y)
    requires t2 == tc + Serialize(z)
    ensures t2 == t1 + SerializeAll([x] + ids + [y, z])
  {
    SerializeAllSingle(x);
    ChildrenConcat([x], ids, t1, ta, tb);
    SerializeAllPair(y, z);
    AppendAssoc(tb, Serialize(y), Serialize(z));
    ChildrenConcat([x] + ids, [y, z], t1, tb, t2);
  }

  /** Token sequences written one after the other serialize the concatenated nodes. */
  lemma ChildrenConcat(a: seq<Node>, b: seq<Node>, t0: seq<Token>, t1: seq<Token>, t2: seq<Token>)
    requires t1 == t0 + SerializeAll(a)
    requires t2 == t1 + SerializeAll(b)
    ensures t2 == t0 + SerializeAll(a + b)
  {
    SerializeAllAppend(a, b);
    AppendAssoc(t0, SerializeAll(a), SerializeAll(b));
  }

  /** The children of the associations request, written one by one. */
  lemma AssociationsChildrenAssemble(req: GetSharedEntityAssociationsBySharedEntityIdsRequest,
                                     t1: seq<Token>, ta: seq<Token>, tb: seq<Token>, tc: seq<Token>, t2: seq<Token>)
    requires ta == t1 + Serialize(Leaf("EntityType", req.entityType))
    requires tb == ta + SerializeAll(IdArray("SharedEntityIds", req.sharedEntityIds))
    requires tc == tb + Serialize(Leaf("SharedEntityType", req.sharedEntityType))
    requires t2 == tc + Serialize(Leaf("SharedEntityScope", req.sharedEntityScope))
    ensures t2 == t1 + SerializeAll(AssociationsChildren(req))
  {
    var x := Leaf("EntityType", req.entityType);
    var ids := IdArray("SharedEntityIds", req.sharedEntityIds);
    var y := Leaf("SharedEntityType", req.sharedEntityType);
    var z := Leaf("SharedEntityScope", req.sharedEntityScope);
    FourPartTokens(x, ids, y, z, t1, ta, tb, tc, t2);
    assert AssociationsChildren(req) == [x] + ids + [y, z];
  }

  /** One entry of the ListItems block: a SharedListItem start tag with
      `i:type` taken from ItemType alone, the item's fields, the end tag. */
  method EncodeInlineItem(e: Encoder, item: SharedListItem)
    modifies e
    ensures e.tokens == old(e.tokens) + Serialize(InlineItemNode(item))
  {
    ghost var t0 := e.tokens;
    var itemStart := StartElement("SharedListItem", []);
    if item.itemType != "" {
      itemStart := StartElement(itemStart.name, itemStart.attrs + [Attr("i:type", item.itemType)]);
    }
    assert itemStart == StartElement("SharedListItem", TypeAttr(item.itemType));
    e.EncodeToken(Start(itemStart));
    ghost var t1 := e.tokens;
    EncodeItemFields(e, item);
    ghost var t2 := e.tokens;
    e.EncodeToken(End(itemStart.name));
    ElementAssemble(InlineItemNode(item), t0, t1, t2, e.tokens);
  }

  /** Start tag, the children's tokens, end tag: an element's serialization. */
  lemma ElementAssemble(n: Node, t0: seq<Token>, t1: seq<Token>, t2: seq<Token>, t3: seq<Token>)
    requires n.Element?
    requires t1 == t0 + [Start(StartElement(n.name, n.attrs))]
    requires t2 == t1 + SerializeAll(n.children)
    requires t3 == t2 + [End(n.name)]
    ensures t3 == t0 + Serialize(n)
  {
  }

  lemma SerializeAllPrefixStep(cs: seq<Node>, i: nat, head: seq<Token>, prev: seq<Token>, now: seq<Token>)
    requires i < |cs|
    requires prev == head + SerializeAll(cs[..i])
    requires now == prev + Serialize(cs[i])
    ensures now == head + SerializeAll(cs[..i + 1])
  {
    assert cs[..i + 1] == cs[..i] + [cs[i]];
    SerializeAllSnoc(cs[..i], cs[i]);
  }

  /** The ListItems block of AddListItemsToSharedListRequest.MarshalXML:
      nothing for no items, else the wrapper around one SharedListItem per
      item, discriminated by its ItemType alone. */
  method EncodeInlineListItems(e: Encoder, items: seq<SharedListItem>)
    modifies e
    ensures e.tokens == old(e.tokens) + SerializeAll(ListItemsWrapper(InlineItemNodes(items)))
  {
    if |items| > 0 {
      ghost var t0 := e.tokens;
      ghost var cs := InlineItemNodes(items);
      var listItemsStart := StartElement("ListItems", []);
      e.EncodeToken(Start(listItemsStart));
      ghost var t1 := e.tokens;
      for i := 0 to |items|
        invariant e.tokens == t1 + SerializeAll(cs[..i])
      {
        ghost var prev := e.tokens;
        EncodeInlineItem(e, items[i]);
        SerializeAllPrefixStep(cs, i, t1, prev, e.tokens);
      }
      ghost var t2 := e.tokens;
      e.EncodeToken(End(listItemsStart.name));
      WrapperAssemble(cs, t0, t1, t2, e.tokens);
    } else {
      assert e.tokens + [] == e.tokens;
    }
  }

  lemma WrapperAssemble(cs: seq<Node>, t0: seq<Token>, t1: seq<Token>, t2: seq<Token>, t3: seq<Token>)
    requires cs != []
    requires t1 == t0 + [Start(StartElement("ListItems", []))]
    requires t2 == t1 + SerializeAll(cs[..|cs|])
    requires t3 == t2 + [End("ListItems")]
    ensures t3 == t0 + SerializeAll(ListItemsWrapper(cs))
  {
    assert cs[..|cs|] == cs;
    SerializeAllSingle(Element("ListItems", [], cs));
  }

  lemma ListAndScopeTokens(sl: SharedList, scope: EntityScope)
    ensures SerializeAll(SharedListAndScope(sl, scope)) ==
      Serialize(SharedListNode(sl, SharedListStart)) + Serialize(Leaf("SharedEntityScope", scope))
  {
    var ns := SharedListAndScope(sl, scope);
    SerializeAllPair(ns[0], ns[1]);
  }

  /** The common tail of the Add and Delete encoders: some nodes, then the
      SharedList element and the scope leaf. */
  lemma ListTailAssemble(start: StartElement, namespace: string, head: seq<Node>, sl: Node, scope: Node,
                         t0: seq<Token>, t1: seq<Token>, ta: seq<Token>, tb: seq<Token>, t2: seq<Token>, t3: seq<Token>)
    requires t1 == t0 + [Start(start)]
      + (if namespace != "" then [Start(StartElement(start.name, start.attrs + [Attr("xmlns", namespace)]))] else [])
    requires ta == t1 + SerializeAll(head)
    requires tb == ta + Serialize(sl)
    requires t2 == tb + Serialize(scope)
    requires t3 == t2 + [End(start.name)]
    ensures t3 == t0 + ReopenedOperationTokens(start, namespace, head + [sl, scope])
  {
    ListTailTokens(head, sl, scope, t1, ta, tb, t2);
    ReopenedAssemble(start, namespace, head + [sl, scope], t0, t1, t2, t3);
  }

  /** Writing some nodes, then a SharedList node and a scope leaf, writes
      the three parts as one child sequence. */
  lemma ListTailTokens(head: seq<Node>, sl: Node, scope: Node,
                       t1: seq<Token>, ta: seq<Token>, tb: seq<Token>, t2: seq<Token>)
    requires ta == t1 + SerializeAll(head)
    requires tb == ta + Serialize(sl)
    requires t2 == tb + Serialize(scope)
    ensures t2 == t1 + SerializeAll(head + [sl, scope])
  {
    SerializeAllPair(sl, scope);
    SerializeAllAppend(head, [sl, scope]);
    AppendAssoc(ta, Serialize(sl), Serialize(scope));
    AppendAssoc(t1, SerializeAll(head), Serialize(sl) + Serialize(scope));
  }

  lemma AddAssemble(req: AddListItemsToSharedListRequest, start: StartElement,
                    t0: seq<Token>, t1: seq<Token>, ta: seq<Token>, tb: seq<Token>, t2: seq<Token>, t3: seq<Token>)
    requires t1 == t0 + [Start(start)]
      + (if req.namespace != "" then [Start(StartElement(start.name, start.attrs + [Attr("xmlns", req.namespace)]))] else [])
    requires ta == t1 + SerializeAll(ListItemsWrapper(InlineItemNodes(req.listItems)))
    requires tb == ta + Serialize(SharedListNode(req.sharedList, SharedListStart))
    requires t2 == tb + Serialize(Leaf("SharedEntityScope", req.sharedEntityScope))
    requires t3 == t2 + [End(start.name)]
    ensures t3 == t0 + AddListItemsRequestTokens(req, start)
  {
    var wrapper := ListItemsWrapper(InlineItemNodes(req.listItems));
    var sl := SharedListNode(req.sharedList, SharedListStart);
    var scope := Leaf("SharedEntityScope", req.sharedEntityScope);
    ListTailAssemble(start, req.namespace, wrapper, sl, scope, t0, t1, ta, tb, t2, t3);
    assert AddInlineChildren(req) == wrapper + [sl, scope];
  }

  /** AddListItemsToSharedListRequest.MarshalXML. */
  method MarshalAddListItemsToSharedListRequest(e: Encoder, req: AddListItemsToSharedListRequest, start: StartElement)
    modifies e
    ensures e.tokens == old(e.tokens) + AddListItemsRequestTokens(req, start)
  {
    ghost var t0 := e.tokens;
    EncodeReopenedStart(e, start, req.namespace);
    ghost var t1 := e.tokens;
    EncodeInlineListItems(e, req.listItems);
    ghost var ta := e.tokens;
    MarshalSharedList(e, req.sharedList, SharedListStart);
    ghost var tb := e.tokens;
    EncodeTextElement(e, "SharedEntityScope", req.sharedEntityScope);
    ghost var t2 := e.tokens;
    e.EncodeToken(End(start.name));
    AddAssemble(req, start, t0, t1, ta, tb, t2, e.tokens);
  }

  lemma DeleteAssemble(req: DeleteListItemsFromSharedListRequest, start: StartElement,
                       t0: seq<Token>, t1: seq<Token>, ta: seq<Token>, tb: seq<Token>, t2: seq<Token>, t3: seq<Token>)
    requires t1 == t0 + [Start(start)]
      + (if req.namespace != "" then [Start(StartElement(start.name, start.attrs + [Attr("xmlns", req.namespace)]))] else [])
    requires ta == t1 + SerializeAll(IdArray("ListItemIds", req.listItemIds))
    requires tb == ta + Serialize(SharedListNode(req.sharedList, SharedListStart))
    requires t2 == tb + Serialize(Leaf("SharedEntityScope", req.sharedEntityScope))
    requires t3 == t2 + [End(start.name)]
    ensures t3 == t0 + DeleteListItemsRequestTokens(req, start)
  {
    var ids := IdArray("ListItemIds", req.listItemIds);
    var sl := SharedListNode(req.sharedList, SharedListStart);
    var scope := Leaf("SharedEntityScope", req.sharedEntityScope);
    ListTailAssemble(start, req.namespace, ids, sl, scope, t0, t1, ta, tb, t2, t3);
    assert DeleteChildren(req) == ids + [sl, scope];
  }

  /** DeleteListItemsFromSharedListRequest.MarshalXML. */
  method MarshalDeleteListItemsFromSharedListRequest(e: Encoder, req: DeleteListItemsFromSharedListRequest, start: StartElement)
    modifies e
    ensures e.tokens == old(e.tokens) + DeleteListItemsRequestTokens(req, start)
  {
    ghost var t0 := e.tokens;
    EncodeReopenedStart(e, start, req.namespace);
    ghost var t1 := e.tokens;
    EncodeIdArray(e, "ListItemIds", req.listItemIds);
    ghost var ta := e.tokens;
    MarshalSharedList(e, req.sharedList, SharedListStart);
    ghost var tb := e.tokens;
    EncodeTextElement(e, "SharedEntityScope", req.sharedEntityScope);
    ghost var t2 := e.tokens;
    e.EncodeToken(End(start.name));
    DeleteAssemble(req, start, t0, t1, ta, tb, t2, e.tokens);
  }
}
