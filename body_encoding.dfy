/** The request body, `CampaignManagementBody.MarshalXML`: the body start
    tag, then, in declaration order, one element for every operation whose
    request is present, then the body end tag. Unlike the request types'
    own MarshalXML methods, each operation element is opened once, with its
    `xmlns` attribute in that one start tag, and list items go through
    `SharedListItem.MarshalXML` (so the `Type` back-fill applies). */
module BodyEncoding {
  import opened Wrappers
  import opened Xml
  import opened Models
  import opened SharedListEncoding

  /** The attributes of an operation start tag: `xmlns` exactly when the
      request's Namespace is set. */
  function NamespaceAttr(namespace: string): (attrs: seq<Attr>)
    ensures |attrs| <= 1
    ensures HasAttr(attrs, "xmlns") <==> namespace != ""
    ensures forall a :: a in attrs ==> a == Attr("xmlns", namespace)
  {
    if namespace != "" then [Attr("xmlns", namespace)] else []
  }

  function OperationStart(name: string, namespace: string): StartElement
  {
    StartElement(name, NamespaceAttr(namespace))
  }

  function GetListItemsOperation(req: GetListItemsBySharedListRequest): (n: Node)
    ensures n.Element? && n.name == "GetListItemsBySharedListRequest"
    ensures HasAttr(n.attrs, "xmlns") <==> req.namespace != ""
  {
    Element("GetListItemsBySharedListRequest", NamespaceAttr(req.namespace),
            SharedListAndScope(req.sharedList, req.sharedEntityScope))
  }

  function GetSharedEntitiesOperation(req: GetSharedEntitiesRequest): (n: Node)
    ensures n.Element? && n.name == "GetSharedEntitiesRequest"
    ensures HasAttr(n.attrs, "xmlns") <==> req.namespace != ""
  {
    Element("GetSharedEntitiesRequest", NamespaceAttr(req.namespace), GetSharedEntitiesChildren(req))
  }

  function AssociationsOperation(req: GetSharedEntityAssociationsBySharedEntityIdsRequest): (n: Node)
    ensures n.Element? && n.name == "GetSharedEntityAssociationsBySharedEntityIdsRequest"
    ensures HasAttr(n.attrs, "xmlns") <==> req.namespace != ""
  {
    Element("GetSharedEntityAssociationsBySharedEntityIdsRequest", NamespaceAttr(req.namespace),
            AssociationsChildren(req))
  }

  /** A list item as the body writes it: `EncodeElement(item, <SharedListItem>)`. */
  function BodyItemNode(item: SharedListItem): Node
  {
    SharedListItemNode(item, StartElement("SharedListItem", []))
  }

  function BodyItemNodes(items: seq<SharedListItem>): (ns: seq<Node>)
    ensures |ns| == |items|
    ensures forall i :: 0 <= i < |items| ==> ns[i] == BodyItemNode(items[i])
  {
    seq(|items|, i requires 0 <= i < |items| => BodyItemNode(items[i]))
  }

  /** Add's children: the ListItems wrapper only for a non-empty list, then
      SharedList and SharedEntityScope. */
  function AddListItemsChildren(req: AddListItemsToSharedListRequest): (ns: seq<Node>)
    ensures NamesOf(ns) ==
      (if req.listItems != [] then ["ListItems"] else []) + ["SharedList", "SharedEntityScope"]
  {
    var w := ListItemsWrapper(BodyItemNodes(req.listItems));
    var sl := SharedListNode(req.sharedList, SharedListStart);
    var scope := Leaf("SharedEntityScope", req.sharedEntityScope);
    NamesThenPair(w, sl, scope);
    assert NamesOf(w) == if req.listItems != [] then ["ListItems"] else [];
    w + [sl, scope]
  }

  function AddListItemsOperation(req: AddListItemsToSharedListRequest): (n: Node)
    ensures n.Element? && n.name == "AddListItemsToSharedListRequest"
    ensures HasAttr(n.attrs, "xmlns") <==> req.namespace != ""
  {
    Element("AddListItemsToSharedListRequest", NamespaceAttr(req.namespace), AddListItemsChildren(req))
  }

  function DeleteListItemsOperation(req: DeleteListItemsFromSharedListRequest): (n: Node)
    ensures n.Element? && n.name == "DeleteListItemsFromSharedListRequest"
    ensures HasAttr(n.attrs, "xmlns") <==> req.namespace != ""
  {
    Element("DeleteListItemsFromSharedListRequest", NamespaceAttr(req.namespace), DeleteChildren(req))
  }

  /** The name list of an optional block. */
  function PresentName(present: bool, name: string): seq<string>
  {
    if present then [name] else []
  }

  function GetListItemsBlock(o: Option<GetListItemsBySharedListRequest>): (ns: seq<Node>)
    ensures NamesOf(ns) == PresentName(o.Some?, "GetListItemsBySharedListRequest")
  {
    if o.Some? then [GetListItemsOperation(o.value)] else []
  }

  function GetSharedEntitiesBlock(o: Option<GetSharedEntitiesRequest>): (ns: seq<Node>)
    ensures NamesOf(ns) == PresentName(o.Some?, "GetSharedEntitiesRequest")
  {
    if o.Some? then [GetSharedEntitiesOperation(o.value)] else []
  }

  function AssociationsBlock(o: Option<GetSharedEntityAssociationsBySharedEntityIdsRequest>): (ns: seq<Node>)
    ensures NamesOf(ns) == PresentName(o.Some?, "GetSharedEntityAssociationsBySharedEntityIdsRequest")
  {
    if o.Some? then [AssociationsOperation(o.value)] else []
  }

  function AddListItemsBlock(o: Option<AddListItemsToSharedListRequest>): (ns: seq<Node>)
    ensures NamesOf(ns) == PresentName(o.Some?, "AddListItemsToSharedListRequest")
  {
    if o.Some? then [AddListItemsOperation(o.value)] else []
  }

  function DeleteListItemsBlock(o: Option<DeleteListItemsFromSharedListRequest>): (ns: seq<Node>)
    ensures NamesOf(ns) == PresentName(o.Some?, "DeleteListItemsFromSharedListRequest")
  {
    if o.Some? then [DeleteListItemsOperation(o.value)] else []
  }

  function OperationNodes(b: CampaignManagementBody): seq<Node>
  {
    GetListItemsBlock(b.getListItemsBySharedListRequest)
    + GetSharedEntitiesBlock(b.getSharedEntitiesRequest)
    + AssociationsBlock(b.getSharedEntityAssociationsBySharedEntityIdsRequest)
    + AddListItemsBlock(b.addListItemsToSharedListRequest)
    + DeleteListItemsBlock(b.deleteListItemsFromSharedListRequest)
  }

  /** The body element the encoder writes for `start` (`s:Body` inside the envelope). */
  function BodyNode(b: CampaignManagementBody, start: StartElement): (n: Node)
    ensures n.Element? && n.name == start.name && n.attrs == start.attrs
    // one child per request pointer that is set
    ensures |n.children| ==
      (if b.getListItemsBySharedListRequest.Some? then 1 else 0)
      + (if b.getSharedEntitiesRequest.Some? then 1 else 0)
      + (if b.getSharedEntityAssociationsBySharedEntityIdsRequest.Some? then 1 else 0)
      + (if b.addListItemsToSharedListRequest.Some? then 1 else 0)
      + (if b.deleteListItemsFromSharedListRequest.Some? then 1 else 0)
  {
    Element(start.name, start.attrs, OperationNodes(b))
  }

  // ----------------------------------------------------------------------
  // Properties

  /** The body holds one element per present request, named after it, in
      declaration order, and nothing else. */
  lemma BodyOperationNames(b: CampaignManagementBody, start: StartElement)
    ensures NamesOf(BodyNode(b, start).children) ==
      PresentName(b.getListItemsBySharedListRequest.Some?, "GetListItemsBySharedListRequest")
      + PresentName(b.getSharedEntitiesRequest.Some?, "GetSharedEntitiesRequest")
      + PresentName(b.getSharedEntityAssociationsBySharedEntityIdsRequest.Some?, "GetSharedEntityAssociationsBySharedEntityIdsRequest")
      + PresentName(b.addListItemsToSharedListRequest.Some?, "AddListItemsToSharedListRequest")
      + PresentName(b.deleteListItemsFromSharedListRequest.Some?, "DeleteListItemsFromSharedListRequest")
  {
    var o1 := GetListItemsBlock(b.getListItemsBySharedListRequest);
    var o2 := GetSharedEntitiesBlock(b.getSharedEntitiesRequest);
    var o3 := AssociationsBlock(b.getSharedEntityAssociationsBySharedEntityIdsRequest);
    var o4 := AddListItemsBlock(b.addListItemsToSharedListRequest);
    var o5 := DeleteListItemsBlock(b.deleteListItemsFromSharedListRequest);
    NamesOfAppend(o1, o2);
    NamesOfAppend(o1 + o2, o3);
    NamesOfAppend(o1 + o2 + o3, o4);
    NamesOfAppend(o1 + o2 + o3 + o4, o5);
  }

  /** What the body writes is a tree: every start tag it opens is closed. */
  lemma BodyWellNested(b: CampaignManagementBody, start: StartElement)
    ensures WellNested(Serialize(BodyNode(b, start)))
    ensures Serialize(BodyNode(b, start))[0] == Start(start)
    ensures Serialize(BodyNode(b, start))[|Serialize(BodyNode(b, start))| - 1] == End(start.name)
  {
    SerializeWellNested(BodyNode(b, start));
  }

  /** With every request absent the body is empty: its start tag
      immediately followed by its end tag. */
  lemma EmptyBodyWritesNoOperation(b: CampaignManagementBody, start: StartElement)
    requires b.getListItemsBySharedListRequest.None? && b.getSharedEntitiesRequest.None?
    requires b.getSharedEntityAssociationsBySharedEntityIdsRequest.None?
    requires b.addListItemsToSharedListRequest.None? && b.deleteListItemsFromSharedListRequest.None?
    ensures Serialize(BodyNode(b, start)) == [Start(start), End(start.name)]
  {
  }

  /** Each list item in the body's Add element carries an `i:type`
      discriminator exactly when its ItemType or its Type is set (so Type is
      back-filled), where the request type's own encoder looks at ItemType
      alone. */
  lemma BodyAddItemsBackFilled(req: AddListItemsToSharedListRequest, i: int)
    requires 0 <= i < |req.listItems|
    ensures var items := AddListItemsOperation(req).children[0].children;
            && |items| == |req.listItems|
            && items[i] == SharedListItemNode(req.listItems[i], StartElement("SharedListItem", []))
            && (|items[i].attrs| == 1 <==> req.listItems[i].itemType != "" || req.listItems[i].kind != "")
  {
    var w := ListItemsWrapper(BodyItemNodes(req.listItems));
    assert AddListItemsOperation(req).children[0] == w[0];
  }

  /** Child order of the three operations with several parts: Associations
      writes EntityType, SharedEntityIds (only when there are ids),
      SharedEntityType and SharedEntityScope; Add writes ListItems (only
      when there are items), SharedList and SharedEntityScope; Delete writes
      ListItemIds (only when there are ids), SharedList and SharedEntityScope. */
  lemma BodyOperationChildOrder(a: GetSharedEntityAssociationsBySharedEntityIdsRequest,
                                add: AddListItemsToSharedListRequest,
                                del: DeleteListItemsFromSharedListRequest)
    ensures NamesOf(AssociationsOperation(a).children) ==
      ["EntityType"] + PresentName(a.sharedEntityIds != [], "SharedEntityIds") + ["SharedEntityType", "SharedEntityScope"]
    ensures NamesOf(AddListItemsOperation(add).children) ==
      PresentName(add.listItems != [], "ListItems") + ["SharedList", "SharedEntityScope"]
    ensures NamesOf(DeleteListItemsOperation(del).children) ==
      PresentName(del.listItemIds != [], "ListItemIds") + ["SharedList", "SharedEntityScope"]
  {
  }

  /** An operation element as the body writes it, against the request
      type's own encoder: when Namespace is set, the tokens are the
      request encoder's with its first (bare) start tag dropped, and
      otherwise they are the same; in both cases every tag is closed. */
  lemma OperationOpenedOnce(name: string, namespace: string, children: seq<Node>)
    ensures var asWritten := ReopenedOperationTokens(StartElement(name, []), namespace, children);
            var corrected := Serialize(Element(name, NamespaceAttr(namespace), children));
            && WellNested(corrected)
            && (namespace != "" ==> corrected == asWritten[1..])
            && (namespace == "" ==> corrected == asWritten)
  {
    var asWritten := ReopenedOperationTokens(StartElement(name, []), namespace, children);
    var n := Element(name, NamespaceAttr(namespace), children);
    SerializeWellNested(n);
    if namespace != "" {
      assert [] + [Attr("xmlns", namespace)] == NamespaceAttr(namespace);
      assert asWritten == [Start(StartElement(name, []))] + Serialize(n);
    } else {
      assert asWritten == Serialize(n);
    }
  }

  /** GetListItemsBySharedList as the body writes it: the namespace sits on
      the operation element itself, whose only children are SharedList and
      SharedEntityScope. */
  lemma GetListItemsNamespaceOnOperation(req: GetListItemsBySharedListRequest)
    ensures GetListItemsOperation(req).attrs == NamespaceAttr(req.namespace)
    ensures NamesOf(GetListItemsOperation(req).children) == ["SharedList", "SharedEntityScope"]
    ensures WellNested(Serialize(GetListItemsOperation(req)))
  {
    SerializeWellNested(GetListItemsOperation(req));
  }

  // ----------------------------------------------------------------------
  // The encoder

  /** An operation's start tag, `xmlns` appended exactly when Namespace is set. */
  method EncodeOperationStart(e: Encoder, name: string, namespace: string) returns (reqStart: StartElement)
    modifies e
    ensures reqStart == OperationStart(name, namespace)
    ensures e.tokens == old(e.tokens) + [Start(reqStart)]
  {
    reqStart := StartElement(name, []);
    if namespace != "" {
      reqStart := StartElement(reqStart.name, reqStart.attrs + [Attr("xmlns", namespace)]);
    }
    e.EncodeToken(Start(reqStart));
  }

  /** The SharedList element (through SharedList.MarshalXML) and the scope leaf. */
  method EncodeSharedListAndScope(e: Encoder, sl: SharedList, scope: EntityScope)
    modifies e
    ensures e.tokens == old(e.tokens) + SerializeAll(SharedListAndScope(sl, scope))
  {
    ghost var t0 := e.tokens;
    MarshalSharedList(e, sl, SharedListStart);
    ghost var t1 := e.tokens;
    EncodeTextElement(e, "SharedEntityScope", scope);
    ListAndScopeTokens(sl, scope);
    AppendAssoc(t0, Serialize(SharedListNode(sl, SharedListStart)), Serialize(Leaf("SharedEntityScope", scope)));
  }

  /** Closes an operation element whose start tag and children are written. */
  lemma OperationAssemble(n: Node, t0: seq<Token>, t1: seq<Token>, t2: seq<Token>, t3: seq<Token>)
    requires n.Element?
    requires t1 == t0 + [Start(StartElement(n.name, n.attrs))]
    requires t2 == t1 + SerializeAll(n.children)
    requires t3 == t2 + [End(n.name)]
    ensures t3 == t0 + SerializeAll([n])
  {
    ElementAssemble(n, t0, t1, t2, t3);
    SerializeAllSingle(n);
  }

  /** The GetListItemsBySharedListRequest block of the body encoder. */
  method EncodeGetListItemsBlock(e: Encoder, o: Option<GetListItemsBySharedListRequest>)
    modifies e
    ensures e.tokens == old(e.tokens) + SerializeAll(GetListItemsBlock(o))
  {
    if o.Some? {
      var req := o.value;
      ghost var t0 := e.tokens;
      var reqStart := EncodeOperationStart(e, "GetListItemsBySharedListRequest", req.namespace);
      ghost var t1 := e.tokens;
      EncodeSharedListAndScope(e, req.sharedList, req.sharedEntityScope);
      ghost var t2 := e.tokens;
      e.EncodeToken(End(reqStart.name));
      OperationAssemble(GetListItemsOperation(req), t0, t1, t2, e.tokens);
    } else {
      assert e.tokens + [] == e.tokens;
    }
  }

  /** The GetSharedEntitiesRequest block of the body encoder. */
  method EncodeGetSharedEntitiesBlock(e: Encoder, o: Option<GetSharedEntitiesRequest>)
    modifies e
    ensures e.tokens == old(e.tokens) + SerializeAll(GetSharedEntitiesBlock(o))
  {
    if o.Some? {
      var req := o.value;
      ghost var t0 := e.tokens;
      var reqStart := EncodeOperationStart(e, "GetSharedEntitiesRequest", req.namespace);
      ghost var t1 := e.tokens;
      EncodeTextElement(e, "SharedEntityType", req.sharedEntityType);
      ghost var ta := e.tokens;
      EncodeTextElement(e, "SharedEntityScope", req.sharedEntityScope);
      ghost var t2 := e.tokens;
      e.EncodeToken(End(reqStart.name));
      var cs := GetSharedEntitiesChildren(req);
      SerializeAllPair(cs[0], cs[1]);
      AppendAssoc(t1, Serialize(cs[0]), Serialize(cs[1]));
      OperationAssemble(GetSharedEntitiesOperation(req), t0, t1, t2, e.tokens);
    } else {
      assert e.tokens + [] == e.tokens;
    }
  }

  /** The GetSharedEntityAssociationsBySharedEntityIdsRequest block of the body encoder. */
  method EncodeAssociationsBlock(e: Encoder, o: Option<GetSharedEntityAssociationsBySharedEntityIdsRequest>)
    modifies e
    ensures e.tokens == old(e.tokens) + SerializeAll(AssociationsBlock(o))
  {
    if o.Some? {
      var req := o.value;
      ghost var t0 := e.tokens;
      var reqStart := EncodeOperationStart(e, "GetSharedEntityAssociationsBySharedEntityIdsRequest", req.namespace);
      ghost var t1 := e.tokens;
      EncodeTextElement(e, "EntityType", req.entityType);
      ghost var ta := e.tokens;
      EncodeIdArray(e, "SharedEntityIds", req.sharedEntityIds);
      ghost var tb := e.tokens;
      EncodeTextElement(e, "SharedEntityType", req.sharedEntityType);
      ghost var tc := e.tokens;
      EncodeTextElement(e, "SharedEntityScope", req.sharedEntityScope);
      ghost var t2 := e.tokens;
      e.EncodeToken(End(reqStart.name));
      AssociationsChildrenAssemble(req, t1, ta, tb, tc, t2);
      OperationAssemble(AssociationsOperation(req), t0, t1, t2, e.tokens);
    } else {
      assert e.tokens + [] == e.tokens;
    }
  }

  /** The ListItems block of the body encoder: each item through
      SharedListItem.MarshalXML with a bare SharedListItem start tag. */
  method EncodeBodyListItems(e: Encoder, items: seq<SharedListItem>)
    modifies e
    ensures e.tokens == old(e.tokens) + SerializeAll(ListItemsWrapper(BodyItemNodes(items)))
  {
    if |items| > 0 {
      ghost var t0 := e.tokens;
      ghost var cs := BodyItemNodes(items);
      var listItemsStart := StartElement("ListItems", []);
      e.EncodeToken(Start(listItemsStart));
      ghost var t1 := e.tokens;
      for i := 0 to |items|
        invariant e.tokens == t1 + SerializeAll(cs[..i])
      {
        ghost var prev := e.tokens;
        var itemStart := StartElement("SharedListItem", []);
        MarshalSharedListItem(e, items[i], itemStart);
        SerializeAllPrefixStep(cs, i, t1, prev, e.tokens);
      }
      ghost var t2 := e.tokens;
      e.EncodeToken(End(listItemsStart.name));
      WrapperAssemble(cs, t0, t1, t2, e.tokens);
    } else {
      assert e.tokens + [] == e.tokens;
    }
  }

  /** The AddListItemsToSharedListRequest block of the body encoder. */
  method EncodeAddListItemsBlock(e: Encoder, o: Option<AddListItemsToSharedListRequest>)
    modifies e
    ensures e.tokens == old(e.tokens) + SerializeAll(AddListItemsBlock(o))
  {
    if o.Some? {
      var req := o.value;
      ghost var t0 := e.tokens;
      var reqStart := EncodeOperationStart(e, "AddListItemsToSharedListRequest", req.namespace);
      ghost var t1 := e.tokens;
      EncodeBodyListItems(e, req.listItems);
      ghost var ta := e.tokens;
      EncodeSharedListAndScope(e, req.sharedList, req.sharedEntityScope);
      ghost var t2 := e.tokens;
      e.EncodeToken(End(reqStart.name));
      ChildrenConcat(ListItemsWrapper(BodyItemNodes(req.listItems)),
                     SharedListAndScope(req.sharedList, req.sharedEntityScope), t1, ta, t2);
      OperationAssemble(AddListItemsOperation(req), t0, t1, t2, e.tokens);
    } else {
      assert e.tokens + [] == e.tokens;
    }
  }

  /** The DeleteListItemsFromSharedListRequest block of the body encoder. */
  method EncodeDeleteListItemsBlock(e: Encoder, o: Option<DeleteListItemsFromSharedListRequest>)
    modifies e
    ensures e.tokens == old(e.tokens) + SerializeAll(DeleteListItemsBlock(o))
  {
    if o.Some? {
      var req := o.value;
      ghost var t0 := e.tokens;
      var reqStart := EncodeOperationStart(e, "DeleteListItemsFromSharedListRequest", req.namespace);
      ghost var t1 := e.tokens;
      EncodeIdArray(e, "ListItemIds", req.listItemIds);
      ghost var ta := e.tokens;
      EncodeSharedListAndScope(e, req.sharedList, req.sharedEntityScope);
      ghost var t2 := e.tokens;
      e.EncodeToken(End(reqStart.name));
      ChildrenConcat(IdArray("ListItemIds", req.listItemIds),
                     SharedListAndScope(req.sharedList, req.sharedEntityScope), t1, ta, t2);
      assert DeleteChildren(req) == IdArray("ListItemIds", req.listItemIds) + SharedListAndScope(req.sharedList, req.sharedEntityScope);
      OperationAssemble(DeleteListItemsOperation(req), t0, t1, t2, e.tokens);
    } else {
      assert e.tokens + [] == e.tokens;
    }
  }

  lemma BodyAssemble(b: CampaignManagementBody, start: StartElement,
                     t0: seq<Token>, t1: seq<Token>, t2: seq<Token>, t3: seq<Token>,
                     t4: seq<Token>, t5: seq<Token>, t6: seq<Token>, t7: seq<Token>)
    requires t1 == t0 + [Start(start)]
    requires t2 == t1 + SerializeAll(GetListItemsBlock(b.getListItemsBySharedListRequest))
    requires t3 == t2 + SerializeAll(GetSharedEntitiesBlock(b.getSharedEntitiesRequest))
    requires t4 == t3 + SerializeAll(AssociationsBlock(b.getSharedEntityAssociationsBySharedEntityIdsRequest))
    requires t5 == t4 + SerializeAll(AddListItemsBlock(b.addListItemsToSharedListRequest))
    requires t6 == t5 + SerializeAll(DeleteListItemsBlock(b.deleteListItemsFromSharedListRequest))
    requires t7 == t6 + [End(start.name)]
    ensures t7 == t0 + Serialize(BodyNode(b, start))
  {
    var o1 := GetListItemsBlock(b.getListItemsBySharedListRequest);
    var o2 := GetSharedEntitiesBlock(b.getSharedEntitiesRequest);
    var o3 := AssociationsBlock(b.getSharedEntityAssociationsBySharedEntityIdsRequest);
    var o4 := AddListItemsBlock(b.addListItemsToSharedListRequest);
    var o5 := DeleteListItemsBlock(b.deleteListItemsFromSharedListRequest);
    ChildrenConcat(o1, o2, t1, t2, t3);
    ChildrenConcat(o1 + o2, o3, t1, t3, t4);
    ChildrenConcat(o1 + o2 + o3, o4, t1, t4, t5);
    ChildrenConcat(o1 + o2 + o3 + o4, o5, t1, t5, t6);
    ElementAssemble(BodyNode(b, start), t0, t1, t6, t7);
  }

  /** CampaignManagementBody.MarshalXML. */
  method MarshalCampaignManagementBody(e: Encoder, b: CampaignManagementBody, start: StartElement)
    modifies e
    ensures e.tokens == old(e.tokens) + Serialize(BodyNode(b, start))
  {
    ghost var t0 := e.tokens;
    e.EncodeToken(Start(start));
    ghost var t1 := e.tokens;
    EncodeGetListItemsBlock(e, b.getListItemsBySharedListRequest);
    ghost var t2 := e.tokens;
    EncodeGetSharedEntitiesBlock(e, b.getSharedEntitiesRequest);
    ghost var t3 := e.tokens;
    EncodeAssociationsBlock(e, b.getSharedEntityAssociationsBySharedEntityIdsRequest);
    ghost var t4 := e.tokens;
    EncodeAddListItemsBlock(e, b.addListItemsToSharedListRequest);
    ghost var t5 := e.tokens;
    EncodeDeleteListItemsBlock(e, b.deleteListItemsFromSharedListRequest);
    ghost var t6 := e.tokens;
    e.EncodeToken(End(start.name));
    BodyAssemble(b, start, t0, t1, t2, t3, t4, t5, t6, e.tokens);
  }
}
