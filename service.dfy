/** The shared-list service (campaignManagement/service/shared_list_service.go):
    resolving which kind of shared list the caller passed, stamping its tag
    on the list, back-filling list items' discriminators, assembling the
    request and the body, and projecting the operation's result out of the
    processed response. */
module SharedListService {
  import opened Wrappers
  import opened Xml
  import opened Soap
  import opened Models
  import opened Errors
  import opened Environment
  import opened ServiceClient
  import opened SharedListEncoding

  /** What a caller may pass where the service takes `sharedList any`: one
      of the six wrapper kinds, a plain SharedList, or a value of any other
      type, known here by the name `%T` prints for it. */
  datatype SharedListArgument =
    | NegativeKeywordList(list: SharedList)
    | PlacementExclusionList(list: SharedList)
    | AccountNegativeKeywordList(list: SharedList)
    | BrandList(list: SharedList)
    | AccountPlacementExclusionList(list: SharedList)
    | AccountPlacementInclusionList(list: SharedList)
    | PlainSharedList(list: SharedList)
    | OtherType(typeName: string)

  /** The type switch and the `ItemType` stamping that follows it (the same
      in all three list operations). */
  function ResolveSharedList(arg: SharedListArgument): (r: Result<SharedList, Error>)
    ensures r.Failure? <==> arg.OtherType?
    ensures arg.OtherType? ==> r.error == OtherError("不支持的共享列表类型: " + arg.typeName)
    // nothing but the tag changes
    ensures r.Success? ==> r.value == arg.list.(itemType := r.value.itemType)
  {
    if arg.OtherType? then Failure(OtherError("不支持的共享列表类型: " + arg.typeName))
    else
      var sharedListType := match arg
        case NegativeKeywordList(_) => "NegativeKeywordList"
        case PlacementExclusionList(_) => "PlacementExclusionList"
        case AccountNegativeKeywordList(_) => "AccountNegativeKeywordList"
        case BrandList(_) => "BrandList"
        case AccountPlacementExclusionList(_) => "AccountPlacementExclusionList"
        case AccountPlacementInclusionList(_) => "AccountPlacementInclusionList"
        case PlainSharedList(list) => list.itemType;
      Success(arg.list.(itemType := sharedListType))
  }

  /** Each wrapper kind gets the shared-entity type of that name as its
      tag; a plain SharedList keeps its own ItemType, empty or not. */
  lemma ResolvedTags(l: SharedList)
    ensures ResolveSharedList(NegativeKeywordList(l)).value.itemType == SharedEntityTypeNegativeKeywordList
    ensures ResolveSharedList(PlacementExclusionList(l)).value.itemType == SharedEntityTypePlacementExclusionList
    ensures ResolveSharedList(AccountNegativeKeywordList(l)).value.itemType == SharedEntityTypeAccountNegativeKeywordList
    ensures ResolveSharedList(BrandList(l)).value.itemType == SharedEntityTypeBrandList
    ensures ResolveSharedList(AccountPlacementExclusionList(l)).value.itemType == SharedEntityTypeAccountPlacementExclusionList
    ensures ResolveSharedList(AccountPlacementInclusionList(l)).value.itemType == SharedEntityTypeAccountPlacementInclusionList
    ensures ResolveSharedList(PlainSharedList(l)) == Success(l)
  {
  }

  // ----------------------------------------------------------------------
  // Item back-fill

  /** One step of the back-fill loop: an empty ItemType takes the item's Type. */
  function BackFilled(item: SharedListItem): (r: SharedListItem)
    ensures r == item.(itemType := r.itemType)
    ensures item.itemType != "" ==> r == item
    ensures item.itemType == "" ==> r.itemType == item.kind
  {
    if item.itemType == "" then item.(itemType := item.kind) else item
  }

  function BackFillAll(items: seq<SharedListItem>): (rs: seq<SharedListItem>)
    ensures |rs| == |items|
    ensures forall i :: 0 <= i < |items| ==> rs[i] == BackFilled(items[i])
  {
    seq(|items|, i requires 0 <= i < |items| => BackFilled(items[i]))
  }

  /** The loop over the caller's slice, which it updates in place. */
  method BackFillItemTypes(listItems: array<SharedListItem>)
    modifies listItems
    ensures listItems[..] == BackFillAll(old(listItems[..]))
  {
    for i := 0 to listItems.Length
      invariant forall j :: 0 <= j < i ==> listItems[j] == BackFilled(old(listItems[j]))
      invariant forall j :: i <= j < listItems.Length ==> listItems[j] == old(listItems[j])
    {
      if listItems[i].itemType == "" {
        listItems[i] := listItems[i].(itemType := listItems[i].kind);
      }
    }
  }

  /** Back-filling twice changes nothing more. */
  lemma BackFillIdempotent(items: seq<SharedListItem>)
    ensures BackFillAll(BackFillAll(items)) == BackFillAll(items)
  {
  }

  /** After the back-fill an item's discriminator is its ItemType, so the
      request encoder's inline items and SharedListItem.MarshalXML agree. */
  lemma BackFillSettlesDiscriminator(item: SharedListItem)
    ensures Discriminator(BackFilled(item)) == BackFilled(item).itemType
    ensures InlineItemNode(BackFilled(item)) == SharedListItemNode(BackFilled(item), StartElement("SharedListItem", []))
  {
    InlineItemAgreesIffNoBackFill(BackFilled(item));
  }

  // ----------------------------------------------------------------------
  // Operations, requests and bodies

  datatype Operation =
    | GetListItemsBySharedListOp
    | GetSharedEntitiesOp
    | GetSharedEntityAssociationsBySharedEntityIdsOp
    | AddListItemsToSharedListOp
    | DeleteListItemsFromSharedListOp

  /** The SOAPAction each operation uses, for the header and for the post. */
  function Action(op: Operation): SOAPAction
  {
    match op
    case GetListItemsBySharedListOp => SOAPActionGetListItemsBySharedList
    case GetSharedEntitiesOp => SOAPActionGetSharedEntities
    case GetSharedEntityAssociationsBySharedEntityIdsOp => SOAPActionGetSharedEntityAssociationsBySharedEntityIds
    case AddListItemsToSharedListOp => SOAPActionAddListItemsToSharedList
    case DeleteListItemsFromSharedListOp => SOAPActionDeleteListItemsFromSharedList
  }

  lemma ActionsDistinct(op: Operation, op': Operation)
    requires op != op'
    ensures Action(op) != Action(op')
  {
  }

  /** The requests a body carries. */
  function PresentOperations(b: CampaignManagementBody): set<Operation>
  {
    (if b.getListItemsBySharedListRequest.Some? then {GetListItemsBySharedListOp} else {})
    + (if b.getSharedEntitiesRequest.Some? then {GetSharedEntitiesOp} else {})
    + (if b.getSharedEntityAssociationsBySharedEntityIdsRequest.Some? then {GetSharedEntityAssociationsBySharedEntityIdsOp} else {})
    + (if b.addListItemsToSharedListRequest.Some? then {AddListItemsToSharedListOp} else {})
    + (if b.deleteListItemsFromSharedListRequest.Some? then {DeleteListItemsFromSharedListOp} else {})
  }

  /** Whether a response body carries the operation's response. */
  predicate Answered(op: Operation, b: CampaignManagementResponseBody)
  {
    match op
    case GetListItemsBySharedListOp => b.getListItemsBySharedListResponse.Some?
    case GetSharedEntitiesOp => b.getSharedEntitiesResponse.Some?
    case GetSharedEntityAssociationsBySharedEntityIdsOp => b.getSharedEntityAssociationsBySharedEntityIdsResponse.Some?
    case AddListItemsToSharedListOp => b.addListItemsToSharedListResponse.Some?
    case DeleteListItemsFromSharedListOp => b.deleteListItemsFromSharedListResponse.Some?
  }

  const NoRequests := CampaignManagementBody(None, None, None, None, None)

  function GetListItemsBody(list: SharedList, scope: EntityScope): (b: CampaignManagementBody)
    ensures PresentOperations(b) == {GetListItemsBySharedListOp}
    ensures var req := b.getListItemsBySharedListRequest.value;
            req.namespace == CampaignManagementNamespace && req.sharedList == list && req.sharedEntityScope == scope
  {
    NoRequests.(getListItemsBySharedListRequest := Some(GetListItemsBySharedListRequest(CampaignManagementNamespace, list, scope)))
  }

  function GetSharedEntitiesBody(entityType: SharedEntityType, scope: EntityScope): (b: CampaignManagementBody)
    ensures PresentOperations(b) == {GetSharedEntitiesOp}
    ensures var req := b.getSharedEntitiesRequest.value;
            req.namespace == CampaignManagementNamespace && req.sharedEntityType == entityType && req.sharedEntityScope == scope
  {
    NoRequests.(getSharedEntitiesRequest := Some(GetSharedEntitiesRequest(CampaignManagementNamespace, entityType, scope)))
  }

  function AssociationsBody(entityType: EntityType, ids: seq<Int64>, sharedEntityType: SharedEntityType, scope: EntityScope): (b: CampaignManagementBody)
    ensures PresentOperations(b) == {GetSharedEntityAssociationsBySharedEntityIdsOp}
    ensures var req := b.getSharedEntityAssociationsBySharedEntityIdsRequest.value;
            && req.namespace == CampaignManagementNamespace && req.entityType == entityType
            && req.sharedEntityIds == ids && req.sharedEntityType == sharedEntityType && req.sharedEntityScope == scope
  {
    NoRequests.(getSharedEntityAssociationsBySharedEntityIdsRequest :=
      Some(GetSharedEntityAssociationsBySharedEntityIdsRequest(CampaignManagementNamespace, entityType, ids, sharedEntityType, scope)))
  }

  function AddListItemsBody(list: SharedList, items: seq<SharedListItem>, scope: EntityScope): (b: CampaignManagementBody)
    ensures PresentOperations(b) == {AddListItemsToSharedListOp}
    ensures var req := b.addListItemsToSharedListRequest.value;
            && req.namespace == CampaignManagementNamespace && req.listItems == items
            && req.sharedList == list && req.sharedEntityScope == scope
  {
    NoRequests.(addListItemsToSharedListRequest := Some(AddListItemsToSharedListRequest(CampaignManagementNamespace, items, list, scope)))
  }

  function DeleteListItemsBody(list: SharedList, ids: seq<Int64>, scope: EntityScope): (b: CampaignManagementBody)
    ensures PresentOperations(b) == {DeleteListItemsFromSharedListOp}
    ensures var req := b.deleteListItemsFromSharedListRequest.value;
            && req.namespace == CampaignManagementNamespace && req.listItemIds == ids
            && req.sharedList == list && req.sharedEntityScope == scope
  {
    NoRequests.(deleteListItemsFromSharedListRequest := Some(DeleteListItemsFromSharedListRequest(CampaignManagementNamespace, ids, list, scope)))
  }

  // ----------------------------------------------------------------------
  // The exchange shared by all operations

  /** The envelope an operation sends: header for the operation's action
      with mustUnderstand "1", and the body. */
  function OperationEnvelope(c: Client, op: Operation, body: CampaignManagementBody): (env: Envelope<CampaignManagementBody>)
    requires c.config.auth.Some?
    ensures env.header == CreateRequestHeader(c, Action(op), "1")
    ensures env.header.action == Action(op) && env.header.mustUnderstand == "1"
    ensures env.body == Some(body)
  {
    CreateEnvelope(c, Action(op), "1").(body := Some(body))
  }

  /** Send, then process the response.  The service parses the response
      into the same envelope type both times, so both parse results are
      the one Unmarshal gives. */
  function Exchange(c: Client, op: Operation, body: CampaignManagementBody): (r: Result<CampaignManagementResponseEnvelope, Error>)
    requires c.config.auth.Some?
    // transport errors come back unchanged
    ensures SendRequest(c, OperationEnvelope(c, op, body), Action(op)).Failure? ==>
      r == Failure(SendRequest(c, OperationEnvelope(c, op, body), Action(op)).error)
    // once the post succeeds, the outcome is processResponse's, error or value
    ensures SendRequest(c, OperationEnvelope(c, op, body), Action(op)).Success? ==>
      var parsed := c.unmarshal(SendRequest(c, OperationEnvelope(c, op, body), Action(op)).value);
      r == ProcessResponse(parsed, parsed)
    ensures r.Success? ==>
      && SendRequest(c, OperationEnvelope(c, op, body), Action(op)).Success?
      && c.unmarshal(SendRequest(c, OperationEnvelope(c, op, body), Action(op)).value) == Success(r.value)
      && r.value.body.fault.None?
  {
    match SendRequest(c, OperationEnvelope(c, op, body), Action(op))
    case Failure(err) => Failure(err)
    case Success(respBody) =>
      var parsed := c.unmarshal(respBody);
      ProcessResponse(parsed, parsed)
  }

  /** The projection `response.Body.<Operation>Response` dereferences the
      pointer without a check; callers need the response to carry it. */
  predicate Responds(c: Client, op: Operation, body: CampaignManagementBody)
    requires c.config.auth.Some?
  {
    Exchange(c, op, body).Success? ==> Answered(op, Exchange(c, op, body).value.body)
  }

  /** The post goes out with the operation's own SOAPAction: a transport
      that agrees with the client's on that one call gives the same outcome. */
  lemma ExchangePostsWithAction(c: Client, op: Operation, body: CampaignManagementBody,
                                post: (string, string, string) -> Result<string, Error>)
    requires c.config.auth.Some?
    requires c.marshal(OperationEnvelope(c, op, body)).Success?
    requires var bytes := RequestBytes(c.marshal(OperationEnvelope(c, op, body)).value);
             post(GetCampaignEndpoint(c.config.api), Action(op), bytes) == c.post(GetCampaignEndpoint(c.config.api), Action(op), bytes)
    ensures Exchange(c.(post := post), op, body) == Exchange(c, op, body)
  {
    assert OperationEnvelope(c.(post := post), op, body) == OperationEnvelope(c, op, body);
  }

  // ----------------------------------------------------------------------
  // The five operations

  function GetListItemsBySharedList(c: Client, sharedList: SharedListArgument, scope: EntityScope): (r: Result<seq<SharedListItem>, Error>)
    requires c.config.auth.Some?
    requires ResolveSharedList(sharedList).Success? ==>
      Responds(c, GetListItemsBySharedListOp, GetListItemsBody(ResolveSharedList(sharedList).value, scope))
    ensures ResolveSharedList(sharedList).Failure? ==> r == Failure(ResolveSharedList(sharedList).error)
    ensures ResolveSharedList(sharedList).Success? ==>
      var ex := Exchange(c, GetListItemsBySharedListOp, GetListItemsBody(ResolveSharedList(sharedList).value, scope));
      && (ex.Failure? ==> r == Failure(ex.error))
      && (ex.Success? ==> r == Success(ex.value.body.getListItemsBySharedListResponse.value.listItems))
  {
    match ResolveSharedList(sharedList)
    case Failure(err) => Failure(err)
    case Success(list) =>
      match Exchange(c, GetListItemsBySharedListOp, GetListItemsBody(list, scope))
      case Failure(err) => Failure(err)
      case Success(response) => Success(response.body.getListItemsBySharedListResponse.value.listItems)
  }

  function GetSharedEntities(c: Client, entityType: SharedEntityType, scope: EntityScope): (r: Result<seq<SharedEntity>, Error>)
    requires c.config.auth.Some?
    requires Responds(c, GetSharedEntitiesOp, GetSharedEntitiesBody(entityType, scope))
    ensures var ex := Exchange(c, GetSharedEntitiesOp, GetSharedEntitiesBody(entityType, scope));
      && (ex.Failure? ==> r == Failure(ex.error))
      && (ex.Success? ==> r == Success(ex.value.body.getSharedEntitiesResponse.value.sharedEntities))
  {
    match Exchange(c, GetSharedEntitiesOp, GetSharedEntitiesBody(entityType, scope))
    case Failure(err) => Failure(err)
    case Success(response) => Success(response.body.getSharedEntitiesResponse.value.sharedEntities)
  }

  function GetSharedEntityAssociationsBySharedEntityIds(
    c: Client, entityType: EntityType, sharedEntityIds: seq<Int64>, sharedEntityType: SharedEntityType, scope: EntityScope)
    : (r: Result<(seq<SharedEntityAssociation>, seq<BatchError>), Error>)
    requires c.config.auth.Some?
    requires Responds(c, GetSharedEntityAssociationsBySharedEntityIdsOp, AssociationsBody(entityType, sharedEntityIds, sharedEntityType, scope))
    ensures var ex := Exchange(c, GetSharedEntityAssociationsBySharedEntityIdsOp, AssociationsBody(entityType, sharedEntityIds, sharedEntityType, scope));
      && (ex.Failure? ==> r == Failure(ex.error))
      && (ex.Success? ==>
            var resp := ex.value.body.getSharedEntityAssociationsBySharedEntityIdsResponse.value;
            r == Success((resp.associations, resp.partialErrors)))
  {
    match Exchange(c, GetSharedEntityAssociationsBySharedEntityIdsOp, AssociationsBody(entityType, sharedEntityIds, sharedEntityType, scope))
    case Failure(err) => Failure(err)
    case Success(response) =>
      var resp := response.body.getSharedEntityAssociationsBySharedEntityIdsResponse.value;
      Success((resp.associations, resp.partialErrors))
  }

  /** The outcome of AddListItemsToSharedList for the items as the caller
      passed them (before the back-fill). */
  function AddListItemsResult(c: Client, sharedList: SharedListArgument, listItems: seq<SharedListItem>, scope: EntityScope)
    : (r: Result<(seq<Int64>, seq<BatchError>), Error>)
    requires c.config.auth.Some?
    requires ResolveSharedList(sharedList).Success? ==>
      Responds(c, AddListItemsToSharedListOp, AddListItemsBody(ResolveSharedList(sharedList).value, BackFillAll(listItems), scope))
    ensures ResolveSharedList(sharedList).Failure? ==> r == Failure(ResolveSharedList(sharedList).error)
    ensures ResolveSharedList(sharedList).Success? ==>
      var ex := Exchange(c, AddListItemsToSharedListOp, AddListItemsBody(ResolveSharedList(sharedList).value, BackFillAll(listItems), scope));
      && (ex.Failure? ==> r == Failure(ex.error))
      && (ex.Success? ==>
            var resp := ex.value.body.addListItemsToSharedListResponse.value;
            r == Success((resp.listItemIds, resp.partialErrors)))
  {
    match ResolveSharedList(sharedList)
    case Failure(err) => Failure(err)
    case Success(list) =>
      match Exchange(c, AddListItemsToSharedListOp, AddListItemsBody(list, BackFillAll(listItems), scope))
      case Failure(err) => Failure(err)
      case Success(response) =>
        var resp := response.body.addListItemsToSharedListResponse.value;
        Success((resp.listItemIds, resp.partialErrors))
  }

  /** AddListItemsToSharedList: the caller's items are back-filled in place
      once the list kind is accepted, and left alone otherwise. */
  method AddListItemsToSharedList(c: Client, sharedList: SharedListArgument, listItems: array<SharedListItem>, scope: EntityScope)
    returns (r: Result<(seq<Int64>, seq<BatchError>), Error>)
    requires c.config.auth.Some?
    requires ResolveSharedList(sharedList).Success? ==>
      Responds(c, AddListItemsToSharedListOp, AddListItemsBody(ResolveSharedList(sharedList).value, BackFillAll(listItems[..]), scope))
    modifies listItems
    ensures ResolveSharedList(sharedList).Failure? ==> listItems[..] == old(listItems[..])
    ensures ResolveSharedList(sharedList).Success? ==> listItems[..] == BackFillAll(old(listItems[..]))
    ensures r == AddListItemsResult(c, sharedList, old(listItems[..]), scope)
  {
    var resolved := ResolveSharedList(sharedList);
    if resolved.Failure? {
      return Failure(resolved.error);
    }
    var sharedListObj := resolved.value;
    BackFillItemTypes(listItems);
    var request := AddListItemsBody(sharedListObj, listItems[..], scope);
    var exchanged := Exchange(c, AddListItemsToSharedListOp, request);
    if exchanged.Failure? {
      return Failure(exchanged.error);
    }
    var resp := exchanged.value.body.addListItemsToSharedListResponse.value;
    r := Success((resp.listItemIds, resp.partialErrors));
  }

  function DeleteListItemsFromSharedList(c: Client, sharedList: SharedListArgument, listItemIds: seq<Int64>, scope: EntityScope)
    : (r: Result<seq<BatchError>, Error>)
    requires c.config.auth.Some?
    requires ResolveSharedList(sharedList).Success? ==>
      Responds(c, DeleteListItemsFromSharedListOp, DeleteListItemsBody(ResolveSharedList(sharedList).value, listItemIds, scope))
    ensures ResolveSharedList(sharedList).Failure? ==> r == Failure(ResolveSharedList(sharedList).error)
    ensures ResolveSharedList(sharedList).Success? ==>
      var ex := Exchange(c, DeleteListItemsFromSharedListOp, DeleteListItemsBody(ResolveSharedList(sharedList).value, listItemIds, scope));
      && (ex.Failure? ==> r == Failure(ex.error))
      && (ex.Success? ==> r == Success(ex.value.body.deleteListItemsFromSharedListResponse.value.partialErrors))
  {
    match ResolveSharedList(sharedList)
    case Failure(err) => Failure(err)
    case Success(list) =>
      match Exchange(c, DeleteListItemsFromSharedListOp, DeleteListItemsBody(list, listItemIds, scope))
      case Failure(err) => Failure(err)
      case Success(response) => Success(response.body.deleteListItemsFromSharedListResponse.value.partialErrors)
  }

  /** An unsupported list kind fails the same way whatever the client
      would answer: nothing is sent. */
  lemma UnsupportedKindSendsNothing(c: Client, c': Client, typeName: string, scope: EntityScope, ids: seq<Int64>)
    requires c.config.auth.Some? && c'.config.auth.Some?
    ensures GetListItemsBySharedList(c, OtherType(typeName), scope) == GetListItemsBySharedList(c', OtherType(typeName), scope)
    ensures DeleteListItemsFromSharedList(c, OtherType(typeName), ids, scope) == DeleteListItemsFromSharedList(c', OtherType(typeName), ids, scope)
    ensures GetListItemsBySharedList(c, OtherType(typeName), scope).Failure?
  {
  }
}
