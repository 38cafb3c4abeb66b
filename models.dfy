/** The campaign-management records (campaignManagement/models): the shared
    list and list item entities, the five request records and their
    response records, the request body that carries them and the response
    envelope.  Go's named string types (EntityScope, SharedEntityType, ...)
    admit any string, so they are strings here, with the constants the
    package declares. */
module Models {
  import opened Wrappers
  import opened Soap

  /** Go's int64, the type of every id. */
  type Int64 = x: int | -0x8000_0000_0000_0000 <= x < 0x8000_0000_0000_0000

  type SOAPAction = string
  type EntityScope = string
  type SharedListItemType = string
  type SharedEntityType = string
  type EntityType = string

  const SOAPActionGetListItemsBySharedList: SOAPAction := "GetListItemsBySharedList"
  const SOAPActionGetSharedEntities: SOAPAction := "GetSharedEntities"
  const SOAPActionGetSharedEntityAssociationsBySharedEntityIds: SOAPAction := "GetSharedEntityAssociationsBySharedEntityIds"
  const SOAPActionAddListItemsToSharedList: SOAPAction := "AddListItemsToSharedList"
  const SOAPActionDeleteListItemsFromSharedList: SOAPAction := "DeleteListItemsFromSharedList"

  const EntityScopeAccount: EntityScope := "Account"
  const EntityScopeCustomer: EntityScope := "Customer"

  const SharedListItemTypeNegativeSite: SharedListItemType := "NegativeSite"
  const SharedListItemTypeNegativeKeyword: SharedListItemType := "NegativeKeyword"
  const SharedListItemTypeBrandItem: SharedListItemType := "BrandItem"

  const SharedEntityTypeNegativeKeywordList: SharedEntityType := "NegativeKeywordList"
  const SharedEntityTypePlacementExclusionList: SharedEntityType := "PlacementExclusionList"
  const SharedEntityTypeAccountNegativeKeywordList: SharedEntityType := "AccountNegativeKeywordList"
  const SharedEntityTypeAccountPlacementExclusionList: SharedEntityType := "AccountPlacementExclusionList"
  const SharedEntityTypeAccountPlacementInclusionList: SharedEntityType := "AccountPlacementInclusionList"
  const SharedEntityTypeBrandList: SharedEntityType := "BrandList"

  const EntityTypeCampaign: EntityType := "Campaign"
  const EntityTypeAccount: EntityType := "Account"

  /** The namespace of the array items in id arrays (prefix a1). */
  const SerializationArraysNamespace := "http://schemas.microsoft.com/2003/10/Serialization/Arrays"

  datatype KeyValuePairOfstringstring = KeyValuePair(key: string, value: string)

  /** The common shared-entity record.  Go field Type is `kind` here. */
  datatype SharedEntity = SharedEntity(
    associationCount: int,
    forwardCompatibilityMap: seq<KeyValuePairOfstringstring>,
    id: Int64,
    name: string,
    kind: string,
    itemCount: int)

  /** A shared list: the embedded SharedEntity, the list's own ItemCount
      (which shadows the embedded one) and ItemType, the `i:type`
      discriminator. */
  datatype SharedList = SharedList(entity: SharedEntity, itemCount: int, itemType: string)

  /** A shared list item.  Go field Type (the item kind) is `kind` here;
      ItemType is the `i:type` discriminator. */
  datatype SharedListItem = SharedListItem(
    kind: SharedListItemType,
    forwardCompatibilityMap: seq<KeyValuePairOfstringstring>,
    itemType: string,
    id: Int64,
    matchType: string,
    text: string,
    url: string,
    brandId: Int64)

  datatype GetListItemsBySharedListRequest = GetListItemsBySharedListRequest(
    namespace: string,
    sharedList: SharedList,
    sharedEntityScope: EntityScope)

  datatype GetSharedEntitiesRequest = GetSharedEntitiesRequest(
    namespace: string,
    sharedEntityType: SharedEntityType,
    sharedEntityScope: EntityScope)

  datatype GetSharedEntityAssociationsBySharedEntityIdsRequest = GetSharedEntityAssociationsBySharedEntityIdsRequest(
    namespace: string,
    entityType: EntityType,
    sharedEntityIds: seq<Int64>,
    sharedEntityType: SharedEntityType,
    sharedEntityScope: EntityScope)

  datatype AddListItemsToSharedListRequest = AddListItemsToSharedListRequest(
    namespace: string,
    listItems: seq<SharedListItem>,
    sharedList: SharedList,
    sharedEntityScope: EntityScope)

  datatype DeleteListItemsFromSharedListRequest = DeleteListItemsFromSharedListRequest(
    namespace: string,
    listItemIds: seq<Int64>,
    sharedList: SharedList,
    sharedEntityScope: EntityScope)

  /** The request body: one optional (nil-able) pointer per operation. */
  datatype CampaignManagementBody = CampaignManagementBody(
    getListItemsBySharedListRequest: Option<GetListItemsBySharedListRequest>,
    getSharedEntitiesRequest: Option<GetSharedEntitiesRequest>,
    getSharedEntityAssociationsBySharedEntityIdsRequest: Option<GetSharedEntityAssociationsBySharedEntityIdsRequest>,
    addListItemsToSharedListRequest: Option<AddListItemsToSharedListRequest>,
    deleteListItemsFromSharedListRequest: Option<DeleteListItemsFromSharedListRequest>)

  datatype SharedEntityAssociation = SharedEntityAssociation(
    entityId: Int64,
    entityType: EntityType,
    sharedEntityCustomerId: string,
    sharedEntityId: Int64,
    sharedEntityType: SharedEntityType)

  /** A per-item failure of a batch call. */
  datatype BatchError = BatchError(
    code: int,
    details: Option<string>,
    errorCode: string,
    fieldPath: Option<string>,
    forwardCompatibilityMap: Option<seq<KeyValuePairOfstringstring>>,
    index: int,
    message: string,
    kind: string)

  datatype GetListItemsBySharedListResponse = GetListItemsBySharedListResponse(
    namespace: string,
    listItems: seq<SharedListItem>)

  datatype GetSharedEntitiesResponse = GetSharedEntitiesResponse(
    namespace: string,
    sharedEntities: seq<SharedEntity>)

  datatype GetSharedEntityAssociationsBySharedEntityIdsResponse = GetSharedEntityAssociationsBySharedEntityIdsResponse(
    namespace: string,
    associations: seq<SharedEntityAssociation>,
    partialErrors: seq<BatchError>)

  datatype AddListItemsToSharedListResponse = AddListItemsToSharedListResponse(
    namespace: string,
    listItemIds: seq<Int64>,
    partialErrors: seq<BatchError>)

  datatype DeleteListItemsFromSharedListResponse = DeleteListItemsFromSharedListResponse(
    namespace: string,
    partialErrors: seq<BatchError>)

  /** The response body: an optional Fault and one optional response per operation. */
  datatype CampaignManagementResponseBody = CampaignManagementResponseBody(
    fault: Option<Fault>,
    getListItemsBySharedListResponse: Option<GetListItemsBySharedListResponse>,
    getSharedEntitiesResponse: Option<GetSharedEntitiesResponse>,
    getSharedEntityAssociationsBySharedEntityIdsResponse: Option<GetSharedEntityAssociationsBySharedEntityIdsResponse>,
    addListItemsToSharedListResponse: Option<AddListItemsToSharedListResponse>,
    deleteListItemsFromSharedListResponse: Option<DeleteListItemsFromSharedListResponse>)

  datatype CampaignManagementResponseEnvelope = CampaignManagementResponseEnvelope(
    xmlnsS: string,
    header: ResponseHeader,
    body: CampaignManagementResponseBody)
}
