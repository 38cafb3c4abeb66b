# Shared-list requests of the Bing Ads campaign-management client

This project is a Dafny model of the part of the Go library
`vancevox/bingads-go` that talks to the Campaign Management service about
shared lists (negative keyword lists, placement exclusion lists, brand
lists, …). The model covers:

- **Wire encoding.** The hand-written `MarshalXML` methods turn the library's records into
  SOAP 1.1 XML, one token at a time:
  - `SharedList`;
  - `SharedListItem`;
  - the five request types;
  - `CampaignManagementBody`, which is the encoder the send path actually uses.

  Each encoder is an imperative method that appends tokens to an `Encoder`
  object. It is proved to write exactly the serialisation of an element tree
  given by a function, and the properties are proved about those trees and
  token sequences:
  - which attributes appear (the `i:type` discriminator from section 2.6.1 of
    XML Schema Part 1, the `xmlns` and `xmlns:a1` declarations);
  - which fields are omitted when empty;
  - child order;
  - id arrays, which read back as the ids written;
  - well-nestedness, or for some request encoders the lack of it.
- **The shared-list service.**
  - It resolves which kind of list the caller passed.
  - It stamps the list's tag.
  - It back-fills item discriminators in the caller's slice, in place.
  - It builds a body carrying exactly one request.
  - Each operation sends under its own SOAP action and projects its result.
- **The SOAP client.**
  - It builds the request header and envelope from the configuration.
  - It forms the bytes it hands to the transport.
  - It decides how a response is turned into an error or a result: a generic
    parse failure, a fault with its message, or a typed parse.
- **Configuration and errors.**
  - Endpoint selection and the defaults.
  - Credential validation.
  - The library's error type, its text and its three classifiers.

The XML library, the HTTP client and the response parser are collaborators
that are not modelled. The client holds them as function-valued fields
(`marshal`, `post`, `unmarshal`), and the proofs hold for every choice of
them. Bytes are modelled as text.

Modules:
- `Xml` (xml.dfy): tokens, element trees, serialisation, the nesting check
  and the `Encoder` class.
- `Decimal` (decimal.dfy): `%d` for integers and its inverse.
- `Models` (models.dfy): the records.
- `Soap` (soap.dfy): the envelope and fault records.
- `SharedListEncoding` (shared_list_encoding.dfy): shared_list.go.
- `BodyEncoding` (body_encoding.dfy): base.go.
- `SharedListService` (service.dfy): shared_list_service.go.
- `ServiceClient` (client.dfy): client.go.
- `Environment`, `Auth` and `Errors`: the config and base packages.
- `Wrappers`: Option and Result.

## Model

| member | source | states |
|---|---|---|
| Decimal.DecimalString | campaignManagement/models/shared_list.go:166 | `%d` text is non-empty, starts with '-' exactly for negative values, and the rest is digits |
| Decimal.DecimalRoundTrip | campaignManagement/models/shared_list.go:166 | the `%d` text of an id reads back as that id |
| Decimal.DecimalInjective | campaignManagement/models/shared_list.go:166 | distinct ids never get the same text |
| SharedListEncoding.ForwardCompatibilityMapNode | campaignManagement/models/shared_list.go:112-158 | one KeyValuePairOfstringstring child per map entry, in input order, holding key then value |
| SharedListEncoding.EncodeForwardCompatibilityMap | campaignManagement/models/shared_list.go:112-158 | the loop appends exactly the tokens of that map element |
| SharedListEncoding.IdArray | campaignManagement/models/shared_list.go:555-585 | nothing for no ids; otherwise one wrapper whose only attribute is `xmlns:a1` set to the Serialization/Arrays namespace, holding one `a1:long` per id |
| SharedListEncoding.ReadLongsOfIds | campaignManagement/models/shared_list.go:569-582 | the `a1:long` children read back as the ids, in order |
| SharedListEncoding.LongNodeReads | campaignManagement/models/shared_list.go:570-580 | one `a1:long` element reads back as its id |
| SharedListEncoding.IdArrayRoundTrip | campaignManagement/models/shared_list.go:555-585 | an id array, empty or not, reads back as exactly the ids written |
| SharedListEncoding.EncodeIdArray | campaignManagement/models/shared_list.go:883-914 | the loop appends exactly the tokens of the id array for the ids |
| SharedListEncoding.SharedListFollowsSchema | campaignManagement/models/shared_list.go:111-185 | the children MarshalXML writes agree with the schema's field order FCM, Id, Name under the omission rule |
| SharedListEncoding.SharedListFieldWrittenIff | campaignManagement/models/shared_list.go:111-185 | a SharedList has a child for a field exactly when it is written: the map when non-empty, Id always, Name when non-empty |
| SharedListEncoding.SharedListIgnoresUnwrittenFields | campaignManagement/models/shared_list.go:92-193 | AssociationCount, the entity's Type and both ItemCounts are never written: changing them leaves the element unchanged |
| SharedListEncoding.SharedListNode | campaignManagement/models/shared_list.go:94-104 | the caller's attributes are kept first; one `i:type` equal to ItemType follows exactly when ItemType is set |
| SharedListEncoding.SharedListDiscriminator | campaignManagement/models/shared_list.go:94-104 | `i:type` is present iff ItemType is non-empty, and no `xmlns:i` is added |
| SharedListEncoding.MarshalSharedList | campaignManagement/models/shared_list.go:92-193 | appends exactly the tokens of the SharedList element for the given start tag |
| SharedListEncoding.EncodeSharedListFields | campaignManagement/models/shared_list.go:111-185 | appends the tokens of the SharedList children in schema order |
| SharedListEncoding.ItemSchemaNames | campaignManagement/models/shared_list.go:266-347 | among the first k fields of the wire order, a field's element is written iff that field is non-zero |
| SharedListEncoding.ItemFieldWrittenIff | campaignManagement/models/shared_list.go:266-347 | a list item has a child for a field exactly when the field is non-zero |
| SharedListEncoding.Discriminator | campaignManagement/models/shared_list.go:196-200 | ItemType when set, otherwise Type; non-empty exactly when either is set |
| SharedListEncoding.SharedListItemNode | campaignManagement/models/shared_list.go:196-209 | the discriminator is ItemType if set, else Type if set, else absent; the caller's attributes come first |
| SharedListEncoding.EncodeItemFields | campaignManagement/models/shared_list.go:266-347 | appends the item children in the order FCM, Type, Id, MatchType, Text, Url, BrandId |
| SharedListEncoding.MarshalSharedListItem | campaignManagement/models/shared_list.go:196-355 | appends exactly the tokens of the item element; the caller's item value is not changed |
| SharedListEncoding.NegativeSiteItemWritesTypeAndUrl | campaignManagement/models/shared_list.go:266-347 | a NegativeSite item with only Url set writes just Type and Url, with `i:type` NegativeSite |
| SharedListEncoding.ListEncodersWellNested | campaignManagement/models/shared_list.go:92-355 | both list encoders write well-nested tokens: the outer start first, its end last |
| SharedListEncoding.SharedListAndScope | campaignManagement/models/shared_list.go:374-392 | SharedList is followed by SharedEntityScope, always written even when empty |
| SharedListEncoding.SharedListWithoutNamespace | campaignManagement/models/shared_list.go:375-376 | a SharedList under its plain start tag declares no `xmlns` |
| SharedListEncoding.EncodeEmptyElement | campaignManagement/models/shared_list.go:370 | `EncodeElement(struct{}{}, start)` writes the start tag and its end tag only |
| SharedListEncoding.GetListItemsRequestTokens | campaignManagement/models/shared_list.go:358-399 | the request's tokens: operation start, an empty element of the same name with `xmlns`, SharedList, scope, one end |
| SharedListEncoding.GetListItemsRequestNamespaceOnEmptyChild | campaignManagement/models/shared_list.go:359-371 | the namespace sits only on an empty sibling; the operation element and its SharedList and scope children have no `xmlns` |
| SharedListEncoding.MarshalGetListItemsBySharedListRequest | campaignManagement/models/shared_list.go:358-399 | appends exactly the tokens of that request tree |
| SharedListEncoding.EncodeReopenedStart | campaignManagement/models/shared_list.go:430-444 | the bare start tag, then, with a Namespace, a second start tag of the same name with `xmlns` appended |
| SharedListEncoding.ReopenedOperationLeavesOneOpen | campaignManagement/models/shared_list.go:430-470 | without a Namespace the stream is the ordinary element; with one, exactly the operation element stays open and the stream is not well-nested |
| SharedListEncoding.GetSharedEntitiesChildren | campaignManagement/models/shared_list.go:446-469 | SharedEntityType then SharedEntityScope, both always written with their text |
| SharedListEncoding.GetSharedEntitiesRequestLeavesOperationOpen | campaignManagement/models/shared_list.go:430-470 | with a Namespace, one start tag is still open after the last token |
| SharedListEncoding.MarshalGetSharedEntitiesRequest | campaignManagement/models/shared_list.go:429-475 | appends exactly the request's token stream |
| SharedListEncoding.AssociationsChildren | campaignManagement/models/shared_list.go:542-612 | EntityType, SharedEntityIds only for ids, SharedEntityType, SharedEntityScope; the ids read back |
| SharedListEncoding.AssociationsRequestLeavesOperationOpen | campaignManagement/models/shared_list.go:526-611 | with a Namespace, one start tag is still open after the last token |
| SharedListEncoding.MarshalGetSharedEntityAssociationsBySharedEntityIdsRequest | campaignManagement/models/shared_list.go:525-616 | appends exactly the request's token stream |
| SharedListEncoding.ListItemsWrapper | campaignManagement/models/shared_list.go:654-658 | the ListItems wrapper is written only for a non-empty item list |
| SharedListEncoding.InlineItemNode | campaignManagement/models/shared_list.go:660-673 | the inline item's discriminator is ItemType alone, never from Type; its children are the item's |
| SharedListEncoding.InlineItemAgreesIffNoBackFill | campaignManagement/models/shared_list.go:660-673 | the inline encoding equals SharedListItem.MarshalXML exactly when ItemType is set or Type is empty |
| SharedListEncoding.EncodeInlineItem | campaignManagement/models/shared_list.go:660-814 | appends exactly the inline item's tokens |
| SharedListEncoding.EncodeInlineListItems | campaignManagement/models/shared_list.go:654-821 | appends the ListItems wrapper with every item in order, or nothing |
| SharedListEncoding.AddInlineChildren | campaignManagement/models/shared_list.go:653-839 | ListItems only for items, then SharedList, then SharedEntityScope |
| SharedListEncoding.AddListItemsRequestLeavesOperationOpen | campaignManagement/models/shared_list.go:637-841 | with a Namespace, one start tag is still open after the last token |
| SharedListEncoding.MarshalAddListItemsToSharedListRequest | campaignManagement/models/shared_list.go:636-846 | appends exactly the request's token stream |
| SharedListEncoding.DeleteChildren | campaignManagement/models/shared_list.go:882-934 | ListItemIds only for ids (reading back as the ids), then SharedList, then SharedEntityScope |
| SharedListEncoding.DeleteListItemsRequestLeavesOperationOpen | campaignManagement/models/shared_list.go:866-934 | with a Namespace, one start tag is still open after the last token |
| SharedListEncoding.MarshalDeleteListItemsFromSharedListRequest | campaignManagement/models/shared_list.go:865-939 | appends exactly the request's token stream |
| BodyEncoding.NamespaceAttr | campaignManagement/models/base.go:82-87 | at most one attribute, `xmlns` equal to Namespace, present iff Namespace is non-empty |
| BodyEncoding.EncodeOperationStart | campaignManagement/models/base.go:79-92 | the operation start tag carries `xmlns` exactly when Namespace is set |
| BodyEncoding.GetListItemsOperation | campaignManagement/models/base.go:78-116 | the operation element is named after the request and carries `xmlns` iff Namespace is set |
| BodyEncoding.GetSharedEntitiesOperation | campaignManagement/models/base.go:119-163 | the operation element is named after the request and carries `xmlns` iff Namespace is set |
| BodyEncoding.AssociationsOperation | campaignManagement/models/base.go:166-255 | the operation element is named after the request and carries `xmlns` iff Namespace is set |
| BodyEncoding.AddListItemsOperation | campaignManagement/models/base.go:258-317 | the operation element is named after the request and carries `xmlns` iff Namespace is set |
| BodyEncoding.DeleteListItemsOperation | campaignManagement/models/base.go:320-392 | the operation element is named after the request and carries `xmlns` iff Namespace is set |
| BodyEncoding.BodyItemNodes | campaignManagement/models/base.go:281-293 | one item per input item, in order, each through SharedListItem.MarshalXML |
| BodyEncoding.AddListItemsChildren | campaignManagement/models/base.go:274-311 | ListItems only for items, then SharedList, then SharedEntityScope |
| BodyEncoding.GetListItemsBlock | campaignManagement/models/base.go:78 | the block holds the operation element iff the request pointer is set |
| BodyEncoding.GetSharedEntitiesBlock | campaignManagement/models/base.go:119 | the block holds the operation element iff the request pointer is set |
| BodyEncoding.AssociationsBlock | campaignManagement/models/base.go:166 | the block holds the operation element iff the request pointer is set |
| BodyEncoding.AddListItemsBlock | campaignManagement/models/base.go:258 | the block holds the operation element iff the request pointer is set |
| BodyEncoding.DeleteListItemsBlock | campaignManagement/models/base.go:320 | the block holds the operation element iff the request pointer is set |
| BodyEncoding.BodyNode | campaignManagement/models/base.go:71-400 | the body element keeps the caller's start tag and has one child per request pointer that is set |
| BodyEncoding.BodyOperationNames | campaignManagement/models/base.go:71-400 | the body holds one element per present request, in the order GetListItems, GetSharedEntities, Associations, Add, Delete, and nothing else |
| BodyEncoding.BodyWellNested | campaignManagement/models/base.go:71-400 | the whole body is well-nested, starting with the body start tag and ending with its end tag |
| BodyEncoding.EmptyBodyWritesNoOperation | campaignManagement/models/base.go:73-78 | with every request pointer nil the body is its start tag followed by its end tag |
| BodyEncoding.BodyAddItemsBackFilled | campaignManagement/models/base.go:281-293 | every list item in the body goes through SharedListItem.MarshalXML, so it carries `i:type` iff ItemType or Type is set |
| BodyEncoding.BodyOperationChildOrder | campaignManagement/models/base.go:182-386 | child order of Associations, Add and Delete, with id arrays and ListItems only when non-empty |
| BodyEncoding.OperationOpenedOnce | campaignManagement/models/base.go:79-113 | an operation element is opened once and closed once; it equals the request encoder's stream without its extra first start tag |
| BodyEncoding.GetListItemsNamespaceOnOperation | campaignManagement/models/base.go:78-116 | the namespace is on the operation element itself, over SharedList and SharedEntityScope |
| BodyEncoding.EncodeSharedListAndScope | campaignManagement/models/base.go:94-110 | the SharedList child's tokens are SharedList.MarshalXML's under the start name SharedList, then the scope |
| BodyEncoding.EncodeGetListItemsBlock | campaignManagement/models/base.go:78-116 | appends exactly the tokens of the block |
| BodyEncoding.EncodeGetSharedEntitiesBlock | campaignManagement/models/base.go:119-163 | appends exactly the tokens of the block |
| BodyEncoding.EncodeAssociationsBlock | campaignManagement/models/base.go:166-255 | appends exactly the tokens of the block |
| BodyEncoding.EncodeBodyListItems | campaignManagement/models/base.go:275-294 | appends the ListItems wrapper with each item through SharedListItem.MarshalXML, or nothing |
| BodyEncoding.EncodeAddListItemsBlock | campaignManagement/models/base.go:258-317 | appends exactly the tokens of the block |
| BodyEncoding.EncodeDeleteListItemsBlock | campaignManagement/models/base.go:320-392 | appends exactly the tokens of the block |
| BodyEncoding.MarshalCampaignManagementBody | campaignManagement/models/base.go:71-400 | appends exactly the tokens of the body tree |
| SharedListService.ResolveSharedList | campaignManagement/service/shared_list_service.go:29-55 | an error exactly for an unsupported type, carrying its name; otherwise the list with only ItemType replaced |
| SharedListService.ResolvedTags | campaignManagement/service/shared_list_service.go:29-53 | each wrapper kind gets its own tag; a plain SharedList keeps its own ItemType |
| SharedListService.BackFilled | campaignManagement/service/shared_list_service.go:193-197 | an empty ItemType takes the item's Type; a set one is left alone; no other field changes |
| SharedListService.BackFillAll | campaignManagement/service/shared_list_service.go:193-197 | length and order are kept and each item is back-filled |
| SharedListService.BackFillItemTypes | campaignManagement/service/shared_list_service.go:193-197 | the caller's array is updated in place to its back-filled contents |
| SharedListService.BackFillIdempotent | campaignManagement/service/shared_list_service.go:193-197 | back-filling twice changes nothing more |
| SharedListService.BackFillSettlesDiscriminator | campaignManagement/service/shared_list_service.go:193-197 | after the back-fill the inline and the SharedListItem.MarshalXML item encodings agree |
| SharedListService.ActionsDistinct | campaignManagement/models/constants.go:5-11 | the five operations use five distinct SOAP actions |
| SharedListService.GetListItemsBody | campaignManagement/service/shared_list_service.go:57-69 | exactly the GetListItems request is present, with the namespace set and list and scope passed through |
| SharedListService.GetSharedEntitiesBody | campaignManagement/service/shared_list_service.go:89-101 | exactly the GetSharedEntities request is present, with the namespace set and its fields passed through |
| SharedListService.AssociationsBody | campaignManagement/service/shared_list_service.go:126-140 | exactly the Associations request is present, with the namespace set and its fields passed through |
| SharedListService.AddListItemsBody | campaignManagement/service/shared_list_service.go:200-213 | exactly the Add request is present, with the namespace set and its fields passed through |
| SharedListService.DeleteListItemsBody | campaignManagement/service/shared_list_service.go:266-279 | exactly the Delete request is present, with the namespace set and its fields passed through |
| SharedListService.OperationEnvelope | campaignManagement/service/shared_list_service.go:63-69 | the header uses the operation's action with mustUnderstand "1", and the body is set |
| SharedListService.Exchange | campaignManagement/service/shared_list_service.go:71-81 | transport errors come back unchanged; once the post succeeds the outcome, error or value, is processResponse's over the parsed envelope; success means the parse succeeded without a fault |
| SharedListService.ExchangePostsWithAction | campaignManagement/service/shared_list_service.go:64-72 | the exchange depends on the transport only through the post with the operation's own action |
| SharedListService.GetListItemsBySharedList | campaignManagement/service/shared_list_service.go:24-84 | resolution errors and exchange errors are returned unchanged; otherwise the response's list items |
| SharedListService.GetSharedEntities | campaignManagement/service/shared_list_service.go:87-116 | exchange errors are returned unchanged; otherwise the response's shared entities |
| SharedListService.GetSharedEntityAssociationsBySharedEntityIds | campaignManagement/service/shared_list_service.go:119-156 | exchange errors are returned unchanged; otherwise the associations and partial errors |
| SharedListService.AddListItemsResult | campaignManagement/service/shared_list_service.go:159-229 | resolution and exchange errors are returned unchanged; otherwise ids and partial errors, for the back-filled items |
| SharedListService.AddListItemsToSharedList | campaignManagement/service/shared_list_service.go:159-229 | the caller's items are back-filled in place once the kind is accepted and left alone otherwise; the result is AddListItemsResult |
| SharedListService.DeleteListItemsFromSharedList | campaignManagement/service/shared_list_service.go:232-295 | resolution and exchange errors are returned unchanged; otherwise the partial errors |
| SharedListService.UnsupportedKindSendsNothing | campaignManagement/service/shared_list_service.go:51-53 | an unsupported kind fails the same way whatever the client would do |
| ServiceClient.CreateRequestHeader | campaignManagement/service/client.go:35-45 | the four credentials are copied from Auth; the action, mustUnderstand and namespace are set |
| ServiceClient.CreateEnvelope | campaignManagement/service/client.go:48-56 | the XSI and SOAP envelope namespaces, the operation header, and no body |
| ServiceClient.RequestBytes | campaignManagement/service/client.go:66-67 | the XML declaration followed by the marshalled envelope |
| ServiceClient.SendRequest | campaignManagement/service/client.go:59-79 | a marshal failure gives SERIALIZATION_FAIL with the cause; otherwise the transport's answer for the endpoint, action and bytes |
| ServiceClient.MarshalFailureSendsNothing | campaignManagement/service/client.go:61-64 | after a marshal failure the transport plays no part |
| ServiceClient.ComposeFaultMessage | campaignManagement/service/client.go:96-111 | the message built by reassignment is FaultMessage |
| ServiceClient.FaultMessage | campaignManagement/service/client.go:96-111 | "SOAP错误: code - string" without detail errors, else the first error's code and message; the tracking id suffix iff the header has one |
| ServiceClient.FaultMessageFormDistinguishable | campaignManagement/service/client.go:98-104 | the message starts with "S" exactly when the detail lists no errors |
| ServiceClient.FaultMessageUsesFirstErrorOnly | campaignManagement/service/client.go:101-109 | later errors and the detail's own tracking id do not affect the message |
| ServiceClient.ProcessResponse | campaignManagement/service/client.go:82-120 | success iff the generic parse succeeds without a fault and the typed parse succeeds; then the typed result |
| ServiceClient.ProcessResponseFailures | campaignManagement/service/client.go:88-117 | each failure is exactly one of: generic DESERIALIZATION_FAIL with cause, the fault message, typed DESERIALIZATION_FAIL quoting the parse error in its message but carrying no cause |
| ServiceClient.FaultIgnoresTypedParse | campaignManagement/service/client.go:95-112 | with a fault the typed parse is not consulted |
| ServiceClient.ProcessResponseErrorsUnclassified | campaignManagement/service/client.go:91-117 | no processResponse error is an API, auth or rate-limit error |
| Environment.DefaultConfig | config/environment.go:51-58 | production, 30 seconds, 3 retries, no debug |
| Environment.GetCampaignEndpoint | config/environment.go:61-66 | the sandbox endpoint iff Env is sandbox; production for every other value |
| Environment.NewConfig | config/environment.go:78-87 | a nil API configuration becomes the default, a given one is kept, and Auth is stored unchanged |
| Environment.DefaultsToProduction | config/environment.go:51-87 | without an API configuration the client talks to production |
| Auth.NewAuthConfig | config/auth.go:19-26 | arguments are stored positionally; the account id goes to CustomerAccountID |
| Auth.IsValid | config/auth.go:29-41 | an empty developer token, authentication token or customer id each make it false |
| Auth.ValidIff | config/auth.go:29-41 | valid iff the three required fields are all non-empty |
| Auth.AccountIdIrrelevant | config/auth.go:29-41 | CustomerAccountID never affects validity |
| Errors.ErrorString | base/errors.go:35-40 | without a cause the prefix, the code in brackets and the message; with one, that text, " - " and the cause's own text; other errors keep their text |
| Errors.NewError | base/errors.go:43-49 | code, message and cause are stored unchanged |
| Errors.CodeRoundTrip | base/errors.go:35-40 | the code can be read back from the error text between the prefix and the first "]" |
| Errors.CauseIsSuffix | base/errors.go:35-40 | with a cause the text is the text without it, then " - " and the cause's text |
| Errors.IsAuthError | base/errors.go:52-57 | true iff a BingAdsError with code AUTH_ERROR |
| Errors.IsRateLimitError | base/errors.go:60-65 | true iff a BingAdsError with code RATE_LIMIT_ERROR |
| Errors.IsAPIError | base/errors.go:68-73 | true iff a BingAdsError with code API_ERROR |
| Errors.ClassifiersExclusive | base/errors.go:52-73 | at most one of the three classifiers holds for any error |
| Errors.NewErrorClassified | base/errors.go:43-73 | a new error is classified by its code alone |
| Errors.OtherErrorsUnclassified | base/errors.go:52-73 | an error of any other type is never classified |

## Left out

- HTTP transport (common/http.go): the POST, timeouts and contexts. The client's `post` field stands for it.
- XML parsing and default marshalling (common/xml.go, Go's encoding/xml). This covers parsing responses, and the
  reflection-driven marshalling of `Envelope`, `RequestHeader` and
  `ResponseHeader` from struct tags. The client's `marshal` and `unmarshal`
  fields stand for them. Text escaping is not modelled either: character data is a token's text as given.
- Errors returned by `EncodeToken`/`EncodeElement`. The model's encoder cannot fail, so each `if err != nil { return err }` is not modelled.
- Byte slices are modelled as strings: the request bytes are the declaration text followed by the marshalled text.
- Debug printing (client.go:69-71, 84-86) is left out because it is output only.
- `APIConfig.Timeout` and `MaxRetries` are stored but not used by anything in the model. The library never reads `MaxRetries`; `Timeout` is read only by the HTTP client.
- `CampaignManagementEnvelope` (base.go:54-60) is not used for requests. `NewClient`, `SharedListService()` and `NewSharedListService` only wire the objects together.
- ServiceClient.ProcessResponse: uses the fault text itself as the error text. Go's `fmt.Errorf(errorMsg)` treats the text as a format string, so fault text containing `%` prints differently.
- ServiceClient.CreateRequestHeader: requires the configuration's Auth to be present. The Go code dereferences a nil pointer (a panic), which is not modelled.
- A nil `Config.API` is not modelled either: `Config.api` is a plain value, as `NewConfig` guarantees.
- SharedListService.GetListItemsBySharedList, GetSharedEntities, GetSharedEntityAssociationsBySharedEntityIds, AddListItemsResult, AddListItemsToSharedList, DeleteListItemsFromSharedList: these require (`Responds`) that a successful response carries the operation's response. The Go code dereferences that pointer without a check.
- SharedListService.Exchange: the service parses the response twice into the same envelope type, so both parse results are the one `unmarshal` gives. The model does not capture two parses giving different results.
- Aliasing: the request records hold values, not pointers. The model has no request aliased from two places.
- `Int64` ids are modelled as the 64-bit range of `int`. `%d` gives the same text as for unbounded integers, so no wrap-around arises.

## Findings

| source | as written | input that shows it | evidently intended | confidence | as-written member | corrected member |
|---|---|---|---|---|---|---|
| campaignManagement/models/shared_list.go:429-475 | GetSharedEntitiesRequest.MarshalXML writes the operation start tag, then the same tag again with `xmlns` appended, and only one end tag | any request with a non-empty Namespace (the service always sets one) | one start tag carrying `xmlns`, closed once, as the body encoder writes it | not executed | SharedListEncoding.GetSharedEntitiesRequestLeavesOperationOpen | BodyEncoding.OperationOpenedOnce |
| campaignManagement/models/shared_list.go:525-616 | GetSharedEntityAssociationsBySharedEntityIdsRequest.MarshalXML opens the operation element twice and closes it once | any request with a non-empty Namespace | one start tag carrying `xmlns`, closed once | not executed | SharedListEncoding.AssociationsRequestLeavesOperationOpen | BodyEncoding.OperationOpenedOnce |
| campaignManagement/models/shared_list.go:636-846 | AddListItemsToSharedListRequest.MarshalXML opens the operation element twice and closes it once | any request with a non-empty Namespace | one start tag carrying `xmlns`, closed once | not executed | SharedListEncoding.AddListItemsRequestLeavesOperationOpen | BodyEncoding.OperationOpenedOnce |
| campaignManagement/models/shared_list.go:865-939 | DeleteListItemsFromSharedListRequest.MarshalXML opens the operation element twice and closes it once | any request with a non-empty Namespace | one start tag carrying `xmlns`, closed once | not executed | SharedListEncoding.DeleteListItemsRequestLeavesOperationOpen | BodyEncoding.OperationOpenedOnce |
| campaignManagement/models/shared_list.go:358-399 | GetListItemsBySharedListRequest.MarshalXML puts `xmlns` on an empty element of the operation's name, so SharedList and SharedEntityScope are outside the namespace | any request, for example one with Namespace set to the campaign-management namespace | `xmlns` on the operation element, applying to its SharedList and SharedEntityScope children | not executed | SharedListEncoding.GetListItemsRequestNamespaceOnEmptyChild | BodyEncoding.GetListItemsNamespaceOnOperation |

These request-level encoders are not on the send path. The send path uses
`CampaignManagementBody.MarshalXML`, and `BodyEncoding` models it with the
corrected shape. Go's encoder checks tag nesting when a custom
`MarshalXML` finishes, so the four double-start encoders would likely fail
with an unclosed-tag error rather than write the tokens above.
