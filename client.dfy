/** The SOAP client (campaignManagement/service/client.go): request header
    and envelope construction from the configuration, the bytes handed to
    the transport, and the decision procedure that turns a response into
    an error or a parsed result.  The XML codec and the HTTP transport are
    not modelled: they are the client's collaborators, given as functions. */
module ServiceClient {
  import opened Wrappers
  import opened Soap
  import opened Models
  import opened Errors
  import opened Auth
  import opened Environment

  /** Go's `xml.Header`, the declaration put before every request. */
  const XmlHeader := "<?xml version=\"1.0\" encoding=\"UTF-8\"?>\n"

  /** A client: its configuration and its collaborators.  `marshal` stands
      for the XML helper's Marshal, `post` for the HTTP client's Post
      (endpoint, SOAPAction, request bytes), `unmarshal` for the XML
      helper's Unmarshal into a response envelope.  Bytes are text here. */
  datatype Client = Client(
    config: Config,
    marshal: Envelope<CampaignManagementBody> -> Result<string, Error>,
    post: (string, string, string) -> Result<string, Error>,
    unmarshal: string -> Result<CampaignManagementResponseEnvelope, Error>)

  /** `createRequestHeader`; reading the credentials dereferences Auth. */
  function CreateRequestHeader(c: Client, action: SOAPAction, mustUnderstand: string): (h: RequestHeader)
    requires c.config.auth.Some?
    ensures h.namespace == CampaignManagementNamespace
    ensures h.action == action && h.mustUnderstand == mustUnderstand
    ensures h.authenticationToken == c.config.auth.value.authenticationToken
    ensures h.customerAccountId == c.config.auth.value.customerAccountID
    ensures h.customerId == c.config.auth.value.customerID
    ensures h.developerToken == c.config.auth.value.developerToken
  {
    var auth := c.config.auth.value;
    RequestHeader(CampaignManagementNamespace, action, mustUnderstand,
                  auth.authenticationToken, auth.customerAccountID, auth.customerID, auth.developerToken)
  }

  /** `createEnvelope`: the two namespace declarations, the header, no body yet. */
  function CreateEnvelope(c: Client, action: SOAPAction, mustUnderstand: string): (env: Envelope<CampaignManagementBody>)
    requires c.config.auth.Some?
    ensures env.xmlnsI == XSINamespace && env.xmlnsS == SOAPEnvelopeNamespace
    ensures env.header == CreateRequestHeader(c, action, mustUnderstand)
    ensures env.body.None?
  {
    Envelope(XSINamespace, SOAPEnvelopeNamespace, CreateRequestHeader(c, action, mustUnderstand), None)
  }

  /** The request bytes: the declaration, then the marshalled envelope. */
  function RequestBytes(marshalled: string): (bytes: string)
    ensures |bytes| == |XmlHeader| + |marshalled|
    ensures bytes[..|XmlHeader|] == XmlHeader && bytes[|XmlHeader|..] == marshalled
  {
    XmlHeader + marshalled
  }

  /** `sendRequest`: a marshal failure is wrapped as SERIALIZATION_FAIL and
      nothing is posted; otherwise the transport's answer, error or bytes,
      comes back unchanged. */
  function SendRequest(c: Client, envelope: Envelope<CampaignManagementBody>, action: SOAPAction): (r: Result<string, Error>)
    ensures c.marshal(envelope).Failure? ==>
      r == Failure(NewError(ErrSerializationFail, "序列化请求失败", Some(c.marshal(envelope).error)))
    ensures c.marshal(envelope).Success? ==>
      r == c.post(GetCampaignEndpoint(c.config.api), action, RequestBytes(c.marshal(envelope).value))
  {
    match c.marshal(envelope)
    case Failure(err) => Failure(NewError(ErrSerializationFail, "序列化请求失败", Some(err)))
    case Success(body) =>
      var reqBody := RequestBytes(body);
      c.post(GetCampaignEndpoint(c.config.api), action, reqBody)
  }

  /** The text of a fault: its code and string, or, when the Bing Ads detail
      lists errors, the first of them; then the response header's tracking
      id when there is one. */
  function FaultMessage(fault: Fault, header: ResponseHeader): (m: string)
    ensures var errors := fault.detail.adApiFaultDetail.errors;
            var suffix := if header.trackingId != "" then " (TrackingId: " + header.trackingId + ")" else "";
            && (|errors| == 0 ==> m == "SOAP错误: " + fault.faultCode + " - " + fault.faultString + suffix)
            && (|errors| > 0 ==> m == "BingAds API错误 [" + errors[0].errorCode + "]: " + errors[0].message + suffix)
  {
    var errors := fault.detail.adApiFaultDetail.errors;
    var base := if |errors| > 0 then "BingAds API错误 [" + errors[0].errorCode + "]: " + errors[0].message
                else "SOAP错误: " + fault.faultCode + " - " + fault.faultString;
    if header.trackingId != "" then base + " (TrackingId: " + header.trackingId + ")" else base
  }

  /** The fault branch of `processResponse`, which builds the message by
      reassignment. */
  method ComposeFaultMessage(fault: Fault, header: ResponseHeader) returns (errorMsg: string)
    ensures errorMsg == FaultMessage(fault, header)
  {
    errorMsg := "SOAP错误: " + fault.faultCode + " - " + fault.faultString;
    var errors := fault.detail.adApiFaultDetail.errors;
    if |errors| > 0 {
      var apiError := errors[0];
      errorMsg := "BingAds API错误 [" + apiError.errorCode + "]: " + apiError.message;
    }
    if header.trackingId != "" {
      errorMsg := errorMsg + " (TrackingId: " + header.trackingId + ")";
    }
  }

  /** `processResponse` over the two parse results it would obtain: first
      the generic envelope, then the caller's object.  A fault stops the
      procedure before the second parse, so that result is not consulted. */
  function ProcessResponse<T>(generic: Result<CampaignManagementResponseEnvelope, Error>, typed: Result<T, Error>): (r: Result<T, Error>)
    ensures r.Success? <==> generic.Success? && generic.value.body.fault.None? && typed.Success?
    ensures r.Success? ==> r.value == typed.value
  {
    if generic.Failure? then Failure(NewError(ErrDeserializationFail, "反序列化响应失败", Some(generic.error)))
    else if generic.value.body.fault.Some? then
      Failure(OtherError(FaultMessage(generic.value.body.fault.value, generic.value.header)))
    else if typed.Failure? then
      Failure(NewError(ErrDeserializationFail, "反序列化响应对象失败: " + ErrorString(typed.error), None))
    else Success(typed.value)
  }

  // ----------------------------------------------------------------------
  // Properties

  /** Which of the two message forms was used can be told from the text:
      it starts with "SOAP" exactly when the detail lists no errors. */
  lemma FaultMessageFormDistinguishable(fault: Fault, header: ResponseHeader)
    ensures var m := FaultMessage(fault, header);
            |m| > 0 && (m[0] == 'S' <==> |fault.detail.adApiFaultDetail.errors| == 0)
  {
    var errors := fault.detail.adApiFaultDetail.errors;
    var m := FaultMessage(fault, header);
    if |errors| > 0 {
      assert m[0] == "BingAds API错误 ["[0];
    } else {
      assert m[0] == "SOAP错误: "[0];
    }
  }

  /** Only the first listed error counts, and the detail's own tracking id
      is never used. */
  lemma FaultMessageUsesFirstErrorOnly(fault: Fault, header: ResponseHeader, later: seq<AdApiError>, trackingId: string)
    requires |fault.detail.adApiFaultDetail.errors| > 0
    ensures var errors := fault.detail.adApiFaultDetail.errors;
            var other := fault.(detail := FaultDetail(AdApiFaultDetail(trackingId, [errors[0]] + later)));
            FaultMessage(other, header) == FaultMessage(fault, header)
  {
  }

  /** Every failure processResponse reports is one of its three kinds. */
  lemma ProcessResponseFailures<T>(generic: Result<CampaignManagementResponseEnvelope, Error>, typed: Result<T, Error>)
    ensures generic.Failure? ==>
      ProcessResponse(generic, typed) == Failure(NewError(ErrDeserializationFail, "反序列化响应失败", Some(generic.error)))
    ensures generic.Success? && generic.value.body.fault.Some? ==>
      ProcessResponse(generic, typed) == Failure(OtherError(FaultMessage(generic.value.body.fault.value, generic.value.header)))
    ensures generic.Success? && generic.value.body.fault.None? && typed.Failure? ==>
      ProcessResponse(generic, typed) ==
        Failure(NewError(ErrDeserializationFail, "反序列化响应对象失败: " + ErrorString(typed.error), None))
  {
  }

  /** A fault decides the outcome whatever the second parse would give. */
  lemma FaultIgnoresTypedParse<T>(generic: Result<CampaignManagementResponseEnvelope, Error>, typed: Result<T, Error>, typed': Result<T, Error>)
    requires generic.Success? && generic.value.body.fault.Some?
    ensures ProcessResponse(generic, typed) == ProcessResponse(generic, typed')
  {
  }

  /** None of processResponse's errors is an API, auth or rate-limit error
      for the classifiers: a SOAP fault comes back as a plain error. */
  lemma ProcessResponseErrorsUnclassified<T>(generic: Result<CampaignManagementResponseEnvelope, Error>, typed: Result<T, Error>)
    requires ProcessResponse(generic, typed).Failure?
    ensures var e := ProcessResponse(generic, typed).error;
            !IsAPIError(e) && !IsAuthError(e) && !IsRateLimitError(e)
  {
  }

  /** A marshal failure never reaches the transport: the result does not
      depend on it. */
  lemma MarshalFailureSendsNothing(c: Client, envelope: Envelope<CampaignManagementBody>, action: SOAPAction,
                                   post: (string, string, string) -> Result<string, Error>)
    requires c.marshal(envelope).Failure?
    ensures SendRequest(c, envelope, action) == SendRequest(c.(post := post), envelope, action)
    ensures SendRequest(c, envelope, action).error.code == ErrSerializationFail
  {
  }
}
