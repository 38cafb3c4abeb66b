/** The SOAP records shared by every service (base/base.go): the request
    envelope and header, the response header and the SOAP 1.1 Fault with the
    Bing Ads fault detail.  They are plain records; how encoding/xml lays them
    out from their struct tags is not part of this model. */
module Soap {
  import opened Wrappers

  /** The request header block; MustUnderstand is carried but has the `-`
      struct tag, so it is never written. */
  datatype RequestHeader = RequestHeader(
    namespace: string,
    action: string,
    mustUnderstand: string,
    authenticationToken: string,
    customerAccountId: string,
    customerId: string,
    developerToken: string)

  datatype ResponseHeader = ResponseHeader(namespace: string, trackingId: string)

  datatype AdApiError = AdApiError(code: int, errorCode: string, message: string)

  datatype AdApiFaultDetail = AdApiFaultDetail(trackingId: string, errors: seq<AdApiError>)

  /** The `detail` element of a Fault (its XMLName field is not represented). */
  datatype FaultDetail = FaultDetail(adApiFaultDetail: AdApiFaultDetail)

  /** A SOAP 1.1 Fault (section 4.4 of the SOAP 1.1 note). */
  datatype Fault = Fault(faultCode: string, faultString: string, detail: FaultDetail)

  /** The request envelope; Go types its body as `any`, here it is either
      absent (nil) or a body record of the service's own type. */
  datatype Envelope<B> = Envelope(
    xmlnsI: string,
    xmlnsS: string,
    header: RequestHeader,
    body: Option<B>)
}
