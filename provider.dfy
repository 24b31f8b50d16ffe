/** The records the phone-lookup provider returns, as far as the lookup code
    reads them. The provider itself is not modelled: callers receive its
    replies as parameters. A JSON `null` in a reply is `None`. */
module Provider {
  import opened Js

  /** The `callerName` record of a lookup: only `caller_name` is read. */
  datatype CallerName = CallerName(callerName: Option<string>)

  /** The `carrier` record of a lookup (`name`, `type`, `mobile_country_code`,
      `mobile_network_code`); `type` is `carrierType` here. */
  datatype Carrier = Carrier(
    name: Option<string>,
    carrierType: Option<string>,
    mobileCountryCode: Option<string>,
    mobileNetworkCode: Option<string>)

  /** A version-2 lookup asked for the `caller_name` field. */
  datatype CallerLookup = CallerLookup(phoneNumber: string, callerName: Option<CallerName>)

  /** A version-1 lookup asked for the `carrier` type. */
  datatype CarrierLookup = CarrierLookup(carrier: Option<Carrier>)

  /** A version-2 lookup asked for the fields `carrier,caller_name` at once. */
  datatype CombinedLookup = CombinedLookup(
    phoneNumber: string,
    carrier: Option<Carrier>,
    callerName: Option<CallerName>)

  /** `reply.callerName?.caller_name`: the caller name, when the record is there. */
  function CallerNameText(record: Option<CallerName>): (r: Option<string>)
    ensures record.None? ==> r.None?
    ensures record.Some? ==> r == record.value.callerName
  {
    match record
    case None => None
    case Some(c) => c.callerName
  }
}
