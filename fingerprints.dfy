/**
 * The caller context a state token is bound to. A request is reduced to what
 * the services read from it: whether it is an ActionDispatch::Request, its
 * User-Agent and its remote IP (either may be nil). The record written to the
 * store is the JSON object {user_agent, ip_address}; JSON itself is injected.
 */
module Fingerprints {
  import opened Wrappers
  import opened Text

  datatype Request = Request(isDispatchRequest: bool, userAgent: Option<string>, ip: Option<string>)

  /** The stored record, and the fields read back from a parsed JSON object
      (a missing key reads as nil). */
  datatype Fingerprint = Fingerprint(userAgent: Option<string>, ipAddress: Option<string>)

  /** JSON.parse: the two fields of the object, or the parser's error message. */
  datatype ParseOutcome = Parsed(record: Fingerprint) | ParseFailed(message: string)

  /** `to_json` for the record and `JSON.parse(...).with_indifferent_access`. */
  datatype JsonCodec = JsonCodec(dump: Fingerprint -> string, parse: string -> ParseOutcome)

  /** The JSON law on one record: its serialisation is not blank (it is an
      object literal) and parses back to it. */
  predicate RoundTripsOn(j: JsonCodec, f: Fingerprint) {
    !Blank(j.dump(f)) && j.parse(j.dump(f)) == Parsed(f)
  }

  /** The comparison `validate_data` makes: both stored fields equal the
      request's. */
  predicate Matches(stored: Fingerprint, r: Request)
    ensures Matches(stored, r) <==> stored == Fingerprint(r.userAgent, r.ip)
  {
    stored.userAgent == r.userAgent && stored.ipAddress == r.ip
  }
}
