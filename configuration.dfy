/** `ClientConfiguration`, reduced to the two fields the request logic reads. */
module Configuration {
  import opened Wrappers

  type HTTPHeaders = map<string, string>

  /**
   * The host URL and the optional default headers. The session, encoder and
   * decoder are supplied per request as functions (module Client).
   */
  datatype ClientConfiguration = ClientConfiguration(hostURL: string, headers: Option<HTTPHeaders> := None)
}
