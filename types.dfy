/** The record shapes of endpoint/types: request bodies, response bodies and database rows. */
module Types {

  /** The body of an authentication request. */
  datatype AuthRequest = AuthRequest(key: string)

  /** An authentication key's row in the `oomphAuth` table. `expiration` is never consulted. */
  datatype DBAuthData = DBAuthData(
    id: string,
    admin: bool,
    expiration: int,
    ipList: seq<string>,
    key: string,
    owner: string)

  /** The zero value `types.DBAuthData{}`. */
  const EmptyAuthData := DBAuthData("", false, 0, [], "", "")

  datatype ProxyDownloadRequest = ProxyDownloadRequest(os: string, arch: string, branch: string)

  datatype ProxyDownloadResponse = ProxyDownloadResponse(data: string)

  datatype ProxyUploadRequest = ProxyUploadRequest(os: string, arch: string, branch: string, data: string)

  /** A row of the `oomph_bins` table as the binary query selects it. */
  datatype DBProxyBinaryResponse = DBProxyBinaryResponse(data: string)

  datatype ErrorResponse = ErrorResponse(message: string)

  function NewErrorResponse(msg: string): (r: ErrorResponse)
    ensures r.message == msg
  {
    ErrorResponse(msg)
  }

  /** The name of the request header carrying the session token. Its definition is not part of
      this model; the value here is a stand-in and nothing proved depends on it. */
  const HeaderAuthToken: string := "Auth-Token"
}
