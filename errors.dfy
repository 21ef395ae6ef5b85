/** The errors the job can produce, one constructor per `fmt.Errorf` site
    that the model keeps. Wrapping (`%w`) becomes a `cause` field. */
module Errors {

  datatype Error =
    // Pagination (vestro_api/cliente.go, fetchAndAggregate)
    | RequestFailed(path: string)               // the HTTP call itself failed
    | BadStatus(path: string, status: int)      // status other than 200
    | BodyUnreadable                            // io.ReadAll failed (its message names no path)
    | EnvelopeUndecodable(path: string)         // {success, data, count} did not decode
    | NotSuccessful(path: string)               // success == false
    | DataUndecodable(path: string)             // data array did not decode into records
    | GetterFailed(what: string, cause: Error)  // "failed getting <what>: ..."
    // Authentication (vestro_api/cliente.go, Authenticate)
    | AuthRequestFailed
    | AuthBadStatus(status: int)
    | AuthUndecodable
    | AuthRejected
    // Orchestration (servicos/importar_dados.go)
    | TaskFailed(name: string, cause: Error)    // "failed to fetch <name>: ..."
    | UsersUnavailable(cause: Error)
    | AuthenticationFailed(cause: Error)
    // Delivery (agriwin_api/notificar.go)
    | DeliveryFailed
    | DeliveryBadStatus(status: int)
    // strconv.Atoi
    | SyntaxError(input: string)
    | RangeError(input: string)
    // Any failure of an external collaborator that the model does not break down
    | ProviderFailed
}
