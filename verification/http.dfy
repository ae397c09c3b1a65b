/** What a controller sends back: an HTTP status and a JSON body that
    either carries data or a human-readable message. */
module Http {

  datatype Body<T> = Data(value: T) | Message(text: string)

  datatype Response<T> = Response(status: nat, body: Body<T>)
}
