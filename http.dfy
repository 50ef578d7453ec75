/** The JSON responses the route handlers answer with: a status code and a body. */
module Http {

  datatype Body =
    | Received              // `{ received: true }`
    | Message(text: string) // `{ message: ... }`
    | Redirect(url: string) // `{ url }`

  datatype Response = Response(status: int, body: Body)
}
