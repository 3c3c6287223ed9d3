/** Python exceptions that escape the client without being classified as
    HTTP errors. */
module Faults {
  datatype Fault =
    | ValueError      // int()/float() of a non-numeric header; HTTPStatus() of an unknown code
    | KeyError        // a missing dict key
    | TypeError       // indexing or iterating a value of the wrong type
    | AttributeError  // `.get` on a body that is not a dict
    | JSONDecodeError // `json.loads` of a body that is not a JSON document, such as an empty one
    | ClientError     // an exception raised by the HTTP session while sending or reading
}
