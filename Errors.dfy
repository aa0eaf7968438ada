/** The exceptions the registration client can raise, as one datatype. */
module Errors {
  import opened Wrappers

  datatype Error =
    /** IllegalArgumentException naming the offending parameter. */
    | IllegalArgument(parameter: string)
    /** NotificationHubException(message, statusCode). */
    | NotificationHubException(message: Option<string>, status: int)
    /** NotificationHubResourceNotFoundException (HTTP 404). */
    | ResourceNotFound
    /** NotificationHubUnauthorizedException (HTTP 401). */
    | Unauthorized
    /** RegistrationGoneException (HTTP 410). */
    | RegistrationGone
    /** AssertionError raised while signing, naming the missing credential. */
    | AssertionFailed(what: string)
    /** java.text.ParseException with its error offset. */
    | ParseException(reason: string, offset: nat)
    /** NullPointerException: a null endpoint, a URI without a scheme or path, a null document. */
    | NullPointer(what: string)
    /** The XML parser rejected a document (SAXException). */
    | MalformedXml
    /** URISyntaxException for the text that failed to parse, or the IllegalArgumentException URI.create wraps it in. */
    | UriSyntax(input: string)
    /** ArrayIndexOutOfBoundsException. */
    | IndexOutOfBounds(index: int)
    /** ClassCastException: a registration read back as native where a template one is expected. */
    | ClassCast
}
