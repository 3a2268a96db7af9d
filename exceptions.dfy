/**
 * The exception classes the client throws, as one tagged error kind.
 * The PHP hierarchy splits them into runtime errors (BadStatus and the
 * file, prefix and namespace errors) and logic errors (the repository,
 * query language, input format and result format errors); the model does
 * not need that split.
 */
module Exceptions {

  datatype Error =
    | BadStatus(code: int)        // transport failure or non-success HTTP status
    | FileNotSpecified
    | FileNotFound
    | FileNotReadable
    | PrefixNotSpecified
    | NamespaceNotSpecified
    | NotSelectedRepository
    | UnsupportedQueryLanguage
    | UnsupportedInputFormat
    | UnsupportedResultFormat

}
