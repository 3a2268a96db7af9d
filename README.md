# NetteSesame client and result reader in Dafny

This project models the two behavioural parts of NetteSesame, a PHP client for the HTTP protocol of the
Sesame RDF store.

- **`SesameClient`** selects a repository and plans one HTTP request per public operation. Sending the
  request is replaced by returning it. Each operation yields either the error kind the PHP code would
  throw or the planned `Request` (verb, URL, headers, body). The model keeps the order of the argument
  checks and PHP's `empty()` semantics: `NULL`, `""` and `"0"` all count as not given. It also keeps the
  whitelists of query languages, result formats and input MIME types.
- **Context normalisation** (`checkContext`) is modelled on top of PHP's `urlencode`.
  `urldecode` is modelled too, so the encoding can be shown to round-trip.
- **`SesameResult`** reads a response in the W3C SPARQL Query Results XML Format: the header variables of
  section 2.2 and the variable-binding results of section 2.3.1. It starts from an already-parsed
  `Document`. `GetHeaders`, `GetRows` and `HasRows` are loops, as in PHP. They are proved against the
  functions `RowOf`/`RowsOf`, and the row layout is proved about those functions.

Files:
- `wrappers.dfy`: `Option`, `Result` and `Outcome`.
- `exceptions.dfy`: the error kinds, one per exception class of `src/stekycz/NetteSesame/exceptions.php`.
- `php.dfy`: byte strings, `empty()`, string conversion of `NULL`, `urlencode` and `urldecode`.
- `sesame_client.dfy`: the checks, the request plans, the class `SesameClient` and their lemmas.
- `sesame_result.dfy`: the parsed document, the row functions, the class `SesameResult` and their lemmas.

Each client operation is specified twice. A pure plan function (`QueryPlan`, `StatementsPlan`, …) runs the
source's checks in order with `Then`: the first failing check is the result, otherwise the request is.
The class method does the same work step by step, with early returns as in PHP. Its `ensures` ties the
result to the plan function for the current `dsn` and `repository`.

Unlike `append` and `overwrite`, `size` puts its context into the URL unchanged
(src/SesameClient.php:426), and so does `SizePlan`.

## Model

| member | source | states |
|---|---|---|
| `Php.UrlEncode` | src/SesameClient.php:135 | PHP `urlencode` never makes a string shorter |
| `Php.UrlEncodeCharset` | src/SesameClient.php:135 | `urlencode` writes only ASCII letters, digits and `- _ . + %` |
| `Php.UrlDecode` | src/SesameClient.php:135 | the inverse of the context encoding (PHP `urldecode`) never makes a string longer |
| `Php.UrlRoundTrip` | src/SesameClient.php:135 | `urldecode(urlencode(s)) == s` for every byte string |
| `Php.UrlEncodeInjective` | src/SesameClient.php:135 | two contexts with the same encoding are the same context |
| `Php.UrlEncodeUnreserved` | src/SesameClient.php:135 | a string of letters, digits, `-`, `_` and `.` is its own encoding |
| `Php.UrlEncodeConcat` | src/SesameClient.php:135 | `urlencode` works byte by byte: it distributes over concatenation |
| `Php.Empty` | src/SesameClient.php:106 | PHP `empty()` on a nullable string holds exactly when its string conversion is `""` or `"0"`, so `NULL` counts as not given |
| `SesameClient.CheckRepository` | src/SesameClient.php:104-109 | passes exactly when a repository is set and is neither `""` nor `"0"`; otherwise not-selected-repository |
| `SesameClient.CheckQueryLang` | src/SesameClient.php:113-118 | passes exactly for `sparql` and `serql`; otherwise unsupported-query-language |
| `SesameClient.CheckResultFormat` | src/SesameClient.php:122-127 | passes exactly for `application/sparql-results+xml`; otherwise unsupported-result-format |
| `SesameClient.CheckInputFormat` | src/SesameClient.php:143-148 | passes exactly for the six input MIME types of lines 21-26; otherwise unsupported-input-format |
| `SesameClient.CheckPrefix` | src/SesameClient.php:310-312 | passes exactly when the prefix is not empty in PHP's sense; otherwise prefix-not-specified |
| `SesameClient.CheckNamespace` | src/SesameClient.php:343-345 | passes exactly when the namespace is not empty in PHP's sense; otherwise namespace-not-specified |
| `SesameClient.Bracketed` | src/SesameClient.php:134 | the result is always in angle brackets; brackets are added exactly when missing, around the unchanged context |
| `SesameClient.CheckContext` | src/SesameClient.php:131-139 | `null` passes through unchanged; any other context decodes back to itself in one pair of angle brackets (the closed forms, the character set and the examples are the `CheckContext*` lemmas) |
| `SesameClient.GetFile` | src/SesameClient.php:285-296 | succeeds exactly for a given, existing, readable path and returns its contents; an empty path gives not-specified, a missing one not-found, an existing unreadable one not-readable |
| `SesameClient.Then` | src/SesameClient.php:167-169 | one validation step: a failing check is thrown and nothing after it runs |
| `SesameClient.ListRepositoriesPlan` | src/SesameClient.php:88-100 | `GET dsn/repositories` with `Accept: application/sparql-results+xml`, whatever the repository |
| `SesameClient.QueryPlan` | src/SesameClient.php:165-185 | repository first, then language, then format, each failure pinned to its own error; succeeds exactly when all three pass; `POST dsn/repositories/repo` with the query form |
| `SesameClient.StatementsPlan` | src/SesameClient.php:198-214 | repository first, then input format; on success, `…/statements?context=` plus the normalised context, `Content-type` the input format, the data as body |
| `SesameClient.FilePlan` | src/SesameClient.php:227-231 | a failing file read gives exactly `getFile`'s error, whatever the repository; a file that reads is then planned as append/overwrite of its contents |
| `SesameClient.GetNamespacePlan` | src/SesameClient.php:306-324 | repository, then prefix; `GET …/namespaces/prefix` with `Accept: text/plain` |
| `SesameClient.SetNamespacePlan` | src/SesameClient.php:336-357 | repository, then prefix, then namespace; `PUT …/namespaces/prefix` with the namespace as a `text/plain` body |
| `SesameClient.DeleteNamespacePlan` | src/SesameClient.php:368-385 | repository, then prefix; `DELETE …/namespaces/prefix` |
| `SesameClient.ContextsPlan` | src/SesameClient.php:396-411 | repository, then result format, each failure pinned to its own error; `POST …/contexts` with `Accept: application/sparql-results+xml` |
| `SesameClient.SizePlan` | src/SesameClient.php:422-436 | fails only without a repository; `POST …/size?context=` with the context as given, not normalised |
| `SesameClient.ClearPlan` | src/SesameClient.php:446-459 | fails only without a repository; `DELETE …/statements` |
| `SesameClient.SesameClient.constructor` | src/SesameClient.php:59-63 | stores the connection string and the repository (defaults: the local endpoint, `NULL`) |
| `SesameClient.SesameClient.SetRepository` | src/SesameClient.php:73-78 | stores exactly the given repository, leaves `dsn` unchanged, returns the same client |
| `SesameClient.SesameClient.ListRepositories` | src/SesameClient.php:88-100 | plans the repository listing from `dsn` alone |
| `SesameClient.SesameClient.Query` | src/SesameClient.php:165-185 | runs the three checks in source order and plans what `QueryPlan` plans |
| `SesameClient.SesameClient.Append` | src/SesameClient.php:198-214 | plans `StatementsPlan` with `POST` |
| `SesameClient.SesameClient.Overwrite` | src/SesameClient.php:244-260 | plans `StatementsPlan` with `PUT` |
| `SesameClient.SesameClient.Statements` | src/SesameClient.php:200-205 | the shared body of append and overwrite: repository check, context normalisation, input-format check, request |
| `SesameClient.SesameClient.AppendFile` | src/SesameClient.php:227-231 | reads the file first, then appends its contents (`FilePlan` with `POST`) |
| `SesameClient.SesameClient.OverwriteFile` | src/SesameClient.php:273-277 | reads the file first, then overwrites with its contents (`FilePlan` with `PUT`) |
| `SesameClient.SesameClient.GetNamespace` | src/SesameClient.php:306-324 | plans what `GetNamespacePlan` plans |
| `SesameClient.SesameClient.SetNamespace` | src/SesameClient.php:336-357 | plans what `SetNamespacePlan` plans |
| `SesameClient.SesameClient.DeleteNamespace` | src/SesameClient.php:368-385 | plans what `DeleteNamespacePlan` plans |
| `SesameClient.SesameClient.Contexts` | src/SesameClient.php:396-411 | plans what `ContextsPlan` plans |
| `SesameClient.SesameClient.Size` | src/SesameClient.php:422-436 | plans what `SizePlan` plans |
| `SesameClient.SesameClient.Clear` | src/SesameClient.php:446-459 | plans what `ClearPlan` plans |
| `SesameClient.CheckContextNullOnly` | src/SesameClient.php:131-139 | the normalised context is `null` exactly when the context is `null`, so no URI is ever sent as the default context |
| `SesameClient.CheckContextEncodesBrackets` | src/SesameClient.php:133-135 | a bare context is sent as `%3C` + its encoding + `%3E`; a bracketed one as its own encoding |
| `SesameClient.CheckContextRoundTrip` | src/SesameClient.php:133-135 | decoding a normalised non-`null` context gives the context in exactly one pair of brackets |
| `SesameClient.CheckContextCharset` | src/SesameClient.php:133-135 | a normalised non-`null` context holds only letters, digits and `- _ . + %` |
| `SesameClient.BracketedIdempotent` | src/SesameClient.php:134 | bracketing never doubles brackets |
| `SesameClient.PercentEncodings` | src/SesameClient.php:135 | `<`, `>`, `/` and `:` are sent as `%3C`, `%3E`, `%2F` and `%3A` (upper-case hex) |
| `SesameClient.EncodeSlashedPath` | src/SesameClient.php:135 | two segments of letters, digits, `-`, `_` and `.` joined by `/` are sent unchanged except for the slash, which becomes `%2F` |
| `SesameClient.CheckContextBarePath` | src/SesameClient.php:131-139 | `example/ctx` is sent as `%3Cexample%2Fctx%3E` |
| `SesameClient.CheckContextBracketedUri` | src/SesameClient.php:131-139 | `<urn:x>` keeps its single pair of brackets: `%3Curn%3Ax%3E` |
| `SesameClient.AppendOverwriteDifferOnlyInVerb` | src/SesameClient.php:198-260 | append and overwrite fail alike and plan the same URL, headers and body; only `POST` and `PUT` differ |
| `SesameClient.FileErrorsBeforeRepository` | src/SesameClient.php:227-231 | with no repository, the file variants still report their file error first, and not-selected-repository only for a readable file |
| `SesameResult.TypeKeyInjective` | src/SesameResult.php:59 | distinct binding names get distinct `_type` keys |
| `SesameResult.BoundValue` | src/SesameResult.php:57-69 | a binding has a value exactly when one of literal, uri and bnode is present; its kind is `literal`, `uri` or `bnode` |
| `SesameResult.AddBinding` | src/SesameResult.php:56-69 | a binding without a value leaves the row unchanged; one with a value sets its name to the value and its `_type` key to the kind |
| `SesameResult.RowOf` | src/SesameResult.php:54-72 | the row of one result has at most two keys per binding (its exact keys are `RowKeys`) |
| `SesameResult.RowsOf` | src/SesameResult.php:50-80 | `false` (`NoRows`) exactly when there is no result; otherwise one row per result, in document order |
| `SesameResult.SesameResult.constructor` | src/SesameResult.php:23-26 | holds the parsed document |
| `SesameResult.SesameResult.GetHeaders` | src/SesameResult.php:33-41 | one name per head variable, in document order |
| `SesameResult.SesameResult.GetRows` | src/SesameResult.php:50-80 | the nested loops compute `RowsOf` of the document |
| `SesameResult.SesameResult.HasRows` | src/SesameResult.php:89-96 | true exactly when a result exists, i.e. exactly when `GetRows` returns rows |
| `SesameResult.RowOfLast` | src/SesameResult.php:55-70 | a binding writes its value and kind, literal before uri before bnode, overwriting earlier entries of its name; other keys are untouched; a binding with no value changes nothing |
| `SesameResult.RowOfSkipsEmptyBinding` | src/SesameResult.php:57-70 | a binding with none of literal, uri and bnode adds no key, wherever it stands |
| `SesameResult.RowKeys` | src/SesameResult.php:56-68 | a row's keys are exactly the names bound to a value plus their `_type` keys |
| `SesameResult.RowTypeValues` | src/SesameResult.php:56-68 | every `_type` entry holds `literal`, `uri` or `bnode`, unless some binding is itself named with that key |
| `SesameResult.RowOfNoClash` | src/SesameResult.php:53-73 | when no two keys collide, each binding with a value reads back from its row with its kind |
| `SesameResult.TwoVariableExample` | src/SesameResult.php:50-80 | a literal `a` and a uri `b` in one result give `{a: 1, a_type: literal, b: http://x, b_type: uri}` |

## Left out

- Sending requests (Kdyby\Curl `get`/`post`/`put`/`delete`) is not modelled: each operation returns the
  request it would send. For the same reason the wrapping of `Curl\BadStatusException` into
  `BadStatus(code)` is not modelled. `BadStatus` is kept in the error kinds only.
- Response handling is not modelled: building a `SesameResult` from the body, the `(string)` conversion in
  `getNamespace`, and the `(int)` conversion of the body in `size`. These conversions are PHP runtime
  coercions of a reply that the model never receives.
- The file system is an input, `FileSystem`. `file_exists` is membership of the path. `is_readable` is a
  flag. `file_get_contents` returns opaque contents. URL paths are not told apart from local paths.
- The form encoding of the query fields is not modelled. `infer` stays a boolean in `QueryForm`.
- XML parsing by `SimpleXMLElement` is not modelled, including the parse error of malformed input.
  `SesameResult` starts from a parsed `Document`. In a `Binding`, a child counts as present when
  SimpleXML treats it as true. An empty child element without attributes counts as absent, and the model
  states this as the `Option` flag, not as a rule about object truthiness.
- A row is a Dafny `map`, so the insertion order of a PHP array's keys is not modelled. PHP's conversion of
  integer-like keys such as `"1"` to integers is not modelled either. Lookups by key are unaffected.
- A binding with several `literal` (or `uri`, `bnode`) children is not modelled: the model keeps one value
  per child kind.
- Arguments of non-string PHP types (integers, booleans, arrays) are not modelled. For string arguments,
  PHP's loose comparisons in `in_array`, `!=` and `==` behave as exact comparison. That holds here because
  none of the compared constants is a numeric string.
- `MissingDsnException` is not thrown anywhere in the client, so it has no error kind. The split of the
  exceptions into runtime and logic errors is not kept.
- src/stekycz/NetteSesame/DI/SesameExtension.php is not part of this model. It is framework registration
  glue.
