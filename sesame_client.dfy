/**
 * The Sesame HTTP client as request planning. Every public operation of the
 * client validates its arguments in a fixed order and then issues one HTTP
 * request; here the request is returned instead of sent, so each operation
 * yields either the error kind it would throw or the planned request
 * (method, URL, headers, body).
 */
module SesameClient {
  import opened Wrappers
  import opened Php
  import opened Exceptions

  // ---------------------------------------------------------------------
  // Constants of the client

  const DefaultDsn: PhpString := "http://localhost:8080/openrdf-sesame"

  const LanguageSparql: PhpString := "sparql"
  const LanguageSerql: PhpString := "serql"

  const OutputMimeSparqlXml: PhpString := "application/sparql-results+xml"
  // Known to the protocol but rejected by the client: no result reader handles them.
  const OutputMimeSparqlJson: PhpString := "application/sparql-results+json"
  const OutputMimeBinaryTable: PhpString := "application/x-binary-rdf-results-table"
  const OutputMimeBoolean: PhpString := "text/boolean"

  const InputMimeRdfXml: PhpString := "application/rdf+xml"
  const InputMimeNTriples: PhpString := "text/plain"
  const InputMimeTurtle: PhpString := "application/x-turtle"
  const InputMimeN3: PhpString := "text/rdf+n3"
  const InputMimeTrix: PhpString := "application/trix"
  const InputMimeTrig: PhpString := "application/x-trig"

  const ValidInputFormats: seq<PhpString> :=
    [InputMimeRdfXml, InputMimeNTriples, InputMimeTurtle, InputMimeN3, InputMimeTrix, InputMimeTrig]

  /** The context value the server reads as "no context"; it is sent unescaped. */
  const NullContext: PhpString := "null"

  const TextPlain: PhpString := "text/plain"

  // ---------------------------------------------------------------------
  // Planned requests

  datatype Verb = Get | Post | Put | Delete

  datatype Body =
    | NoBody
    | Raw(data: PhpString)
    /** The form fields of a query; the form encoding of `infer` is not modelled. */
    | QueryForm(query: PhpString, queryLn: PhpString, infer: bool)

  datatype Request = Request(verb: Verb, url: PhpString, headers: map<PhpString, PhpString>, body: Body)

  /** The file system as seen by getFile: which paths exist, which are readable, what they hold. */
  datatype FileEntry = FileEntry(readable: bool, contents: PhpString)
  datatype FileSystem = FileSystem(files: map<PhpString, FileEntry>)

  // ---------------------------------------------------------------------
  // Validation helpers

  /** checkRepository: a repository must be selected, and PHP `empty()` decides. */
  function CheckRepository(repository: Option<PhpString>): (r: Outcome<Error>)
    ensures r.Pass? <==> repository.Some? && repository.value != "" && repository.value != "0"
    ensures r.Fail? ==> r.error == NotSelectedRepository
  {
    // The second test of the source, a loose comparison with '', is already covered by empty().
    if Empty(repository) || AsString(repository) == "" then Fail(NotSelectedRepository) else Pass
  }

  /** checkQueryLang: only SPARQL and SeRQL. */
  function CheckQueryLang(queryLang: PhpString): (r: Outcome<Error>)
    ensures r.Pass? <==> queryLang == "sparql" || queryLang == "serql"
    ensures r.Fail? ==> r.error == UnsupportedQueryLanguage
  {
    if queryLang !in [LanguageSparql, LanguageSerql] then Fail(UnsupportedQueryLanguage) else Pass
  }

  /** checkResultFormat: SPARQL XML is the only result format with a reader. */
  function CheckResultFormat(format: PhpString): (r: Outcome<Error>)
    ensures r.Pass? <==> format == "application/sparql-results+xml"
    ensures r.Fail? ==> r.error == UnsupportedResultFormat
  {
    if format != OutputMimeSparqlXml then Fail(UnsupportedResultFormat) else Pass
  }

  /** checkInputFormat: one of the six RDF serialisations the server accepts. */
  function CheckInputFormat(format: PhpString): (r: Outcome<Error>)
    ensures r.Pass? <==>
      format == "application/rdf+xml" || format == "text/plain" || format == "application/x-turtle" ||
      format == "text/rdf+n3" || format == "application/trix" || format == "application/x-trig"
    ensures r.Fail? ==> r.error == UnsupportedInputFormat
  {
    if format !in ValidInputFormats then Fail(UnsupportedInputFormat) else Pass
  }

  /** The prefix test of the namespace operations. */
  function CheckPrefix(prefix: Option<PhpString>): (r: Outcome<Error>)
    ensures r.Pass? <==> prefix.Some? && prefix.value != "" && prefix.value != "0"
    ensures r.Fail? ==> r.error == PrefixNotSpecified
  {
    if Empty(prefix) then Fail(PrefixNotSpecified) else Pass
  }

  /** The namespace test of setNamespace. */
  function CheckNamespace(namespace: Option<PhpString>): (r: Outcome<Error>)
    ensures r.Pass? <==> namespace.Some? && namespace.value != "" && namespace.value != "0"
    ensures r.Fail? ==> r.error == NamespaceNotSpecified
  {
    if Empty(namespace) then Fail(NamespaceNotSpecified) else Pass
  }

  /** A context is bracketed when it starts with '<' and ends with '>'. */
  predicate IsBracketed(s: PhpString) {
    |s| >= 1 && s[0] == '<' && s[|s| - 1] == '>'
  }

  /** The context as a URI in angle brackets, added only where they are missing. */
  function Bracketed(context: PhpString): (r: PhpString)
    ensures IsBracketed(r)
    ensures IsBracketed(context) ==> r == context
    ensures !IsBracketed(context) ==> |r| == |context| + 2 && r[1..|r| - 1] == context
  {
    if !IsBracketed(context) then "<" + context + ">" else context
  }

  /** checkContext: "null" passes through; anything else is bracketed, then urlencoded. */
  function CheckContext(context: PhpString): (r: PhpString)
    ensures context == NullContext ==> r == NullContext
    ensures context != NullContext ==> UrlDecode(r) == Bracketed(context)
  {
    if context != NullContext then
      var bracketed := Bracketed(context);
      UrlRoundTrip(bracketed);
      UrlEncode(bracketed)
    else context
  }

  /** getFile: the path must be given, exist and be readable, tested in that order. */
  function GetFile(filePath: Option<PhpString>, fs: FileSystem): (r: Result<PhpString, Error>)
    ensures r.Success? <==>
      !Empty(filePath) && filePath.value in fs.files && fs.files[filePath.value].readable
    ensures r.Success? ==> r.value == fs.files[filePath.value].contents
    ensures Empty(filePath) ==> r == Failure(FileNotSpecified)
    ensures !Empty(filePath) && filePath.value !in fs.files ==> r == Failure(FileNotFound)
    ensures !Empty(filePath) && filePath.value in fs.files && !fs.files[filePath.value].readable ==>
      r == Failure(FileNotReadable)
    ensures r.Failure? ==> r.error in {FileNotSpecified, FileNotFound, FileNotReadable}
  {
    if Empty(filePath) || AsString(filePath) == "" then Failure(FileNotSpecified)
    else if filePath.value !in fs.files then Failure(FileNotFound)
    else if !fs.files[filePath.value].readable then Failure(FileNotReadable)
    else Success(fs.files[filePath.value].contents)
  }

  // ---------------------------------------------------------------------
  // Validation order and request layout

  /** One validation step of an operation: a failing check throws, otherwise the operation goes on. */
  function Then(check: Outcome<Error>, rest: Result<Request, Error>): (r: Result<Request, Error>)
    ensures check.Fail? ==> r == Failure(check.error)
    ensures check.Pass? ==> r == rest
  {
    if check.Fail? then Failure(check.error) else rest
  }

  /** The URL of the selected repository; a NULL repository concatenates as "". */
  function RepositoryUrl(dsn: PhpString, repository: Option<PhpString>): PhpString {
    dsn + "/repositories/" + AsString(repository)
  }

  /** The statements endpoint of append and overwrite, with the normalised context in its query string. */
  function StatementsUrl(dsn: PhpString, repository: Option<PhpString>, context: PhpString): PhpString {
    RepositoryUrl(dsn, repository) + "/statements?context=" + CheckContext(context)
  }

  // ---------------------------------------------------------------------
  // The operations as plans

  function ListRepositoriesPlan(dsn: PhpString): (r: Request)
    ensures r.verb == Get && r.url == dsn + "/repositories" && r.body == NoBody
    ensures r.headers == map["Accept" := "application/sparql-results+xml"]
  {
    Request(Get, dsn + "/repositories", map["Accept" := OutputMimeSparqlXml], NoBody)
  }

  function QueryPlan(dsn: PhpString, repository: Option<PhpString>, query: PhpString,
                     resultFormat: PhpString, queryLang: PhpString, infer: bool): (r: Result<Request, Error>)
    ensures Empty(repository) ==> r == Failure(NotSelectedRepository)
    ensures !Empty(repository) && CheckQueryLang(queryLang).Fail? ==> r == Failure(UnsupportedQueryLanguage)
    ensures !Empty(repository) && CheckQueryLang(queryLang).Pass? && resultFormat != OutputMimeSparqlXml ==>
            r == Failure(UnsupportedResultFormat)
    ensures r.Success? <==>
      !Empty(repository) && (queryLang == "sparql" || queryLang == "serql") &&
      resultFormat == "application/sparql-results+xml"
    ensures r.Failure? ==> r.error in {NotSelectedRepository, UnsupportedQueryLanguage, UnsupportedResultFormat}
    ensures r.Success? ==> r.value == Request(Post, dsn + "/repositories/" + repository.value,
                                              map["Accept" := "application/sparql-results+xml"],
                                              QueryForm(query, queryLang, infer))
  {
    Then(CheckRepository(repository),
    Then(CheckQueryLang(queryLang),
    Then(CheckResultFormat(resultFormat),
         Success(Request(Post, RepositoryUrl(dsn, repository), map["Accept" := OutputMimeSparqlXml],
                         QueryForm(query, queryLang, infer))))))
  }

  /** append (verb Post) and overwrite (verb Put) share everything but the verb. */
  function StatementsPlan(verb: Verb, dsn: PhpString, repository: Option<PhpString>, data: PhpString,
                          context: PhpString, inputFormat: PhpString): (r: Result<Request, Error>)
    ensures Empty(repository) ==> r == Failure(NotSelectedRepository)
    ensures !Empty(repository) && CheckInputFormat(inputFormat).Fail? ==> r == Failure(UnsupportedInputFormat)
    ensures r.Success? <==> !Empty(repository) && CheckInputFormat(inputFormat).Pass?
    ensures r.Failure? ==> r.error in {NotSelectedRepository, UnsupportedInputFormat}
    ensures r.Success? ==> r.value == Request(verb, StatementsUrl(dsn, repository, context),
                                              map["Content-type" := inputFormat], Raw(data))
  {
    Then(CheckRepository(repository),
    Then(CheckInputFormat(inputFormat),
         Success(Request(verb, StatementsUrl(dsn, repository, context), map["Content-type" := inputFormat], Raw(data)))))
  }

  /** appendFile / overwriteFile: the file is read first, then the data goes to append / overwrite. */
  function FilePlan(verb: Verb, dsn: PhpString, repository: Option<PhpString>, fs: FileSystem,
                    filePath: Option<PhpString>, context: PhpString, inputFormat: PhpString): (r: Result<Request, Error>)
    ensures Empty(filePath) ==> r == Failure(FileNotSpecified)
    ensures GetFile(filePath, fs).Failure? ==> r == Failure(GetFile(filePath, fs).error)
    ensures GetFile(filePath, fs).Success? ==>
      r == StatementsPlan(verb, dsn, repository, fs.files[filePath.value].contents, context, inputFormat)
  {
    match GetFile(filePath, fs)
    case Failure(e) => Failure(e)
    case Success(data) => StatementsPlan(verb, dsn, repository, data, context, inputFormat)
  }

  function GetNamespacePlan(dsn: PhpString, repository: Option<PhpString>, prefix: Option<PhpString>): (r: Result<Request, Error>)
    ensures Empty(repository) ==> r == Failure(NotSelectedRepository)
    ensures !Empty(repository) && Empty(prefix) ==> r == Failure(PrefixNotSpecified)
    ensures r.Success? <==> !Empty(repository) && !Empty(prefix)
    ensures r.Success? ==> r.value == Request(Get, dsn + "/repositories/" + repository.value + "/namespaces/" + prefix.value,
                                              map["Accept" := "text/plain"], NoBody)
  {
    Then(CheckRepository(repository),
    Then(CheckPrefix(prefix),
         Success(Request(Get, RepositoryUrl(dsn, repository) + "/namespaces/" + AsString(prefix),
                         map["Accept" := TextPlain], NoBody))))
  }

  function SetNamespacePlan(dsn: PhpString, repository: Option<PhpString>, prefix: Option<PhpString>,
                            namespace: Option<PhpString>): (r: Result<Request, Error>)
    ensures Empty(repository) ==> r == Failure(NotSelectedRepository)
    ensures !Empty(repository) && Empty(prefix) ==> r == Failure(PrefixNotSpecified)
    ensures !Empty(repository) && !Empty(prefix) && Empty(namespace) ==> r == Failure(NamespaceNotSpecified)
    ensures r.Success? <==> !Empty(repository) && !Empty(prefix) && !Empty(namespace)
    ensures r.Success? ==> r.value == Request(Put, dsn + "/repositories/" + repository.value + "/namespaces/" + prefix.value,
                                              map["Content-type" := "text/plain"], Raw(namespace.value))
  {
    Then(CheckRepository(repository),
    Then(CheckPrefix(prefix),
    Then(CheckNamespace(namespace),
         Success(Request(Put, RepositoryUrl(dsn, repository) + "/namespaces/" + AsString(prefix),
                         map["Content-type" := TextPlain], Raw(AsString(namespace)))))))
  }

  function DeleteNamespacePlan(dsn: PhpString, repository: Option<PhpString>, prefix: Option<PhpString>): (r: Result<Request, Error>)
    ensures Empty(repository) ==> r == Failure(NotSelectedRepository)
    ensures !Empty(repository) && Empty(prefix) ==> r == Failure(PrefixNotSpecified)
    ensures r.Success? <==> !Empty(repository) && !Empty(prefix)
    ensures r.Success? ==> r.value == Request(Delete, dsn + "/repositories/" + repository.value + "/namespaces/" + prefix.value,
                                              map[], NoBody)
  {
    Then(CheckRepository(repository),
    Then(CheckPrefix(prefix),
         Success(Request(Delete, RepositoryUrl(dsn, repository) + "/namespaces/" + AsString(prefix), map[], NoBody))))
  }

  function ContextsPlan(dsn: PhpString, repository: Option<PhpString>, resultFormat: PhpString): (r: Result<Request, Error>)
    ensures Empty(repository) ==> r == Failure(NotSelectedRepository)
    ensures !Empty(repository) && resultFormat != OutputMimeSparqlXml ==> r == Failure(UnsupportedResultFormat)
    ensures r.Success? <==> !Empty(repository) && resultFormat == "application/sparql-results+xml"
    ensures r.Failure? ==> r.error in {NotSelectedRepository, UnsupportedResultFormat}
    ensures r.Success? ==> r.value == Request(Post, dsn + "/repositories/" + repository.value + "/contexts",
                                              map["Accept" := "application/sparql-results+xml"], NoBody)
  {
    Then(CheckRepository(repository),
    Then(CheckResultFormat(resultFormat),
         Success(Request(Post, RepositoryUrl(dsn, repository) + "/contexts", map["Accept" := OutputMimeSparqlXml], NoBody))))
  }

  /** size puts its context into the URL as given: unlike append, it does not normalise it. */
  function SizePlan(dsn: PhpString, repository: Option<PhpString>, context: PhpString): (r: Result<Request, Error>)
    ensures r.Success? <==> !Empty(repository)
    ensures r.Failure? ==> r.error == NotSelectedRepository
    ensures r.Success? ==> r.value == Request(Post, dsn + "/repositories/" + repository.value + "/size?context=" + context,
                                              map["Accept" := "text/plain"], NoBody)
  {
    Then(CheckRepository(repository),
         Success(Request(Post, RepositoryUrl(dsn, repository) + "/size?context=" + context, map["Accept" := TextPlain], NoBody)))
  }

  function ClearPlan(dsn: PhpString, repository: Option<PhpString>): (r: Result<Request, Error>)
    ensures r.Success? <==> !Empty(repository)
    ensures r.Failure? ==> r.error == NotSelectedRepository
    ensures r.Success? ==> r.value == Request(Delete, dsn + "/repositories/" + repository.value + "/statements", map[], NoBody)
  {
    Then(CheckRepository(repository),
         Success(Request(Delete, RepositoryUrl(dsn, repository) + "/statements", map[], NoBody)))
  }

  // ---------------------------------------------------------------------
  // The client

  class SesameClient {
    var dsn: PhpString
    var repository: Option<PhpString>

    constructor(sesameUrl: PhpString := DefaultDsn, repository: Option<PhpString> := None)
      ensures dsn == sesameUrl && this.repository == repository
    {
      dsn := sesameUrl;
      this.repository := repository;
    }

    /** Selects the repository to work on; returns the client itself for chaining. */
    method SetRepository(repository: Option<PhpString>) returns (self: SesameClient)
      modifies this`repository
      ensures this.repository == repository
      ensures dsn == old(dsn)
      ensures self == this
    {
      this.repository := repository;
      self := this;
    }

    method ListRepositories() returns (r: Request)
      ensures r == ListRepositoriesPlan(dsn)
    {
      r := ListRepositoriesPlan(dsn);
    }

    method Query(query: PhpString, resultFormat: PhpString := OutputMimeSparqlXml,
                 queryLang: PhpString := LanguageSparql, infer: bool := true) returns (r: Result<Request, Error>)
      ensures r == QueryPlan(dsn, repository, query, resultFormat, queryLang, infer)
    {
      var checked := CheckRepository(repository);
      if checked.Fail? { return Failure(checked.error); }
      checked := CheckQueryLang(queryLang);
      if checked.Fail? { return Failure(checked.error); }
      checked := CheckResultFormat(resultFormat);
      if checked.Fail? { return Failure(checked.error); }
      r := Success(Request(Post, RepositoryUrl(dsn, repository), map["Accept" := OutputMimeSparqlXml],
                           QueryForm(query, queryLang, infer)));
    }

    method Append(data: PhpString, context: PhpString := NullContext,
                  inputFormat: PhpString := InputMimeRdfXml) returns (r: Result<Request, Error>)
      ensures r == StatementsPlan(Post, dsn, repository, data, context, inputFormat)
    {
      r := Statements(Post, data, context, inputFormat);
    }

    method Overwrite(data: PhpString, context: PhpString := NullContext,
                     inputFormat: PhpString := InputMimeRdfXml) returns (r: Result<Request, Error>)
      ensures r == StatementsPlan(Put, dsn, repository, data, context, inputFormat)
    {
      r := Statements(Put, data, context, inputFormat);
    }

    /** The body shared by append and overwrite. */
    method Statements(verb: Verb, data: PhpString, context: PhpString, inputFormat: PhpString)
      returns (r: Result<Request, Error>)
      ensures r == StatementsPlan(verb, dsn, repository, data, context, inputFormat)
    {
      var checked := CheckRepository(repository);
      if checked.Fail? { return Failure(checked.error); }
      var url := StatementsUrl(dsn, repository, context);
      checked := CheckInputFormat(inputFormat);
      if checked.Fail? { return Failure(checked.error); }
      r := Success(Request(verb, url,
                           map["Content-type" := inputFormat], Raw(data)));
    }

    method AppendFile(fs: FileSystem, filePath: Option<PhpString>, context: PhpString := NullContext,
                      inputFormat: PhpString := InputMimeRdfXml) returns (r: Result<Request, Error>)
      ensures r == FilePlan(Post, dsn, repository, fs, filePath, context, inputFormat)
    {
      var data := GetFile(filePath, fs);
      if data.Failure? { return Failure(data.error); }
      r := Append(data.value, context, inputFormat);
    }

    method OverwriteFile(fs: FileSystem, filePath: Option<PhpString>, context: PhpString := NullContext,
                         inputFormat: PhpString := InputMimeRdfXml) returns (r: Result<Request, Error>)
      ensures r == FilePlan(Put, dsn, repository, fs, filePath, context, inputFormat)
    {
      var data := GetFile(filePath, fs);
      if data.Failure? { return Failure(data.error); }
      r := Overwrite(data.value, context, inputFormat);
    }

    method GetNamespace(prefix: Option<PhpString>) returns (r: Result<Request, Error>)
      ensures r == GetNamespacePlan(dsn, repository, prefix)
    {
      var checked := CheckRepository(repository);
      if checked.Fail? { return Failure(checked.error); }
      if Empty(prefix) { return Failure(PrefixNotSpecified); }
      r := Success(Request(Get, RepositoryUrl(dsn, repository) + "/namespaces/" + prefix.value,
                           map["Accept" := TextPlain], NoBody));
    }

    method SetNamespace(prefix: Option<PhpString>, namespace: Option<PhpString>) returns (r: Result<Request, Error>)
      ensures r == SetNamespacePlan(dsn, repository, prefix, namespace)
    {
      var checked := CheckRepository(repository);
      if checked.Fail? { return Failure(checked.error); }
      if Empty(prefix) { return Failure(PrefixNotSpecified); }
      if Empty(namespace) { return Failure(NamespaceNotSpecified); }
      r := Success(Request(Put, RepositoryUrl(dsn, repository) + "/namespaces/" + prefix.value,
                           map["Content-type" := TextPlain], Raw(namespace.value)));
    }

    method DeleteNamespace(prefix: Option<PhpString>) returns (r: Result<Request, Error>)
      ensures r == DeleteNamespacePlan(dsn, repository, prefix)
    {
      var checked := CheckRepository(repository);
      if checked.Fail? { return Failure(checked.error); }
      if Empty(prefix) { return Failure(PrefixNotSpecified); }
      r := Success(Request(Delete, RepositoryUrl(dsn, repository) + "/namespaces/" + prefix.value,
                           map[], NoBody));
    }

    method Contexts(resultFormat: PhpString := OutputMimeSparqlXml) returns (r: Result<Request, Error>)
      ensures r == ContextsPlan(dsn, repository, resultFormat)
    {
      var checked := CheckRepository(repository);
      if checked.Fail? { return Failure(checked.error); }
      checked := CheckResultFormat(resultFormat);
      if checked.Fail? { return Failure(checked.error); }
      r := Success(Request(Post, RepositoryUrl(dsn, repository) + "/contexts",
                           map["Accept" := OutputMimeSparqlXml], NoBody));
    }

    method Size(context: PhpString := NullContext) returns (r: Result<Request, Error>)
      ensures r == SizePlan(dsn, repository, context)
    {
      var checked := CheckRepository(repository);
      if checked.Fail? { return Failure(checked.error); }
      r := Success(Request(Post, RepositoryUrl(dsn, repository) + "/size?context=" + context,
                           map["Accept" := TextPlain], NoBody));
    }

    method Clear() returns (r: Result<Request, Error>)
      ensures r == ClearPlan(dsn, repository)
    {
      var checked := CheckRepository(repository);
      if checked.Fail? { return Failure(checked.error); }
      r := Success(Request(Delete, RepositoryUrl(dsn, repository) + "/statements", map[], NoBody));
    }
  }

  // ---------------------------------------------------------------------
  // Properties of context normalisation

  /** "null" is the one context that survives unchanged, and no other context is sent as "null". */
  lemma CheckContextNullOnly(context: PhpString)
    ensures CheckContext(context) == NullContext <==> context == NullContext
  {
  }

  /** Decoding the normalised context gives back the context in exactly one pair of brackets. */
  lemma CheckContextRoundTrip(context: PhpString)
    requires context != NullContext
    ensures UrlDecode(CheckContext(context)) == Bracketed(context)
    ensures IsBracketed(context) ==> UrlDecode(CheckContext(context)) == context
    ensures !IsBracketed(context) ==> UrlDecode(CheckContext(context)) == "<" + context + ">"
  {
  }

  /** A normalised context is safe in a query string: letters, digits and "-_.+%" only. */
  lemma CheckContextCharset(context: PhpString)
    requires context != NullContext
    ensures forall i :: 0 <= i < |CheckContext(context)| ==> UrlSafe(CheckContext(context)[i])
  {
    UrlEncodeCharset(Bracketed(context));
  }

  /** Bracketing twice is bracketing once. */
  lemma BracketedIdempotent(context: PhpString)
    ensures Bracketed(Bracketed(context)) == Bracketed(context)
  {
  }

  /** The percent-encodings of the bytes that occur in the context examples below. */
  lemma PercentEncodings()
    ensures UrlEncode("<") == "%3C" && UrlEncode(">") == "%3E"
    ensures UrlEncode("/") == "%2F" && UrlEncode(":") == "%3A"
  {
  }

  /** The brackets checkContext adds reach the wire as "%3C" and "%3E" around the encoded context. */
  lemma CheckContextEncodesBrackets(context: PhpString)
    requires context != NullContext
    ensures !IsBracketed(context) ==> CheckContext(context) == "%3C" + UrlEncode(context) + "%3E"
    ensures IsBracketed(context) ==> CheckContext(context) == UrlEncode(context)
  {
    if !IsBracketed(context) {
      UrlEncodeConcat("<" + context, ">");
      UrlEncodeConcat("<", context);
      PercentEncodings();
    }
  }

  /** A bare path is bracketed, then '<', '/' and '>' are percent-encoded. */
  lemma CheckContextBarePath(path: PhpString)
    requires path == "example/ctx"
    ensures CheckContext(path) == "%3C" + "example" + "%2F" + "ctx" + "%3E"
  {
    var dir, file: PhpString := "example", "ctx";
    assert path == dir + "/" + file;
    assert UrlEncode(path) == dir + "%2F" + file by { EncodeSlashedPath(dir, file); }
    assert !IsBracketed(path) && path != NullContext;
    CheckContextEncodesBrackets(path);
  }

  /** Two unreserved segments joined by '/' are sent with the slash as "%2F". */
  lemma EncodeSlashedPath(dir: PhpString, file: PhpString)
    requires forall i :: 0 <= i < |dir| ==> Unreserved(dir[i])
    requires forall i :: 0 <= i < |file| ==> Unreserved(file[i])
    ensures UrlEncode(dir + "/" + file) == dir + "%2F" + file
  {
    UrlEncodeConcat(dir + "/", file);
    UrlEncodeConcat(dir, "/");
    UrlEncodeUnreserved(dir);
    UrlEncodeUnreserved(file);
    PercentEncodings();
  }

  /** An already-bracketed URI keeps its one pair of brackets. */
  lemma CheckContextBracketedUri(uri: PhpString)
    requires uri == "<urn:x>"
    ensures CheckContext(uri) == "%3C" + "urn" + "%3A" + "x" + "%3E"
  {
    var lt, scheme, colon, id, gt: PhpString := "<", "urn", ":", "x", ">";
    assert IsBracketed(uri) && uri == lt + scheme + colon + id + gt;
    CheckContextEncodesBrackets(uri);
    UrlEncodeConcat(lt + scheme + colon + id, gt);
    UrlEncodeConcat(lt + scheme + colon, id);
    UrlEncodeConcat(lt + scheme, colon);
    UrlEncodeConcat(lt, scheme);
    UrlEncodeUnreserved(scheme);
    UrlEncodeUnreserved(id);
    PercentEncodings();
  }

  // ---------------------------------------------------------------------
  // Properties across operations

  /** append and overwrite validate alike and plan the same URL, headers and body; only the verb differs. */
  lemma AppendOverwriteDifferOnlyInVerb(dsn: PhpString, repository: Option<PhpString>, data: PhpString,
                                        context: PhpString, inputFormat: PhpString)
    ensures StatementsPlan(Post, dsn, repository, data, context, inputFormat).Success? <==>
            StatementsPlan(Put, dsn, repository, data, context, inputFormat).Success?
    ensures StatementsPlan(Post, dsn, repository, data, context, inputFormat).Failure? ==>
            StatementsPlan(Post, dsn, repository, data, context, inputFormat) ==
            StatementsPlan(Put, dsn, repository, data, context, inputFormat)
    ensures StatementsPlan(Post, dsn, repository, data, context, inputFormat).Success? ==>
            StatementsPlan(Post, dsn, repository, data, context, inputFormat).value.verb == Post &&
            StatementsPlan(Put, dsn, repository, data, context, inputFormat).value ==
            StatementsPlan(Post, dsn, repository, data, context, inputFormat).value.(verb := Put)
  {
  }

  /** The file variants throw their file errors whatever the repository, so before its check. */
  lemma FileErrorsBeforeRepository(verb: Verb, dsn: PhpString, repository: Option<PhpString>, fs: FileSystem,
                                   filePath: Option<PhpString>, context: PhpString, inputFormat: PhpString)
    requires Empty(repository)
    ensures FilePlan(verb, dsn, repository, fs, filePath, context, inputFormat) ==
            (if GetFile(filePath, fs).Failure? then Failure(GetFile(filePath, fs).error) else Failure(NotSelectedRepository))
  {
  }
}
