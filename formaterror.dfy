/** Shaping of a GraphQL error for the client. The execution mode is a parameter: the server
    reads it from its environment. Extension values are modelled as JavaScript values with
    their truthiness. */
module FormatError {
  import opened Wrappers

  datatype Value = Str(s: string) | Num(n: int) | Bool(b: bool) | Null | Undefined | Composite

  /** JavaScript truthiness: empty strings, zero, false, null and undefined are falsy;
      objects and arrays are truthy. */
  predicate Truthy(v: Value) {
    match v
    case Str(s) => s != ""
    case Num(n) => n != 0
    case Bool(b) => b
    case Null => false
    case Undefined => false
    case Composite => true
  }

  const InternalServerErrorCode := "INTERNAL_SERVER_ERROR"
  const MaskedMessage := "Ocurri\U{f3} un error interno en el servidor"

  /** The codes the server's own error classes carry. */
  const InvalidArgumentCode := "INVALID_ARGUMENT"
  const NotFoundCode := "NOT_FOUND"
  const UnauthorizedCode := "UNAUTHORIZED"
  const InternalErrorCode := "INTERNAL_ERROR"

  datatype Location = Location(line: nat, column: nat)
  datatype PathSegment = Field(name: string) | Index(index: nat)

  datatype GraphQLError = GraphQLError(
    message: string,
    locations: Option<seq<Location>>,
    path: Option<seq<PathSegment>>,
    extensions: map<string, Value>)

  datatype FormattedError = FormattedError(
    message: string,
    locations: Option<seq<Location>>,
    path: Option<seq<PathSegment>>,
    extensions: map<string, Value>)

  /** `extensions.code`, undefined when absent. */
  function Code(extensions: map<string, Value>): Value {
    if "code" in extensions then extensions["code"] else Undefined
  }

  /** The message is replaced by the generic one exactly when running in production and the
      code is the string INTERNAL_SERVER_ERROR. Locations and path pass through; every
      extension is copied and `code` is set to the incoming code when truthy, else to
      INTERNAL_SERVER_ERROR. */
  function FormatGraphQLError(error: GraphQLError, isProduction: bool): (f: FormattedError)
    ensures f.message == if isProduction && Code(error.extensions) == Str(InternalServerErrorCode)
                         then MaskedMessage else error.message
    ensures f.locations == error.locations && f.path == error.path
    ensures f.extensions.Keys == error.extensions.Keys + {"code"}
    ensures forall k :: k in error.extensions && k != "code" ==> f.extensions[k] == error.extensions[k]
    ensures Truthy(Code(error.extensions)) ==> Code(f.extensions) == Code(error.extensions)
    ensures !Truthy(Code(error.extensions)) ==> Code(f.extensions) == Str(InternalServerErrorCode)
  {
    var code := Code(error.extensions);
    var message := if isProduction && code == Str(InternalServerErrorCode) then MaskedMessage else error.message;
    FormattedError(message, error.locations, error.path,
                   error.extensions["code" := if Truthy(code) then code else Str(InternalServerErrorCode)])
  }

  /** The formatted error seen again as an error. */
  function AsError(f: FormattedError): GraphQLError {
    GraphQLError(f.message, f.locations, f.path, f.extensions)
  }

  /** Every formatted error carries a truthy code. */
  lemma CodeAlwaysSet(error: GraphQLError, isProduction: bool)
    ensures Truthy(Code(FormatGraphQLError(error, isProduction).extensions))
  {
  }

  /** Outside production the message is never changed. */
  lemma DevelopmentKeepsMessage(error: GraphQLError)
    ensures FormatGraphQLError(error, false).message == error.message
  {
  }

  /** The server's own error codes, INTERNAL_ERROR among them, are never masked and are kept. */
  lemma OwnCodesNotMasked(error: GraphQLError, isProduction: bool)
    requires Code(error.extensions) in {Str(InvalidArgumentCode), Str(NotFoundCode), Str(UnauthorizedCode), Str(InternalErrorCode)}
    ensures FormatGraphQLError(error, isProduction).message == error.message
    ensures Code(FormatGraphQLError(error, isProduction).extensions) == Code(error.extensions)
  {
  }

  /** An error without a code is reported as INTERNAL_SERVER_ERROR with its message kept, even
      in production: the default is applied after the masking decision. Formatting the result
      once more would mask it. */
  lemma MissingCodeUnmasked(error: GraphQLError)
    requires "code" !in error.extensions
    ensures var f := FormatGraphQLError(error, true);
            && f.message == error.message
            && Code(f.extensions) == Str(InternalServerErrorCode)
            && FormatGraphQLError(AsError(f), true).message == MaskedMessage
  {
  }

  /** Formatting is idempotent whenever the incoming code is already truthy. */
  lemma FormatIdempotent(error: GraphQLError, isProduction: bool)
    requires Truthy(Code(error.extensions))
    ensures var f := FormatGraphQLError(error, isProduction);
            FormatGraphQLError(AsError(f), isProduction) == f
  {
    var f := FormatGraphQLError(error, isProduction);
    assert Code(f.extensions) == Code(error.extensions);
    assert f.extensions["code" := Code(f.extensions)] == f.extensions;
  }
}
