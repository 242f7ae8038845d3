/** Option and Result types, and the failure conditions raised by the catalog services
    and resolvers. */
module Wrappers {

  datatype Option<+T> = None | Some(value: T) {
    function GetOr(default: T): T {
      match this
      case Some(v) => v
      case None => default
    }
  }

  /** Why an operation threw. Every constructor has the message the service throws. */
  datatype Error =
    | NotLoaded                                    // `data` was never assigned
    | NoSuchCollection(collection: string)         // the loaded document lacks the key
    | NotFound(collection: string, id: string)     // no item has the id
    | EmptyId                                      // the id is empty or blank
    | BadPrefix(prefix: string)                    // the id lacks the required prefix
    | UndefinedProperty(property: string)          // JavaScript TypeError: property read on undefined
    | ResolverFailed(message: string)              // fixed message thrown by a field resolver
  {
    function Message(): string {
      match this
      case NotLoaded => "Los datos no han sido cargados. Por favor, llame a initialize primero."
      case NoSuchCollection(c) => "La colecci\U{f3}n " + c + " no existe"
      case NotFound(c, id) => c + " con ID " + id + " no encontrado"
      case EmptyId => "El ID debe ser una cadena no vac\U{ed}a"
      case BadPrefix(p) => "El ID debe comenzar con '" + p + "'"
      case UndefinedProperty(p) => "Cannot read properties of undefined (reading '" + p + "')"
      case ResolverFailed(m) => m
    }
  }

  /** The outcome of an operation that may throw; usable with `:-`. */
  datatype Result<+T> = Ok(value: T) | Err(error: Error) {
    predicate IsFailure() {
      Err?
    }

    function PropagateFailure<U>(): Result<U>
      requires Err?
    {
      Err(error)
    }

    function Extract(): T
      requires Ok?
    {
      value
    }
  }
}
