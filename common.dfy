/** Value types shared by the whole model: optional values, the C# `int`
    the filter keeps its lifetimes in, and the exceptions the filter raises. */
module Common {

  /** A value that may be absent; stands for a C# reference that may be null. */
  datatype Option<+T> = None | Some(value: T)

  /** A C# `int` (32-bit two's complement). */
  newtype Int32 = x: int | -0x8000_0000 <= x < 0x8000_0000

  /** One constructor per place where the filter throws. */
  datatype Failure =
    | ConfigurationMissing          // no <outputCacheSettings> section
    | ProfileNotFound(name: string) // the section has no profile of that name
    | NullContext                   // a hook was handed a null action context
    | NullAcceptHeader              // FirstOrDefault() of an empty Accept list, then ToString()
    | ContentTypeCast               // a cached string cast to a media type
    | NullResponseContent           // the executed response carries no content
    | NullContentType               // MemoryCache.Add of a null content type

  /** The outcome of an operation that returns a value or throws. */
  datatype Result<+T> = Ok(value: T) | Err(error: Failure)

  /** The outcome of an operation that returns nothing or throws. */
  datatype Outcome = Pass | Fail(error: Failure)
}
