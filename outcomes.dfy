/** Success and failure values shared by the Exodus codec and the format dispatcher. */
module Outcomes {

  datatype Option<T> = None | Some(value: T)

  /** The exceptions the modelled code raises, one constructor per cause. */
  datatype Error =
    | UnknownElementType(tag: string)        // a registry or arity-table lookup missed
    | UnsupportedDtype(dtype: string)        // no Exodus code for a numpy dtype name
    | UnknownExtension(extension: string)    // no known compound file-name suffix
    | UnknownFormat(format: string)          // a format tag that no codec accepts
    | MalformedCellBlock(cellType: string)   // a block's row width differs from the arity table
    | MissingDimension(dimension: string)
    | MissingAttribute(variable: string, attribute: string)
    | ShapeMismatch(variable: string)        // an array of the wrong shape or kind
    | NameTooLong(name: string)              // a name that does not fit the fixed string width

  datatype Result<T> = Ok(value: T) | Err(error: Error)
}
