/** Scalar cell values, the error outcomes of the analysis pipeline, and
    the Option/Result wrappers used to model Python's None and exceptions. */
module Values {

  /** An opaque cell value: a roi identifier, a metric, a metadata value or
      an entry of a lookup vector. Only integers matter to the model (they
      are the codes resolved against lookup vectors); the rest is carried
      along unchanged. */
  datatype Value = Null | Bool(b: bool) | Int(i: int) | Real(r: real) | Str(s: string)

  datatype Option<T> = None | Some(value: T)

  /** The exceptions the orchestrator can raise or let through. */
  datatype Error =
    | MissingColumn(column: string)      // KeyError from peak[column]
    | BadCode(code: Value)               // IndexError from lookup[code]
    | RoiLengthMismatch                  // "ROI lists are of different length"
    | RoiEntryMismatch                   // "ROI lists have different entries"
    | UnknownSession(session: string)    // IndexError("Unknown session: ...")

  datatype Result<T> = Ok(value: T) | Err(error: Error)

  /** No element occurs twice. */
  predicate Distinct<T(==)>(s: seq<T>) {
    forall i, j :: 0 <= i < j < |s| ==> s[i] != s[j]
  }
}
