/** Option and Result, used for the values main.py may lack and the exceptions it may raise. */
module Base {

  datatype Option<+T> = None | Some(value: T)

  datatype Result<+T, +E> = Ok(value: T) | Err(error: E)

  /** Dropping a common prefix: the text after a fixed prefix determines the whole. */
  lemma PrefixCancel(pre: string, a: string, b: string)
    requires pre + a == pre + b
    ensures a == b
  {
    assert a == (pre + a)[|pre|..];
    assert b == (pre + b)[|pre|..];
  }
}
