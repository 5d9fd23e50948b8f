/** Outcome of an operation that can fail: `test_wordify.py` raises, and
    `go-wordify/wordify.go` exits the process. */
module Results {

  datatype Option<+T> = None | Some(value: T)

  datatype Result<+T, +E> = Ok(value: T) | Err(error: E)
}
