/** Shared value types of the cloner model: an optional value, the Python
    exceptions the core can raise, a result carrying one of them, and the
    two generations of the target code. */
module Common {

  datatype Option<T> = None | Some(value: T)

  /** The exceptions the modelled code raises or lets escape. */
  datatype Error =
    | NotAMember          // ValueError: the chat is only a preview
    | EmptyRange          // ValueError from randint when lo > hi
    | IndexOutOfRange     // IndexError: an empty list of messages
    | AttributeMissing    // AttributeError: attribute access on a sqlite3.Row
    | NotADirectory       // NotADirectoryError: iterdir() on a file
    | IsADirectory        // IsADirectoryError: os.remove() on a sub-directory
    | NoFileDownloaded    // RuntimeError: StopIteration from next() on an empty scratch directory, raised inside a coroutine (PEP 479)
    | SendFailed          // ValueError from a send_* call that is not caught
    | OutOfFuel           // the model ran out of client answers while retrying

  datatype Result<T> = Ok(value: T) | Err(error: Error)

  /** Which generation of the target code is modelled:
      Current is utils/telegram/targets.py with utils/telegram/abstract.py,
      Earlier is the single-file utils/telegram.py. */
  datatype Variant = Current | Earlier
}
