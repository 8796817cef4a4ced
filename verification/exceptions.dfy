/** The exception kinds the bot's decision core can raise. The built-in Python
    exceptions carry the distinction the bot's own messages make (which value
    was not a dict or a list, which field was missing); the two custom
    exceptions mirror `exceptions.py`. */
module Exceptions {

  /** Why a `TypeError` was raised. */
  datatype TypeReason =
    | NotADict     // the API answer is not a dict
    | NotAList     // the value under `homeworks` is not a list
    | Unhashable   // a list or dict was used as a key of the verdict table

  datatype PyError =
    | TypeError(reason: TypeReason)
      /** A `KeyError` naming the key whose value was absent or null. */
    | KeyError(key: string)
      /** The status is not one of the table's codes, or the API's body is
          not JSON (`response.json()` raises a `ValueError` subclass). */
    | ValueError
      /** `.get` was called on something that is not a dict. */
    | AttributeError
      /** The API answered with a status other than 200. */
    | ConnectionError
      /** The request itself failed (`ApiAnswerError`). */
    | ApiAnswerError
      /** The chat transport failed; the message is kept (`SendMessageError`). */
    | SendMessageError(message: string)
}
