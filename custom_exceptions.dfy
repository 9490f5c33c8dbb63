/**
 * The exceptions the bot raises: its own `APIError` and `BotError`
 * (custom_exeptions.py) and the built-in `KeyError`, `TypeError` and
 * `ValueError` it raises with a message of its own.
 */
module CustomExceptions {

  datatype Error =
    | APIError(message: string)
    | BotError(message: string)
    | KeyError(message: string)
    | TypeError(message: string)
    | ValueError(message: string)
}
