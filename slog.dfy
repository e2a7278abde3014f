/** The parts of the structured logging library (`log/slog`, `tint`) that the supervisor chooses between. */
module Slog {

  datatype Level = LevelDebug | LevelInfo | LevelWarn | LevelError

  /** The three output handlers: JSON, coloured text (`tint`), plain text. */
  datatype Handler = JsonHandler | TintHandler | TextHandler

  /** A logger: the process default, or one built with a level, a handler and bound attributes. */
  datatype Logger = DefaultLogger | Configured(level: Level, handler: Handler, attrs: seq<(string, string)>)
}
