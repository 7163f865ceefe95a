/** Small shared vocabulary: an Option for the source's nullable references and
    the engine's message log (Verse.Log), which the modelled code writes to. */
module Common {

  /** A nullable reference: `None` stands for C# `null`. */
  datatype Option<+T> = None | Some(value: T)

  /** The value of a call that either returns normally or throws an exception. */
  datatype Result<+T> = Ok(value: T) | Exception(message: string)

  /** UnityEngine's Vector2, with `real` components. */
  datatype Vec2 = Vec2(x: real, y: real)

  datatype LogLevel = Warning | Error

  datatype LogEntry = LogEntry(level: LogLevel, text: string)

  /** The engine log: the messages written so far, and the keys already used by
      `Log.ErrorOnce`, which prints a message only the first time its key is seen. */
  datatype Log = Log(entries: seq<LogEntry>, onceKeys: set<int>)
  {
    function Error(text: string): (r: Log)
      ensures r.entries == entries + [LogEntry(LogLevel.Error, text)] && r.onceKeys == onceKeys
    {
      Log(entries + [LogEntry(LogLevel.Error, text)], onceKeys)
    }

    function Warn(text: string): (r: Log)
      ensures r.entries == entries + [LogEntry(LogLevel.Warning, text)] && r.onceKeys == onceKeys
    {
      Log(entries + [LogEntry(LogLevel.Warning, text)], onceKeys)
    }

    /** Writes `text` unless `key` was used before; either way the key is used afterwards. */
    function ErrorOnce(text: string, key: int): (r: Log)
      ensures key in r.onceKeys && r.onceKeys == onceKeys + {key}
      ensures key in onceKeys ==> r.entries == entries
      ensures key !in onceKeys ==> r.entries == entries + [LogEntry(LogLevel.Error, text)]
    {
      if key in onceKeys then this
      else Log(entries + [LogEntry(LogLevel.Error, text)], onceKeys + {key})
    }
  }

  const EmptyLog := Log([], {})

  /** Mathf.CeilToInt: the least integer not below `x`. */
  function CeilToInt(x: real): (r: int)
    ensures x <= r as real < x + 1.0
  {
    -((-x).Floor)
  }

  /** Calling a `Log.ErrorOnce` key any number of times writes its message at most once. */
  lemma ErrorOnceIdempotent(l: Log, text: string, key: int)
    ensures l.ErrorOnce(text, key).ErrorOnce(text, key) == l.ErrorOnce(text, key)
  {
  }

  /** The static log object the source writes to; methods that log take it and modify it. */
  class Logger {
    var log: Log

    constructor()
      ensures log == EmptyLog
    {
      log := EmptyLog;
    }
  }
}
