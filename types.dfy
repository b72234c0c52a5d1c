// Shared vocabulary of the game: the per-player state machine, the match mode,
// the nullable wrapper the source expresses with `| null`, and a flap recording.
module Types {

  /** The per-player states (types.ts:8). */
  datatype GameState = Start | Ready | Playing | Paused | GameOver | LevelComplete | Victory

  /** The match mode; `StartMenu` is the source's 'start' mode (App.tsx:9). */
  datatype GameMode = StartMenu | Single | Challenge

  datatype Option<T> = None | Some(value: T)

  /** A recorded run: the level it was made on, the clock reading when it began
      (milliseconds) and the elapsed time of every recorded flap (types.ts:10-13,
      App.tsx:54). */
  datatype Recording = Recording(level: int, startTime: int, flaps: seq<int>)

  /** Which of the two player slots an event belongs to. */
  datatype Slot = P1 | P2

  function Min(a: real, b: real): real { if a <= b then a else b }

  function Max(a: real, b: real): real { if a >= b then a else b }
}
