/**
 * What a `BufferedReader` delivers: the lines that `readLine()` returned,
 * one by one, and how reading stopped.
 */
module LineInput {

  /** `readLine()` returned null (a clean close), or it threw an
      `IOException` whose message is given. */
  datatype StreamEnd = Closed | Failed(message: string)

  datatype LineStream = LineStream(lines: seq<string>, end: StreamEnd)
}
