/** A chat command split into space-separated tokens, with a cursor over them.

    `CommandBuffer` is a Go value type: it is copied into the command queue and into each
    handler. The cursor operations are therefore functions that return the value read
    together with the advanced copy of the buffer. */
module Commands {

  import opened Bits
  import opened Text
  import opened GatewayModel

  datatype CommandBuffer = CommandBuffer(message: Message, index: int, parts: seq<string>)

  /** `NewCommandBuffer`: the content after its first character (the command prefix), split
      on single spaces, with the cursor at the first token. The content must be non-empty;
      the only caller checks this. */
  function NewCommandBuffer(message: Message): (buf: CommandBuffer)
    requires |message.content| > 0
    ensures buf.message == message && buf.index == 0
    ensures |buf.parts| >= 1
    ensures forall i :: 0 <= i < |buf.parts| ==> ' ' !in buf.parts[i]
    ensures Join(buf.parts, ' ') == message.content[1..]
  {
    JoinSplit(message.content[1..], ' ');
    CommandBuffer(message, 0, Split(message.content[1..], ' '))
  }

  /** `GetInt`: the current token as an integer (0 when it is not one, since the error is
      dropped), and the cursor one further on. */
  function GetInt(buf: CommandBuffer): (r: (int, CommandBuffer))
    requires 0 <= buf.index < |buf.parts|
    ensures r.1 == buf.(index := buf.index + 1)
    ensures INT64_MIN <= r.0 <= INT64_MAX
  {
    var (value, _) := Atoi(buf.parts[buf.index]);
    AtoiBounds(buf.parts[buf.index]);
    (value, buf.(index := buf.index + 1))
  }

  /** `GetString`: the current token, and the cursor one further on. */
  function GetString(buf: CommandBuffer): (r: (string, CommandBuffer))
    requires 0 <= buf.index < |buf.parts|
    ensures r.1 == buf.(index := buf.index + 1)
    ensures r.0 == buf.parts[buf.index]
  {
    (buf.parts[buf.index], buf.(index := buf.index + 1))
  }

  /** `GetStringAll`: the tokens from the cursor on, joined with single spaces; the cursor
      does not move (the buffer is passed by value). */
  function GetStringAll(buf: CommandBuffer): (s: string)
    requires 0 <= buf.index <= |buf.parts|
    ensures buf.index == |buf.parts| ==> s == ""
  {
    Join(buf.parts[buf.index..], ' ')
  }

  /** At the start, `GetStringAll` gives back the whole content after the prefix: the
      split and the join undo each other. */
  lemma GetStringAllAtStart(message: Message)
    requires |message.content| > 0
    ensures GetStringAll(NewCommandBuffer(message)) == message.content[1..]
  {
    var buf := NewCommandBuffer(message);
    assert buf.parts[0..] == buf.parts;
  }

  /** Taking one token with `GetString` and then the rest with `GetStringAll` gives back what
      `GetStringAll` would have returned before: the token, a space, the rest. */
  lemma {:induction false} GetStringThenRest(buf: CommandBuffer)
    requires 0 <= buf.index < |buf.parts|
    ensures var (token, next) := GetString(buf);
            GetStringAll(buf) == if next.index == |buf.parts| then token else token + " " + GetStringAll(next)
  {
    var rest := buf.parts[buf.index..];
    assert rest[0] == buf.parts[buf.index];
    assert rest[1..] == buf.parts[buf.index + 1..];
  }

  /** A token written by `Itoa` reads back as the same number. */
  lemma GetIntOfItoa(buf: CommandBuffer, n: int)
    requires 0 <= buf.index < |buf.parts|
    requires INT64_MIN <= n <= INT64_MAX && buf.parts[buf.index] == Itoa(n)
    ensures GetInt(buf).0 == n
  {
    AtoiItoa(n);
  }

  /** A short token that is not a signed decimal reads as 0. (A longer one can read as an
      int64 bound instead: `strconv` reports the overflow of a long digit run before it
      reaches a later non-digit.) */
  lemma GetIntNonInteger(buf: CommandBuffer)
    requires 0 <= buf.index < |buf.parts|
    requires |buf.parts[buf.index]| <= 20 && !IsInteger(buf.parts[buf.index])
    ensures GetInt(buf).0 == 0
  {
    AtoiNonInteger(buf.parts[buf.index]);
  }
}
