/** The calls one request makes on the things it shares with others, in order. */
module World {
  import opened Token
  import opened Chain

  datatype Event =
    | Appended(cn: string, op: string, keyLabel: string, outcome: Outcome, detail: string, ok: bool)
    | Called(cmd: Cmd, ans: Answer)

  /** Every audit append and every HSM command, each recorded by the object that performs it. */
  class History {
    ghost var events: seq<Event>

    constructor ()
      ensures events == []
    {
      events := [];
    }
  }
}
