/**
 * Reading the `<<<yum>>>` agent section, which the framework hands to a parse
 * function as a string table: one row per line, one token per whitespace-separated
 * word. Both generations of the check read it the same way.
 */
module StringTable {
  import opened Python

  type Table = seq<seq<string>>

  /** `table[row][0]`: raises IndexError when the row or its first token is missing. */
  function FirstToken(table: Table, row: nat): (r: Outcome<string>)
    ensures r.Ok? <==> row < |table| && |table[row]| > 0
    ensures r.Ok? ==> r.value == table[row][0]
    ensures r.Raised? ==> r.error == IndexError
  {
    if row < |table| && |table[row]| > 0 then Ok(table[row][0]) else Raised(IndexError)
  }

  /**
   * `int(table[row][0])`: IndexError when the token is missing, ValueError when it
   * is not a decimal integer.
   */
  function IntToken(table: Table, row: nat): (r: Outcome<int>)
    ensures r.Ok? <==> row < |table| && |table[row]| > 0 && ParseInt(table[row][0]).Some?
    ensures r.Ok? ==> Some(r.value) == ParseInt(table[row][0])
    ensures r.Raised? ==> r.error == (if row < |table| && |table[row]| > 0 then ValueError else IndexError)
  {
    var token :- FirstToken(table, row);
    if ParseInt(token).Some? then Ok(ParseInt(token).value) else Raised(ValueError)
  }

  /** The reboot flag of the first line: `yes` and `no` are read, anything else leaves it unset. */
  function RebootFlag(token: string): (r: Option<bool>)
    ensures r == Some(true) <==> token == "yes"
    ensures r == Some(false) <==> token == "no"
  {
    if token == "yes" || token == "no" then Some(token == "yes") else None
  }

  /** The line `ERROR: <message>` that the agent plugin prints when it could not run. */
  predicate IsErrorLine(table: Table) {
    |table| > 0 && |table[0]| > 0 && table[0][0] == "ERROR:"
  }

  /**
   * The message of an error line: the remaining tokens of the first line, joined by
   * single spaces. Splitting the message gives those tokens back when they are words
   * as the agent line's whitespace splitting produces them.
   */
  function ErrorMessage(table: Table): (m: string)
    requires IsErrorLine(table)
    ensures |table[0]| == 1 ==> m == ""
    ensures |table[0]| > 1 ==> table[0][1] <= m
    ensures (forall i | 1 <= i < |table[0]| :: IsWord(table[0][i])) ==> Split(m) == table[0][1..]
  {
    var words := table[0][1..];
    if forall i | 0 <= i < |words| :: IsWord(words[i]) then
      SplitJoin(words);
      Join(words)
    else
      Join(words)
  }
}
