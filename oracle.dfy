/**
 * Interpretation of the disambiguation oracle's reply (main.py, lines 87-93).
 * The reply text is abstracted as the result of Python's `int()`: None when
 * the text is not an integer (where `int()` raises).
 */
module Oracle {

  import opened Wrappers

  /** The reply value that means "no candidate is a confident match". */
  const NO_MATCH: int := -1

  datatype Decision =
    | Decline              // reply -1: the image goes to not found/
    | Choose(index: nat)   // a valid index into the results
    | Invalid              // the code raises before anything is added or moved

  /**
   * The reply as main.py handles it, Python indexing included: -1 declines,
   * any other integer indexes `results`, where -n..-2 wrap around to the end.
   */
  function DecideAsWritten(reply: Option<int>, n: nat): (d: Decision)
  {
    match reply
    case None => Invalid
    case Some(i) =>
      if i == NO_MATCH then Decline
      else if 0 <= i < n then Choose(i)
      else if 0 <= i + n && i < 0 then Choose(i + n)
      else Invalid
  }

  /**
   * The reply as the oracle protocol means it: -1 declines, 0..n-1 selects,
   * and every other reply (non-numeric, too large, or below -1) is invalid.
   */
  function Decide(reply: Option<int>, n: nat): (d: Decision)
    ensures d == Decline <==> reply == Some(NO_MATCH)
    ensures d.Choose? <==> reply.Some? && 0 <= reply.value < n
    ensures d.Choose? ==> d.index == reply.value && d.index < n
    ensures d == Invalid <==> reply.None? || reply.value < NO_MATCH || reply.value >= n
  {
    match reply
    case None => Invalid
    case Some(i) =>
      if i == NO_MATCH then Decline
      else if 0 <= i < n then Choose(i)
      else Invalid
  }

  /** The two readings differ exactly on the replies that Python wraps around. */
  lemma {:induction false} AsWrittenDiffers(reply: Option<int>, n: nat)
    ensures DecideAsWritten(reply, n) != Decide(reply, n)
        <==> reply.Some? && 0 <= reply.value + n && reply.value < NO_MATCH
    ensures reply.Some? && 0 <= reply.value + n && reply.value < NO_MATCH
        ==> DecideAsWritten(reply, n) == Choose(reply.value + n) && Decide(reply, n) == Invalid
  {
  }

  /** With five results, a reply of -2 selects the fourth result as written. */
  lemma WrapAroundExample()
    ensures DecideAsWritten(Some(-2), 5) == Choose(3)
    ensures Decide(Some(-2), 5) == Invalid
  {
  }
}
