/** The status label and log texts both request middlewares derive from a request and its outcome. */
module Classifier {
  import Decimal
  import opened Http

  /** Label of a normal response: the 422 branch writes "422" by hand and every other code is
      rendered with str(); the two agree, so the label is always the decimal code. */
  function ResponseStatus(code: int): (s: string)
    ensures s == Decimal.FromInt(code)
    ensures s == "422" <==> code == 422
  {
    Decimal.Is422Iff(code);
    if code == 422 then "422" else Decimal.FromInt(code)
  }

  function EntryMessage(r: Request): string {
    "Request to access " + r.verb + " " + r.path
  }

  function UnprocessableMessage(r: Request): string {
    "Unprocessable Entity: " + r.verb + " " + r.path
  }

  function SuccessMessage(r: Request): string {
    "Request to " + r.verb + " " + r.path + " successful"
  }

  function FailedMessage(r: Request, text: string): string {
    "Request to " + r.verb + " " + r.path + " failed: " + text
  }

  /** The failure record names the exception: different exception texts give different records. */
  lemma FailedMessageInjective(r: Request, t1: string, t2: string)
    ensures FailedMessage(r, t1) == FailedMessage(r, t2) <==> t1 == t2
  {
    var prefix := "Request to " + r.verb + " " + r.path + " failed: ";
    assert FailedMessage(r, t1) == prefix + t1;
    assert FailedMessage(r, t2) == prefix + t2;
    assert (prefix + t1)[|prefix|..] == t1;
    assert (prefix + t2)[|prefix|..] == t2;
  }
}
