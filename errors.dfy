/**
 * The generator's error chain: a list of errors, oldest first, that
 * `Wrapf` extends in place and whose text lists the messages newest first,
 * one per line. Message formatting (`fmt.Errorf`) is left to the caller:
 * each error is given by its finished message.
 */
module ErrorChains {
  import opened Strs

  /** An `error` value: a chain, or any other error given by its message. */
  datatype Error = Plain(message: string) | Chained(chain: ErrorChain)

  /** The messages newest first, each followed by a newline. */
  function NewestFirst(errs: seq<string>): string
  {
    if |errs| == 0 then ""
    else errs[|errs| - 1] + "\n" + NewestFirst(errs[..|errs| - 1])
  }

  class ErrorChain {
    /** The messages of the wrapped errors, oldest first. */
    var errors: seq<string>

    constructor (errors: seq<string>)
      ensures this.errors == errors
    {
      this.errors := errors;
    }

    /** `Error`: walks the list backwards, writing each message and a newline. */
    method Error() returns (s: string)
      ensures s == NewestFirst(errors)
    {
      s := "";
      var i := |errors|;
      assert errors[..i] == errors;
      while i > 0
        invariant 0 <= i <= |errors|
        invariant s + NewestFirst(errors[..i]) == NewestFirst(errors)
      {
        assert errors[..i][..i - 1] == errors[..i - 1];
        s := s + errors[i - 1] + "\n";
        i := i - 1;
      }
    }
  }

  /** `Errorf`: a new chain holding the one error. */
  method Errorf(message: string) returns (e: ErrorChain)
    ensures fresh(e) && e.errors == [message]
  {
    e := new ErrorChain([message]);
  }

  /**
   * `Wrapf`: a chain gets the new error appended in place and is returned
   * itself; any other error starts a new chain of itself and the new one.
   */
  method Wrapf(err: Error, message: string) returns (e: ErrorChain)
    modifies if err.Chained? then {err.chain} else {}
    ensures err.Chained? ==> e == err.chain && e.errors == old(err.chain.errors) + [message]
    ensures err.Plain? ==> fresh(e) && e.errors == [err.message, message]
  {
    if err.Chained? {
      e := err.chain;
    } else {
      e := new ErrorChain([err.message]);
    }
    e.errors := e.errors + [message];
  }

  /** The text of a chain leads with its newest message. */
  lemma WrappedLeads(errs: seq<string>, message: string)
    ensures NewestFirst(errs + [message]) == message + "\n" + NewestFirst(errs)
  {
    assert (errs + [message])[..|errs|] == errs;
  }

  /** With single-line messages, the text has exactly one line per error. */
  lemma {:induction false} OneLinePerError(errs: seq<string>)
    requires forall i :: 0 <= i < |errs| ==> '\n' !in errs[i]
    ensures Count(NewestFirst(errs), '\n') == |errs|
  {
    if |errs| > 0 {
      var last := errs[|errs| - 1];
      OneLinePerError(errs[..|errs| - 1]);
      CountAppend(last, "\n", '\n');
      CountAppend(last + "\n", NewestFirst(errs[..|errs| - 1]), '\n');
    }
  }
}
